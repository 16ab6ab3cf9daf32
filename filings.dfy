/**
 * `ensure_filings_exist` of models/risk_extraction/final.py and
 * models/risk_extraction/10K-trial_extractor.py (the two are the same code):
 * return the `full-submission.txt` files already on disk; otherwise download
 * the 10-K filings and look again, giving up after `max_attempts` downloads or
 * at the first download that raises.
 *
 * The disk and the downloader are oracles. The disk is seen through the number
 * of downloads completed so far: `listing(d)` is what `os.listdir` shows of the
 * ticker's 10-K directory after `d` downloads (`None` when it does not exist),
 * `isFile(d, path)` is `os.path.isfile`, and `downloadRaises(a)` says whether
 * the download of attempt `a` raises.
 */
module Filings {
  import opened Wrappers

  const FilingRoot: string := "sec-edgar-filings"
  const SubmissionName: string := "full-submission.txt"
  const DefaultMaxAttempts: nat := 3

  datatype Disk = Disk(
    listing: (string, nat) -> Option<seq<string>>,
    isFile: (nat, string) -> bool,
    downloadRaises: (string, nat) -> bool)

  /** `os.path.join(FILING_ROOT, ticker, "10-K")`. */
  function BaseDir(ticker: string): string {
    FilingRoot + "/" + ticker + "/10-K"
  }

  /** `os.path.join(base_dir, subdir, "full-submission.txt")`. */
  function SubmissionPath(baseDir: string, subdir: string): string {
    baseDir + "/" + subdir + "/" + SubmissionName
  }

  /** The submission paths of the listed sub-directories that are files, in listing order. */
  function Submissions(baseDir: string, subdirs: seq<string>, isFile: string -> bool): (files: seq<string>)
    decreases |subdirs|
  {
    if subdirs == [] then []
    else
      var path := SubmissionPath(baseDir, subdirs[|subdirs| - 1]);
      Submissions(baseDir, subdirs[..|subdirs| - 1], isFile) + (if isFile(path) then [path] else [])
  }

  /** A path is collected exactly when it is the submission path of a listed sub-directory and is a file. */
  lemma {:induction false} SubmissionsSpec(baseDir: string, subdirs: seq<string>, isFile: string -> bool)
    ensures var files := Submissions(baseDir, subdirs, isFile);
      |files| <= |subdirs| &&
      forall p :: p in files <==> (isFile(p) && exists s :: s in subdirs && p == SubmissionPath(baseDir, s))
    decreases |subdirs|
  {
    if subdirs != [] {
      var front := subdirs[..|subdirs| - 1];
      SubmissionsSpec(baseDir, front, isFile);
      assert subdirs == front + [subdirs[|subdirs| - 1]];
    }
  }

  /** The collecting loop: one `os.path.isfile` test per listed sub-directory. */
  method ListSubmissions(baseDir: string, subdirs: seq<string>, isFile: string -> bool)
    returns (files: seq<string>)
    ensures files == Submissions(baseDir, subdirs, isFile)
  {
    files := [];
    var i := 0;
    while i < |subdirs|
      invariant 0 <= i <= |subdirs|
      invariant files == Submissions(baseDir, subdirs[..i], isFile)
    {
      var path := SubmissionPath(baseDir, subdirs[i]);
      assert subdirs[..i + 1][..i] == subdirs[..i];
      if isFile(path) {
        files := files + [path];
      }
      i := i + 1;
    }
    assert subdirs[..i] == subdirs;
  }

  /** `os.path.isfile` after `done` downloads. */
  function IsFileAfter(disk: Disk, done: nat): string -> bool {
    p => disk.isFile(done, p)
  }

  /** The files found on disk after `done` downloads: none when the directory does not exist. */
  function Found(ticker: string, disk: Disk, done: nat): seq<string> {
    match disk.listing(ticker, done)
    case None => []
    case Some(subdirs) => Submissions(BaseDir(ticker), subdirs, IsFileAfter(disk, done))
  }

  /**
   * `ensure_filings_exist(ticker, attempts, max_attempts)` as a value: the files
   * it returns and the number of downloads it starts.
   */
  function Ensure(ticker: string, disk: Disk, attempts: nat, maxAttempts: nat): (r: (seq<string>, nat))
    requires attempts >= 1
    decreases maxAttempts + 1 - attempts
  {
    var found := Found(ticker, disk, attempts - 1);
    if found != [] then (found, 0)
    else if attempts > maxAttempts then ([], 0)
    else if disk.downloadRaises(ticker, attempts) then ([], 1)
    else
      var (files, downloads) := Ensure(ticker, disk, attempts + 1, maxAttempts);
      (files, downloads + 1)
  }

  /**
   * The recursive function itself: list what is there, give up past the
   * attempt limit or when the download raises, otherwise download and recurse.
   * Returns the files and the number of downloads started.
   */
  method EnsureFilingsExist(ticker: string, disk: Disk, attempts: nat, maxAttempts: nat)
    returns (files: seq<string>, downloads: nat)
    requires attempts >= 1
    ensures (files, downloads) == Ensure(ticker, disk, attempts, maxAttempts)
    decreases maxAttempts + 1 - attempts
  {
    var baseDir := BaseDir(ticker);
    var listing := disk.listing(ticker, attempts - 1);
    var found: seq<string> := [];
    if listing.Some? {
      found := ListSubmissions(baseDir, listing.value, IsFileAfter(disk, attempts - 1));
    }
    assert found == Found(ticker, disk, attempts - 1);
    if found != [] {
      return found, 0;
    }
    if attempts > maxAttempts {
      return [], 0;
    }
    if disk.downloadRaises(ticker, attempts) {
      return [], 1;
    }
    files, downloads := EnsureFilingsExist(ticker, disk, attempts + 1, maxAttempts);
    downloads := downloads + 1;
  }

  /** Files already on disk are returned as they are, with no download. */
  lemma ExistingFilesShortCircuit(ticker: string, disk: Disk, attempts: nat, maxAttempts: nat)
    requires attempts >= 1 && Found(ticker, disk, attempts - 1) != []
    ensures Ensure(ticker, disk, attempts, maxAttempts) == (Found(ticker, disk, attempts - 1), 0)
  {
  }

  /**
   * At most `max_attempts - attempts + 1` downloads are started; with the
   * defaults, at most three. Past the limit the result is `[]`.
   */
  lemma {:induction false} DownloadBound(ticker: string, disk: Disk, attempts: nat, maxAttempts: nat)
    requires attempts >= 1
    ensures var (files, downloads) := Ensure(ticker, disk, attempts, maxAttempts);
      (attempts <= maxAttempts + 1 ==> downloads <= maxAttempts + 1 - attempts) &&
      (attempts > maxAttempts + 1 ==> downloads == 0) &&
      (attempts > maxAttempts && Found(ticker, disk, attempts - 1) == [] ==> files == [])
    decreases maxAttempts + 1 - attempts
  {
    if Found(ticker, disk, attempts - 1) == [] && attempts <= maxAttempts && !disk.downloadRaises(ticker, attempts) {
      DownloadBound(ticker, disk, attempts + 1, maxAttempts);
    }
  }

  lemma DefaultDownloadBound(ticker: string, disk: Disk)
    ensures Ensure(ticker, disk, 1, DefaultMaxAttempts).1 <= 3
  {
    DownloadBound(ticker, disk, 1, DefaultMaxAttempts);
  }

  /** A download that raises ends the search with `[]`: no further attempt. */
  lemma DownloadErrorStops(ticker: string, disk: Disk, attempts: nat, maxAttempts: nat)
    requires attempts >= 1 && attempts <= maxAttempts
    requires Found(ticker, disk, attempts - 1) == [] && disk.downloadRaises(ticker, attempts)
    ensures Ensure(ticker, disk, attempts, maxAttempts) == ([], 1)
  {
  }

  /**
   * Whatever is returned is what the disk showed after some number of
   * downloads: submission files of listed sub-directories, each a file.
   */
  lemma {:induction false} ResultIsFound(ticker: string, disk: Disk, attempts: nat, maxAttempts: nat)
    requires attempts >= 1
    ensures var (files, downloads) := Ensure(ticker, disk, attempts, maxAttempts);
      files == [] || files == Found(ticker, disk, attempts - 1 + downloads)
    decreases maxAttempts + 1 - attempts
  {
    if Found(ticker, disk, attempts - 1) == [] && attempts <= maxAttempts && !disk.downloadRaises(ticker, attempts) {
      ResultIsFound(ticker, disk, attempts + 1, maxAttempts);
    }
  }
}
