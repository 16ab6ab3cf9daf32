/**
 * The risk-selection logic of frontend/src/pages/Simulator.jsx: the selection
 * toggle, and the loop that asks the simulation service for each selected
 * risk and keeps the successful results.
 *
 * The page's state is a class whose fields the handlers update. The service is
 * an oracle from a request to a response; the page's visible effects (the
 * loading flag, requests sent, alerts shown, results set) are recorded, in
 * order, in an event log.
 */
module SimulatorPage {
  import opened Json
  import Seqs

  /** `prev.filter((r) => r !== riskName)`. */
  function Remove(prev: seq<string>, name: string): (r: seq<string>)
    ensures name !in r
    ensures forall x :: x != name ==> (x in r <==> x in prev)
    ensures |r| <= |prev|
    decreases |prev|
  {
    if prev == [] then []
    else Remove(prev[..|prev| - 1], name) + (if prev[|prev| - 1] == name then [] else [prev[|prev| - 1]])
  }

  /** Removing keeps the relative order of the other names: it distributes over concatenation. */
  lemma {:induction false} RemoveAppend(a: seq<string>, b: seq<string>, name: string)
    ensures Remove(a + b, name) == Remove(a, name) + Remove(b, name)
    decreases |b|
  {
    if b == [] {
      assert a + b == a;
    } else {
      var front, last := b[..|b| - 1], b[|b| - 1];
      var kept := if last == name then [] else [last];
      Seqs.DropLastAppend(a, b);
      RemoveAppend(a, front, name);
      calc {
        Remove(a + b, name);
        Remove(a + front, name) + kept;
        Remove(a, name) + Remove(front, name) + kept;
        Remove(a, name) + (Remove(front, name) + kept);
        Remove(a, name) + Remove(b, name);
      }
    }
  }

  /** Removing an absent name changes nothing. */
  lemma {:induction false} RemoveAbsent(prev: seq<string>, name: string)
    requires name !in prev
    ensures Remove(prev, name) == prev
    decreases |prev|
  {
    if prev != [] {
      RemoveAbsent(prev[..|prev| - 1], name);
    }
  }

  /** `toggleRiskSelection(riskName)` on the previous selection. */
  function Toggle(prev: seq<string>, name: string): seq<string> {
    if name in prev then Remove(prev, name) else prev + [name]
  }

  /**
   * The toggled name's membership flips and every other name's stays; an
   * absent name is appended at the end, a present one removed everywhere.
   */
  lemma ToggleSpec(prev: seq<string>, name: string)
    ensures name in Toggle(prev, name) <==> name !in prev
    ensures forall x :: x != name ==> (x in Toggle(prev, name) <==> x in prev)
    ensures name !in prev ==> Toggle(prev, name) == prev + [name] && |Toggle(prev, name)| == |prev| + 1
    ensures name in prev ==> |Toggle(prev, name)| < |prev|
  {
    if name in prev {
      RemoveShrinks(prev, name);
    }
  }

  lemma {:induction false} RemoveShrinks(prev: seq<string>, name: string)
    requires name in prev
    ensures |Remove(prev, name)| < |prev|
    decreases |prev|
  {
    var front := prev[..|prev| - 1];
    if prev[|prev| - 1] != name {
      assert name in front;
      RemoveShrinks(front, name);
    }
  }

  /** Toggling an absent name twice restores the selection. */
  lemma ToggleTwiceRestores(prev: seq<string>, name: string)
    requires name !in prev
    ensures Toggle(Toggle(prev, name), name) == prev
  {
    RemoveAppend(prev, [name], name);
    RemoveAbsent(prev, name);
    assert Remove([name], name) == Remove([], name) + [];
  }

  /**
   * Toggling a present name twice does not restore the selection: every copy
   * is dropped and one is put back at the end.
   */
  lemma ToggleTwiceMovesToEnd(prev: seq<string>, name: string)
    requires name in prev
    ensures Toggle(Toggle(prev, name), name) == Remove(prev, name) + [name]
  {
  }

  /** The body `fetchSimulations` posts for a risk. */
  datatype SimRequest = SimRequest(risk: string, mean: int, stddev: int, simulations: int)

  function RequestFor(name: string): SimRequest {
    SimRequest(name, 1000000, 300000, 10000)
  }

  /** What a request comes back as: the result, an error response, or a failed fetch. */
  datatype SimResponse =
    | Success(data: Json)
    | HttpError(error: string)        // `!res.ok`; `error` is `errorData.error`, "" when absent
    | FetchRaised(message: string)

  /** `error.message` of the caught error. */
  function ErrorMessage(r: SimResponse): string {
    match r
    case Success(_) => ""
    case HttpError(error) => if error == "" then "Simulation failed" else error
    case FetchRaised(message) => message
  }

  function AlertText(name: string, r: SimResponse): string {
    "Simulation failed for risk \"" + name + "\": " + ErrorMessage(r)
  }

  const EmptySelectionAlert: string := "Please select at least one risk."

  /** What the page does that can be observed, in order. */
  datatype Event = SetLoading(on: bool) | Request(body: SimRequest) | Alert(message: string) | SetResults(results: seq<Json>)

  /** The successful results of a run over `names`, in selection order. */
  function Successes(names: seq<string>, simulate: SimRequest -> SimResponse): seq<Json>
    decreases |names|
  {
    if names == [] then []
    else
      var last := names[|names| - 1];
      var r := simulate(RequestFor(last));
      Successes(names[..|names| - 1], simulate) + (if r.Success? then [r.data] else [])
  }

  /** The requests and alerts of the loop over `names`. */
  function LoopEvents(names: seq<string>, simulate: SimRequest -> SimResponse): seq<Event>
    decreases |names|
  {
    if names == [] then []
    else
      var last := names[|names| - 1];
      var r := simulate(RequestFor(last));
      LoopEvents(names[..|names| - 1], simulate) +
        [Request(RequestFor(last))] + (if r.Success? then [] else [Alert(AlertText(last, r))])
  }

  /** The number of selected risks whose simulation failed. */
  function Failures(names: seq<string>, simulate: SimRequest -> SimResponse): nat
    decreases |names|
  {
    if names == [] then 0
    else Failures(names[..|names| - 1], simulate) + (if simulate(RequestFor(names[|names| - 1])).Success? then 0 else 1)
  }

  /** The request an event carries, if it is one. */
  function RequestIn(e: Event): seq<SimRequest> {
    if e.Request? then [e.body] else []
  }

  /** Only the requests among some events. */
  function Requests(events: seq<Event>): seq<SimRequest> {
    Seqs.Gather(events, RequestIn)
  }

  /** One request per selected risk, in selection order, whatever the responses. */
  lemma {:induction false} OneRequestPerRisk(names: seq<string>, simulate: SimRequest -> SimResponse)
    ensures Requests(LoopEvents(names, simulate)) == seq(|names|, i requires 0 <= i < |names| => RequestFor(names[i]))
    decreases |names|
  {
    if names != [] {
      var front, last := names[..|names| - 1], names[|names| - 1];
      var r := simulate(RequestFor(last));
      var alert: seq<Event> := if r.Success? then [] else [Alert(AlertText(last, r))];
      var step: seq<Event> := [Request(RequestFor(last))] + alert;
      OneRequestPerRisk(front, simulate);
      assert LoopEvents(names, simulate) == LoopEvents(front, simulate) + step;
      Seqs.GatherAppend(LoopEvents(front, simulate), step, RequestIn);
      StepRequests(RequestFor(last), alert);
      assert Requests(LoopEvents(names, simulate)) == Requests(LoopEvents(front, simulate)) + [RequestFor(last)];
    }
  }

  /** One loop step's events carry one request. */
  lemma StepRequests(request: SimRequest, alert: seq<Event>)
    requires forall e :: e in alert ==> e.Alert?
    requires |alert| <= 1
    ensures Requests([Request(request)] + alert) == [request]
  {
    var step := [Request(request)] + alert;
    Seqs.GatherAppend([Request(request)], alert, RequestIn);
    assert [Request(request)][..0] == [];
    assert Seqs.Gather([Request(request)], RequestIn) == [request];
    if alert != [] {
      assert alert == [alert[0]] && alert[0] in alert;
      assert alert[..0] == [];
      assert Seqs.Gather(alert, RequestIn) == Seqs.Gather([], RequestIn) + RequestIn(alert[0]);
    }
  }

  /** Each risk either contributes a result or an alert: results and failures add up to the selection. */
  lemma {:induction false} ResultsAndFailuresCount(names: seq<string>, simulate: SimRequest -> SimResponse)
    ensures |Successes(names, simulate)| + Failures(names, simulate) == |names|
    decreases |names|
  {
    if names != [] {
      ResultsAndFailuresCount(names[..|names| - 1], simulate);
    }
  }

  /** When every request succeeds, the results are the responses, one per risk, in selection order. */
  lemma {:induction false} AllSucceed(names: seq<string>, simulate: SimRequest -> SimResponse)
    requires forall i :: 0 <= i < |names| ==> simulate(RequestFor(names[i])).Success?
    ensures Successes(names, simulate) ==
      seq(|names|, i requires 0 <= i < |names| => simulate(RequestFor(names[i])).data)
    decreases |names|
  {
    if names != [] {
      AllSucceed(names[..|names| - 1], simulate);
    }
  }

  /** The page's state. */
  class Page {
    var selected: seq<string>
    var results: seq<Json>
    var loading: bool
    var events: seq<Event>

    constructor ()
      ensures selected == [] && results == [] && !loading && events == []
    {
      selected, results, loading, events := [], [], false, [];
    }

    /** `toggleRiskSelection(riskName)`. */
    method ToggleRiskSelection(name: string)
      modifies this
      ensures selected == Toggle(old(selected), name)
      ensures results == old(results) && loading == old(loading) && events == old(events)
    {
      selected := Toggle(selected, name);
    }

    /**
     * `fetchSimulations()`: with nothing selected, an alert and nothing else;
     * otherwise loading on, one request per selected risk in order (an alert
     * for each failure), the successful results set, loading off.
     */
    method FetchSimulations(simulate: SimRequest -> SimResponse)
      modifies this
      ensures selected == old(selected)
      ensures old(selected) == [] ==>
        results == old(results) && loading == old(loading) && events == old(events) + [Alert(EmptySelectionAlert)]
      ensures old(selected) != [] ==>
        results == Successes(selected, simulate) && !loading &&
        events == old(events) + [SetLoading(true)] + LoopEvents(selected, simulate) +
                  [SetResults(results), SetLoading(false)]
    {
      if |selected| == 0 {
        events := events + [Alert(EmptySelectionAlert)];
        return;
      }
      loading := true;
      events := events + [SetLoading(true)];
      var allResults := RunRequests(selected, simulate);
      results := allResults;
      events := events + [SetResults(allResults)];
      loading := false;
      events := events + [SetLoading(false)];
    }

    /** The loop of `fetchSimulations`, run while `loading` is on. */
    method RunRequests(names: seq<string>, simulate: SimRequest -> SimResponse) returns (allResults: seq<Json>)
      requires loading
      modifies this
      ensures allResults == Successes(names, simulate)
      ensures events == old(events) + LoopEvents(names, simulate)
      ensures selected == old(selected) && results == old(results) && loading
    {
      allResults := [];
      var i := 0;
      while i < |names|
        invariant 0 <= i <= |names|
        invariant allResults == Successes(names[..i], simulate)
        invariant events == old(events) + LoopEvents(names[..i], simulate)
        invariant selected == old(selected) && results == old(results) && loading
      {
        var name := names[i];
        assert names[..i + 1][..i] == names[..i];
        var response := simulate(RequestFor(name));
        events := events + [Request(RequestFor(name))];
        if response.Success? {
          allResults := allResults + [response.data];
        } else {
          events := events + [Alert(AlertText(name, response))];
        }
        i := i + 1;
      }
      assert names[..i] == names;
    }
  }
}
