/** The result aggregator: `NotusResultHandler`, which buffers the results
    of each scan and hands a scan's whole buffer to the report function when
    the flush timer started by the scan's first buffered result fires.

    A pending timer is a scan id in the multiset `timers`; the report
    function is a fixed function value, and every call made to it is kept in
    `reported`, in call order. */
module ResultAggregator {

  /** A serialized result, its `scan_id` entry already popped. */
  type Serialized = map<string, string>

  /** What `ResultMessage.serialize()` gives: a scan id and the rest. */
  datatype ResultMessage = ResultMessage(scanId: string, result: Serialized)

  /** One call of the report function: the results handed over for a scan,
      and whether the function reported success. */
  datatype Batch = Batch(scanId: string, results: seq<Serialized>, accepted: bool)

  datatype HandlerState = HandlerState(
    buffers: map<string, seq<Serialized>>,
    timers: multiset<string>,
    reported: seq<Batch>)

  /** Exactly one pending flush per buffered scan, and no empty buffer. */
  ghost predicate Inv(s: HandlerState) {
    && s.timers == multiset(s.buffers.Keys)
    && forall id :: id in s.buffers ==> s.buffers[id] != []
  }

  /** The buffer of a scan; a scan with no entry has nothing buffered. */
  function Buffer(s: HandlerState, id: string): seq<Serialized> {
    if id in s.buffers then s.buffers[id] else []
  }

  /** `result_handler(res_msg)`. */
  function Receive(s: HandlerState, msg: ResultMessage): (r: HandlerState)
    ensures Buffer(r, msg.scanId) == Buffer(s, msg.scanId) + [msg.result]
    ensures forall id :: id != msg.scanId ==> Buffer(r, id) == Buffer(s, id)
    ensures r.timers == s.timers + (if msg.scanId in s.buffers then multiset{} else multiset{msg.scanId})
    ensures r.reported == s.reported
  {
    var id := msg.scanId;
    HandlerState(
      s.buffers[id := Buffer(s, id) + [msg.result]],
      if id in s.buffers then s.timers else s.timers + multiset{id},
      s.reported)
  }

  /** `_report_results(scan_id)`, run by the timer of `id`. */
  function Flush(s: HandlerState, id: string, report: (seq<Serialized>, string) -> bool): (r: HandlerState)
    requires id in s.buffers
    ensures id !in r.buffers
    ensures forall other :: other != id ==> Buffer(r, other) == Buffer(s, other)
    ensures r.timers == s.timers - multiset{id}
    ensures r.reported == s.reported + [Batch(id, s.buffers[id], report(s.buffers[id], id))]
  {
    HandlerState(
      s.buffers - {id},
      s.timers - multiset{id},
      s.reported + [Batch(id, s.buffers[id], report(s.buffers[id], id))])
  }

  /** A result keeps one pending flush per buffered scan: a timer is
      started exactly when the scan had no buffer. */
  lemma ReceiveKeepsInv(s: HandlerState, msg: ResultMessage)
    requires Inv(s)
    ensures Inv(Receive(s, msg))
  {
    var r := Receive(s, msg);
    if msg.scanId !in s.buffers {
      assert r.buffers.Keys == s.buffers.Keys + {msg.scanId};
    } else {
      assert r.buffers.Keys == s.buffers.Keys;
    }
  }

  /** A flush removes the scan's buffer together with its one timer. */
  lemma FlushKeepsInv(s: HandlerState, id: string, report: (seq<Serialized>, string) -> bool)
    requires Inv(s) && id in s.buffers
    ensures Inv(Flush(s, id, report))
  {
    var r := Flush(s, id, report);
    assert r.buffers.Keys == s.buffers.Keys - {id};
    assert s.buffers.Keys == r.buffers.Keys + {id};
  }

  /** What can happen to the handler: a result arrives, or the pending
      timer of a scan fires. */
  datatype Event = Arrive(msg: ResultMessage) | Fire(scanId: string)

  /** A scan with no pending timer has nothing to fire. Under `Inv` a timer
      is pending only while its scan's buffer exists, so the `pop` of
      `_report_results` never meets a missing scan. */
  function Step(s: HandlerState, e: Event, report: (seq<Serialized>, string) -> bool): HandlerState {
    match e
    case Arrive(msg) => Receive(s, msg)
    case Fire(id) => if id in s.buffers then Flush(s, id, report) else s
  }

  function Run(s: HandlerState, events: seq<Event>, report: (seq<Serialized>, string) -> bool): HandlerState
    decreases |events|
  {
    if events == [] then s else Run(Step(s, events[0], report), events[1..], report)
  }

  /** The results of a scan handed to the report function so far, in order. */
  function Delivered(reported: seq<Batch>, id: string): seq<Serialized>
    decreases |reported|
  {
    if reported == [] then []
    else
      var b := reported[|reported| - 1];
      Delivered(reported[..|reported| - 1], id) + (if b.scanId == id then b.results else [])
  }

  /** The results of a scan among the events, in arrival order. */
  function Arrived(events: seq<Event>, id: string): seq<Serialized>
    decreases |events|
  {
    if events == [] then []
    else
      (if events[0].Arrive? && events[0].msg.scanId == id then [events[0].msg.result] else [])
      + Arrived(events[1..], id)
  }

  lemma RunAppend(s: HandlerState, a: seq<Event>, b: seq<Event>, report: (seq<Serialized>, string) -> bool)
    ensures Run(s, a + b, report) == Run(Run(s, a, report), b, report)
    decreases |a|
  {
    if a == [] {
      assert a + b == b;
    } else {
      assert (a + b)[0] == a[0];
      assert (a + b)[1..] == a[1..] + b;
      RunAppend(Step(s, a[0], report), a[1..], b, report);
    }
  }

  lemma DeliveredAppend(reported: seq<Batch>, b: Batch, id: string)
    ensures Delivered(reported + [b], id) == Delivered(reported, id) + (if b.scanId == id then b.results else [])
  {
    assert (reported + [b])[..|reported|] == reported;
  }

  /** One event moves results of a scan at most from "arrived" to
      "buffered" and from "buffered" to "handed over". */
  lemma StepConserves(s: HandlerState, e: Event, id: string, report: (seq<Serialized>, string) -> bool)
    ensures var t := Step(s, e, report);
      Delivered(t.reported, id) + Buffer(t, id)
      == Delivered(s.reported, id) + Buffer(s, id) + (if e.Arrive? && e.msg.scanId == id then [e.msg.result] else [])
  {
    match e
    case Arrive(msg) =>
    case Fire(f) =>
      if f in s.buffers {
        var b := Batch(f, s.buffers[f], report(s.buffers[f], f));
        DeliveredAppend(s.reported, b, id);
      }
  }

  lemma ChainConcat<T>(whole: seq<T>, mid: seq<T>, before: seq<T>, first: seq<T>, later: seq<T>)
    requires whole == mid + later && mid == before + first
    ensures whole == before + (first + later)
  {
  }

  /** No result is lost, duplicated or reordered: for every scan, what was
      handed to the report function followed by what is still buffered is
      what was there before followed by every result that arrived. */
  lemma {:induction false} ResultsConserved(s: HandlerState, events: seq<Event>, id: string,
                                            report: (seq<Serialized>, string) -> bool)
    ensures var t := Run(s, events, report);
      Delivered(t.reported, id) + Buffer(t, id) == Delivered(s.reported, id) + Buffer(s, id) + Arrived(events, id)
    decreases |events|
  {
    if events != [] {
      var e := events[0];
      var s1 := Step(s, e, report);
      var t := Run(s, events, report);
      assert t == Run(s1, events[1..], report);
      var first := if e.Arrive? && e.msg.scanId == id then [e.msg.result] else [];
      var later := Arrived(events[1..], id);
      ResultsConserved(s1, events[1..], id, report);
      StepConserves(s, e, id, report);
      assert Arrived(events, id) == first + later;
      ChainConcat(Delivered(t.reported, id) + Buffer(t, id), Delivered(s1.reported, id) + Buffer(s1, id),
                  Delivered(s.reported, id) + Buffer(s, id), first, later);
    }
  }

  /** The results `results` of scan `id` arriving one after another. */
  function Arrivals(id: string, results: seq<Serialized>): (r: seq<Event>)
    ensures |r| == |results|
  {
    if results == [] then [] else [Arrive(ResultMessage(id, results[0]))] + Arrivals(id, results[1..])
  }

  /** Results of one scan arriving in a row are appended to its buffer in
      order, and only the first of them starts a timer. */
  lemma {:induction false} RunArrivals(s: HandlerState, id: string, results: seq<Serialized>,
                                       report: (seq<Serialized>, string) -> bool)
    requires results != []
    ensures var t := Run(s, Arrivals(id, results), report);
      && t.buffers == s.buffers[id := Buffer(s, id) + results]
      && t.timers == (if id in s.buffers then s.timers else s.timers + multiset{id})
      && t.reported == s.reported
    decreases |results|
  {
    var s1 := Receive(s, ResultMessage(id, results[0]));
    var evs := Arrivals(id, results);
    assert evs == [Arrive(ResultMessage(id, results[0]))] + Arrivals(id, results[1..]);
    assert evs[1..] == Arrivals(id, results[1..]);
    assert Run(s, evs, report) == Run(s1, evs[1..], report);
    if |results| == 1 {
      assert results == [results[0]] && evs[1..] == [];
      assert Run(s1, evs[1..], report) == s1;
    } else {
      RunArrivals(s1, id, results[1..], report);
      assert results == [results[0]] + results[1..];
      ChainConcat(Buffer(s1, id) + results[1..], Buffer(s1, id), Buffer(s, id), [results[0]], results[1..]);
    }
  }

  /** The quiet period: results of a scan with nothing buffered, arriving
      before its timer fires, reach the report function as exactly one
      batch holding all of them in arrival order, and the handler is then
      back where it started, so the next result opens a new window. */
  lemma OneBatchPerWindow(s: HandlerState, id: string, results: seq<Serialized>,
                          report: (seq<Serialized>, string) -> bool)
    requires Inv(s) && id !in s.buffers && results != []
    ensures var open := Run(s, Arrivals(id, results), report);
      open.timers[id] == 1 && Buffer(open, id) == results
    ensures var t := Run(s, Arrivals(id, results) + [Fire(id)], report);
      && t.reported == s.reported + [Batch(id, results, report(results, id))]
      && t.buffers == s.buffers && t.timers == s.timers
  {
    RunArrivals(s, id, results, report);
    RunAppend(s, Arrivals(id, results), [Fire(id)], report);
    var open := Run(s, Arrivals(id, results), report);
    assert open.timers[id] == 1 by {
      assert s.timers[id] == 0;
    }
    assert open.buffers - {id} == s.buffers;
  }

  class NotusResultHandler {
    const report: (seq<Serialized>, string) -> bool
    var results: map<string, seq<Serialized>>
    var timers: multiset<string>
    var reported: seq<Batch>

    function State(): HandlerState
      reads this
    {
      HandlerState(results, timers, reported)
    }

    ghost predicate Valid()
      reads this
    {
      Inv(State())
    }

    constructor (report: (seq<Serialized>, string) -> bool)
      ensures Valid() && this.report == report
      ensures results == map[] && timers == multiset{} && reported == []
    {
      this.report := report;
      results := map[];
      timers := multiset{};
      reported := [];
    }

    /** `result_handler(res_msg)`: `scheduled` when a flush timer was started. */
    method ResultHandler(msg: ResultMessage) returns (scheduled: bool)
      requires Valid()
      modifies this
      ensures Valid()
      ensures scheduled <==> msg.scanId !in old(results)
      ensures State() == Receive(old(State()), msg)
    {
      var id := msg.scanId;
      scheduled := false;
      if id !in results {
        results := results[id := []];
        scheduled := true;
      }
      results := results[id := results[id] + [msg.result]];
      if scheduled {
        timers := timers + multiset{id};
      }
      ReceiveKeepsInv(old(State()), msg);
    }

    /** `_report_results(scan_id)`, run when the timer of `scanId` fires;
        returns what the report function answered. */
    method ReportResults(scanId: string) returns (accepted: bool)
      requires Valid() && scanId in timers
      modifies this
      ensures Valid()
      ensures scanId in old(results) && accepted == report(old(results)[scanId], scanId)
      ensures State() == Flush(old(State()), scanId, report)
    {
      var batch := results[scanId];
      results := results - {scanId};
      accepted := report(batch, scanId);
      reported := reported + [Batch(scanId, batch, accepted)];
      timers := timers - multiset{scanId};
      FlushKeepsInv(old(State()), scanId, report);
    }
  }
}
