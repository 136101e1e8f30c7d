/**
 * Two spawn attempts in one process. `spawn` assigns `result` without ever
 * declaring it, so the variable is a process-wide global rather than part of
 * each attempt's closure. `Process` models that; `Pair` models attempts that
 * each keep their own start record, which is what the rest of the model does.
 */
module SharedResult {
  import opened Wrappers
  import opened AttemptModel

  /** An event delivered to the first or the second attempt's listeners. */
  datatype Tagged = Tagged(toFirst: bool, event: Event)

  // ---------------------------------------------------------------------------
  // As written: one `result` for every attempt

  /** Two attempts and the global `result`; the global stands in for each attempt's own start record. */
  datatype Process = Process(result: Option<StartRecord>, first: AttemptState, second: AttemptState)

  /** The attempt an event reaches, as its handlers see it: reading and writing the global start record. */
  function Receiver(p: Process, toFirst: bool): AttemptState
  {
    (if toFirst then p.first else p.second).(result := p.result)
  }

  function DispatchShared(p: Process, host: string, t: Tagged): Process
    requires CanDispatch(Receiver(p, t.toFirst), t.event)
  {
    var a := Dispatch(Receiver(p, t.toFirst), host, t.event);
    if t.toFirst then Process(a.result, a, p.second) else Process(a.result, p.first, a)
  }

  /**
   * Both attempts start, the first one's port arrives: the first caller is
   * answered with the second attempt's monitor and process.
   */
  lemma SharedResultCrossesAttempts(host: string, declaredStart: string, mA: Monitor, dA: DroneData,
                                    mB: Monitor, dB: DroneData, port: int)
    requires mA != mB
    ensures var running := StatChecked(Initial(), true, declaredStart);
      var p1 := DispatchShared(Process(None, running, running), host, Tagged(true, Start(mA, dA)));
      var p2 := DispatchShared(p1, host, Tagged(false, Start(mB, dB)));
      && CanDispatch(Receiver(p2, true), CarapacePort(port))
      && var p3 := DispatchShared(p2, host, Tagged(true, CarapacePort(port)));
      && p3.first.deliveries == [Success(StartRecord(mB, mB.child, dB), Socket(host, port))]
      && p3.first.deliveries[0].record.monitor != mA
  {
  }

  // ---------------------------------------------------------------------------
  // Corrected: each attempt keeps its own `result`

  datatype Pair = Pair(first: AttemptState, second: AttemptState)

  function Chosen(p: Pair, toFirst: bool): AttemptState
  {
    if toFirst then p.first else p.second
  }

  function DispatchOwn(p: Pair, host: string, t: Tagged): Pair
    requires CanDispatch(Chosen(p, t.toFirst), t.event)
  {
    var a := Dispatch(Chosen(p, t.toFirst), host, t.event);
    if t.toFirst then Pair(a, p.second) else Pair(p.first, a)
  }

  predicate AdmissiblePair(p: Pair, host: string, ts: seq<Tagged>)
    decreases |ts|
  {
    ts == [] ||
    (CanDispatch(Chosen(p, ts[0].toFirst), ts[0].event) && AdmissiblePair(DispatchOwn(p, host, ts[0]), host, ts[1..]))
  }

  function RunPair(p: Pair, host: string, ts: seq<Tagged>): Pair
    requires AdmissiblePair(p, host, ts)
    decreases |ts|
  {
    if ts == [] then p else RunPair(DispatchOwn(p, host, ts[0]), host, ts[1..])
  }

  /** The events of an interleaving that reach one attempt, in order. */
  function Own(ts: seq<Tagged>, first: bool): seq<Event>
  {
    if ts == [] then []
    else (if ts[0].toFirst == first then [ts[0].event] else []) + Own(ts[1..], first)
  }

  /** However the two attempts' events interleave, each ends as its own events alone would leave it. */
  lemma {:induction false} OwnEventsOnly(p: Pair, host: string, ts: seq<Tagged>)
    requires AdmissiblePair(p, host, ts)
    ensures Admissible(p.first, host, Own(ts, true))
    ensures RunPair(p, host, ts).first == RunEvents(p.first, host, Own(ts, true))
    ensures Admissible(p.second, host, Own(ts, false))
    ensures RunPair(p, host, ts).second == RunEvents(p.second, host, Own(ts, false))
    decreases |ts|
  {
    if ts != [] {
      var t := ts[0];
      var next := DispatchOwn(p, host, t);
      OwnEventsOnly(next, host, ts[1..]);
      if t.toFirst {
        assert Own(ts, true) == [t.event] + Own(ts[1..], true);
        assert ([t.event] + Own(ts[1..], true))[1..] == Own(ts[1..], true);
        assert Own(ts, false) == Own(ts[1..], false);
      } else {
        assert Own(ts, false) == [t.event] + Own(ts[1..], false);
        assert ([t.event] + Own(ts[1..], false))[1..] == Own(ts[1..], false);
        assert Own(ts, true) == Own(ts[1..], true);
      }
    }
  }

  /** The same interleaving with per-attempt records: the first caller gets its own monitor. */
  lemma OwnStartRecordDelivered(host: string, declaredStart: string, mA: Monitor, dA: DroneData,
                                mB: Monitor, dB: DroneData, port: int)
    ensures var running := StatChecked(Initial(), true, declaredStart);
      var ts := [Tagged(true, Start(mA, dA)), Tagged(false, Start(mB, dB)), Tagged(true, CarapacePort(port))];
      && AdmissiblePair(Pair(running, running), host, ts)
      && RunPair(Pair(running, running), host, ts).first.deliveries
         == [Success(StartRecord(mA, mA.child, dA), Socket(host, port))]
  {
    var running := StatChecked(Initial(), true, declaredStart);
    var ts := [Tagged(true, Start(mA, dA)), Tagged(false, Start(mB, dB)), Tagged(true, CarapacePort(port))];
    var p := Pair(running, running);
    var p1 := DispatchOwn(p, host, ts[0]);
    var p2 := DispatchOwn(p1, host, ts[1]);
    assert CanDispatch(Chosen(p2, true), ts[2].event);
    assert [ts[2]][1..] == [];
    assert AdmissiblePair(p2, host, [ts[2]]);
    assert ts[1..] == [ts[1], ts[2]] && [ts[1], ts[2]][1..] == [ts[2]];
    assert AdmissiblePair(p1, host, ts[1..]);
    assert AdmissiblePair(p, host, ts);
    OwnEventsOnly(p, host, ts);
    assert Own([ts[2]], true) == [CarapacePort(port)];
    assert Own(ts[1..], true) == [CarapacePort(port)];
    assert Own(ts, true) == [Start(mA, dA), CarapacePort(port)] + [];
    assert Own(ts, true) == [Start(mA, dA)] + [CarapacePort(port)] + [];
    SuccessCarriesStartRecord(host, declaredStart, [Start(mA, dA)], port, []);
  }
}
