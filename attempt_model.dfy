/**
 * One spawn attempt as a state machine over the events of its process monitor
 * and of the readiness hook.
 *
 * The state is what `spawn` keeps in its closure: the `responded` flag, the
 * captured stderr lines, the start record awaiting a port, the listeners still
 * armed on the monitor and on the hook, the drone output forwarded to the log,
 * and the log of calls made to the caller's callback. The `Handle` functions are
 * the bodies of the five handlers; `Dispatch` is the event emitter delivering an
 * event to whichever listener is still armed (a `once` listener is removed
 * before it runs).
 */
module AttemptModel {
  import opened Wrappers
  import opened Text

  /** The monitor events the attempt listens to. */
  datatype DroneEvent = StdoutEvent | StderrEvent | ExitEvent | ErrorEvent | StartEvent

  /** The hook topic a carapace publishes its bound port on; every attempt subscribes to this same pattern. */
  const PortTopic: string := "*::carapace::port"

  const ScriptMissingPrefix: string := "package.json error: can't find starting script: "
  const PrematureExitMessage: string := "Error spawning drone"

  datatype ChildProcess = ChildProcess(pid: nat)
  /** A process monitor handle; `child` is the process it supervises. */
  datatype Monitor = Monitor(id: nat, child: ChildProcess)
  /** The metadata a monitor passes along with its `start` event. */
  datatype DroneData = DroneData(description: string)
  /** An error raised by the process monitor. */
  datatype Fault = Fault(message: string)

  /** The record `onStart` builds: monitor, its child process and the start metadata. */
  datatype StartRecord = StartRecord(monitor: Monitor, process: ChildProcess, drone: DroneData)
  datatype Socket = Socket(host: string, port: int)

  datatype SpawnError =
    | ScriptNotFound(message: string)
    | MonitorFailed(fault: Fault)
    | PrematureExit(message: string, stderr: string)

  /** One call of the caller's callback: `callback(err)` or `callback(null, result)`. */
  datatype Outcome = Failure(error: SpawnError) | Success(record: StartRecord, socket: Socket)

  /** Drone output forwarded to haibu's log: stdout at info level, stderr at error level. */
  datatype Output = Info(text: string) | ErrorLevel(text: string)

  datatype Event =
    | Stdout(data: string)
    | Stderr(data: string)
    | MonitorError(fault: Fault)
    | Start(monitor: Monitor, meta: DroneData)
    | Exit
    | CarapacePort(port: int)

  /** Checking: the start script's stat is pending. Running: the monitor was built and the handlers armed. */
  datatype Phase = Checking | ScriptMissing | Running

  datatype AttemptState = AttemptState(
    phase: Phase,
    responded: bool,
    stderr: seq<string>,
    result: Option<StartRecord>,
    drone: set<DroneEvent>,
    hook: set<string>,
    forwarded: seq<Output>,
    deliveries: seq<Outcome>)

  predicate IsTerminal(e: Event)
  {
    e.MonitorError? || e.Exit? || e.CarapacePort?
  }

  /** The state when `spawn` has built its options and issued the stat of the start script. */
  function Initial(): AttemptState
  {
    AttemptState(Checking, false, [], None, {}, {}, [], [])
  }

  /** The stat callback: report a missing script, or build the monitor and arm every listener. */
  function StatChecked(s: AttemptState, found: bool, declaredStart: string): AttemptState
    requires s.phase == Checking
  {
    if !found then
      s.(phase := ScriptMissing,
         deliveries := s.deliveries + [Failure(ScriptNotFound(ScriptMissingPrefix + declaredStart))])
    else
      s.(phase := Running,
         drone := {StdoutEvent, StderrEvent, ExitEvent, ErrorEvent, StartEvent},
         hook := {PortTopic})
  }

  function HandleStdout(s: AttemptState, data: string): AttemptState
  {
    s.(forwarded := s.forwarded + [Info(data)])
  }

  function HandleStderr(s: AttemptState, data: string): AttemptState
  {
    var logged := s.(forwarded := s.forwarded + [ErrorLevel(data)]);
    if !s.responded then logged.(stderr := s.stderr + Lines(data)) else logged
  }

  function HandleError(s: AttemptState, fault: Fault): AttemptState
  {
    if !s.responded then
      s.(responded := true,
         deliveries := s.deliveries + [Failure(MonitorFailed(fault))],
         drone := s.drone - {ExitEvent},
         hook := s.hook - {PortTopic})
    else s
  }

  /** Reading the start record of a port that arrives before `start` is undefined behaviour, excluded here. */
  function HandlePort(s: AttemptState, host: string, port: int): AttemptState
    requires s.responded || s.result.Some?
  {
    if !s.responded then
      s.(responded := true,
         deliveries := s.deliveries + [Success(s.result.value, Socket(host, port))],
         drone := s.drone - {ExitEvent, ErrorEvent})
    else s
  }

  function HandleStart(s: AttemptState, monitor: Monitor, data: DroneData): AttemptState
  {
    s.(result := Some(StartRecord(monitor, monitor.child, data)))
  }

  function HandleExit(s: AttemptState): AttemptState
  {
    if !s.responded then
      s.(responded := true,
         deliveries := s.deliveries + [Failure(PrematureExit(PrematureExitMessage, Join(s.stderr, '\n')))],
         drone := s.drone - {ErrorEvent},
         hook := s.hook - {PortTopic})
    else s
  }

  /** The event can be delivered without reading an undefined start record. */
  predicate CanDispatch(s: AttemptState, e: Event)
  {
    e.CarapacePort? && PortTopic in s.hook && !s.responded ==> s.result.Some?
  }

  /**
   * The emitter delivering `e`: `stdout` and `stderr` listeners stay armed, the
   * other four are `once` listeners and are removed before they run; an event
   * with no armed listener changes nothing.
   */
  function Dispatch(s: AttemptState, host: string, e: Event): AttemptState
    requires CanDispatch(s, e)
  {
    match e
    case Stdout(data) => if StdoutEvent in s.drone then HandleStdout(s, data) else s
    case Stderr(data) => if StderrEvent in s.drone then HandleStderr(s, data) else s
    case MonitorError(fault) =>
      if ErrorEvent in s.drone then HandleError(s.(drone := s.drone - {ErrorEvent}), fault) else s
    case Start(monitor, meta) =>
      if StartEvent in s.drone then HandleStart(s.(drone := s.drone - {StartEvent}), monitor, meta) else s
    case Exit => if ExitEvent in s.drone then HandleExit(s.(drone := s.drone - {ExitEvent})) else s
    case CarapacePort(port) =>
      if PortTopic in s.hook then HandlePort(s.(hook := s.hook - {PortTopic}), host, port) else s
  }

  /** No event of `es` is a port reported before `start` while the attempt waits. */
  predicate Admissible(s: AttemptState, host: string, es: seq<Event>)
    decreases |es|
  {
    es == [] || (CanDispatch(s, es[0]) && Admissible(Dispatch(s, host, es[0]), host, es[1..]))
  }

  function RunEvents(s: AttemptState, host: string, es: seq<Event>): AttemptState
    requires Admissible(s, host, es)
    decreases |es|
  {
    if es == [] then s else RunEvents(Dispatch(s, host, es[0]), host, es[1..])
  }

  /**
   * The attempt's invariant: at most one delivery; while running, the output
   * listeners stay armed, and the three terminal listeners are all armed before
   * the response and all gone after it.
   */
  predicate Consistent(s: AttemptState)
  {
    && |s.deliveries| <= 1
    && match s.phase
       case Checking =>
         !s.responded && s.deliveries == [] && s.drone == {} && s.hook == {} && s.result.None?
       case ScriptMissing =>
         |s.deliveries| == 1 && s.deliveries[0].Failure? && s.deliveries[0].error.ScriptNotFound?
         && s.drone == {} && s.hook == {}
       case Running =>
         && StdoutEvent in s.drone && StderrEvent in s.drone
         && (s.responded <==> |s.deliveries| == 1)
         && (s.responded ==> ExitEvent !in s.drone && ErrorEvent !in s.drone && s.hook == {})
         && (!s.responded ==> ExitEvent in s.drone && ErrorEvent in s.drone && s.hook == {PortTopic})
         && (StartEvent in s.drone ==> s.result.None?)
  }

  /** The outcome the first terminal event produces from the state it finds. */
  function TerminalOutcome(s: AttemptState, host: string, e: Event): Outcome
    requires IsTerminal(e)
    requires e.CarapacePort? ==> s.result.Some?
  {
    match e
    case MonitorError(fault) => Failure(MonitorFailed(fault))
    case Exit => Failure(PrematureExit(PrematureExitMessage, Join(s.stderr, '\n')))
    case CarapacePort(port) => Success(s.result.value, Socket(host, port))
  }

  function StderrEvents(chunks: seq<string>): (es: seq<Event>)
    ensures |es| == |chunks|
    ensures forall i :: 0 <= i < |es| ==> es[i] == Stderr(chunks[i])
  {
    if chunks == [] then [] else [Stderr(chunks[0])] + StderrEvents(chunks[1..])
  }

  /** The non-empty lines of the chunks, chunk after chunk. */
  function CapturedLines(chunks: seq<string>): (lines: seq<string>)
    ensures forall i :: 0 <= i < |lines| ==> lines[i] != [] && '\n' !in lines[i]
  {
    if chunks == [] then [] else Lines(chunks[0]) + CapturedLines(chunks[1..])
  }

  /** The log entry an output event produces; other events produce none. */
  function OutputOfEvent(e: Event): seq<Output>
  {
    match e
    case Stdout(data) => [Info(data)]
    case Stderr(data) => [ErrorLevel(data)]
    case _ => []
  }

  /** The log entries the output events of `es` produce, in order. */
  function OutputOf(es: seq<Event>): seq<Output>
  {
    if es == [] then [] else OutputOfEvent(es[0]) + OutputOf(es[1..])
  }

  // ---------------------------------------------------------------------------
  // One event

  /** Every delivery keeps the invariant, and once the attempt responded nothing it delivered or captured changes. */
  lemma DispatchKeepsConsistent(s: AttemptState, host: string, e: Event)
    requires Consistent(s) && CanDispatch(s, e)
    ensures Consistent(Dispatch(s, host, e))
    ensures |s.deliveries| == 1 ==> Dispatch(s, host, e).deliveries == s.deliveries
  {
  }

  /** The first terminal event answers the caller and disarms all three terminal listeners; output listeners stay. */
  lemma FirstTerminalTearsDown(s: AttemptState, host: string, e: Event)
    requires Consistent(s) && s.phase == Running && !s.responded
    requires IsTerminal(e) && CanDispatch(s, e)
    ensures var r := Dispatch(s, host, e);
      && r.responded
      && r.deliveries == s.deliveries + [TerminalOutcome(s, host, e)]
      && r.drone == s.drone - {ExitEvent, ErrorEvent}
      && StdoutEvent in r.drone && StderrEvent in r.drone
      && r.hook == {}
  {
  }

  // ---------------------------------------------------------------------------
  // Event sequences

  /** Running a sequence is running its first part, then its second. */
  lemma {:induction false} RunAppend(s: AttemptState, host: string, p: seq<Event>, q: seq<Event>)
    requires Admissible(s, host, p + q)
    ensures Admissible(s, host, p) && Admissible(RunEvents(s, host, p), host, q)
    ensures RunEvents(s, host, p + q) == RunEvents(RunEvents(s, host, p), host, q)
    decreases |p|
  {
    if p == [] {
      assert p + q == q;
    } else {
      assert (p + q)[0] == p[0];
      assert (p + q)[1..] == p[1..] + q;
      RunAppend(Dispatch(s, host, p[0]), host, p[1..], q);
    }
  }

  /**
   * Responded is final, whatever the state: no later event clears the flag,
   * adds a delivery or captures more stderr.
   */
  lemma {:induction false} RespondedIsFinal(s: AttemptState, host: string, es: seq<Event>)
    requires s.responded && Admissible(s, host, es)
    ensures var r := RunEvents(s, host, es);
      r.responded && r.deliveries == s.deliveries && r.stderr == s.stderr
    decreases |es|
  {
    if es != [] {
      RespondedIsFinal(Dispatch(s, host, es[0]), host, es[1..]);
    }
  }

  /** At most one delivery, for every sequence of events: the invariant holds after any run. */
  lemma {:induction false} AtMostOnce(s: AttemptState, host: string, es: seq<Event>)
    requires Consistent(s) && Admissible(s, host, es)
    ensures Consistent(RunEvents(s, host, es))
    ensures |RunEvents(s, host, es).deliveries| <= 1
    ensures |s.deliveries| == 1 ==> RunEvents(s, host, es).deliveries == s.deliveries
    decreases |es|
  {
    if es != [] {
      DispatchKeepsConsistent(s, host, es[0]);
      AtMostOnce(Dispatch(s, host, es[0]), host, es[1..]);
    }
  }

  /** Exactly one delivery once a running attempt has seen a terminal event. */
  lemma {:induction false} ExactlyOnce(s: AttemptState, host: string, es: seq<Event>, k: nat)
    requires Consistent(s) && s.phase == Running && Admissible(s, host, es)
    requires k < |es| && IsTerminal(es[k])
    ensures |RunEvents(s, host, es).deliveries| == 1
    decreases |es|
  {
    DispatchKeepsConsistent(s, host, es[0]);
    var next := Dispatch(s, host, es[0]);
    if k == 0 {
      assert |next.deliveries| == 1;
      AtMostOnce(next, host, es[1..]);
    } else {
      ExactlyOnce(next, host, es[1..], k - 1);
    }
  }

  /**
   * The first terminal event decides the outcome: after any non-terminal prefix,
   * the single delivery is the one that event produces, whatever follows.
   */
  lemma FirstTerminalWins(s: AttemptState, host: string, pre: seq<Event>, e: Event, post: seq<Event>)
    requires Consistent(s) && s.phase == Running && !s.responded
    requires forall i :: 0 <= i < |pre| ==> !IsTerminal(pre[i])
    requires Admissible(s, host, pre + [e] + post)
    requires IsTerminal(e)
    ensures Admissible(s, host, pre)
    ensures var before := RunEvents(s, host, pre);
      (e.CarapacePort? ==> before.result.Some?)
      && RunEvents(s, host, pre + [e] + post).deliveries == [TerminalOutcome(before, host, e)]
  {
    RunAppend(s, host, pre + [e], post);
    RunAppend(s, host, pre, [e]);
    var before := RunEvents(s, host, pre);
    NonTerminalPrefixWaits(s, host, pre);
    AtMostOnce(s, host, pre);
    assert [e][1..] == [];
    var after := RunEvents(s, host, pre + [e]);
    assert after == Dispatch(before, host, e);
    FirstTerminalTearsDown(before, host, e);
    RespondedIsFinal(after, host, post);
  }

  /** Events other than the terminal ones never answer a waiting attempt. */
  lemma {:induction false} NonTerminalPrefixWaits(s: AttemptState, host: string, es: seq<Event>)
    requires Consistent(s) && s.phase == Running && !s.responded && Admissible(s, host, es)
    requires forall i :: 0 <= i < |es| ==> !IsTerminal(es[i])
    ensures var r := RunEvents(s, host, es);
      r.phase == Running && !r.responded && r.deliveries == s.deliveries && Consistent(r)
    decreases |es|
  {
    if es != [] {
      DispatchKeepsConsistent(s, host, es[0]);
      NonTerminalPrefixWaits(Dispatch(s, host, es[0]), host, es[1..]);
    }
  }

  /** Readiness before a late exit: the caller gets the success, and the exit has no effect. */
  lemma ReadinessWinsOverLateExit(s: AttemptState, host: string, port: int, post: seq<Event>)
    requires Consistent(s) && s.phase == Running && !s.responded && s.result.Some?
    requires Admissible(s, host, [CarapacePort(port), Exit] + post)
    ensures RunEvents(s, host, [CarapacePort(port), Exit] + post).deliveries
            == [Success(s.result.value, Socket(host, port))]
  {
    assert [CarapacePort(port), Exit] + post == [] + [CarapacePort(port)] + ([Exit] + post);
    FirstTerminalWins(s, host, [], CarapacePort(port), [Exit] + post);
  }

  /** An attempt that has not responded and listens to stderr captures the non-empty lines of a chunk, and changes nothing else but the forwarded output. */
  lemma DispatchStderr(s: AttemptState, host: string, data: string)
    requires StderrEvent in s.drone && !s.responded
    ensures CanDispatch(s, Stderr(data))
    ensures Dispatch(s, host, Stderr(data))
            == s.(stderr := s.stderr + Lines(data), forwarded := s.forwarded + [ErrorLevel(data)])
  {
  }

  /** Sequence concatenation is associative. */
  lemma AppendAssociative<T>(a: seq<T>, b: seq<T>, c: seq<T>)
    ensures a + b + c == a + (b + c)
  {
  }

  /**
   * While the attempt has not responded and listens to stderr, a run of
   * stderr chunks changes nothing but the captured lines and the forwarded output.
   */
  lemma {:induction false} StderrRun(s: AttemptState, host: string, chunks: seq<string>)
    requires StderrEvent in s.drone && !s.responded
    ensures Admissible(s, host, StderrEvents(chunks))
    ensures RunEvents(s, host, StderrEvents(chunks))
            == s.(stderr := s.stderr + CapturedLines(chunks), forwarded := s.forwarded + OutputOf(StderrEvents(chunks)))
    decreases |chunks|
  {
    if chunks == [] {
      assert s.stderr + [] == s.stderr && s.forwarded + [] == s.forwarded;
    } else {
      var c, rest := chunks[0], StderrEvents(chunks[1..]);
      var es := [Stderr(c)] + rest;
      assert StderrEvents(chunks) == es;
      assert es[0] == Stderr(c) && es[1..] == rest;
      DispatchStderr(s, host, c);
      var next := s.(stderr := s.stderr + Lines(c), forwarded := s.forwarded + [ErrorLevel(c)]);
      StderrRun(next, host, chunks[1..]);
      assert CapturedLines(chunks) == Lines(c) + CapturedLines(chunks[1..]);
      AppendAssociative(s.stderr, Lines(c), CapturedLines(chunks[1..]));
      assert OutputOf(es) == [ErrorLevel(c)] + OutputOf(rest);
      AppendAssociative(s.forwarded, [ErrorLevel(c)], OutputOf(rest));
    }
  }

  /** While the attempt waits, every stderr chunk's non-empty lines are captured, in arrival order. */
  lemma StderrCaptured(s: AttemptState, host: string, chunks: seq<string>)
    requires Consistent(s) && s.phase == Running && !s.responded
    ensures Admissible(s, host, StderrEvents(chunks))
    ensures var r := RunEvents(s, host, StderrEvents(chunks));
      r.stderr == s.stderr + CapturedLines(chunks) && !r.responded && Consistent(r) && r.phase == Running
      && r.result == s.result
  {
    StderrRun(s, host, chunks);
  }

  /** A running attempt stays running, forwards the chunk of an output event, and forwards nothing for any other event. */
  lemma DispatchForwards(s: AttemptState, host: string, e: Event)
    requires Consistent(s) && s.phase == Running && CanDispatch(s, e)
    ensures Dispatch(s, host, e).phase == Running
    ensures Dispatch(s, host, e).forwarded == s.forwarded + OutputOfEvent(e)
  {
  }

  /** Every stdout and stderr chunk is forwarded, in order, before and after the response. */
  lemma {:induction false} OutputForwarded(s: AttemptState, host: string, es: seq<Event>)
    requires Consistent(s) && s.phase == Running && Admissible(s, host, es)
    ensures RunEvents(s, host, es).forwarded == s.forwarded + OutputOf(es)
    decreases |es|
  {
    if es == [] {
      assert s.forwarded + [] == s.forwarded;
    } else {
      var next := Dispatch(s, host, es[0]);
      DispatchKeepsConsistent(s, host, es[0]);
      DispatchForwards(s, host, es[0]);
      OutputForwarded(next, host, es[1..]);
      assert OutputOf(es) == OutputOfEvent(es[0]) + OutputOf(es[1..]);
      AppendAssociative(s.forwarded, OutputOfEvent(es[0]), OutputOf(es[1..]));
    }
  }

  /** The data of the stderr events of `es`, in arrival order. */
  function StderrData(es: seq<Event>): (chunks: seq<string>)
    ensures |chunks| <= |es|
  {
    if es == [] then []
    else (if es[0].Stderr? then [es[0].data] else []) + StderrData(es[1..])
  }

  /** A stream made only of stderr chunks carries exactly those chunks. */
  lemma {:induction false} StderrDataOfChunks(chunks: seq<string>)
    ensures StderrData(StderrEvents(chunks)) == chunks
    decreases |chunks|
  {
    if chunks != [] {
      var es := StderrEvents(chunks);
      assert es[0] == Stderr(chunks[0]) && es[1..] == StderrEvents(chunks[1..]);
      StderrDataOfChunks(chunks[1..]);
    }
  }

  /**
   * While the attempt waits, whatever non-terminal events arrive (stdout,
   * stderr and `start`, in any order), the captured lines are those of the
   * stderr chunks among them, in arrival order.
   */
  lemma {:induction false} CaptureAnyPrefix(s: AttemptState, host: string, es: seq<Event>)
    requires Consistent(s) && s.phase == Running && !s.responded && Admissible(s, host, es)
    requires forall i :: 0 <= i < |es| ==> !IsTerminal(es[i])
    ensures RunEvents(s, host, es).stderr == s.stderr + CapturedLines(StderrData(es))
    decreases |es|
  {
    if es == [] {
      assert s.stderr + [] == s.stderr;
    } else {
      var next := Dispatch(s, host, es[0]);
      DispatchKeepsConsistent(s, host, es[0]);
      NonTerminalPrefixWaits(s, host, [es[0]]);
      assert RunEvents(s, host, [es[0]]) == next;
      CaptureAnyPrefix(next, host, es[1..]);
      assert RunEvents(s, host, es) == RunEvents(next, host, es[1..]);
      if es[0].Stderr? {
        var chunks := StderrData(es);
        assert chunks == [es[0].data] + StderrData(es[1..]);
        assert chunks[0] == es[0].data && chunks[1..] == StderrData(es[1..]);
        assert CapturedLines(chunks) == Lines(es[0].data) + CapturedLines(StderrData(es[1..]));
        AppendAssociative(s.stderr, Lines(es[0].data), CapturedLines(StderrData(es[1..])));
      } else {
        assert next.stderr == s.stderr;
        assert StderrData(es) == [] + StderrData(es[1..]) == StderrData(es[1..]);
      }
    }
  }

  /** The start record the first `start` event of `es` carries, if there is one. */
  function FirstStart(es: seq<Event>): Option<StartRecord>
  {
    if es == [] then None
    else if es[0].Start? then Some(StartRecord(es[0].monitor, es[0].monitor.child, es[0].meta))
    else FirstStart(es[1..])
  }

  /** Once the `start` listener has fired, no non-terminal event changes the start record. */
  lemma {:induction false} StartGone(s: AttemptState, host: string, es: seq<Event>)
    requires StartEvent !in s.drone && Admissible(s, host, es)
    requires forall i :: 0 <= i < |es| ==> !IsTerminal(es[i])
    ensures RunEvents(s, host, es).result == s.result
    decreases |es|
  {
    if es != [] {
      StartGone(Dispatch(s, host, es[0]), host, es[1..]);
    }
  }

  /**
   * While the `start` listener is armed and nothing has started, the record
   * after any non-terminal events is the one the first `start` among them carries.
   */
  lemma {:induction false} RecordAnyPrefix(s: AttemptState, host: string, es: seq<Event>)
    requires StartEvent in s.drone && s.result.None? && Admissible(s, host, es)
    requires forall i :: 0 <= i < |es| ==> !IsTerminal(es[i])
    ensures RunEvents(s, host, es).result == FirstStart(es)
    decreases |es|
  {
    if es != [] {
      var next := Dispatch(s, host, es[0]);
      if es[0].Start? {
        StartGone(next, host, es[1..]);
      } else {
        RecordAnyPrefix(next, host, es[1..]);
      }
    }
  }

  /**
   * A child that exits before reporting a port, after any mix of output and
   * `start` events: the caller gets one premature-exit error whose text is the
   * non-empty lines of the stderr chunks, joined with line breaks, and reads
   * back as exactly those lines.
   */
  lemma PrematureExitCarriesStderr(host: string, declaredStart: string, pre: seq<Event>, post: seq<Event>)
    requires forall i :: 0 <= i < |pre| ==> !IsTerminal(pre[i])
    requires Admissible(StatChecked(Initial(), true, declaredStart), host, pre + [Exit] + post)
    ensures var r := RunEvents(StatChecked(Initial(), true, declaredStart), host, pre + [Exit] + post);
      var lines := CapturedLines(StderrData(pre));
      r.deliveries == [Failure(PrematureExit(PrematureExitMessage, Join(lines, '\n')))]
      && Lines(r.deliveries[0].error.stderr) == lines
  {
    var s := StatChecked(Initial(), true, declaredStart);
    FirstTerminalWins(s, host, pre, Exit, post);
    CaptureAnyPrefix(s, host, pre);
    assert s.stderr + CapturedLines(StderrData(pre)) == CapturedLines(StderrData(pre));
    LinesOfJoin(CapturedLines(StderrData(pre)));
  }

  /**
   * A drone that reports a port after any mix of output and `start` events:
   * some `start` came first, and the caller gets that first start's record and
   * the spawner's host with the port.
   */
  lemma SuccessCarriesStartRecord(host: string, declaredStart: string, pre: seq<Event>, port: int, post: seq<Event>)
    requires forall i :: 0 <= i < |pre| ==> !IsTerminal(pre[i])
    requires Admissible(StatChecked(Initial(), true, declaredStart), host, pre + [CarapacePort(port)] + post)
    ensures FirstStart(pre).Some?
    ensures RunEvents(StatChecked(Initial(), true, declaredStart), host, pre + [CarapacePort(port)] + post).deliveries
            == [Success(FirstStart(pre).value, Socket(host, port))]
  {
    var s := StatChecked(Initial(), true, declaredStart);
    FirstTerminalWins(s, host, pre, CarapacePort(port), post);
    RecordAnyPrefix(s, host, pre);
  }

  /**
   * A missing start script: one error whose message is the fixed prefix
   * followed by the declared script, no listener armed, and no later event
   * has any effect.
   */
  lemma {:induction false} MissingScriptIsFinal(host: string, declaredStart: string, es: seq<Event>)
    ensures var s := StatChecked(Initial(), false, declaredStart);
      && s.deliveries == [Failure(ScriptNotFound(ScriptMissingPrefix + declaredStart))]
      && s.drone == {} && s.hook == {}
      && Admissible(s, host, es) && RunEvents(s, host, es) == s
    decreases |es|
  {
    var s := StatChecked(Initial(), false, declaredStart);
    if es != [] {
      assert Dispatch(s, host, es[0]) == s;
      MissingScriptIsFinal(host, declaredStart, es[1..]);
    }
  }
}
