/** Capture of a child process: exit status and two readers are awaited under
    one deadline, and the process group is killed unless everything finished. */
module Capture {
  import opened Common

  /** Largest process id `kill` can be given the negative of. */
  const I32_MAX: nat := 0x7fff_ffff

  /** Targets of the kills sent for a group: its negated id, when it is armed
      and fits a signed 32-bit process id. */
  function KillTargets(group: Option<nat>): seq<int>
  {
    if group.Some? && group.value <= I32_MAX then [-(group.value as int)] else []
  }

  lemma NothingToKill()
    ensures KillTargets(None) == []
  {
  }

  class OwnedProcessGroup {
    var groupId: Option<nat>
    /** Kills the operating system was asked for, in order. */
    var signals: seq<int>

    constructor (groupId: Option<nat>)
      ensures this.groupId == groupId && signals == []
    {
      this.groupId := groupId;
      signals := [];
    }

    method Disarm()
      modifies this
      ensures groupId == None && signals == old(signals)
    {
      groupId := None;
    }

    method Terminate()
      modifies this
      ensures groupId == None && signals == old(signals) + KillTargets(old(groupId))
    {
      var taken := groupId;
      groupId := None;
      if taken.Some? && taken.value <= I32_MAX {
        signals := signals + [-(taken.value as int)];
      }
    }

    method Drop()
      modifies this
      ensures groupId == None && signals == old(signals) + KillTargets(old(groupId))
    {
      Terminate();
    }
  }

  // ----- readers -----

  /** What the handle of a reader task yields. */
  datatype Joined<T> = Read(value: T) | ReadFailed(error: string) | JoinFailed(error: string)

  /** How a reader fares in its grace period: it reports in time, it is aborted
      and awaited, or the capture is dropped while it is still pending. */
  datatype Late<T> = InTime(result: Joined<T>) | TooLate | Unfinished

  datatype ReaderView<T> = ReaderView(done: bool, value: Option<T>, joined: bool, aborted: bool)

  function Recorded<T>(v: ReaderView<T>, result: Joined<T>): ReaderView<T>
  {
    match result
    case Read(x) => ReaderView(true, Some(x), true, v.aborted)
    case _ => ReaderView(true, v.value, true, v.aborted)
  }

  function Finished<T>(v: ReaderView<T>, late: Late<T>): ReaderView<T>
  {
    if v.done then v
    else match late
      case InTime(result) => Recorded(v, result)
      case TooLate => ReaderView(true, v.value, true, true)
      case Unfinished => v
  }

  function Released<T>(v: ReaderView<T>): ReaderView<T>
  {
    if v.done then v else v.(aborted := true)
  }

  /** A reader is done exactly when its task has yielded, and holds no value before. */
  predicate ReaderOk<T>(v: ReaderView<T>)
  {
    v.joined == v.done && (v.value.Some? ==> v.done)
  }

  class Reader<T> {
    var done: bool
    var value: Option<T>
    /** The task's handle has yielded; awaiting it again would panic. */
    var joined: bool
    var aborted: bool

    constructor ()
      ensures View() == ReaderView(false, None, false, false)
    {
      done, value, joined, aborted := false, None, false, false;
    }

    function View(): ReaderView<T>
      reads this
    {
      ReaderView(done, value, joined, aborted)
    }

    /** Takes what the handle has just yielded. */
    method Record(result: Joined<T>) returns (ok: Result<(), string>)
      requires !joined
      modifies this
      ensures View() == Recorded(old(View()), result)
      ensures ok.Ok? <==> result.Read?
      ensures ok.Err? ==> ok.error == result.error
    {
      joined := true;
      done := true;
      match result {
        case Read(x) =>
          value := Some(x);
          ok := Ok(());
        case ReadFailed(error) => ok := Err(error);
        case JoinFailed(error) => ok := Err(error);
      }
    }

    method FinishOrAbort(late: Late<T>) returns (taken: Option<T>)
      requires ReaderOk(View()) && (late.Unfinished? ==> done)
      modifies this
      ensures View() == Finished(old(View()), late).(value := None) && done && joined
      ensures taken == Finished(old(View()), late).value
    {
      if !done {
        match late {
          case InTime(result) => var ignored := Record(result);
          case TooLate =>
            aborted := true;
            joined := true;
            done := true;
        }
      }
      taken := value;
      value := None;
    }

    method Drop()
      modifies this
      ensures View() == Released(old(View()))
    {
      if !done { aborted := true; }
    }
  }

  // ----- the capture as a transition system -----

  datatype CaptureInterruption = Timeout | Signal(number: int)

  datatype ProcessCapture<T> =
    | Complete(status: int, stdout: T, stderr: T)
    | Interrupted(reason: CaptureInterruption, partialStdout: Option<T>, partialStderr: Option<T>)

  /** What is ready when the capture is polled; any of it may be ready at once. */
  datatype Ready<T> = Ready(
    signal: Option<int>,
    deadline: bool,
    exit: Option<Result<int, string>>,
    stdout: Option<Joined<T>>,
    stderr: Option<Joined<T>>)

  /** What happens after the loop was left: dropped while reaping the child, or
      both readers get their grace period. */
  datatype Drain<T> = DroppedReaping | Settling(stdout: Late<T>, stderr: Late<T>)

  datatype LoopState<T> = LoopState(status: Option<int>, stdout: ReaderView<T>, stderr: ReaderView<T>)

  /** One poll of the loop. */
  datatype Turn<T> =
    | Waiting
    | Looping(state: LoopState<T>)
    | Finishing(state: LoopState<T>)
    | Broke(state: LoopState<T>, reason: Result<CaptureInterruption, string>)

  datatype Ending<T> = Returned(capture: Result<ProcessCapture<T>, string>) | Dropped

  /** Whether a reader task was awaited to its end, and whether it was aborted. */
  datatype Fate = Fate(joined: bool, aborted: bool)

  function FateOf<T>(v: ReaderView<T>): Fate { Fate(v.joined, v.aborted) }

  /** How the capture ended, and what it did to the group and the reader tasks. */
  datatype Report<T> = Report(ending: Ending<T>, signals: seq<int>, stdout: Fate, stderr: Fate)

  function Start<T>(): LoopState<T>
  {
    LoopState(None, ReaderView(false, None, false, false), ReaderView(false, None, false, false))
  }

  /** After a step that did not break: all three done, or another round. */
  function Checked<T>(s: LoopState<T>): Turn<T>
  {
    if s.stdout.done && s.stderr.done && s.status.Some? then Finishing(s) else Looping(s)
  }

  /** The first enabled branch that is ready, in the order they are written. */
  function TurnOf<T>(s: LoopState<T>, ready: Ready<T>): Turn<T>
  {
    if ready.signal.Some? then Broke(s, Ok(Signal(ready.signal.value)))
    else if ready.deadline then Broke(s, Ok(Timeout))
    else if s.status.None? && ready.exit.Some? then
      match ready.exit.value
      case Ok(status) => Checked(s.(status := Some(status)))
      case Err(error) => Broke(s, Err(error))
    else if !s.stdout.done && ready.stdout.Some? then
      var t := s.(stdout := Recorded(s.stdout, ready.stdout.value));
      if ready.stdout.value.Read? then Checked(t) else Broke(t, Err(ready.stdout.value.error))
    else if !s.stderr.done && ready.stderr.Some? then
      var t := s.(stderr := Recorded(s.stderr, ready.stderr.value));
      if ready.stderr.value.Read? then Checked(t) else Broke(t, Err(ready.stderr.value.error))
    else Waiting
  }

  /** A state the loop can be in: what is done has its value, and not all is done. */
  predicate InLoop<T>(s: LoopState<T>)
  {
    && ReaderOk(s.stdout) && ReaderOk(s.stderr)
    && s.stdout.value.Some? == s.stdout.done && s.stderr.value.Some? == s.stderr.done
    && !(s.stdout.done && s.stderr.done && s.status.Some?)
  }

  /** How many of exit, stdout and stderr are still awaited. */
  function Pending<T>(s: LoopState<T>): nat
  {
    (if s.status.Some? then 0 else 1) + (if s.stdout.done then 0 else 1) + (if s.stderr.done then 0 else 1)
  }

  /** No step loses a value, both `expect`s find one, and a step that does not
      break leaves one thing less to wait for. */
  lemma TurnKeepsValues<T>(s: LoopState<T>, ready: Ready<T>)
    requires InLoop(s)
    ensures var turn := TurnOf(s, ready);
            && (turn.Looping? ==> InLoop(turn.state) && Pending(turn.state) == Pending(s) - 1)
            && (turn.Finishing? ==> turn.state.stdout.value.Some? && turn.state.stderr.value.Some? && turn.state.status.Some?)
            && (turn.Finishing? ==> turn.state.stdout.done && turn.state.stderr.done && Pending(s) == 1)
            && (turn.Broke? ==> ReaderOk(turn.state.stdout) && ReaderOk(turn.state.stderr))
  {
  }

  predicate StillOpen<T>(v: ReaderView<T>, late: Late<T>)
  {
    !v.done && late.Unfinished?
  }

  function DroppedReport<T>(group: Option<nat>, stdout: ReaderView<T>, stderr: ReaderView<T>): Report<T>
  {
    Report(Dropped, KillTargets(group), FateOf(Released(stdout)), FateOf(Released(stderr)))
  }

  function CompleteReport<T>(s: LoopState<T>): Report<T>
    requires s.status.Some? && s.stdout.value.Some? && s.stderr.value.Some?
  {
    var capture := Complete(s.status.value, s.stdout.value.value, s.stderr.value.value);
    Report(Returned(Ok(capture)), [], FateOf(s.stdout), FateOf(s.stderr))
  }

  /** What follows a broken loop: the group is terminated, then the readers get
      their grace period. */
  function Drained<T>(group: Option<nat>, s: LoopState<T>, reason: Result<CaptureInterruption, string>, drain: Drain<T>): Report<T>
  {
    match drain
    case DroppedReaping => DroppedReport(group, s.stdout, s.stderr)
    case Settling(out, err) =>
      var stdout, stderr := Finished(s.stdout, out), Finished(s.stderr, err);
      if StillOpen(s.stdout, out) || StillOpen(s.stderr, err) then DroppedReport(group, stdout, stderr)
      else
        var capture :=
          if reason.Err? then Err(reason.error) else Ok(Interrupted(reason.value, stdout.value, stderr.value));
        Report(Returned(capture), KillTargets(group), FateOf(stdout), FateOf(stderr))
  }

  /** A whole run: one poll after another until the capture ends or, with the
      polls used up, is dropped while it waits. */
  function Run<T>(group: Option<nat>, s: LoopState<T>, wakes: seq<Ready<T>>, drain: Drain<T>): Report<T>
    requires InLoop(s)
    decreases |wakes|
  {
    if wakes == [] then DroppedReport(group, s.stdout, s.stderr)
    else
      TurnKeepsValues(s, wakes[0]);
      match TurnOf(s, wakes[0])
      case Waiting => Run(group, s, wakes[1..], drain)
      case Looping(t) => Run(group, t, wakes[1..], drain)
      case Finishing(t) =>
        CompleteReport(t)
      case Broke(t, reason) => Drained(group, t, reason, drain)
  }

  predicate Completes<T>(r: Report<T>)
  {
    r.ending.Returned? && r.ending.capture.Ok? && r.ending.capture.value.Complete?
  }

  /** What a caller may rely on, however the capture ends. */
  predicate Honoured<T>(group: Option<nat>, r: Report<T>)
  {
    // The group is killed exactly once, unless the capture completed.
    && r.signals == (if Completes(r) then [] else KillTargets(group))
    // No reader task is left running.
    && (r.stdout.joined || r.stdout.aborted) && (r.stderr.joined || r.stderr.aborted)
    // Complete output comes from tasks that finished by themselves.
    && (Completes(r) ==> r.stdout == r.stderr == Fate(true, false))
  }

  predicate NeverAborted<T>(s: LoopState<T>)
  {
    !s.stdout.aborted && !s.stderr.aborted
  }

  lemma {:induction false} RunIsHonoured<T>(group: Option<nat>, s: LoopState<T>, wakes: seq<Ready<T>>, drain: Drain<T>)
    requires InLoop(s) && NeverAborted(s)
    ensures Honoured(group, Run(group, s, wakes, drain))
    decreases |wakes|
  {
    hide KillTargets;
    if wakes != [] {
      TurnKeepsValues(s, wakes[0]);
      match TurnOf(s, wakes[0])
      case Waiting => RunIsHonoured(group, s, wakes[1..], drain);
      case Looping(t) => RunIsHonoured(group, t, wakes[1..], drain);
      case _ =>
    }
  }

  /** Steps of the loop that do not break it. */
  function Steps<T>(s: LoopState<T>, wakes: seq<Ready<T>>): nat
    decreases |wakes|
  {
    if wakes == [] then 0
    else
      match TurnOf(s, wakes[0])
      case Waiting => Steps(s, wakes[1..])
      case Looping(t) => 1 + Steps(t, wakes[1..])
      case Finishing(_) => 1
      case Broke(_, _) => 0
  }

  /** At most three steps do not break the loop, and all three are what it
      takes to complete: exit, stdout and stderr, each once. */
  lemma {:induction false} CompleteTakesEveryStep<T>(
    group: Option<nat>, s: LoopState<T>, wakes: seq<Ready<T>>, drain: Drain<T>)
    requires InLoop(s)
    ensures Steps(s, wakes) <= Pending(s) <= 3
    ensures Completes(Run(group, s, wakes, drain)) <==> Steps(s, wakes) == Pending(s)
    decreases |wakes|
  {
    hide KillTargets;
    if wakes != [] {
      TurnKeepsValues(s, wakes[0]);
      match TurnOf(s, wakes[0])
      case Waiting => CompleteTakesEveryStep(group, s, wakes[1..], drain);
      case Looping(t) => CompleteTakesEveryStep(group, t, wakes[1..], drain);
      case _ =>
    }
  }

  predicate Interrupts<T>(ready: Ready<T>) { ready.signal.Some? || ready.deadline }

  /** The deadline is absolute: once it or a signal is ready, nothing that
      becomes ready later, or at the same time, changes how the capture ends. */
  lemma {:induction false} InterruptIsFinal<T>(
    group: Option<nat>, s: LoopState<T>, before: seq<Ready<T>>, last: Ready<T>, after: seq<Ready<T>>, drain: Drain<T>)
    requires InLoop(s) && Interrupts(last)
    ensures Run(group, s, before + [last] + after, drain) == Run(group, s, before + [Ready(last.signal, last.deadline, None, None, None)], drain)
    ensures Completes(Run(group, s, before + [last] + after, drain)) ==> Completes(Run(group, s, before, drain))
    decreases |before|
  {
    hide KillTargets;
    var wakes, bare := before + [last] + after, before + [Ready(last.signal, last.deadline, None, None, None)];
    if before == [] {
      assert wakes[0] == last;
    } else {
      assert wakes[0] == before[0] == bare[0];
      assert wakes[1..] == before[1..] + [last] + after;
      assert bare[1..] == before[1..] + [Ready(last.signal, last.deadline, None, None, None)];
      TurnKeepsValues(s, before[0]);
      match TurnOf(s, before[0])
      case Waiting => InterruptIsFinal(group, s, before[1..], last, after, drain);
      case Looping(t) => InterruptIsFinal(group, t, before[1..], last, after, drain);
      case _ =>
    }
  }

  ghost predicate SawExit<T>(wakes: seq<Ready<T>>, status: int)
  {
    exists ready <- wakes :: ready.exit == Some(Ok(status))
  }

  ghost predicate SawStdout<T>(wakes: seq<Ready<T>>, value: T)
  {
    exists ready <- wakes :: ready.stdout == Some(Read(value))
  }

  ghost predicate SawStderr<T>(wakes: seq<Ready<T>>, value: T)
  {
    exists ready <- wakes :: ready.stderr == Some(Read(value))
  }

  /** What is reported was observed: in the state the run set out from, in one
      of its polls, or in the reader's grace period. */
  ghost predicate Genuine<T>(s: LoopState<T>, wakes: seq<Ready<T>>, drain: Drain<T>, c: ProcessCapture<T>)
  {
    match c
    case Complete(status, out, err) =>
      && (s.status == Some(status) || SawExit(wakes, status))
      && (s.stdout.value == Some(out) || SawStdout(wakes, out))
      && (s.stderr.value == Some(err) || SawStderr(wakes, err))
    case Interrupted(reason, out, err) =>
      && drain.Settling?
      && (out.Some? ==> s.stdout.value == out || SawStdout(wakes, out.value) || drain.stdout == InTime(Read(out.value)))
      && (err.Some? ==> s.stderr.value == err || SawStderr(wakes, err.value) || drain.stderr == InTime(Read(err.value)))
      // An output read before the interruption is not lost.
      && (s.stdout.value.Some? ==> out == s.stdout.value) && (s.stderr.value.Some? ==> err == s.stderr.value)
      && (exists ready <- wakes :: if reason.Timeout? then ready.deadline else ready.signal == Some(reason.number))
  }

  lemma {:induction false} CaptureIsGenuine<T>(group: Option<nat>, s: LoopState<T>, wakes: seq<Ready<T>>, drain: Drain<T>)
    requires InLoop(s)
    ensures var r := Run(group, s, wakes, drain);
            r.ending.Returned? && r.ending.capture.Ok? ==> Genuine(s, wakes, drain, r.ending.capture.value)
    decreases |wakes|
  {
    hide KillTargets, Genuine, TurnOf, Drained;
    if wakes != [] {
      TurnKeepsValues(s, wakes[0]);
      var r := Run(group, s, wakes, drain);
      var returned := r.ending.Returned? && r.ending.capture.Ok?;
      match TurnOf(s, wakes[0])
      case Waiting =>
        CaptureIsGenuine(group, s, wakes[1..], drain);
        if returned { GenuineEarlier(s, s, wakes, drain, r.ending.capture.value); }
      case Looping(t) =>
        CaptureIsGenuine(group, t, wakes[1..], drain);
        if returned { GenuineEarlier(s, t, wakes, drain, r.ending.capture.value); }
      case Finishing(t) => GenuineNow(s, t, wakes, drain, r.ending.capture.value);
      case Broke(t, reason) =>
        if returned { BrokenIsGenuine(group, s, t, reason, wakes, drain, r.ending.capture.value); }
    }
  }

  lemma GenuineEarlier<T>(s: LoopState<T>, t: LoopState<T>, wakes: seq<Ready<T>>, drain: Drain<T>, c: ProcessCapture<T>)
    requires InLoop(s) && wakes != [] && Genuine(t, wakes[1..], drain, c)
    requires TurnOf(s, wakes[0]) == Looping(t) || s == t
    ensures Genuine(s, wakes, drain, c)
  {
    assert wakes == [wakes[0]] + wakes[1..];
  }

  lemma GenuineNow<T>(s: LoopState<T>, t: LoopState<T>, wakes: seq<Ready<T>>, drain: Drain<T>, c: ProcessCapture<T>)
    requires InLoop(s) && wakes != [] && TurnOf(s, wakes[0]) == Finishing(t)
    requires c.Complete? && t.status == Some(c.status) && t.stdout.value == Some(c.stdout) && t.stderr.value == Some(c.stderr)
    ensures Genuine(s, wakes, drain, c)
  {
    assert wakes[0] in wakes;
  }

  lemma BrokenIsGenuine<T>(
    group: Option<nat>, s: LoopState<T>, t: LoopState<T>, reason: Result<CaptureInterruption, string>,
    wakes: seq<Ready<T>>, drain: Drain<T>, c: ProcessCapture<T>)
    requires InLoop(s) && wakes != [] && TurnOf(s, wakes[0]) == Broke(t, reason)
    requires Drained(group, t, reason, drain).ending == Returned(Ok(c))
    ensures Genuine(s, wakes, drain, c)
  {
    hide KillTargets, SawStdout, SawStderr, SawExit;
    assert wakes[0] in wakes;
  }

  /** Terminates the group at once, then gives both readers their grace period. */
  method Settle<T>(
    group: OwnedProcessGroup, stdout: Reader<T>, stderr: Reader<T>,
    interrupted: Result<CaptureInterruption, string>, drain: Drain<T>) returns (report: Report<T>)
    requires stdout != stderr && ReaderOk(stdout.View()) && ReaderOk(stderr.View()) && group.signals == []
    modifies group, stdout, stderr
    ensures var s := LoopState(None, old(stdout.View()), old(stderr.View()));
            report == Drained(old(group.groupId), s, interrupted, drain)
    ensures report.signals == group.signals
  {
    hide KillTargets, Recorded;
    NothingToKill();
    group.Terminate();
    if drain.DroppedReaping? {
      group.Drop();
      stdout.Drop();
      stderr.Drop();
      return Report(Dropped, group.signals, FateOf(stdout.View()), FateOf(stderr.View()));
    }
    var waiting := StillOpen(stdout.View(), drain.stdout) || StillOpen(stderr.View(), drain.stderr);
    var fromStdout: Option<T>, fromStderr: Option<T> := None, None;
    if !StillOpen(stdout.View(), drain.stdout) { fromStdout := stdout.FinishOrAbort(drain.stdout); }
    if !StillOpen(stderr.View(), drain.stderr) { fromStderr := stderr.FinishOrAbort(drain.stderr); }
    stdout.Drop();
    stderr.Drop();
    group.Drop();
    var ending: Ending<T> :=
      if waiting then Dropped
      else if interrupted.Err? then Returned(Err(interrupted.error))
      else Returned(Ok(Interrupted(interrupted.value, fromStdout, fromStderr)));
    report := Report(ending, group.signals, FateOf(stdout.View()), FateOf(stderr.View()));
  }

  /** The status plays no part once the loop is broken. */
  lemma DrainedIgnoresStatus<T>(group: Option<nat>, s: LoopState<T>, reason: Result<CaptureInterruption, string>, drain: Drain<T>)
    ensures Drained(group, s, reason, drain) == Drained(group, LoopState(None, s.stdout, s.stderr), reason, drain)
  {
  }

  lemma OpenRun<T>(group: Option<nat>, s: LoopState<T>, wakes: seq<Ready<T>>, i: nat, drain: Drain<T>)
    requires InLoop(s) && i < |wakes|
    ensures var turn, r := TurnOf(s, wakes[i]), Run(group, s, wakes[i..], drain);
            && (turn.Waiting? ==> r == Run(group, s, wakes[i + 1..], drain))
            && (turn.Looping? ==> InLoop(turn.state) && r == Run(group, turn.state, wakes[i + 1..], drain))
            && (turn.Finishing? ==>
                  && turn.state.status.Some? && turn.state.stdout.value.Some? && turn.state.stderr.value.Some?
                  && turn.state.stdout.done && turn.state.stderr.done
                  && r == CompleteReport(turn.state))
            && (turn.Broke? ==>
                  && ReaderOk(turn.state.stdout) && ReaderOk(turn.state.stderr)
                  && r == Drained(group, LoopState(None, turn.state.stdout, turn.state.stderr), turn.reason, drain))
  {
    hide TurnOf, InLoop, Drained;
    assert wakes[i..][0] == wakes[i] && wakes[i..][1..] == wakes[i + 1..];
    TurnKeepsValues(s, wakes[i]);
    if TurnOf(s, wakes[i]).Broke? {
      DrainedIgnoresStatus(group, TurnOf(s, wakes[i]).state, TurnOf(s, wakes[i]).reason, drain);
    }
  }

  lemma OpenDropped<T>(group: Option<nat>, s: LoopState<T>, drain: Drain<T>)
    requires InLoop(s)
    ensures Run(group, s, [], drain) == DroppedReport(group, s.stdout, s.stderr)
  {
  }

  /** What one poll of the loop's branches did. */
  datatype Polled = Pended | Stepped | Stopped(reason: Result<CaptureInterruption, string>)

  /** Takes the first enabled branch that is ready. */
  method Select<T>(status: Option<int>, stdout: Reader<T>, stderr: Reader<T>, ready: Ready<T>)
      returns (now: Option<int>, polled: Polled)
    requires stdout != stderr && InLoop(LoopState(status, stdout.View(), stderr.View()))
    modifies stdout, stderr
    ensures var turn := TurnOf(LoopState(status, old(stdout.View()), old(stderr.View())), ready);
            var s := LoopState(now, stdout.View(), stderr.View());
            match polled
            case Pended => turn.Waiting? && s == LoopState(status, old(stdout.View()), old(stderr.View()))
            case Stepped => turn == Checked(s)
            case Stopped(reason) => turn == Broke(s, reason)
  {
    now, polled := status, Stepped;
    if ready.signal.Some? {
      polled := Stopped(Ok(Signal(ready.signal.value)));
    } else if ready.deadline {
      polled := Stopped(Ok(Timeout));
    } else if status.None? && ready.exit.Some? {
      match ready.exit.value {
        case Ok(value) => now := Some(value);
        case Err(error) => polled := Stopped(Err(error));
      }
    } else if !stdout.done && ready.stdout.Some? {
      var recorded := stdout.Record(ready.stdout.value);
      if recorded.Err? { polled := Stopped(Err(recorded.error)); }
    } else if !stderr.done && ready.stderr.Some? {
      var recorded := stderr.Record(ready.stderr.value);
      if recorded.Err? { polled := Stopped(Err(recorded.error)); }
    } else {
      polled := Pended;
    }
  }

  method CaptureProcess<T>(childId: Option<nat>, wakes: seq<Ready<T>>, drain: Drain<T>) returns (report: Report<T>)
    ensures report == Run(childId, Start(), wakes, drain)
    ensures Honoured(childId, report)
  {
    hide Honoured, Run, Drained, TurnOf;
    RunIsHonoured(childId, Start<T>(), wakes, drain);
    var group := new OwnedProcessGroup(childId);
    var stdout := new Reader<T>();
    var stderr := new Reader<T>();
    var status: Option<int> := None;
    var interrupted: Result<CaptureInterruption, string>;
    ghost var whole := Run(childId, Start<T>(), wakes, drain);
    var polls := 0;
    while true
      invariant 0 <= polls <= |wakes|
      invariant group.groupId == childId && group.signals == []
      invariant InLoop(LoopState(status, stdout.View(), stderr.View()))
      invariant whole == Run(childId, LoopState(status, stdout.View(), stderr.View()), wakes[polls..], drain)
      decreases |wakes| - polls
    {
      if polls == |wakes| {
        assert wakes[polls..] == [];
        OpenDropped(childId, LoopState(status, stdout.View(), stderr.View()), drain);
        group.Drop();
        stdout.Drop();
        stderr.Drop();
        return Report(Dropped, group.signals, FateOf(stdout.View()), FateOf(stderr.View()));
      }
      OpenRun(childId, LoopState(status, stdout.View(), stderr.View()), wakes, polls, drain);
      var polled;
      status, polled := Select(status, stdout, stderr, wakes[polls]);
      polls := polls + 1;
      if polled.Stopped? {
        interrupted := polled.reason;
        break;
      }
      if polled.Stepped? && stdout.done && stderr.done && status.Some? {
        group.Disarm();
        var capture := Complete(status.value, stdout.value.value, stderr.value.value);
        group.Drop();
        return Report(Returned(Ok(capture)), group.signals, FateOf(stdout.View()), FateOf(stderr.View()));
      }
    }
    report := Settle(group, stdout, stderr, interrupted, drain);
  }
}
