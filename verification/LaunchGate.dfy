/** The launch gate: agentd and its launcher share a pipe of one byte, and the
    launcher starts the executor only once that byte comes. Every interleaving of
    the two, with agentd dying at any point. */
module LaunchGate {

  import opened Common

  // The group a launch makes, as the registry names it.
  datatype Group = Group(pgid: nat, start: string)

  const ReleaseByte: char := 'g'

  /** agentd, from the pipe on: the launcher is started, its start time read, the
      group recorded, the start reported, the byte written, the pipe's end closed.
      Failing: an error, the end not closed yet; Killing: closed, the group not
      killed yet. */
  datatype Agentd =
    | Piped | Spawned | Timed | Noted | Told | Written | Failing | Killing
    | Launched | NotLaunched | Dead

  datatype Launcher =
    | Unborn | Waiting
    | Read(byte: Option<char>)
    | Executing | Refused | Over | Killed

  /** writer: agentd's end of the pipe is open. ran: the executor started, once.
      reported: the platform took the attempt's start. */
  datatype State = State(agentd: Agentd, launcher: Launcher, pipe: seq<char>, writer: bool, ran: bool,
                         group: Group, registry: Option<Group>, reported: bool)

  predicate Init(s: State) {
    s.agentd == Piped && s.launcher == Unborn && s.pipe == [] && s.writer && !s.ran && s.registry.None? && !s.reported
  }

  // ---------- the steps of each ----------

  datatype Step =
    | Spawn(ok: bool)
    | ReadStart(ok: bool)
    | Record(written: bool, ok: bool)   // a write that fails may still have been made
    | Report(taken: bool, ok: bool)     // so may a report; stopped or without a lease it is not ok
    | Release(ok: bool)
    | Close(ok: bool)
    | CloseFailed
    | Kill
    | Crash
    | ReadByte                          // the launcher's read ends: the byte, or the end of the pipe
    | Judge(started: bool)
    | Exit

  predicate Enabled(s: State, st: Step) {
    match st
    case Spawn(_) => s.agentd.Piped?
    case ReadStart(_) => s.agentd.Spawned?
    case Record(written, ok) => s.agentd.Timed? && (ok ==> written)
    case Report(taken, ok) => s.agentd.Noted? && (ok ==> taken)
    case Release(_) => s.agentd.Told?
    case Close(_) => s.agentd.Written?
    case CloseFailed => s.agentd.Failing?
    case Kill => s.agentd.Killing?
    case Crash => !s.agentd.Dead?
    case ReadByte => s.launcher.Waiting? && (s.pipe != [] || !s.writer)
    case Judge(_) => s.launcher.Read?
    case Exit => s.launcher.Executing?
  }

  function Next(s: State, st: Step): State
    requires Enabled(s, st)
  {
    match st
    case Spawn(ok) => if ok then s.(agentd := Spawned, launcher := Waiting) else s.(agentd := NotLaunched, writer := false)
    case ReadStart(ok) => s.(agentd := if ok then Timed else Failing)
    case Record(written, ok) =>
      s.(agentd := if ok then Noted else Failing, registry := if written then Some(s.group) else s.registry)
    case Report(taken, ok) => s.(agentd := if ok then Told else Failing, reported := s.reported || taken)
    case Release(ok) =>
      if ok then s.(agentd := Written, pipe := s.pipe + [ReleaseByte]) else s.(agentd := Failing)
    case Close(ok) => s.(agentd := if ok then Launched else Killing, writer := false)
    case CloseFailed => s.(agentd := Killing, writer := false)
    case Kill => s.(agentd := NotLaunched, launcher := if s.launcher.Unborn? then Unborn else Killed)
    case Crash => s.(agentd := Dead, writer := false)
    case ReadByte =>
      if s.pipe == [] then s.(launcher := Read(None)) else s.(launcher := Read(Some(s.pipe[0])), pipe := s.pipe[1..])
    case Judge(started) =>
      if s.launcher.byte != Some(ReleaseByte) then s.(launcher := Refused)
      else if started then s.(launcher := Executing, ran := true)
      else s.(launcher := Over)
    case Exit => s.(launcher := Over)
  }

  // A run of the two: its states, and the steps between them.
  predicate Run(h: seq<State>, steps: seq<Step>) {
    |h| == |steps| + 1 && Init(h[0]) && forall i :: 0 <= i < |steps| ==> Moves(h, steps, i)
  }

  predicate Moves(h: seq<State>, steps: seq<Step>, i: nat)
    requires i < |steps| < |h|
  {
    Enabled(h[i], steps[i]) && h[i + 1] == Next(h[i], steps[i])
  }

  // ---------- what always holds ----------

  // The byte is on its way, or was read.
  predicate Released(s: State) {
    s.pipe != [] || s.launcher == Read(Some(ReleaseByte)) || s.ran || s.agentd.Written? || s.agentd.Launched?
  }

  predicate Sound(s: State) {
    && (s.registry.Some? ==> s.registry == Some(s.group))
    && (s.agentd.Noted? || s.agentd.Told? || Released(s) ==> s.registry == Some(s.group))
    && (s.agentd.Told? || Released(s) ==> s.reported)
    && (s.agentd.Piped? ==> s.pipe == [] && !s.ran && s.launcher.Unborn?)
    && (s.agentd.Spawned? || s.agentd.Timed? || s.agentd.Noted? || s.agentd.Told? || s.agentd.Failing? ==>
          s.pipe == [] && !s.ran && s.launcher.Waiting?)
    && (s.agentd.Piped? || s.agentd.Spawned? || s.agentd.Timed? || s.agentd.Noted? || s.agentd.Told? || s.agentd.Written? || s.agentd.Failing?
        <==> s.writer)
    && (s.agentd.NotLaunched? ==> s.launcher.Unborn? || s.launcher.Killed?)
    && (s.launcher.Executing? ==> s.ran)
    && (s.pipe == [] || s.pipe == [ReleaseByte])
    && (s.launcher.Read? && s.launcher.byte.Some? ==> s.launcher.byte == Some(ReleaseByte) && s.pipe == [])
    && (s.launcher.Read? && s.launcher.byte.None? ==> s.pipe == [] && !s.writer)
    && (s.launcher.Unborn? ==> s.pipe == [] && !s.ran)
  }

  lemma SoundStep(s: State, st: Step)
    requires Sound(s) && Enabled(s, st)
    ensures Sound(Next(s, st))
  {
  }

  lemma {:induction false} RunIsSound(h: seq<State>, steps: seq<Step>, i: nat)
    requires Run(h, steps) && i < |h|
    ensures Sound(h[i])
  {
    if i > 0 {
      RunIsSound(h, steps, i - 1);
      assert Moves(h, steps, i - 1);
      SoundStep(h[i - 1], steps[i - 1]);
    }
  }

  // ---------- the gate ----------

  /** An executor runs only when its group is in the registry and the platform knows
      it started, in every interleaving and wherever agentd dies. */
  lemma RunsOnlyRecorded(h: seq<State>, steps: seq<Step>, i: nat)
    requires Run(h, steps) && i < |h|
    ensures h[i].ran ==> h[i].registry == Some(h[i].group) && h[i].reported
  {
    RunIsSound(h, steps, i);
  }

  /** It runs only after the byte was written, and that only after the group was
      recorded and the start reported. */
  lemma {:induction false} RunsOnlyReleased(h: seq<State>, steps: seq<Step>, i: nat) returns (a: nat, b: nat, c: nat)
    requires Run(h, steps) && i < |h| && h[i].ran
    ensures a < b < c < i && steps[a] == Record(true, true) && steps[b] == Report(true, true) && steps[c] == Release(true)
  {
    c := ReleaseAt(h, steps, i);
    assert Moves(h, steps, c);
    b := ReportAt(h, steps, c);
    assert Moves(h, steps, b);
    a := RecordAt(h, steps, b);
  }

  lemma {:induction false} ReleaseAt(h: seq<State>, steps: seq<Step>, i: nat) returns (c: nat)
    requires Run(h, steps) && i < |h| && Released(h[i])
    ensures c < i && steps[c] == Release(true)
  {
    assert i > 0;
    assert Moves(h, steps, i - 1);
    RunIsSound(h, steps, i - 1);
    if steps[i - 1] == Release(true) {
      c := i - 1;
    } else {
      c := ReleaseAt(h, steps, i - 1);
    }
  }

  lemma {:induction false} ReportAt(h: seq<State>, steps: seq<Step>, i: nat) returns (b: nat)
    requires Run(h, steps) && i < |h| && h[i].agentd.Told?
    ensures b < i && steps[b] == Report(true, true)
  {
    assert Moves(h, steps, i - 1);
    if steps[i - 1].Report? {
      b := i - 1;
    } else {
      b := ReportAt(h, steps, i - 1);
    }
  }

  lemma {:induction false} RecordAt(h: seq<State>, steps: seq<Step>, i: nat) returns (a: nat)
    requires Run(h, steps) && i < |h| && h[i].agentd.Noted?
    ensures a < i && steps[a] == Record(true, true)
  {
    assert Moves(h, steps, i - 1);
    if steps[i - 1].Record? {
      a := i - 1;
    } else {
      a := RecordAt(h, steps, i - 1);
    }
  }

  /** agentd dying before it wrote the byte means the executor never runs, however
      the run goes on; so does a launch that failed before it. */
  lemma {:induction false} NeverRuns(h: seq<State>, steps: seq<Step>, i: nat, j: nat)
    requires Run(h, steps) && i <= j < |h|
    requires h[i].agentd.Dead? || h[i].agentd.NotLaunched? || h[i].agentd.Failing?
    requires !Released(h[i])
    ensures !h[j].ran && !Released(h[j])
  {
    if i < j {
      NeverRuns(h, steps, i, j - 1);
      NoWayBack(h, steps, i, j - 1);
      assert Moves(h, steps, j - 1);
      RunIsSound(h, steps, j - 1);
    }
  }

  // From there agentd writes no more.
  lemma {:induction false} NoWayBack(h: seq<State>, steps: seq<Step>, i: nat, j: nat)
    requires Run(h, steps) && i <= j < |h|
    requires h[i].agentd.Dead? || h[i].agentd.NotLaunched? || h[i].agentd.Failing?
    ensures h[j].agentd.Dead? || h[j].agentd.NotLaunched? || h[j].agentd.Failing? || h[j].agentd.Killing?
    decreases j
  {
    if i < j {
      NoWayBack(h, steps, i, j - 1);
      assert Moves(h, steps, j - 1);
    }
  }

  /** A launch that failed leaves neither launcher nor executor. */
  lemma FailedLeavesNothing(h: seq<State>, steps: seq<Step>, i: nat)
    requires Run(h, steps) && i < |h| && h[i].agentd.NotLaunched?
    ensures h[i].launcher.Unborn? || h[i].launcher.Killed?
  {
    RunIsSound(h, steps, i);
  }

  /** Once agentd is gone the launcher does not wait for ever: its read ends, and
      without the byte it refuses. */
  lemma OrphanEnds(h: seq<State>, steps: seq<Step>, i: nat)
    requires Run(h, steps) && i < |h| && h[i].agentd.Dead? && h[i].launcher.Waiting?
    ensures Enabled(h[i], ReadByte)
    ensures h[i].pipe == [] ==> Next(Next(h[i], ReadByte), Judge(true)).launcher == Refused
  {
    RunIsSound(h, steps, i);
  }

  lemma OneMore(h: seq<State>, steps: seq<Step>, st: Step) returns (g: seq<State>, more: seq<Step>)
    requires Run(h, steps) && Enabled(h[|h|-1], st)
    ensures Run(g, more) && g == h + [Next(h[|h|-1], st)] && more == steps + [st]
  {
    g, more := h + [Next(h[|h|-1], st)], steps + [st];
    forall i | 0 <= i < |more| ensures Moves(g, more, i) {
      assert i < |steps| ==> Moves(h, steps, i);
    }
  }

  /** The gate lets through: an undisturbed launch does run its executor. */
  lemma Undisturbed(group: Group) returns (h: seq<State>, steps: seq<Step>)
    ensures Run(h, steps) && h[|h|-1].ran && h[|h|-1].agentd.Launched?
  {
    h, steps := [State(Piped, Unborn, [], true, false, group, None, false)], [];
    h, steps := OneMore(h, steps, Spawn(true));
    h, steps := OneMore(h, steps, ReadStart(true));
    h, steps := OneMore(h, steps, Record(true, true));
    h, steps := OneMore(h, steps, Report(true, true));
    h, steps := OneMore(h, steps, Release(true));
    h, steps := OneMore(h, steps, Close(true));
    h, steps := OneMore(h, steps, ReadByte);
    h, steps := OneMore(h, steps, Judge(true));
  }
}
