/** internal/ocrunner/connect.go, composed with the daemon.

    The runner starts and stops the openconnect process on commands from the
    daemon and reports its start and end as events. Both hand-overs are over
    unbuffered channels: the daemon blocks until the runner takes a command, the
    runner blocks until the daemon takes an event. */
module Runner {
  import opened Wrappers
  import opened Prefixes
  import D = Daemon

  datatype Position = Select | SendConnect(pid: nat) | SendDisconnect

  /** command: a command object is held; alive: processes with a goroutine that
      waits for their end; exits: goroutines that want to signal an end. */
  datatype State = State(command: bool, at: Position, alive: nat, exits: nat)

  function Init(): State {
    State(false, Select, 0, 0)
  }

  /** handleConnect: the process is started, or fails to start. */
  function AfterConnect(r: State, started: bool, pid: nat): State {
    if r.command then r
    else if started then r.(command := true, at := SendConnect(pid))
    else r.(command := true, exits := r.exits + 1)
  }

  function AfterExit(r: State): State
    requires r.exits > 0
  {
    r.(command := false, exits := r.exits - 1, at := SendDisconnect)
  }

  class Connect {
    var command: bool
    var at: Position
    var alive: nat
    var exits: nat

    function View(): State
      reads this
    {
      State(command, at, alive, exits)
    }

    constructor ()
      ensures View() == Init()
    {
      command, at, alive, exits := false, Select, 0, 0;
    }

    /** Up to the blocking send of the connect event. */
    method HandleConnect(started: bool, pid: nat)
      requires at == Select
      modifies this
      ensures View() == AfterConnect(old(View()), started, pid)
    {
      if command {
        return;
      }
      command := true;
      if !started {
        exits := exits + 1;
        return;
      }
      at := SendConnect(pid);
    }

    /** After it: a goroutine waits for the end of the process. */
    method ConnectSent()
      requires at.SendConnect?
      modifies this
      ensures View() == old(View()).(at := Select, alive := old(alive) + 1)
    {
      at := Select;
      alive := alive + 1;
    }

    method HandleOCExit()
      requires at == Select && exits > 0
      modifies this
      ensures View() == AfterExit(old(View()))
    {
      exits := exits - 1;
      command := false;
      at := SendDisconnect;
    }
  }

  // ----- daemon and runner -----

  /** The daemon is in its select, or blocks handing a command to the runner;
      check: it checks policing after that. */
  datatype Mode = Ready | Handing(cmd: D.Command, check: bool)
  {
    predicate Hands(c: D.Command) {
      Handing? && cmd == c
    }
  }

  datatype Mark = HandOver | Up | Down

  /** log: connect commands handed over and events delivered, in order. */
  datatype System = System(d: D.State, mode: Mode, r: State, log: seq<Mark>)

  datatype Step =
    | DaemonEvent(ev: D.Event)
    | TakeStart(started: bool, pid: nat)
    | TakeStop
    | DeliverConnect
    | ProcessExit
    | TakeExit
    | DeliverDisconnect

  predicate Enabled(s: System, step: Step) {
    match step
    case DaemonEvent(ev) => s.mode.Ready? && !ev.RunnerConnect? && !ev.RunnerDisconnect?
    case TakeStart(_, _) => s.mode.Hands(D.StartProcess) && s.r.at.Select?
    case TakeStop => s.mode.Hands(D.StopProcess) && s.r.at.Select?
    case DeliverConnect => s.mode.Ready? && s.r.at.SendConnect?
    case ProcessExit => s.r.alive > 0
    case TakeExit => s.r.exits > 0 && s.r.at.Select?
    case DeliverDisconnect => s.mode.Ready? && s.r.at.SendDisconnect?
  }

  /** The daemon's state once it has handled its current event. */
  function Handled(s: System): D.State {
    if s.mode.Handing? && s.mode.check then D.Checked(s.d) else s.d
  }

  function Apply(s: System, step: Step): System {
    if !Enabled(s, step) then s
    else match step
         case DaemonEvent(ev) =>
           var cmd := D.CommandOf(s.d, ev);
           s.(d := D.AtCommand(s.d, ev),
              mode := if cmd.Some? then Handing(cmd.value, D.ChecksAfter(s.d, ev)) else Ready)
         case TakeStart(started, pid) =>
           s.(d := Handled(s), mode := Ready, r := AfterConnect(s.r, started, pid), log := s.log + [HandOver])
         case TakeStop => s.(d := Handled(s), mode := Ready)
         case DeliverConnect =>
           s.(d := D.Step(s.d, D.RunnerConnect(s.r.at.pid)), r := s.r.(at := Select, alive := s.r.alive + 1),
              log := s.log + [Up])
         case ProcessExit => s.(r := s.r.(alive := s.r.alive - 1, exits := s.r.exits + 1))
         case TakeExit => s.(r := AfterExit(s.r))
         case DeliverDisconnect =>
           s.(d := D.Step(s.d, D.RunnerDisconnect), r := s.r.(at := Select), log := s.log + [Down])
  }

  function Exec(s: System, steps: seq<Step>): System
    decreases |steps|
  {
    if steps == [] then s else Exec(Apply(s, steps[0]), steps[1..])
  }

  function Start(profile: D.Profile, base: set<Prefix>): System {
    System(D.Init(profile, base), Ready, Init(), [])
  }

  // ----- invariant -----

  datatype Phase = Quiet | Handed | IsUp | Broken

  function NextPhase(p: Phase, m: Mark): Phase {
    match (p, m)
    case (Quiet, HandOver) => Handed
    case (Handed, Up) => IsUp
    case (Handed, Down) => Quiet
    case (IsUp, Down) => Quiet
    case _ => Broken
  }

  function PhaseOf(log: seq<Mark>): Phase {
    if log == [] then Quiet else NextPhase(PhaseOf(log[..|log| - 1]), log[|log| - 1])
  }

  /** Processes started and not yet reported as ended. */
  function Outstanding(r: State): nat {
    r.alive + r.exits + if r.at.SendConnect? then 1 else 0
  }

  ghost predicate RunnerOk(r: State) {
    && Outstanding(r) == (if r.command then 1 else 0)
    && (r.at.SendDisconnect? ==> !r.command)
  }

  predicate Busy(r: State) {
    r.command || r.at.SendDisconnect?
  }

  ghost predicate LogOk(r: State, phase: Phase) {
    && phase != Broken
    && (Busy(r) <==> phase != Quiet)
    && (r.at.SendConnect? ==> phase == Handed)
    && (r.alive > 0 ==> phase == IsUp)
  }

  ghost predicate Inv(s: System) {
    D.Inv(Handled(s)) && Paired(s)
  }

  /** What daemon and runner know of each other. */
  ghost predicate Paired(s: System) {
    && RunnerOk(s.r) && LogOk(s.r, PhaseOf(s.log))
    && (s.mode.Hands(D.StartProcess) ==> !Busy(s.r))
    && (s.d.link.running <==> s.mode.Hands(D.StartProcess) || Busy(s.r))
  }

  lemma EventRunning(s: D.State, ev: D.Event)
    requires !ev.RunnerConnect? && !ev.RunnerDisconnect?
    ensures D.StepLink(s, ev).running <==> s.link.running || D.CommandOf(s, ev) == Some(D.StartProcess)
    ensures D.CommandOf(s, ev) == Some(D.StartProcess) ==> !s.link.running
  {}

  lemma LogAppend(log: seq<Mark>, m: Mark)
    ensures PhaseOf(log + [m]) == NextPhase(PhaseOf(log), m)
  {
    assert (log + [m])[..|log + [m]| - 1] == log;
  }

  /** An event has the effect of its handler, whatever comes between. */
  lemma EventHandled(s: System, ev: D.Event)
    requires Enabled(s, DaemonEvent(ev))
    ensures Handled(Apply(s, DaemonEvent(ev))) == D.Step(s.d, ev)
  {
    if D.ChecksAfter(s.d, ev) {
      D.CheckedAfterCommand(s.d, ev);
    }
  }

  lemma StepDaemonInv(s: System, step: Step)
    requires D.Inv(Handled(s))
    ensures D.Inv(Handled(Apply(s, step)))
  {
    if Enabled(s, step) {
      match step
      case DaemonEvent(ev) =>
        D.StepInv(s.d, ev);
        EventHandled(s, ev);
      case DeliverConnect => D.StepInv(s.d, D.RunnerConnect(s.r.at.pid));
      case DeliverDisconnect => D.StepInv(s.d, D.RunnerDisconnect);
      case _ => assert Handled(Apply(s, step)) == Handled(s);
    }
  }

  lemma EventPaired(s: System, ev: D.Event)
    requires Paired(s) && Enabled(s, DaemonEvent(ev))
    ensures Paired(Apply(s, DaemonEvent(ev)))
  {
    EventRunning(s.d, ev);
    var next := Apply(s, DaemonEvent(ev));
    assert next.r == s.r && next.log == s.log && next.d.link == D.StepLink(s.d, ev);
  }

  lemma StartPaired(s: System, started: bool, pid: nat)
    requires Paired(s) && Enabled(s, TakeStart(started, pid))
    ensures Paired(Apply(s, TakeStart(started, pid)))
  {
    LogAppend(s.log, HandOver);
    assert Handled(s).link == s.d.link;
  }

  lemma ConnectPaired(s: System)
    requires Paired(s) && Enabled(s, DeliverConnect)
    ensures Paired(Apply(s, DeliverConnect))
  {
    LogAppend(s.log, Up);
  }

  lemma DisconnectPaired(s: System)
    requires Paired(s) && Enabled(s, DeliverDisconnect)
    ensures Paired(Apply(s, DeliverDisconnect))
  {
    LogAppend(s.log, Down);
    assert !Apply(s, DeliverDisconnect).d.link.running;
  }

  /** The steps that neither log anything nor start anything. */
  lemma SilentPaired(s: System, step: Step)
    requires Paired(s) && Enabled(s, step) && (step.TakeStop? || step.ProcessExit? || step.TakeExit?)
    ensures Paired(Apply(s, step))
  {
    assert Handled(s).link == s.d.link && Apply(s, step).log == s.log;
  }

  lemma StepPaired(s: System, step: Step)
    requires Paired(s)
    ensures Paired(Apply(s, step))
  {
    if Enabled(s, step) {
      match step
      case DaemonEvent(ev) => EventPaired(s, ev);
      case TakeStart(started, pid) => StartPaired(s, started, pid);
      case DeliverConnect => ConnectPaired(s);
      case DeliverDisconnect => DisconnectPaired(s);
      case _ => SilentPaired(s, step);
    }
  }

  lemma StepInv(s: System, step: Step)
    requires Inv(s)
    ensures Inv(Apply(s, step))
  {
    StepDaemonInv(s, step);
    StepPaired(s, step);
  }

  lemma {:induction false} ExecInv(s: System, steps: seq<Step>)
    requires Inv(s)
    ensures Inv(Exec(s, steps))
    decreases |steps|
  {
    if steps != [] {
      StepInv(s, steps[0]);
      ExecInv(Apply(s, steps[0]), steps[1..]);
    }
  }

  lemma ReachableInv(profile: D.Profile, base: set<Prefix>, steps: seq<Step>)
    ensures Inv(Exec(Start(profile, base), steps))
  {
    D.InitInv(profile, base);
    ExecInv(Start(profile, base), steps);
  }

  /** The runner never holds a process when the daemon hands it a connect: the
      already-running branch of handleConnect is unreachable. */
  lemma NeverAlreadyRunning(profile: D.Profile, base: set<Prefix>, steps: seq<Step>)
    requires Exec(Start(profile, base), steps).mode.Hands(D.StartProcess)
    ensures var r := Exec(Start(profile, base), steps).r;
            !r.command && r.alive == 0 && r.exits == 0 && r.at == Select
  {
    ReachableInv(profile, base, steps);
  }

  /** The daemon flags openconnect as running exactly from its own hand-over of a
      connect until it has taken the disconnect event. */
  lemma RunningIsOutstanding(profile: D.Profile, base: set<Prefix>, steps: seq<Step>)
    ensures var s := Exec(Start(profile, base), steps);
            && Outstanding(s.r) <= 1
            && (s.d.link.running <==> s.mode.Hands(D.StartProcess) || Outstanding(s.r) == 1 || s.r.at.SendDisconnect?)
  {
    ReachableInv(profile, base, steps);
  }

  lemma {:induction false} PidKept(s: System, steps: seq<Step>, pid: nat)
    requires s.r.at == SendConnect(pid) && DeliverConnect !in steps
    ensures Exec(s, steps).r.at == SendConnect(pid)
    decreases |steps|
  {
    if steps != [] {
      PidKept(Apply(s, steps[0]), steps[1..], pid);
    }
  }

  /** A process that was started is shown with its PID when the daemon takes the
      connect event, whatever happens before. */
  lemma StartedPidShown(s: System, pid: nat, steps: seq<Step>)
    requires Inv(s) && Enabled(s, TakeStart(true, pid)) && DeliverConnect !in steps
    ensures var t := Exec(Apply(s, TakeStart(true, pid)), steps);
            t.mode.Ready? ==> && Enabled(t, DeliverConnect)
                              && var l := Apply(t, DeliverConnect).d.link; l.running && l.pid == pid
  {
    PidKept(Apply(s, TakeStart(true, pid)), steps, pid);
  }

  lemma {:induction false} PrefixNotBroken(log: seq<Mark>, k: nat)
    requires k <= |log| && PhaseOf(log) != Broken
    ensures PhaseOf(log[..k]) != Broken
    decreases |log|
  {
    if k == |log| {
      assert log[..k] == log;
    } else {
      assert log[..|log| - 1][..k] == log[..k];
      PrefixNotBroken(log[..|log| - 1], k);
    }
  }

  lemma PrefixStep(log: seq<Mark>, k: nat)
    requires k < |log|
    ensures PhaseOf(log[..k + 1]) == NextPhase(PhaseOf(log[..k]), log[k])
  {
    assert log[..k + 1] == log[..k] + [log[k]];
    LogAppend(log[..k], log[k]);
  }

  /** A mark in a log that is in order fits the marks before it. */
  lemma MarkFits(log: seq<Mark>, k: nat)
    requires PhaseOf(log) != Broken && k < |log|
    ensures PhaseOf(log[..k + 1]) == NextPhase(PhaseOf(log[..k]), log[k]) != Broken
  {
    PrefixStep(log, k);
    PrefixNotBroken(log, k + 1);
  }

  lemma BetweenHandOvers(log: seq<Mark>, i: nat, j: nat)
    requires PhaseOf(log) != Broken && i < j < |log| && log[i] == HandOver && log[j] == HandOver
    requires forall k | i < k < j :: log[k] != HandOver
    ensures log[i + 1..j] == [Down] || log[i + 1..j] == [Up, Down]
  {
    MarkFits(log, i);
    MarkFits(log, i + 1);
    MarkFits(log, j);
    if log[i + 1] == Up {
      MarkFits(log, i + 2);
      if i + 3 < j {
        MarkFits(log, i + 3);
      }
    } else if i + 2 < j {
      MarkFits(log, i + 2);
    }
  }

  /** Between two hand-overs there is at most one connect event, followed by
      exactly one disconnect event, even if the start of the process fails. */
  lemma EventsBetweenHandOvers(profile: D.Profile, base: set<Prefix>, steps: seq<Step>, i: nat, j: nat)
    requires var log := Exec(Start(profile, base), steps).log;
             && i < j < |log| && log[i] == HandOver && log[j] == HandOver
             && forall k | i < k < j :: log[k] != HandOver
    ensures var log := Exec(Start(profile, base), steps).log;
            log[i + 1..j] == [Down] || log[i + 1..j] == [Up, Down]
  {
    ReachableInv(profile, base, steps);
    BetweenHandOvers(Exec(Start(profile, base), steps).log, i, j);
  }

  // ----- when daemon and runner block each other -----

  predicate DaemonOrRunnerStep(step: Step) {
    !step.ProcessExit?
  }

  predicate Deadlocked(s: System) {
    s.mode.Hands(D.StopProcess) && !s.r.at.Select?
  }

  /** Daemon and runner can make no further step exactly when the daemon hands
      over a disconnect while the runner hands over an event. */
  lemma DeadlockIff(s: System)
    requires Inv(s)
    ensures (forall step | DaemonOrRunnerStep(step) :: !Enabled(s, step)) <==> Deadlocked(s)
  {
    match s.mode
    case Ready => assert Enabled(s, DaemonEvent(D.DBusDisconnect));
    case Handing(StartProcess, _) => assert Enabled(s, TakeStart(true, 0));
    case Handing(StopProcess, _) =>
      if s.r.at.Select? {
        assert Enabled(s, TakeStop);
      }
  }

  /** It lasts: whatever happens, daemon and runner stay where they are. */
  lemma {:induction false} DeadlockForEver(s: System, steps: seq<Step>)
    requires Deadlocked(s)
    ensures var t := Exec(s, steps);
            Deadlocked(t) && t.d == s.d && t.r.at == s.r.at && t.log == s.log
    decreases |steps|
  {
    if steps != [] {
      DeadlockForEver(Apply(s, steps[0]), steps[1..]);
    }
  }

  /** A disconnect of the daemon blocks at once exactly when the runner is about
      to hand over an event. */
  lemma BlocksAtOnceIff(s: System, ev: D.Event)
    requires Enabled(s, DaemonEvent(ev)) && D.CommandOf(s.d, ev) == Some(D.StopProcess)
    ensures Deadlocked(Apply(s, DaemonEvent(ev))) <==> !s.r.at.Select?
  {}

  /** What can happen while the daemon handles an event: it takes no other one. */
  ghost predicate NoOtherEvent(steps: seq<Step>) {
    forall i | 0 <= i < |steps| :: !steps[i].DaemonEvent?
  }

  lemma {:induction false} OnlyStopDeadlocks(s: System, steps: seq<Step>)
    requires !s.mode.Hands(D.StopProcess) && NoOtherEvent(steps)
    ensures !Exec(s, steps).mode.Hands(D.StopProcess)
    decreases |steps|
  {
    if steps != [] {
      assert forall i | 0 <= i < |steps[1..]| :: steps[1..][i] == steps[i + 1];
      OnlyStopDeadlocks(Apply(s, steps[0]), steps[1..]);
    }
  }

  /** The end of the process, signalled and taken before the disconnect is. */
  lemma ExitFirst(s: System) returns (steps: seq<Step>)
    requires Inv(s) && s.mode.Hands(D.StopProcess) && s.d.link.running
    ensures NoOtherEvent(steps) && Deadlocked(Exec(s, steps))
  {
    if !s.r.at.Select? {
      steps := [];
    } else if s.r.exits > 0 {
      steps := [TakeExit];
      assert Exec(s, steps) == Apply(s, TakeExit);
    } else {
      steps := [ProcessExit, TakeExit];
      assert steps[1..] == [TakeExit];
      assert Exec(s, steps) == Apply(Apply(s, ProcessExit), TakeExit);
    }
  }

  /** An event can end in a deadlock exactly when it makes the daemon hand over a
      disconnect; so with openconnect running, every disconnect can. */
  lemma CanDeadlockIff(s: System, ev: D.Event)
    requires Inv(s) && Enabled(s, DaemonEvent(ev))
    ensures (exists more :: NoOtherEvent(more) && Deadlocked(Exec(Apply(s, DaemonEvent(ev)), more))) <==>
            D.CommandOf(s.d, ev) == Some(D.StopProcess)
    ensures s.d.link.running ==> D.CommandOf(s.d, D.DBusDisconnect) == Some(D.StopProcess)
  {
    var next := Apply(s, DaemonEvent(ev));
    if D.CommandOf(s.d, ev) == Some(D.StopProcess) {
      StepInv(s, DaemonEvent(ev));
      EventRunning(s.d, ev);
      var more := ExitFirst(next);
    } else {
      forall more | NoOtherEvent(more)
        ensures !Deadlocked(Exec(next, more))
      {
        OnlyStopDeadlocks(next, more);
      }
    }
  }

  /** Such a state is reachable: a client disconnects before the connect event was taken. */
  lemma DeadlockReachable(profile: D.Profile, base: set<Prefix>, login: D.Login, pid: nat)
    requires login.Valid()
    ensures var steps := [DaemonEvent(D.DBusConnect(login)), TakeStart(true, pid), DaemonEvent(D.DBusDisconnect)];
            var s := Exec(Start(profile, base), steps);
            Deadlocked(s) && s.r.at == SendConnect(pid)
  {
    var steps := [DaemonEvent(D.DBusConnect(login)), TakeStart(true, pid), DaemonEvent(D.DBusDisconnect)];
    var s0 := Start(profile, base);
    var s1 := Apply(s0, steps[0]);
    var s2 := Apply(s1, steps[1]);
    assert steps[1..][0] == steps[1] && steps[1..][1..][0] == steps[2] && steps[1..][1..][1..] == [];
    assert Exec(s0, steps) == Exec(s1, steps[1..]) == Exec(s2, steps[1..][1..]) == Apply(s2, steps[2]);
  }
}
