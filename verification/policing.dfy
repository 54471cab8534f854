/** The traffic policing protocol: daemon, TrafPol main loop, captive portal
    detection and resolver as processes that meet over unbuffered channels,
    before anything is stopped.

    A step is a process's own work up to its next blocking point, or one
    hand-over between two of them. */
module Policing {
  import opened Prefixes
  import C = Cpd
  import R = Resolver
  import TP = TrafPol

  datatype Command = AddAddress(ip: Addr) | RemoveAddress(ip: Addr) | GetState

  /** The daemon in its select; sending a command; waiting for its done channel. */
  datatype Mode = Ready | Calling(cmd: Command) | Waiting(cmd: Command)

  /** portal: a captive portal is shown in the status; ok: result of the last command. */
  datatype DaemonSide = DaemonSide(mode: Mode, portal: bool, ok: bool)

  /** TrafPol in its select; in handleDNSUpdate before the resolver, then before
      CPD was told; in handleCPDReport before the resolver was told; in a command. */
  datatype Position = Select | TellResolver | TellCpd | TellResolverPortal | InCommand(cmd: Command)

  /** pending: a status is to be sent and reports are not read meanwhile.
      consumed: all reports read; delivered: all statuses taken by the daemon;
      dns: number of DNS updates taken. */
  datatype TrafSide = TrafSide(at: Position, policy: TP.Policy, pending: bool, consumed: seq<bool>,
                               delivered: seq<bool>, dns: nat)

  datatype System = System(d: DaemonSide, t: TrafSide, c: C.State, r: R.State)

  datatype Step =
    | DaemonCall(cmd: Command)
    | TakeCommand
    | FinishCommand
    | DnsUpdate
    | ResolverTold(order: seq<string>)
    | CpdTold
    | ReadReport
    | SendStatus
    | TakeResolved(u: nat, i: nat)
    | CpdStep(cs: C.Step)
    | ResolverStep(rs: R.Step)

  function Start(configured: set<Prefix>, names: set<string>): System {
    System(DaemonSide(Ready, false, false),
           TrafSide(Select, TP.New(configured, map n | n in names :: []), false, [], [], 0),
           C.Init(), R.Init(names))
  }

  ghost predicate Enabled(cfg: R.Config, s: System, step: Step) {
    match step
    case DaemonCall(_) => s.d.mode.Ready?
    case TakeCommand => s.d.mode.Calling? && s.t.at.Select?
    case FinishCommand => s.t.at.InCommand? && s.d.mode.Waiting?
    case DnsUpdate => s.t.at.Select?
    case ResolverTold(order) =>
      (s.t.at.TellResolver? || s.t.at.TellResolverPortal?) && R.Enabled(cfg, s.r, R.TakeCommand(order))
    case CpdTold => s.t.at.TellCpd? && C.Enabled(s.c, C.TakeRequest)
    case ReadReport => s.t.at.Select? && !s.t.pending && C.Enabled(s.c, C.ReportTaken)
    case SendStatus => s.t.at.Select? && s.t.pending && s.d.mode.Ready?
    case TakeResolved(u, i) => s.t.at.Select? && R.Enabled(cfg, s.r, R.Handed(u, i))
    case CpdStep(cs) => (cs.TimerFires? || cs.CheckDone? || cs.TakeReport?) && C.Enabled(s.c, cs)
    case ResolverStep(rs) => !rs.TakeCommand? && !rs.Handed? && R.Enabled(cfg, s.r, rs)
  }

  function Executed(p: TP.Policy, cmd: Command): TP.Policy {
    match cmd
    case AddAddress(ip) => TP.Allow(p, ip)
    case RemoveAddress(ip) => TP.Disallow(p, ip)
    case GetState => p
  }

  function Result(p: TP.Policy, cmd: Command): bool {
    match cmd
    case AddAddress(ip) => Single(ip) !in p.addrs
    case RemoveAddress(ip) => Single(ip) in p.addrs
    case GetState => false
  }

  /** handleCPDReport: at once, or up to the call of the resolver. */
  function ReadBy(t: TrafSide, detected: bool): TrafSide {
    var u := t.(consumed := t.consumed + [detected]);
    if detected == u.policy.capPortal then u
    else if detected then u.(policy := TP.WithPortal(u.policy, true), pending := true)
    else u.(at := TellResolverPortal)
  }

  function ResolverToldBy(t: TrafSide): TrafSide {
    if t.at.TellResolver? then t.(at := TellCpd)
    else t.(at := Select, policy := TP.WithPortal(t.policy, false), pending := true)
  }

  ghost function Apply(cfg: R.Config, s: System, step: Step): System {
    if !Enabled(cfg, s, step) then s
    else match step
         case DaemonCall(cmd) => s.(d := s.d.(mode := Calling(cmd)))
         case TakeCommand => s.(d := s.d.(mode := Waiting(s.d.mode.cmd)), t := s.t.(at := InCommand(s.d.mode.cmd)))
         case FinishCommand =>
           s.(t := s.t.(at := Select, policy := Executed(s.t.policy, s.t.at.cmd)),
              d := s.d.(mode := Ready, ok := Result(s.t.policy, s.t.at.cmd)))
         case DnsUpdate => s.(t := s.t.(at := TellResolver, dns := s.t.dns + 1))
         case ResolverTold(order) => s.(t := ResolverToldBy(s.t), r := R.Apply(cfg, s.r, R.TakeCommand(order)))
         case CpdTold => s.(t := s.t.(at := Select), c := C.Apply(s.c, C.TakeRequest))
         case ReadReport => s.(t := ReadBy(s.t, s.c.at.detected), c := C.Apply(s.c, C.ReportTaken))
         case SendStatus =>
           s.(t := s.t.(pending := false, delivered := s.t.delivered + [s.t.policy.capPortal]),
              d := s.d.(portal := s.t.policy.capPortal))
         case TakeResolved(u, i) =>
           var w := R.WorkerAt(s.r, u, i);
           s.(t := s.t.(policy := TP.WithName(s.t.policy, w.name, w.ips)), r := R.Apply(cfg, s.r, R.Handed(u, i)))
         case CpdStep(cs) => s.(c := C.Apply(s.c, cs))
         case ResolverStep(rs) => s.(r := R.Apply(cfg, s.r, rs))
  }

  ghost function Exec(cfg: R.Config, s: System, steps: seq<Step>): System
    decreases |steps|
  {
    if steps == [] then s else Exec(cfg, Apply(cfg, s, steps[0]), steps[1..])
  }

  // ----- statuses are the change points of the reports -----

  function Current(reports: seq<bool>): bool {
    reports != [] && reports[|reports| - 1]
  }

  /** The reports that differ from the one before; before the first there is no portal. */
  function Changes(reports: seq<bool>): seq<bool> {
    if reports == [] then []
    else
      var before, last := reports[..|reports| - 1], reports[|reports| - 1];
      if last == Current(before) then Changes(before) else Changes(before) + [last]
  }

  lemma ChangesAppend(reports: seq<bool>, b: bool)
    ensures Changes(reports + [b]) == if b == Current(reports) then Changes(reports) else Changes(reports) + [b]
    ensures Current(reports + [b]) == b
  {
    assert (reports + [b])[..|reports + [b]| - 1] == reports;
  }

  lemma {:induction false} ChangesAlternate(reports: seq<bool>)
    ensures forall i | 0 <= i < |Changes(reports)| :: Changes(reports)[i] == (i % 2 == 0)
    ensures Current(Changes(reports)) == Current(reports)
    ensures |Changes(reports)| % 2 == (if Current(reports) then 1 else 0)
    decreases |reports|
  {
    if reports != [] {
      ChangesAlternate(reports[..|reports| - 1]);
    }
  }

  /** The reports whose effect on the policy is complete. */
  function Settled(t: TrafSide): seq<bool> {
    if t.at.TellResolverPortal? && t.consumed != [] then t.consumed[..|t.consumed| - 1] else t.consumed
  }

  ghost predicate PortalOk(t: TrafSide) {
    && t.policy.capPortal == Current(Settled(t))
    && t.delivered + (if t.pending then [t.policy.capPortal] else []) == Changes(Settled(t))
    && (t.at.TellResolverPortal? ==> t.consumed != [] && !Current(t.consumed) && t.policy.capPortal && !t.pending)
  }

  ghost predicate TrafOk(t: TrafSide) {
    PortalOk(t) && TP.HostsExact(t.policy) && t.policy.ports == t.policy.capPortal
  }

  /** The name's addresses are being handed over. */
  ghost predicate InFlight(r: R.State, name: string) {
    exists u, i :: R.HasWorker(r, u, i) && R.WorkerAt(r, u, i).Sending? && R.WorkerAt(r, u, i).name == name
  }

  /** Resolver and policy agree on every name whose update is not in flight. */
  ghost predicate NamesAgree(r: R.State, names: map<string, seq<Addr>>) {
    && r.names.Keys == names.Keys
    && forall n | n in names :: names[n] == r.names[n].ips || InFlight(r, n)
  }

  ghost predicate DaemonOk(s: System) {
    && (s.t.at.InCommand? <==> s.d.mode.Waiting?)
    && (s.t.at.InCommand? ==> s.t.at.cmd == s.d.mode.cmd)
    && s.d.portal == Current(s.t.delivered)
  }

  /** Every DNS update is passed on once to the resolver and once to CPD, and
      every end of a portal once to the resolver. */
  ghost predicate ToldOk(s: System) {
    && |s.c.requests| == s.t.dns - (if s.t.at.TellResolver? || s.t.at.TellCpd? then 1 else 0)
    && |s.r.requests| == s.t.dns - (if s.t.at.TellResolver? then 1 else 0) + |Changes(Settled(s.t))| / 2
  }

  ghost predicate Inv(s: System) {
    && C.Inv(s.c) && C.ReportsOk(s.c) && s.t.consumed == s.c.delivered
    && R.Inv(s.r) && TrafOk(s.t) && NamesAgree(s.r, s.t.policy.names) && DaemonOk(s)
    && ToldOk(s)
  }

  lemma ReadOk(t: TrafSide, detected: bool)
    requires TrafOk(t) && t.at.Select? && !t.pending
    ensures TrafOk(ReadBy(t, detected))
  {
    ChangesAppend(t.consumed, detected);
    assert (t.consumed + [detected])[..|t.consumed|] == t.consumed;
    TP.HandlersKeepFilter(t.policy, TP.PortalReport(true));
  }

  lemma ResolverToldOk(t: TrafSide)
    requires TrafOk(t) && (t.at.TellResolver? || t.at.TellResolverPortal?)
    ensures TrafOk(ResolverToldBy(t))
  {
    TP.HandlersKeepFilter(t.policy, TP.PortalReport(false));
    if t.at.TellResolverPortal? {
      var before := Settled(t);
      assert t.consumed == before + [false];
      ChangesAppend(before, false);
    }
  }

  lemma CommandOk(t: TrafSide)
    requires TrafOk(t) && t.at.InCommand?
    ensures TrafOk(t.(at := Select, policy := Executed(t.policy, t.at.cmd)))
  {
    match t.at.cmd
    case AddAddress(ip) => TP.HandlersKeepFilter(t.policy, TP.AddAddr(ip));
    case RemoveAddress(ip) => TP.HandlersKeepFilter(t.policy, TP.RemoveAddr(ip));
    case GetState =>
  }

  lemma ResolvedOk(t: TrafSide, name: string, ips: seq<Addr>)
    requires TrafOk(t)
    ensures TrafOk(t.(policy := TP.WithName(t.policy, name, ips)))
  {
    TP.HandlersKeepFilter(t.policy, TP.NameUpdate(name, ips));
  }

  lemma StepTrafOk(cfg: R.Config, s: System, step: Step)
    requires TrafOk(s.t) && DaemonOk(s)
    ensures TrafOk(Apply(cfg, s, step).t)
  {
    if Enabled(cfg, s, step) {
      match step
      case FinishCommand => CommandOk(s.t);
      case ResolverTold(_) => ResolverToldOk(s.t);
      case ReadReport => ReadOk(s.t, s.c.at.detected);
      case TakeResolved(u, i) => ResolvedOk(s.t, R.WorkerAt(s.r, u, i).name, R.WorkerAt(s.r, u, i).ips);
      case _ =>
    }
  }

  /** The resolver's own steps keep the agreement: they change a name's addresses
      only by putting it in flight. */
  lemma ResolverKeepsAgreement(cfg: R.Config, r: R.State, rs: R.Step, names: map<string, seq<Addr>>)
    requires R.Inv(r) && NamesAgree(r, names) && !rs.Handed?
    ensures NamesAgree(R.Apply(cfg, r, rs), names)
  {
    var next := R.Apply(cfg, r, rs);
    forall n | n in names
      ensures n in next.names && (names[n] == next.names[n].ips || InFlight(next, n))
    {
      if InFlight(r, n) {
        var u, i :| R.HasWorker(r, u, i) && R.WorkerAt(r, u, i).Sending? && R.WorkerAt(r, u, i).name == n;
        StaysInFlight(cfg, r, rs, u, i);
      } else if R.Enabled(cfg, r, rs) && rs.Answered? && R.WorkerAt(r, rs.u, rs.i).name == n {
        assert R.HasWorker(next, rs.u, rs.i);
        if next.names[n].ips != r.names[n].ips {
          assert R.WorkerAt(next, rs.u, rs.i).Sending? && R.WorkerAt(next, rs.u, rs.i).name == n;
        }
      }
    }
  }

  lemma StaysInFlight(cfg: R.Config, r: R.State, rs: R.Step, u: nat, i: nat)
    requires |r.updates| <= 1 && !rs.Handed? && R.HasWorker(r, u, i) && R.WorkerAt(r, u, i).Sending?
    ensures var next := R.Apply(cfg, r, rs);
            R.HasWorker(next, u, i) && R.WorkerAt(next, u, i) == R.WorkerAt(r, u, i)
  {
    assert R.WorkerAt(r, u, i) in r.updates[u].workers;
    if R.Enabled(cfg, r, rs) {
      if R.IsWorkerStep(rs) {
        R.OtherWorkersKept(cfg, r, rs, u, i);
      } else {
        assert !rs.TakeDone?;
        assert r.updates <= R.Apply(cfg, r, rs).updates;
      }
    }
  }

  /** A hand-over takes the name out of flight, and then the two agree on it. */
  lemma HandOverAgrees(cfg: R.Config, r: R.State, u: nat, i: nat, names: map<string, seq<Addr>>)
    requires R.Inv(r) && NamesAgree(r, names) && R.Enabled(cfg, r, R.Handed(u, i))
    ensures var w := R.WorkerAt(r, u, i);
            NamesAgree(R.Apply(cfg, r, R.Handed(u, i)), names[w.name := w.ips])
  {
    var w := R.WorkerAt(r, u, i);
    var next := R.Apply(cfg, r, R.Handed(u, i));
    var names' := names[w.name := w.ips];
    assert r.updates[u] in r.updates && w in r.updates[u].workers;
    assert w.name in r.names && names'.Keys == names.Keys;
    forall n | n in names' && n != w.name && InFlight(r, n)
      ensures InFlight(next, n)
    {
      var v, j :| R.HasWorker(r, v, j) && R.WorkerAt(r, v, j).Sending? && R.WorkerAt(r, v, j).name == n;
      assert R.HasWorker(next, v, j) && R.WorkerAt(next, v, j) == R.WorkerAt(r, v, j);
    }
  }

  lemma StepNamesAgree(cfg: R.Config, s: System, step: Step)
    requires Inv(s)
    ensures NamesAgree(Apply(cfg, s, step).r, Apply(cfg, s, step).t.policy.names)
  {
    if Enabled(cfg, s, step) {
      match step
      case ResolverTold(order) => ResolverKeepsAgreement(cfg, s.r, R.TakeCommand(order), s.t.policy.names);
      case ResolverStep(rs) => ResolverKeepsAgreement(cfg, s.r, rs, s.t.policy.names);
      case TakeResolved(u, i) => HandOverAgrees(cfg, s.r, u, i, s.t.policy.names);
      case _ =>
    }
  }

  lemma StepDaemonOk(cfg: R.Config, s: System, step: Step)
    requires Inv(s)
    ensures DaemonOk(Apply(cfg, s, step))
  {}

  lemma CpdRequestsKept(c: C.State, cs: C.Step)
    requires !cs.TakeRequest?
    ensures C.Apply(c, cs).requests == c.requests
  {}

  lemma ResolverRequestsKept(cfg: R.Config, r: R.State, rs: R.Step)
    requires !rs.TakeCommand?
    ensures R.Apply(cfg, r, rs).requests == r.requests
  {}

  lemma CommandCounted(cfg: R.Config, r: R.State, order: seq<string>)
    requires R.FlagsOk(r) && R.Enabled(cfg, r, R.TakeCommand(order))
    ensures |R.Apply(cfg, r, R.TakeCommand(order)).requests| == |r.requests| + 1
  {
    assert r.clock + 1 !in r.requests;
    assert |r.requests + {r.clock + 1}| == |r.requests| + 1;
  }

  lemma ResolverToldOnce(cfg: R.Config, s: System, order: seq<string>)
    requires R.FlagsOk(s.r) && PortalOk(s.t) && ToldOk(s) && Enabled(cfg, s, ResolverTold(order))
    ensures ToldOk(Apply(cfg, s, ResolverTold(order)))
  {
    CommandCounted(cfg, s.r, order);
    if s.t.at.TellResolverPortal? {
      var before := Settled(s.t);
      assert s.t.consumed == before + [false];
      ChangesAlternate(before);
      ChangesAppend(before, false);
    }
  }

  lemma CpdToldOnce(cfg: R.Config, s: System)
    requires Inv(s) && Enabled(cfg, s, CpdTold)
    ensures ToldOk(Apply(cfg, s, CpdTold))
  {
    assert s.c.clock + 1 !in s.c.requests;
    assert |s.c.requests + {s.c.clock + 1}| == |s.c.requests| + 1;
  }

  lemma ReadTellsNobody(t: TrafSide, detected: bool)
    requires TrafOk(t) && t.at.Select? && !t.pending
    ensures |Changes(Settled(ReadBy(t, detected)))| / 2 == |Changes(Settled(t))| / 2
  {
    ChangesAlternate(t.consumed);
    ChangesAppend(t.consumed, detected);
    assert (t.consumed + [detected])[..|t.consumed|] == t.consumed;
  }

  lemma StepToldOk(cfg: R.Config, s: System, step: Step)
    requires Inv(s)
    ensures ToldOk(Apply(cfg, s, step))
  {
    if Enabled(cfg, s, step) {
      match step
      case ResolverTold(order) => ResolverToldOnce(cfg, s, order);
      case CpdTold => CpdToldOnce(cfg, s);
      case ReadReport =>
        CpdRequestsKept(s.c, C.ReportTaken);
        ReadTellsNobody(s.t, s.c.at.detected);
      case TakeResolved(u, i) => ResolverRequestsKept(cfg, s.r, R.Handed(u, i));
      case CpdStep(cs) => CpdRequestsKept(s.c, cs);
      case ResolverStep(rs) => ResolverRequestsKept(cfg, s.r, rs);
      case _ =>
    }
  }

  lemma CpdStepOk(c: C.State, cs: C.Step)
    requires C.Inv(c) && C.ReportsOk(c)
    ensures C.Inv(C.Apply(c, cs)) && C.ReportsOk(C.Apply(c, cs))
    ensures !cs.ReportTaken? ==> C.Apply(c, cs).delivered == c.delivered
  {
    C.StepInv(c, cs);
    C.StepReportsOk(c, cs);
  }

  lemma StepCpdOk(cfg: R.Config, s: System, step: Step)
    requires C.Inv(s.c) && C.ReportsOk(s.c) && s.t.consumed == s.c.delivered
    ensures var next := Apply(cfg, s, step);
            C.Inv(next.c) && C.ReportsOk(next.c) && next.t.consumed == next.c.delivered
  {
    if Enabled(cfg, s, step) {
      match step
      case CpdTold => CpdStepOk(s.c, C.TakeRequest);
      case ReadReport => CpdStepOk(s.c, C.ReportTaken);
      case CpdStep(cs) => CpdStepOk(s.c, cs);
      case _ =>
    }
  }

  lemma StepResolverOk(cfg: R.Config, s: System, step: Step)
    requires R.Inv(s.r)
    ensures R.Inv(Apply(cfg, s, step).r)
  {
    if Enabled(cfg, s, step) {
      match step
      case ResolverTold(order) => R.StepInv(cfg, s.r, R.TakeCommand(order));
      case TakeResolved(u, i) => R.StepInv(cfg, s.r, R.Handed(u, i));
      case ResolverStep(rs) => R.StepInv(cfg, s.r, rs);
      case _ =>
    }
  }

  lemma StepInv(cfg: R.Config, s: System, step: Step)
    requires Inv(s)
    ensures Inv(Apply(cfg, s, step))
  {
    StepToldOk(cfg, s, step);
    StepTrafOk(cfg, s, step);
    StepNamesAgree(cfg, s, step);
    StepDaemonOk(cfg, s, step);
    StepCpdOk(cfg, s, step);
    StepResolverOk(cfg, s, step);
  }

  lemma StartInv(configured: set<Prefix>, names: set<string>)
    ensures Inv(Start(configured, names))
  {}

  lemma {:induction false} ExecInv(cfg: R.Config, s: System, steps: seq<Step>)
    requires Inv(s)
    ensures Inv(Exec(cfg, s, steps))
    decreases |steps|
  {
    if steps != [] {
      StepInv(cfg, s, steps[0]);
      ExecInv(cfg, Apply(cfg, s, steps[0]), steps[1..]);
    }
  }

  lemma ReachableInv(cfg: R.Config, configured: set<Prefix>, names: set<string>, steps: seq<Step>)
    ensures Inv(Exec(cfg, Start(configured, names), steps))
  {
    StartInv(configured, names);
    ExecInv(cfg, Start(configured, names), steps);
  }

  lemma DeliveredAreChanges(t: TrafSide)
    requires PortalOk(t)
    ensures forall i | 0 <= i < |t.delivered| :: t.delivered[i] == (i % 2 == 0)
    ensures Changes(t.consumed) == t.delivered || exists b :: Changes(t.consumed) == t.delivered + [b]
    ensures (Current(t.delivered) == t.policy.capPortal) != t.pending
  {
    var done := Settled(t);
    ChangesAlternate(done);
    assert forall i | 0 <= i < |t.delivered| :: t.delivered[i] == Changes(done)[i];
    if t.at.TellResolverPortal? {
      assert t.consumed == done + [false];
      ChangesAppend(done, false);
    }
  }

  /** In every run the statuses the daemon takes strictly alternate, starting with
      detected; they are exactly the change points of the reports read, of which
      at most the last is still to come; portal ports are installed exactly while
      a portal is recorded; and with nothing pending the daemon is up to date. */
  lemma StatusesAreChanges(cfg: R.Config, configured: set<Prefix>, names: set<string>, steps: seq<Step>)
    ensures var s := Exec(cfg, Start(configured, names), steps);
            && (forall i | 0 <= i < |s.t.delivered| :: s.t.delivered[i] == (i % 2 == 0))
            && (Changes(s.t.consumed) == s.t.delivered || exists b :: Changes(s.t.consumed) == s.t.delivered + [b])
            && s.t.policy.ports == s.t.policy.capPortal
            && (!s.t.pending ==> s.d.portal == s.t.policy.capPortal)
            && (s.t.pending ==> s.d.portal != s.t.policy.capPortal)
  {
    ReachableInv(cfg, configured, names, steps);
    DeliveredAreChanges(Exec(cfg, Start(configured, names), steps).t);
  }

  /** In every run the reports read are, in order, what the probes found, of which
      at most the last is still to be read. So a portal is recorded, with nothing
      being passed on, exactly when the last probe read found one. */
  lemma ReportsReadAreResults(cfg: R.Config, configured: set<Prefix>, names: set<string>, steps: seq<Step>)
    ensures var s := Exec(cfg, Start(configured, names), steps);
            && |s.t.consumed| <= |s.c.probed| <= |s.t.consumed| + 1
            && (forall k | 0 <= k < |s.t.consumed| :: s.t.consumed[k] == (true in s.c.probed[k]))
            && (!s.t.at.TellResolverPortal? ==>
                  s.t.policy.ports == (s.t.consumed != [] && true in s.c.probed[|s.t.consumed| - 1]))
  {
    ReachableInv(cfg, configured, names, steps);
    var s := Exec(cfg, Start(configured, names), steps);
    assert forall k | 0 <= k < |s.t.consumed| :: (s.c.delivered + C.Held(s.c))[k] == s.t.consumed[k];
  }

  /** In every run the addresses of a name in the resolver equal those in the
      policy except while they are handed over, and the installed host list is
      exactly the allowed addresses and all resolved ones. */
  lemma HostsInstalled(cfg: R.Config, configured: set<Prefix>, names: set<string>, steps: seq<Step>)
    ensures var s := Exec(cfg, Start(configured, names), steps);
            NamesAgree(s.r, s.t.policy.names) && TP.HostsExact(s.t.policy)
  {
    ReachableInv(cfg, configured, names, steps);
  }

  /** In every run, with TrafPol in its select, CPD has taken exactly one request
      per DNS update, and the resolver one command per DNS update and one more
      per end of a captive portal. */
  lemma UpdatesPassedOn(cfg: R.Config, configured: set<Prefix>, names: set<string>, steps: seq<Step>)
    requires Exec(cfg, Start(configured, names), steps).t.at.Select?
    ensures var s := Exec(cfg, Start(configured, names), steps);
            && |s.c.requests| == s.t.dns
            && |s.r.requests| == s.t.dns + |Changes(s.t.consumed)| / 2
  {
    ReachableInv(cfg, configured, names, steps);
  }

  /** A finished command did what it says, and its result tells whether it changed anything. */
  lemma CommandAnswered(cfg: R.Config, s: System)
    requires Inv(s) && s.t.at.InCommand?
    ensures var next := Apply(cfg, s, FinishCommand);
            && next.d.mode.Ready? && next.t.at.Select?
            && next.t.policy.addrs == (match s.d.mode.cmd
                                       case AddAddress(ip) => s.t.policy.addrs + {Single(ip)}
                                       case RemoveAddress(ip) => s.t.policy.addrs - {Single(ip)}
                                       case GetState => s.t.policy.addrs)
            && next.d.ok == (next.t.policy.addrs != s.t.policy.addrs)
            && next.t.policy.names == s.t.policy.names
  {
    match s.d.mode.cmd
    case AddAddress(ip) => assert Single(ip) in s.t.policy.addrs + {Single(ip)};
    case RemoveAddress(ip) => assert Single(ip) !in s.t.policy.addrs - {Single(ip)};
    case GetState =>
  }

  // ----- nobody gets stuck -----

  /** Steps left until the command of the daemon is done. */
  function Rank(s: System): nat {
    match s.d.mode
    case Ready => 0
    case Waiting(_) => 1
    case Calling(_) =>
      match s.t.at
      case Select => 2
      case TellCpd => 3
      case TellResolverPortal => 3
      case TellResolver => 4
      case InCommand(_) => 2
  }

  ghost function ListOf(s: set<string>): (order: seq<string>)
    ensures R.Lists(order, s)
  {
    if s == {} then []
    else
      var x :| x in s;
      [x] + ListOf(s - {x})
  }

  /** The hand-over or step that TrafPol is at. */
  ghost function Helpful(cfg: R.Config, s: System): Step {
    match s.t.at
    case Select => TakeCommand
    case TellCpd => CpdTold
    case TellResolver => ResolverTold(ListOf(R.Due(s.r.names, cfg.timer, true)))
    case TellResolverPortal => ResolverTold(ListOf(R.Due(s.r.names, cfg.timer, true)))
    case InCommand(_) => FinishCommand
  }

  /** While the daemon waits for a command, TrafPol or its current partner can
      step, and that brings the command nearer to its end. */
  lemma CommandProgresses(cfg: R.Config, s: System)
    requires Inv(s) && !s.d.mode.Ready?
    ensures Enabled(cfg, s, Helpful(cfg, s))
    ensures Rank(Apply(cfg, s, Helpful(cfg, s))) == Rank(s) - 1
  {}

  /** TrafPol takes another event from its select first. */
  predicate TakesOther(step: Step) {
    step.DnsUpdate? || step.ReadReport?
  }

  /** No other step takes it further away, unless TrafPol prefers another event. */
  lemma CommandNeverSetBack(cfg: R.Config, s: System, step: Step)
    requires Inv(s) && !s.d.mode.Ready? && !TakesOther(step)
    ensures Rank(Apply(cfg, s, step)) <= Rank(s)
  {}

  /** TrafPol's work on the way to the command. */
  predicate IsProgress(step: Step) {
    step.TakeCommand? || step.FinishCommand? || step.ResolverTold? || step.CpdTold?
  }

  /** How many such steps a run does, and how many other events TrafPol takes
      first, until the command of the daemon is done. */
  ghost function Progress(cfg: R.Config, s: System, steps: seq<Step>): nat
    decreases |steps|
  {
    if steps == [] || s.d.mode.Ready? then 0
    else (if IsProgress(steps[0]) && Enabled(cfg, s, steps[0]) then 1 else 0)
         + Progress(cfg, Apply(cfg, s, steps[0]), steps[1..])
  }

  ghost function Detours(cfg: R.Config, s: System, steps: seq<Step>): nat
    decreases |steps|
  {
    if steps == [] || s.d.mode.Ready? then 0
    else (if TakesOther(steps[0]) && Enabled(cfg, s, steps[0]) then 1 else 0)
         + Detours(cfg, Apply(cfg, s, steps[0]), steps[1..])
  }

  lemma ProgressLowersRank(cfg: R.Config, s: System, step: Step)
    requires Inv(s) && !s.d.mode.Ready? && Enabled(cfg, s, step)
    ensures IsProgress(step) ==> Rank(Apply(cfg, s, step)) == Rank(s) - 1
    ensures TakesOther(step) ==> Rank(Apply(cfg, s, step)) <= Rank(s) + 2
  {}

  /** In every run a command is done after at most as many steps of TrafPol as
      its rank, four at most, and two more for each other event it takes first. */
  lemma {:induction false} CommandSoonDone(cfg: R.Config, s: System, steps: seq<Step>)
    requires Inv(s)
    ensures Progress(cfg, s, steps) <= Rank(s) + 2 * Detours(cfg, s, steps) && Rank(s) <= 4
    decreases |steps|
  {
    if steps != [] && !s.d.mode.Ready? {
      StepInv(cfg, s, steps[0]);
      if Enabled(cfg, s, steps[0]) {
        ProgressLowersRank(cfg, s, steps[0]);
      }
      if !TakesOther(steps[0]) {
        CommandNeverSetBack(cfg, s, steps[0]);
      }
      CommandSoonDone(cfg, Apply(cfg, s, steps[0]), steps[1..]);
    }
  }

  /** Nothing is pending between daemon and TrafPol. */
  predicate Quiet(s: System) {
    s.d.mode.Ready? && s.t.at.Select? && !s.t.pending
  }

  /** Steps left until then. */
  function Unrest(s: System): nat {
    (if s.d.mode.Ready? then (match s.t.at
                              case Select => 0
                              case TellCpd => 1
                              case TellResolverPortal => 2
                              case TellResolver => 2
                              case InCommand(_) => 1)
     else Rank(s) + (if s.t.at.TellResolverPortal? then 1 else 0))
    + (if s.t.pending then 1 else 0)
  }

  ghost function Settle(cfg: R.Config, s: System): Step {
    if s.d.mode.Ready? && s.t.at.Select? then SendStatus else Helpful(cfg, s)
  }

  /** A report or resolver update that is being handed over stays so. */
  ghost predicate OffersKept(s: System, next: System) {
    && (s.c.at.Deliver? ==> next.c.at == s.c.at)
    && (forall u, i | R.HasWorker(s.r, u, i) && R.WorkerAt(s.r, u, i).Sending? ::
          R.HasWorker(next.r, u, i) && R.WorkerAt(next.r, u, i) == R.WorkerAt(s.r, u, i))
  }

  lemma SettleStep(cfg: R.Config, s: System)
    requires Inv(s) && !Quiet(s)
    ensures var next := Apply(cfg, s, Settle(cfg, s));
            && Enabled(cfg, s, Settle(cfg, s))
            && Unrest(next) < Unrest(s)
            && OffersKept(s, next)
  {
    var step := Settle(cfg, s);
    if step.ResolverTold? {
      forall u, i | R.HasWorker(s.r, u, i) && R.WorkerAt(s.r, u, i).Sending?
        ensures var next := R.Apply(cfg, s.r, R.TakeCommand(step.order));
                R.HasWorker(next, u, i) && R.WorkerAt(next, u, i) == R.WorkerAt(s.r, u, i)
      {
        StaysInFlight(cfg, s.r, R.TakeCommand(step.order), u, i);
      }
    }
  }

  lemma {:induction false} SettlesFrom(cfg: R.Config, s: System) returns (steps: seq<Step>)
    requires Inv(s)
    ensures |steps| <= Unrest(s) <= 5
    ensures var q := Exec(cfg, s, steps);
            Inv(q) && Quiet(q) && OffersKept(s, q)
    decreases Unrest(s)
  {
    if Quiet(s) {
      steps := [];
    } else {
      SettleStep(cfg, s);
      var first := Settle(cfg, s);
      StepInv(cfg, s, first);
      var rest := SettlesFrom(cfg, Apply(cfg, s, first));
      steps := [first] + rest;
      assert steps[1..] == rest;
    }
  }

  /** From every reachable state at most five hand-overs between daemon, TrafPol,
      CPD and resolver lead to a state where the daemon is in its select with its
      command answered, and where a report or a resolver update that was offered
      can be taken: no process waits for ever because of another one. */
  lemma NobodyStuck(cfg: R.Config, configured: set<Prefix>, names: set<string>, steps: seq<Step>)
    returns (more: seq<Step>)
    ensures |more| <= 5
    ensures var s := Exec(cfg, Start(configured, names), steps);
            var q := Exec(cfg, s, more);
            && q.d.mode.Ready?
            && (s.c.at.Deliver? ==> Enabled(cfg, q, ReadReport) && q.c.at == s.c.at)
            && (forall u, i | R.Enabled(cfg, s.r, R.Handed(u, i)) :: Enabled(cfg, q, TakeResolved(u, i)))
  {
    ReachableInv(cfg, configured, names, steps);
    more := SettlesFrom(cfg, Exec(cfg, Start(configured, names), steps));
  }
}
