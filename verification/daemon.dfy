/** internal/daemon/daemon.go: the handlers of the daemon's main loop.

    The daemon keeps its status, the VPN setup, traffic policing and the server
    address allowed in it consistent over events from D-Bus clients, vpncscript,
    trusted network detection (TND), the openconnect runner, the sleep monitor,
    the profile monitor and captive portal detection. */
module Daemon {
  import opened Wrappers
  import opened Prefixes
  import opened VpnSetup
  import TP = TrafPol

  datatype Connection = Disconnected | Connecting | Connected | Disconnecting
  datatype PolicingState = Inactive | Active | Disabled
  datatype Portal = Unknown | NotDetected | Detected

  /** addr is the address in host, if host is one. */
  datatype Login = Login(server: string, cookie: string, host: string, fingerprint: string, addr: Option<Addr>)
  {
    predicate Valid() {
      server != "" && cookie != "" && host != "" && fingerprint != ""
    }
  }

  /** What the daemon reads from the XML profile. hosts are the allowed hosts
      that are addresses or networks, names the others. */
  datatype Profile = Profile(alwaysOn: bool, tndServers: bool, hosts: set<Prefix>, names: set<string>)

  /** Running traffic policing: its addresses at creation and now. */
  datatype Policing = Policing(configured: set<Prefix>, allowed: set<Prefix>)

  datatype Call = Setup(config: Option<VpnConfig>) | Teardown(config: Option<VpnConfig>)

  /** The connection: fields of the D-Bus status, where serverText is None for ""
      and Some(None) for an invalid address, the saved login and VPN config, the
      config VPN setup holds, and all its setup and teardown calls so far. */
  datatype Link = Link(
    running: bool, pid: nat, conn: Connection, server: string, serverText: Option<Option<Addr>>,
    connectedAt: int, ip: string, device: string, vpnStatus: Option<VpnConfig>,
    login: Option<Login>, vpnConfig: Option<VpnConfig>, setup: Option<VpnConfig>, calls: seq<Call>)

  /** Everything about traffic policing; base are the allowed addresses in the
      daemon's own config. */
  datatype Police = Police(
    profile: Profile, base: set<Prefix>, tnd: bool, trusted: bool, disableTrafPol: bool,
    serverIP: Option<Addr>, serverIPAllowed: bool, trafpol: Option<Policing>,
    policing: PolicingState, portal: Portal)

  datatype State = State(link: Link, police: Police)

  datatype Reason = PreInit | Connect | Disconnect | AttemptReconnect | Reconnect | OtherReason

  datatype Event =
    | DBusConnect(login: Login)
    | DBusDisconnect
    | VpncScript(reason: Reason, config: Option<VpnConfig>, now: int)
    | TndResult(isTrusted: bool)
    | RunnerConnect(pid: nat)
    | RunnerDisconnect
    | SleepMon(sleep: bool)
    | ProfileUpdate(profile: Profile)
    | CpdStatus(detected: bool)

  // ----- specification of the handlers: the connection -----

  predicate CanConnect(l: Link, login: Login) {
    !l.running && login.Valid()
  }

  function ConnectLink(l: Link, login: Login, ip: Option<Addr>): Link {
    l.(running := true, server := login.server, serverText := Some(ip), conn := Connecting, login := Some(login))
  }

  function DisconnectLink(l: Link): Link {
    if l.running then l.(conn := Disconnecting) else l
  }

  predicate CanGoUp(l: Link, config: VpnConfig) {
    l.vpnStatus != Some(config) && l.running && l.conn != Connected
  }

  function ConfigUp(l: Link, config: VpnConfig, now: int): Link {
    if !CanGoUp(l, config) then l
    else l.(vpnConfig := Some(config), setup := Some(config), calls := l.calls + [Setup(Some(config))],
            vpnStatus := Some(config), ip := config.ip, device := config.device,
            conn := Connected, connectedAt := now)
  }

  function ConfigDown(l: Link): Link {
    if l.conn == Connecting || l.conn == Connected then l
    else
      var t := if l.vpnStatus.Some? then l.(setup := None, calls := l.calls + [Teardown(l.vpnConfig)]) else l;
      t.(login := None, vpnConfig := None, vpnStatus := None, server := "", serverText := None,
         connectedAt := 0, ip := "", device := "")
  }

  function HandleAttemptReconnect(l: Link): Link {
    if l.running && (l.conn == Connected || l.conn == Connecting) then l.(conn := Connecting) else l
  }

  function HandleReconnect(l: Link): Link {
    if l.running && l.conn == Connecting then l.(conn := Connected) else l
  }

  predicate UpdateValid(reason: Reason, config: Option<VpnConfig>) {
    match reason
    case Connect => config.Some? && config.value.valid
    case OtherReason => false
    case _ => config.None?
  }

  function VpncLink(l: Link, reason: Reason, config: Option<VpnConfig>, now: int): Link {
    if !UpdateValid(reason, config) then l
    else match reason
         case Connect => ConfigUp(l, config.value, now)
         case Disconnect => ConfigDown(l)
         case AttemptReconnect => HandleAttemptReconnect(l)
         case Reconnect => HandleReconnect(l)
         case _ => l
  }

  /** The connection when the runner has reported the end of openconnect. */
  function Ended(l: Link): Link {
    l.(running := false, pid := 0, conn := Disconnected, server := "", serverText := None, connectedAt := 0)
  }

  function RunnerDownLink(l: Link): Link {
    ConfigDown(Ended(l))
  }

  function StepLink(s: State, ev: Event): Link {
    var l := s.link;
    match ev
    case DBusConnect(login) => if CanConnect(l, login) then ConnectLink(l, login, ServerAddr(s.police, login)) else l
    case DBusDisconnect => DisconnectLink(l)
    case VpncScript(reason, config, now) => VpncLink(l, reason, config, now)
    case TndResult(trusted) => if s.police.tnd && trusted then DisconnectLink(l) else l
    case RunnerConnect(pid) => l.(running := true, pid := pid)
    case RunnerDisconnect => RunnerDownLink(l)
    case SleepMon(sleep) => if sleep then l else DisconnectLink(l)
    case ProfileUpdate(_) => l
    case CpdStatus(_) => l
  }

  // ----- specification of the handlers: traffic policing -----

  function ServerAddr(p: Police, login: Login): Option<Addr> {
    if login.addr.Some? then login.addr else p.serverIP
  }

  function AllowServer(p: Police): Police {
    if p.trafpol.None? || p.serverIP.None? then p
    else
      var server := Single(p.serverIP.value);
      p.(serverIPAllowed := server !in p.trafpol.value.allowed,
         trafpol := Some(p.trafpol.value.(allowed := p.trafpol.value.allowed + {server})))
  }

  function ForgetServer(p: Police): Police {
    var t := if p.trafpol.Some? && p.serverIPAllowed && p.serverIP.Some?
             then p.(trafpol := Some(p.trafpol.value.(allowed := p.trafpol.value.allowed - {Single(p.serverIP.value)})))
             else p;
    t.(serverIP := None, serverIPAllowed := false)
  }

  function StartTrafPol(p: Police): Police {
    if p.trafpol.Some? then p
    else
      var configured := p.base + p.profile.hosts;
      AllowServer(p.(trafpol := Some(Policing(configured, configured)), policing := Active, portal := NotDetected))
  }

  function StopTrafPol(p: Police): Police {
    if p.trafpol.None? then p
    else p.(trafpol := None, serverIPAllowed := false,
            policing := if p.disableTrafPol then Disabled else Inactive, portal := Unknown)
  }

  predicate ShouldPolice(p: Police) {
    p.profile.alwaysOn && !p.trusted && !p.disableTrafPol
  }

  function CheckTrafPol(p: Police): Police {
    if ShouldPolice(p) then StartTrafPol(p) else StopTrafPol(p)
  }

  function ProfilePolice(p: Police, profile: Profile): Police {
    CheckTrafPol(StopTrafPol(p.(profile := profile, tnd := false))).(tnd := profile.tndServers)
  }

  function StepPolice(s: State, ev: Event): Police {
    var p := s.police;
    match ev
    case DBusConnect(login) =>
      if CanConnect(s.link, login) then AllowServer(p.(serverIP := ServerAddr(p, login))) else p
    case VpncScript(reason, config, _) =>
      if UpdateValid(reason, config) && reason == Connect && CanGoUp(s.link, config.value)
      then p.(disableTrafPol := config.value.disableAlwaysOn) else p
    case TndResult(trusted) => if p.tnd then CheckTrafPol(p.(trusted := trusted)) else p
    case RunnerDisconnect => ForgetServer(p)
    case ProfileUpdate(profile) => ProfilePolice(p, profile)
    case CpdStatus(detected) =>
      if p.trafpol.Some? then p.(portal := if detected then Detected else NotDetected) else p
    case _ => p
  }

  /** An event whose channel is nil in this state does not happen. */
  function Step(s: State, ev: Event): State {
    State(StepLink(s, ev), StepPolice(s, ev))
  }

  /** The state right after Start. */
  function Init(profile: Profile, base: set<Prefix>): State {
    State(Link(false, 0, Disconnected, "", None, 0, "", "", None, None, None, None, []),
          ProfilePolice(Police(profile, base, false, false, false, None, false, None, Inactive, Unknown), profile))
  }

  function Run(s: State, evs: seq<Event>): State
    decreases |evs|
  {
    if evs == [] then s else Run(Step(s, evs[0]), evs[1..])
  }

  /** What the daemon hands to the openconnect runner while it handles an event. */
  datatype Command = StartProcess | StopProcess

  function CommandOf(s: State, ev: Event): Option<Command> {
    match ev
    case DBusConnect(login) => if CanConnect(s.link, login) then Some(StartProcess) else None
    case DBusDisconnect => if s.link.running then Some(StopProcess) else None
    case SleepMon(sleep) => if !sleep && s.link.running then Some(StopProcess) else None
    case TndResult(trusted) => if s.police.tnd && trusted && s.link.running then Some(StopProcess) else None
    case _ => None
  }

  function CommandsOf(s: State, ev: Event): seq<Command> {
    match CommandOf(s, ev)
    case None => []
    case Some(cmd) => [cmd]
  }

  /** The state in which the daemon hands a command over. A TND result first ends
      a running VPN and then checks policing; in all other cases the command is
      the last thing a handler does. */
  function AtCommand(s: State, ev: Event): State {
    if ChecksAfter(s, ev) then State(StepLink(s, ev), s.police.(trusted := ev.isTrusted)) else Step(s, ev)
  }

  predicate ChecksAfter(s: State, ev: Event) {
    ev.TndResult? && CommandOf(s, ev).Some?
  }

  function Checked(s: State): State {
    s.(police := CheckTrafPol(s.police))
  }

  lemma CheckedAfterCommand(s: State, ev: Event)
    requires ChecksAfter(s, ev)
    ensures Checked(AtCommand(s, ev)) == Step(s, ev)
  {}

  // ----- invariants -----

  /** A teardown comes right after the setup of the very config it is given. */
  ghost predicate TeardownsMatch(calls: seq<Call>) {
    forall i | 0 <= i < |calls| && calls[i].Teardown? :: i > 0 && calls[i - 1] == Setup(calls[i].config)
  }

  /** VPN setup is active exactly when the status has a config, and the last call agrees. */
  ghost predicate SetupOk(l: Link) {
    CallsOk(l) && StatusShows(l)
  }

  ghost predicate CallsOk(l: Link) {
    && l.setup == l.vpnStatus == l.vpnConfig
    && TeardownsMatch(l.calls)
    && (if l.setup.Some? then |l.calls| > 0 && l.calls[|l.calls| - 1] == Setup(l.setup)
        else |l.calls| == 0 || l.calls[|l.calls| - 1].Teardown?)
  }

  /** The status shows address and device of the config that is set up, and the
      server of the saved login. */
  predicate StatusShows(l: Link) {
    && (match l.vpnStatus
        case None => l.ip == "" && l.device == "" && l.connectedAt == 0
        case Some(c) => l.ip == c.ip && l.device == c.device)
    && (match l.login
        case None => l.server == "" && l.serverText == None
        case Some(login) => l.server == login.server && l.serverText.Some?)
  }

  predicate Cleared(l: Link) {
    && l.conn == Disconnected && l.pid == 0 && l.connectedAt == 0
    && l.vpnStatus == None && l.vpnConfig == None && l.setup == None && l.login == None
    && l.server == "" && l.serverText == None && l.ip == "" && l.device == ""
  }

  /** The allowed addresses are the configured ones and the server's. */
  ghost predicate ServerAllowed(p: Police) {
    match p.trafpol
    case None => !p.serverIPAllowed
    case Some(t) =>
      match p.serverIP
      case None => t.allowed == t.configured && !p.serverIPAllowed
      case Some(ip) => t.allowed == t.configured + {Single(ip)} && p.serverIPAllowed == (Single(ip) !in t.configured)
  }

  ghost predicate StateReported(p: Police) {
    && (p.policing == Active <==> p.trafpol.Some?)
    && (p.portal == Unknown <==> p.trafpol.None?)
  }

  /** Policing was created with the allowed addresses of config and profile. */
  predicate FromConfig(p: Police) {
    p.trafpol.Some? ==> p.trafpol.value.configured == p.base + p.profile.hosts
  }

  ghost predicate PoliceOk(p: Police) {
    && ServerAllowed(p) && StateReported(p) && FromConfig(p)
    && (p.trafpol.Some? ==> p.profile.alwaysOn && !p.trusted)
  }

  ghost predicate Inv(s: State) {
    && SetupOk(s.link) && PoliceOk(s.police)
    && (!s.link.running ==> Cleared(s.link) && s.police.serverIP == None)
    && ServerOfLogin(s)
  }

  /** With a saved login, the server address is that of the login. */
  predicate ServerOfLogin(s: State) {
    match s.link.login
    case None => true
    case Some(login) =>
      s.police.serverIP == login.addr && s.link.serverText == Some(login.addr) && login.Valid()
  }

  lemma ConfigUpCalls(l: Link, config: VpnConfig, now: int)
    requires CallsOk(l)
    ensures CallsOk(ConfigUp(l, config, now))
  {}

  lemma ConfigDownCalls(l: Link)
    requires CallsOk(l)
    ensures CallsOk(ConfigDown(l))
  {}

  lemma StepCallsOk(s: State, ev: Event)
    requires CallsOk(s.link)
    ensures CallsOk(StepLink(s, ev))
  {
    match ev
    case VpncScript(reason, config, now) =>
      if UpdateValid(reason, config) && reason == Connect {
        ConfigUpCalls(s.link, config.value, now);
      } else {
        ConfigDownCalls(s.link);
      }
    case RunnerDisconnect => ConfigDownCalls(Ended(s.link));
    case _ =>
  }

  lemma StepShows(s: State, ev: Event)
    requires StatusShows(s.link)
    ensures StatusShows(StepLink(s, ev))
  {}

  lemma StepCleared(s: State, ev: Event)
    requires SetupOk(s.link) && (!s.link.running ==> Cleared(s.link))
    ensures !StepLink(s, ev).running ==> Cleared(StepLink(s, ev))
  {}

  lemma StepSetupOk(s: State, ev: Event)
    requires SetupOk(s.link) && (!s.link.running ==> Cleared(s.link))
    ensures SetupOk(StepLink(s, ev))
    ensures !StepLink(s, ev).running ==> Cleared(StepLink(s, ev))
  {
    StepCallsOk(s, ev);
    StepShows(s, ev);
    StepCleared(s, ev);
  }

  lemma CheckTrafPolOk(p: Police)
    requires ServerAllowed(p) && StateReported(p) && FromConfig(p)
    ensures PoliceOk(CheckTrafPol(p))
    ensures CheckTrafPol(p).trafpol.Some? <==> ShouldPolice(p)
    ensures ShouldPolice(CheckTrafPol(p)) == ShouldPolice(p)
  {}

  lemma ProfilePoliceOk(p: Police, profile: Profile)
    requires ServerAllowed(p) && StateReported(p)
    ensures PoliceOk(ProfilePolice(p, profile))
    ensures ProfilePolice(p, profile).trafpol.Some? <==> ShouldPolice(ProfilePolice(p, profile))
  {
    CheckTrafPolOk(StopTrafPol(p.(profile := profile, tnd := false)));
  }

  lemma StepPoliceOk(s: State, ev: Event)
    requires PoliceOk(s.police) && (!s.link.running ==> s.police.serverIP == None)
    ensures PoliceOk(StepPolice(s, ev))
  {
    match ev
    case TndResult(trusted) => CheckTrafPolOk(s.police.(trusted := trusted));
    case ProfileUpdate(profile) => ProfilePoliceOk(s.police, profile);
    case _ =>
  }

  lemma StepServerIP(s: State, ev: Event)
    requires (!s.link.running ==> s.police.serverIP == None) && ServerOfLogin(s)
    ensures !StepLink(s, ev).running ==> StepPolice(s, ev).serverIP == None
    ensures ServerOfLogin(Step(s, ev))
  {}

  lemma StepInv(s: State, ev: Event)
    requires Inv(s)
    ensures Inv(Step(s, ev))
  {
    StepSetupOk(s, ev);
    StepPoliceOk(s, ev);
    StepServerIP(s, ev);
  }

  lemma InitInv(profile: Profile, base: set<Prefix>)
    ensures Inv(Init(profile, base))
  {
    ProfilePoliceOk(Police(profile, base, false, false, false, None, false, None, Inactive, Unknown), profile);
  }

  lemma {:induction false} RunInv(s: State, evs: seq<Event>)
    requires Inv(s)
    ensures Inv(Run(s, evs))
    decreases |evs|
  {
    if evs != [] {
      StepInv(s, evs[0]);
      RunInv(Step(s, evs[0]), evs[1..]);
    }
  }

  lemma ReachableInv(profile: Profile, base: set<Prefix>, evs: seq<Event>)
    ensures Inv(Run(Init(profile, base), evs))
  {
    InitInv(profile, base);
    RunInv(Init(profile, base), evs);
  }

  /** In every reachable state VPN setup is active exactly when the status has a
      VPN config, with that config, whose address and device the status shows;
      every teardown got the config last set up; and not running means that
      config, login, server, address and device are all cleared. */
  lemma SetupFollowsStatus(profile: Profile, base: set<Prefix>, evs: seq<Event>)
    ensures var l := Run(Init(profile, base), evs).link;
            && l.setup == l.vpnStatus == l.vpnConfig && StatusShows(l)
            && TeardownsMatch(l.calls)
            && (!l.running ==> Cleared(l))
  {
    ReachableInv(profile, base, evs);
  }

  lemma StepKeepsBase(s: State, ev: Event)
    ensures Step(s, ev).police.base == s.police.base
  {}

  lemma {:induction false} RunKeepsBase(s: State, evs: seq<Event>)
    ensures Run(s, evs).police.base == s.police.base
    decreases |evs|
  {
    if evs != [] {
      StepKeepsBase(s, evs[0]);
      RunKeepsBase(Step(s, evs[0]), evs[1..]);
    }
  }

  /** Whenever policing runs, it allows exactly the addresses of the daemon's
      config and of the current profile, and the current server address, even if
      that one was configured already; with a saved login that is its address. */
  lemma ServerAllowedExactly(profile: Profile, base: set<Prefix>, evs: seq<Event>)
    ensures var s := Run(Init(profile, base), evs);
            && (s.police.trafpol.Some? ==>
                  s.police.trafpol.value.allowed ==
                  base + s.police.profile.hosts
                  + if s.police.serverIP.Some? then {Single(s.police.serverIP.value)} else {})
            && (s.link.login.Some? ==> s.police.serverIP == s.link.login.value.addr)
            && (!s.link.running ==> s.police.serverIP == None)
  {
    ReachableInv(profile, base, evs);
    RunKeepsBase(Init(profile, base), evs);
    assert Init(profile, base).police.base == base;
  }

  /** In every run policing implies always-on and an untrusted network, and is
      reported as active exactly when it runs. */
  lemma PolicingReported(profile: Profile, base: set<Prefix>, evs: seq<Event>)
    ensures var p := Run(Init(profile, base), evs).police;
            && (p.trafpol.Some? ==> p.profile.alwaysOn && !p.trusted)
            && (p.policing == Active <==> p.trafpol.Some?)
  {
    ReachableInv(profile, base, evs);
  }

  /** Right after each TND result and each profile update policing runs exactly
      when it should. */
  lemma PolicingRechecked(profile: Profile, base: set<Prefix>, evs: seq<Event>, ev: Event)
    requires ev.ProfileUpdate? || (ev.TndResult? && Run(Init(profile, base), evs).police.tnd)
    ensures var p := Step(Run(Init(profile, base), evs), ev).police;
            p.trafpol.Some? <==> ShouldPolice(p)
  {
    ReachableInv(profile, base, evs);
    var p := Run(Init(profile, base), evs).police;
    match ev
    case TndResult(trusted) => CheckTrafPolOk(p.(trusted := trusted));
    case ProfileUpdate(next) => ProfilePoliceOk(p, next);
  }

  predicate IsUp(ev: Event) {
    ev.VpncScript? && ev.reason == Connect
  }

  /** A config that is set up and changes the disable flag while the rest asks
      for policing. */
  predicate ChangesFlag(s: State, ev: Event) {
    && IsUp(ev) && UpdateValid(ev.reason, ev.config) && CanGoUp(s.link, ev.config.value)
    && ev.config.value.disableAlwaysOn != s.police.disableTrafPol
    && s.police.profile.alwaysOn && !s.police.trusted
  }

  /** In between it need not. The one way to lose it is such a config. */
  lemma PolicingOutdated(s: State, ev: Event)
    requires Inv(s) && (s.police.trafpol.Some? <==> ShouldPolice(s.police))
    ensures var p := StepPolice(s, ev);
            !(p.trafpol.Some? <==> ShouldPolice(p)) <==> ChangesFlag(s, ev)
  {
    match ev
    case TndResult(trusted) => CheckTrafPolOk(s.police.(trusted := trusted));
    case ProfileUpdate(profile) => ProfilePoliceOk(s.police, profile);
    case _ =>
  }

  /** Policing is checked by a profile update and by a TND result. */
  predicate Checks(s: State, ev: Event) {
    ev.ProfileUpdate? || (ev.TndResult? && s.police.tnd)
  }

  /** The disable flag at the last check in a run; at an earlier one it was `was`. */
  function FlagAtCheck(s: State, evs: seq<Event>, was: bool): bool
    decreases |evs|
  {
    if evs == [] then was
    else FlagAtCheck(Step(s, evs[0]), evs[1..], if Checks(s, evs[0]) then s.police.disableTrafPol else was)
  }

  predicate PolicedSince(p: Police, flag: bool) {
    p.trafpol.Some? <==> p.profile.alwaysOn && !p.trusted && !flag
  }

  lemma StepPoliced(s: State, ev: Event, was: bool)
    requires Inv(s) && PolicedSince(s.police, was)
    ensures PolicedSince(StepPolice(s, ev), if Checks(s, ev) then s.police.disableTrafPol else was)
  {
    match ev
    case TndResult(trusted) => CheckTrafPolOk(s.police.(trusted := trusted));
    case ProfileUpdate(profile) => ProfilePoliceOk(s.police, profile);
    case _ =>
  }

  lemma {:induction false} RunPoliced(s: State, evs: seq<Event>, was: bool)
    requires Inv(s) && PolicedSince(s.police, was)
    ensures PolicedSince(Run(s, evs).police, FlagAtCheck(s, evs, was))
    decreases |evs|
  {
    if evs != [] {
      StepInv(s, evs[0]);
      StepPoliced(s, evs[0], was);
      RunPoliced(Step(s, evs[0]), evs[1..], if Checks(s, evs[0]) then s.police.disableTrafPol else was);
    }
  }

  /** In every run policing runs exactly when always-on, not trusted and not
      disabled at the last check. So it runs exactly when it should if and only
      if the flag is as it was then, or does not matter. */
  lemma PolicingExactly(profile: Profile, base: set<Prefix>, evs: seq<Event>)
    ensures var p := Run(Init(profile, base), evs).police;
            var flag := FlagAtCheck(Init(profile, base), evs, false);
            && (p.trafpol.Some? <==> p.profile.alwaysOn && !p.trusted && !flag)
            && ((p.trafpol.Some? <==> ShouldPolice(p)) <==>
                flag == p.disableTrafPol || !p.profile.alwaysOn || p.trusted)
  {
    InitInv(profile, base);
    RunPoliced(Init(profile, base), evs, false);
  }

  /** A run in which it does not: a config that disables always-on is set up, and
      policing keeps running. */
  lemma PolicingNotStopped(profile: Profile, base: set<Prefix>, login: Login, c: VpnConfig)
    requires profile.alwaysOn && login.Valid() && c.valid && c.disableAlwaysOn
    ensures var p := Run(Init(profile, base), [DBusConnect(login), VpncScript(Connect, Some(c), 0)]).police;
            p.trafpol.Some? && !ShouldPolice(p)
  {
    var evs := [DBusConnect(login), VpncScript(Connect, Some(c), 0)];
    PolicingExactly(profile, base, evs);
    RunTwo(Init(profile, base), evs[0], evs[1]);
  }

  lemma RunTwo(s: State, a: Event, b: Event)
    ensures Run(s, [a, b]) == Step(Step(s, a), b)
  {
    assert [a, b][1..] == [b] && [b][1..] == [];
    assert Run(Step(s, a), [b]) == Step(Step(s, a), b);
  }

  // ----- setup and teardown alternate -----

  /** Each openconnect process reports connect at most once: pending says whether
      the current one has done so. */
  predicate ReportsOnce(evs: seq<Event>, pending: bool)
    decreases |evs|
  {
    evs != [] ==>
      if evs[0].RunnerDisconnect? then ReportsOnce(evs[1..], false)
      else if IsUp(evs[0]) then !pending && ReportsOnce(evs[1..], true)
      else ReportsOnce(evs[1..], pending)
  }

  ghost predicate Alternates(calls: seq<Call>) {
    forall i | 0 <= i < |calls| :: calls[i].Setup? <==> i % 2 == 0
  }

  /** A config that is set up on top of another one: reported while a different
      one is active and the VPN is not connected. */
  predicate OnTop(s: State, ev: Event) {
    && IsUp(ev) && UpdateValid(ev.reason, ev.config)
    && s.link.setup.Some? && s.link.setup != ev.config
    && s.link.running && s.link.conn != Connected
  }

  predicate NeverOnTop(s: State, evs: seq<Event>)
    decreases |evs|
  {
    evs != [] ==> !OnTop(s, evs[0]) && NeverOnTop(Step(s, evs[0]), evs[1..])
  }

  lemma LastCallParity(l: Link)
    requires SetupOk(l) && Alternates(l.calls)
    ensures l.setup.Some? <==> |l.calls| % 2 == 1
  {
    if |l.calls| > 0 {
      assert l.calls[|l.calls| - 1].Setup? <==> (|l.calls| - 1) % 2 == 0;
    }
  }

  /** One step keeps the alternation exactly if it sets nothing up on top. */
  lemma StepAlternates(s: State, ev: Event)
    requires SetupOk(s.link) && Alternates(s.link.calls)
    ensures Alternates(StepLink(s, ev).calls) <==> !OnTop(s, ev)
  {
    LastCallParity(s.link);
    if OnTop(s, ev) {
      assert StepLink(s, ev).calls[|s.link.calls|].Setup?;
    }
  }

  lemma {:induction false} CallsOnlyGrow(s: State, evs: seq<Event>)
    ensures s.link.calls <= Run(s, evs).link.calls
    decreases |evs|
  {
    if evs != [] {
      CallsOnlyGrow(Step(s, evs[0]), evs[1..]);
    }
  }

  lemma {:induction false} RunAlternates(s: State, evs: seq<Event>)
    requires Inv(s) && Alternates(s.link.calls)
    ensures Alternates(Run(s, evs).link.calls) <==> NeverOnTop(s, evs)
    decreases |evs|
  {
    if evs != [] {
      StepInv(s, evs[0]);
      StepAlternates(s, evs[0]);
      var next := Step(s, evs[0]);
      if OnTop(s, evs[0]) {
        CallsOnlyGrow(next, evs[1..]);
        var i :| 0 <= i < |next.link.calls| && next.link.calls[i].Setup? != (i % 2 == 0);
        assert Run(s, evs).link.calls[i] == next.link.calls[i];
      } else {
        RunAlternates(next, evs[1..]);
      }
    }
  }

  /** Setup and teardown strictly alternate in exactly those runs in which no
      config is set up on top of another one. */
  lemma AlternateIff(profile: Profile, base: set<Prefix>, evs: seq<Event>)
    ensures Alternates(Run(Init(profile, base), evs).link.calls) <==> NeverOnTop(Init(profile, base), evs)
  {
    InitInv(profile, base);
    RunAlternates(Init(profile, base), evs);
  }

  lemma {:induction false} OnceNeverOnTop(s: State, evs: seq<Event>, pending: bool)
    requires Inv(s) && ReportsOnce(evs, pending) && (s.link.setup.Some? ==> pending)
    ensures NeverOnTop(s, evs)
    decreases |evs|
  {
    if evs != [] {
      StepInv(s, evs[0]);
      OnceNeverOnTop(Step(s, evs[0]), evs[1..], !evs[0].RunnerDisconnect? && (pending || IsUp(evs[0])));
    }
  }

  /** In particular, if each openconnect process reports connect at most once,
      setup and teardown strictly alternate. */
  lemma SetupTeardownAlternate(profile: Profile, base: set<Prefix>, evs: seq<Event>)
    requires ReportsOnce(evs, false)
    ensures Alternates(Run(Init(profile, base), evs).link.calls)
  {
    InitInv(profile, base);
    OnceNeverOnTop(Init(profile, base), evs, false);
    AlternateIff(profile, base, evs);
  }

  /** Without that they need not: a client connects, a config is reported, and
      a second one after an attempt to reconnect is set up on top of the first. */
  lemma SecondReportSetsUpTwice(profile: Profile, base: set<Prefix>, login: Login, c1: VpnConfig, c2: VpnConfig)
    requires login.Valid() && c1.valid && c2.valid && c1 != c2
    ensures var evs := [DBusConnect(login), VpncScript(Connect, Some(c1), 0), VpncScript(AttemptReconnect, None, 0),
                        VpncScript(Connect, Some(c2), 0)];
            Run(Init(profile, base), evs).link.calls == [Setup(Some(c1)), Setup(Some(c2))]
  {
    var evs := [DBusConnect(login), VpncScript(Connect, Some(c1), 0), VpncScript(AttemptReconnect, None, 0),
                VpncScript(Connect, Some(c2), 0)];
    var s0 := Init(profile, base);
    var s1 := Step(s0, evs[0]);
    var s2 := Step(s1, evs[1]);
    var s3 := Step(s2, evs[2]);
    assert evs[1..][1..] == evs[2..] && evs[2..][1..] == evs[3..] && evs[3..][1..] == [];
    assert Run(s0, evs) == Run(s1, evs[1..]) == Run(s2, evs[2..]) == Run(s3, evs[3..]) == Step(s3, evs[3]);
  }

  // ----- connected without a config -----

  predicate ConfigIfConnected(s: State) {
    s.link.conn == Connected ==> s.link.vpnStatus.Some?
  }

  /** A reconnect report while connecting without a config. */
  predicate TooEarly(s: State, ev: Event) {
    && s.link.running && s.link.conn == Connecting && s.link.vpnStatus.None?
    && ev.VpncScript? && ev.reason == Reconnect && ev.config.None?
  }

  /** Connected does not imply a VPN config. The one way to lose that is a
      reconnect report that comes too early. */
  lemma ConnectedWithoutConfig(s: State, ev: Event)
    requires Inv(s) && ConfigIfConnected(s)
    ensures ConfigIfConnected(Step(s, ev)) <==> !TooEarly(s, ev)
  {}

  predicate AlwaysConfig(s: State, evs: seq<Event>)
    decreases |evs|
  {
    ConfigIfConnected(s) && (evs != [] ==> AlwaysConfig(Step(s, evs[0]), evs[1..]))
  }

  predicate NeverTooEarly(s: State, evs: seq<Event>)
    decreases |evs|
  {
    evs != [] ==> !TooEarly(s, evs[0]) && NeverTooEarly(Step(s, evs[0]), evs[1..])
  }

  lemma {:induction false} RunConfigIff(s: State, evs: seq<Event>)
    requires Inv(s) && ConfigIfConnected(s)
    ensures AlwaysConfig(s, evs) <==> NeverTooEarly(s, evs)
    decreases |evs|
  {
    if evs != [] {
      ConnectedWithoutConfig(s, evs[0]);
      if !TooEarly(s, evs[0]) {
        StepInv(s, evs[0]);
        RunConfigIff(Step(s, evs[0]), evs[1..]);
      }
    }
  }

  /** Throughout a run connected implies a VPN config exactly if no reconnect
      report in it comes too early. */
  lemma ConnectedConfigIff(profile: Profile, base: set<Prefix>, evs: seq<Event>)
    ensures AlwaysConfig(Init(profile, base), evs) <==> NeverTooEarly(Init(profile, base), evs)
  {
    InitInv(profile, base);
    RunConfigIff(Init(profile, base), evs);
  }

  /** A run in which one does. */
  lemma ReconnectBeforeConnect(profile: Profile, base: set<Prefix>, login: Login)
    requires login.Valid()
    ensures var l := Run(Init(profile, base), [DBusConnect(login), VpncScript(Reconnect, None, 0)]).link;
            l.conn == Connected && l.vpnStatus == None && l.setup == None
  {
    RunTwo(Init(profile, base), DBusConnect(login), VpncScript(Reconnect, None, 0));
  }

  // ----- each part of the status, by the events that change it -----

  /** A report of vpncscript without a config. */
  predicate Reported(ev: Event, reason: Reason) {
    ev.VpncScript? && ev.reason == reason && ev.config.None?
  }

  /** A connect request that is accepted: nothing runs and nothing of the login is missing. */
  predicate Starts(s: State, ev: Event) {
    && ev.DBusConnect? && !s.link.running
    && ev.login.server != "" && ev.login.cookie != "" && ev.login.host != "" && ev.login.fingerprint != ""
  }

  /** The end of a running VPN: asked for by a client, after a resume, or in a trusted network. */
  predicate Stops(s: State, ev: Event) {
    s.link.running && (ev.DBusDisconnect? || ev == SleepMon(false) || (ev == TndResult(true) && s.police.tnd))
  }

  /** A valid config, different from the active one, is reported while running and not connected. */
  predicate SetsUp(s: State, ev: Event) {
    && IsUp(ev) && ev.config.Some? && ev.config.value.valid
    && s.link.running && s.link.conn != Connected && s.link.setup != ev.config
  }

  /** Everything of the connection is forgotten: openconnect ended, or vpncscript
      says so and the VPN is neither connecting nor connected. */
  predicate Forgets(s: State, ev: Event) {
    ev.RunnerDisconnect? || (Reported(ev, Disconnect) && s.link.conn != Connecting && s.link.conn != Connected)
  }

  /** The runner gets a start exactly for an accepted connect request, and a stop
      exactly for the end of a running VPN. */
  lemma CommandsExactly(s: State, ev: Event)
    ensures CommandOf(s, ev) == Some(StartProcess) <==> Starts(s, ev)
    ensures CommandOf(s, ev) == Some(StopProcess) <==> Stops(s, ev)
  {}

  /** Calls of VPN setup: which events make them, and with which config. */
  lemma CallsExactly(s: State, ev: Event)
    requires Inv(s)
    ensures Step(s, ev).link.calls ==
            s.link.calls + (if SetsUp(s, ev) then [Setup(ev.config)]
                            else if Forgets(s, ev) && s.link.setup.Some? then [Teardown(s.link.setup)]
                            else [])
    ensures Step(s, ev).link.setup == if SetsUp(s, ev) then ev.config else if Forgets(s, ev) then None else s.link.setup
  {}

  /** Which events lead into each connection state from another one. */
  lemma ConnectionExactly(s: State, ev: Event)
    requires Inv(s)
    ensures var was, now := s.link.conn, Step(s, ev).link.conn;
            && (was != Connecting && now == Connecting <==>
                Starts(s, ev) || (s.link.running && was == Connected && Reported(ev, AttemptReconnect)))
            && (was != Connected && now == Connected <==>
                SetsUp(s, ev) || (s.link.running && was == Connecting && Reported(ev, Reconnect)))
            && (was != Disconnecting && now == Disconnecting <==> Stops(s, ev) && was != Disconnecting)
            && (was != Disconnected && now == Disconnected <==> ev.RunnerDisconnect? && was != Disconnected)
  {}

  /** The rest of the connection. */
  lemma StatusExactly(s: State, ev: Event)
    requires Inv(s)
    ensures var was, now := s.link, Step(s, ev).link;
            && (now.running <==> Starts(s, ev) || ev.RunnerConnect? || (was.running && !ev.RunnerDisconnect?))
            && now.pid == (if ev.RunnerConnect? then ev.pid else if ev.RunnerDisconnect? then 0 else was.pid)
            && now.login == (if Starts(s, ev) then Some(ev.login) else if Forgets(s, ev) then None else was.login)
            && now.connectedAt == (if SetsUp(s, ev) then ev.now else if Forgets(s, ev) then 0 else was.connectedAt)
  {}

  /** The disable flag of the config last set up. */
  function LastFlag(calls: seq<Call>): bool {
    if calls == [] then false
    else
      var last := calls[|calls| - 1];
      if last.Setup? && last.config.Some? then last.config.value.disableAlwaysOn else LastFlag(calls[..|calls| - 1])
  }

  ghost predicate SettingsOk(s: State) {
    s.police.tnd == s.police.profile.tndServers && s.police.disableTrafPol == LastFlag(s.link.calls)
  }

  lemma LastFlagAppend(calls: seq<Call>, call: Call)
    ensures LastFlag(calls + [call]) ==
            if call.Setup? && call.config.Some? then call.config.value.disableAlwaysOn else LastFlag(calls)
  {
    assert (calls + [call])[..|calls + [call]| - 1] == calls;
  }

  lemma StepFlag(s: State, ev: Event)
    requires Inv(s) && s.police.disableTrafPol == LastFlag(s.link.calls)
    ensures Step(s, ev).police.disableTrafPol == LastFlag(Step(s, ev).link.calls)
  {
    CallsExactly(s, ev);
    FlagExactly(s, ev);
    if SetsUp(s, ev) {
      LastFlagAppend(s.link.calls, Setup(ev.config));
    } else if Forgets(s, ev) && s.link.setup.Some? {
      LastFlagAppend(s.link.calls, Teardown(s.link.setup));
    } else {
      assert s.link.calls + [] == s.link.calls;
    }
  }

  lemma FlagExactly(s: State, ev: Event)
    requires s.link.setup == s.link.vpnStatus
    ensures StepPolice(s, ev).disableTrafPol ==
            if SetsUp(s, ev) then ev.config.value.disableAlwaysOn else s.police.disableTrafPol
  {}

  lemma StepTnd(s: State, ev: Event)
    requires s.police.tnd == s.police.profile.tndServers
    ensures var p := StepPolice(s, ev);
            && p.tnd == p.profile.tndServers
            && p.profile == (if ev.ProfileUpdate? then ev.profile else s.police.profile)
            && p.trusted == if ev.TndResult? && s.police.profile.tndServers then ev.isTrusted else s.police.trusted
  {}

  lemma {:induction false} RunSettings(s: State, evs: seq<Event>)
    requires Inv(s) && SettingsOk(s)
    ensures SettingsOk(Run(s, evs))
    decreases |evs|
  {
    if evs != [] {
      StepInv(s, evs[0]);
      StepFlag(s, evs[0]);
      StepTnd(s, evs[0]);
      RunSettings(Step(s, evs[0]), evs[1..]);
    }
  }

  /** In every run: TND runs exactly when the current profile has servers for it,
      its results and profile updates are taken over at once, and the disable flag
      is that of the config last set up, also after its teardown. */
  lemma SettingsFollow(profile: Profile, base: set<Prefix>, evs: seq<Event>, ev: Event)
    ensures var s := Run(Init(profile, base), evs);
            && s.police.tnd == s.police.profile.tndServers
            && s.police.disableTrafPol == LastFlag(s.link.calls)
            && Step(s, ev).police.profile == (if ev.ProfileUpdate? then ev.profile else s.police.profile)
            && Step(s, ev).police.trusted ==
               if ev.TndResult? && s.police.profile.tndServers then ev.isTrusted else s.police.trusted
  {
    InitInv(profile, base);
    RunSettings(Init(profile, base), evs);
    StepTnd(Run(Init(profile, base), evs), ev);
  }

  /** What is reported of policing that is not active, and of captive portals, by
      the events that change it. */
  lemma PolicingStateExactly(s: State, ev: Event)
    requires Inv(s)
    ensures var was, now := s.police, Step(s, ev).police;
            && (was.policing != Disabled && now.policing == Disabled <==>
                Checks(s, ev) && was.trafpol.Some? && was.disableTrafPol)
            && (was.policing != Inactive && now.policing == Inactive <==>
                Checks(s, ev) && was.trafpol.Some? && !was.disableTrafPol && now.trafpol.None?)
            && (was.portal != Detected && now.portal == Detected <==>
                ev == CpdStatus(true) && was.trafpol.Some? && was.portal != Detected)
            && (was.portal == Detected && now.portal != Detected <==>
                was.portal == Detected && (ev == CpdStatus(false) || ev.ProfileUpdate? || now.trafpol.None?))
  {
    match ev
    case TndResult(trusted) => CheckTrafPolOk(s.police.(trusted := trusted));
    case ProfileUpdate(profile) => ProfilePoliceOk(s.police, profile);
    case _ =>
  }

  // ----- the class -----

  /** A TND result in one piece. */
  lemma TndResultOk(s: State, trusted: bool)
    requires Inv(s) && s.police.tnd
    ensures var next := Step(s, TndResult(trusted));
            && Inv(next) && next.police == CheckTrafPol(s.police.(trusted := trusted))
            && next.link == (if trusted && s.link.running then DisconnectLink(s.link) else s.link)
            && (next.police.trafpol.Some? <==> ShouldPolice(next.police))
  {
    StepInv(s, TndResult(trusted));
    CheckTrafPolOk(s.police.(trusted := trusted));
  }

  /** The daemon with its components. The status and config records are values
      that the handlers update field by field; what they say about VPN setup and
      traffic policing is tied to the component objects by Valid. */
  class Daemon {
    const vpnsetup: VPNSetup
    const baseNames: set<string>
    var link: Link
    var police: Police
    var trafpol: TP.TrafPol?
    // commands handed to the runner
    var commands: seq<Command>

    ghost function View(): State
      reads this
    {
      State(link, police)
    }

    /** The policing record describes the policing component. */
    ghost predicate PolicingTied()
      reads this, trafpol
    {
      if trafpol == null then police.trafpol == None
      else trafpol.Valid() && police.trafpol == Some(Policing(trafpol.configured, trafpol.addrs))
    }

    /** Policing knows the names of config and profile. */
    ghost predicate NamesTied()
      reads this, trafpol
    {
      trafpol != null ==> trafpol.names.Keys == baseNames + police.profile.names
    }

    ghost predicate SetupTied()
      reads this, vpnsetup
    {
      vpnsetup.Valid() && vpnsetup.config == link.setup
    }

    ghost predicate Valid()
      reads this, vpnsetup, trafpol
    {
      SetupTied() && PolicingTied() && NamesTied() && Inv(View())
    }

    /** NewDaemon, and Start without its error paths. */
    constructor (profile: Profile, base: set<Prefix>, baseNames: set<string>)
      ensures Valid() && fresh(vpnsetup) && fresh(vpnsetup.watches) && (trafpol != null ==> fresh(trafpol))
      ensures View() == Init(profile, base) && commands == []
    {
      vpnsetup := new VPNSetup();
      this.baseNames := baseNames;
      link := Link(false, 0, Disconnected, "", None, 0, "", "", None, None, None, None, []);
      police := Police(profile, base, false, false, false, None, false, None, Inactive, Unknown);
      trafpol, commands := null, [];
      new;
      CheckTrafPolRunning();
      police := police.(tnd := profile.tndServers);
      InitInv(profile, base);
    }

    /** Adds the server address to the allowed ones of running policing. */
    method AllowServerIP()
      requires PolicingTied() && trafpol != null && police.serverIP.Some?
      modifies this`police, trafpol
      ensures PolicingTied() && police == AllowServer(old(police)) && trafpol.names == old(trafpol.names)
    {
      ghost var before := trafpol.addrs;
      var ok := trafpol.AddAllowedAddr(police.serverIP.value);
      assert trafpol.addrs == before + {Single(police.serverIP.value)};
      police := police.(serverIPAllowed := ok,
                        trafpol := Some(police.trafpol.value.(allowed := trafpol.addrs)));
    }

    method StartTrafPolComponent()
      requires PolicingTied() && NamesTied()
      modifies this`trafpol, this`police
      ensures PolicingTied() && NamesTied() && trafpol != null && (trafpol == old(trafpol) || fresh(trafpol))
      ensures police == StartTrafPol(old(police))
    {
      if trafpol != null {
        return;
      }
      var hosts := police.base + police.profile.hosts;
      var names: map<string, seq<Addr>> := map n | n in baseNames + police.profile.names :: [];
      trafpol := new TP.TrafPol(hosts, names);
      police := police.(trafpol := Some(Policing(hosts, hosts)), policing := Active, portal := NotDetected);
      if police.serverIP.Some? {
        AllowServerIP();
      }
    }

    method StopTrafPolComponent()
      requires PolicingTied()
      modifies this`trafpol, this`police
      ensures PolicingTied() && trafpol == null && police == StopTrafPol(old(police))
    {
      if trafpol == null {
        return;
      }
      trafpol := null;
      police := police.(trafpol := None, serverIPAllowed := false, portal := Unknown);
      if police.disableTrafPol {
        police := police.(policing := Disabled);
      } else {
        police := police.(policing := Inactive);
      }
    }

    method CheckTrafPolRunning()
      requires PolicingTied() && NamesTied()
      modifies this`trafpol, this`police
      ensures PolicingTied() && NamesTied() && (trafpol != null ==> trafpol == old(trafpol) || fresh(trafpol))
      ensures police == CheckTrafPol(old(police))
    {
      if police.disableTrafPol {
        StopTrafPolComponent();
        return;
      }
      if !police.profile.alwaysOn {
        StopTrafPolComponent();
        return;
      }
      if police.trusted {
        StopTrafPolComponent();
        return;
      }
      StartTrafPolComponent();
    }

    method ConnectVPN(login: Login)
      requires Valid()
      modifies this`link, this`police, this`commands, trafpol
      ensures Valid() && View() == Step(old(View()), DBusConnect(login))
      ensures commands == old(commands) + CommandsOf(old(View()), DBusConnect(login))
    {
      StepInv(View(), DBusConnect(login));
      if link.running {
        return;
      }
      if !login.Valid() {
        return;
      }
      if login.addr.Some? {
        police := police.(serverIP := login.addr);
      }
      link := link.(running := true, server := login.server, serverText := Some(police.serverIP), conn := Connecting);
      if trafpol != null && police.serverIP.Some? {
        AllowServerIP();
      }
      link := link.(login := Some(login));
      commands := commands + [StartProcess];
      assert View() == Step(old(View()), DBusConnect(login));
    }

    method DisconnectVPN()
      modifies this`link, this`commands
      ensures link == DisconnectLink(old(link))
      ensures commands == old(commands) + (if link.running then [StopProcess] else [])
    {
      if !link.running {
        return;
      }
      link := link.(conn := Disconnecting);
      commands := commands + [StopProcess];
    }

    method UpdateVPNConfigUp(config: VpnConfig, now: int)
      requires SetupTied()
      modifies this`link, this`police, vpnsetup, vpnsetup.watches
      ensures SetupTied() && link == ConfigUp(old(link), config, now)
      ensures police == if CanGoUp(old(link), config)
                        then old(police).(disableTrafPol := config.disableAlwaysOn) else old(police)
    {
      if link.vpnStatus == Some(config) {
        return;
      }
      if !link.running {
        return;
      }
      if link.conn == Connected {
        return;
      }
      link := link.(vpnConfig := Some(config));
      vpnsetup.Setup(config);
      link := link.(setup := vpnsetup.config, calls := link.calls + [Setup(link.vpnConfig)]);
      police := police.(disableTrafPol := config.disableAlwaysOn);
      link := link.(vpnStatus := Some(config), ip := config.ip, device := config.device,
                    conn := Connected, connectedAt := now);
    }

    /** VPN setup is torn down only when it is active: else the call would not be allowed. */
    method UpdateVPNConfigDown()
      requires SetupTied() && link.setup == link.vpnStatus
      modifies this`link, vpnsetup, vpnsetup.watches
      ensures SetupTied() && link == ConfigDown(old(link))
    {
      if link.conn == Connecting || link.conn == Connected {
        return;
      }
      if link.vpnStatus.Some? {
        vpnsetup.Teardown();
        link := link.(setup := vpnsetup.config, calls := link.calls + [Teardown(link.vpnConfig)]);
      }
      link := link.(login := None, vpnConfig := None);
      link := link.(vpnStatus := None, server := "", serverText := None, connectedAt := 0, ip := "", device := "");
    }

    method HandleVPNAttemptReconnect()
      modifies this`link
      ensures link == HandleAttemptReconnect(old(link))
    {
      if !link.running {
        return;
      }
      if link.conn != Connected && link.conn != Connecting {
        return;
      }
      link := link.(conn := Connecting);
    }

    method HandleVPNReconnect()
      modifies this`link
      ensures link == HandleReconnect(old(link))
    {
      if !link.running {
        return;
      }
      if link.conn != Connecting {
        return;
      }
      link := link.(conn := Connected);
    }

    method UpdateVPNConfig(reason: Reason, config: Option<VpnConfig>, now: int)
      requires Valid()
      modifies this`link, this`police, vpnsetup, vpnsetup.watches
      ensures Valid() && View() == Step(old(View()), VpncScript(reason, config, now))
    {
      StepInv(View(), VpncScript(reason, config, now));
      if !UpdateValid(reason, config) {
        return;
      }
      match reason
      case Connect => UpdateVPNConfigUp(config.value, now);
      case Disconnect => UpdateVPNConfigDown();
      case AttemptReconnect => HandleVPNAttemptReconnect();
      case Reconnect => HandleVPNReconnect();
      case _ =>
    }

    method HandleTNDResult(trusted: bool)
      requires Valid() && police.tnd
      modifies this`link, this`commands, this`trafpol, this`police
      ensures Valid() && (trafpol != null ==> trafpol == old(trafpol) || fresh(trafpol))
      ensures View() == Step(old(View()), TndResult(trusted))
      ensures commands == old(commands) + CommandsOf(old(View()), TndResult(trusted))
      ensures trafpol != null <==> ShouldPolice(police)
    {
      TndResultOk(View(), trusted);
      police := police.(trusted := trusted);
      if police.trusted && link.running {
        DisconnectVPN();
      }
      CheckTrafPolRunning();
    }

    method HandleRunnerDisconnect()
      requires Valid()
      modifies this`link, this`police, vpnsetup, vpnsetup.watches, trafpol
      ensures Valid() && View() == Step(old(View()), RunnerDisconnect)
    {
      StepInv(View(), RunnerDisconnect);
      link := link.(running := false, pid := 0, conn := Disconnected,
                    server := "", serverText := None, connectedAt := 0);
      UpdateVPNConfigDown();
      if trafpol != null && police.serverIPAllowed {
        var _ := trafpol.RemoveAllowedAddr(police.serverIP.value);
        police := police.(trafpol := Some(police.trafpol.value.(allowed := trafpol.addrs)));
      }
      police := police.(serverIP := None, serverIPAllowed := false);
    }

    method HandleRunnerConnect(pid: nat)
      requires Valid()
      modifies this`link
      ensures Valid() && View() == Step(old(View()), RunnerConnect(pid))
    {
      StepInv(View(), RunnerConnect(pid));
      link := link.(running := true, pid := pid);
    }

    method HandleSleepMonEvent(sleep: bool)
      requires Valid()
      modifies this`link, this`commands
      ensures Valid() && View() == Step(old(View()), SleepMon(sleep))
      ensures commands == old(commands) + CommandsOf(old(View()), SleepMon(sleep))
    {
      StepInv(View(), SleepMon(sleep));
      if !sleep && link.running {
        DisconnectVPN();
      }
    }

    method HandleProfileUpdate(profile: Profile)
      requires Valid()
      modifies this`police, this`trafpol
      ensures Valid() && (trafpol != null ==> fresh(trafpol))
      ensures View() == Step(old(View()), ProfileUpdate(profile))
      ensures trafpol != null <==> ShouldPolice(police)
    {
      StepInv(View(), ProfileUpdate(profile));
      ProfilePoliceOk(police, profile);
      police := police.(profile := profile, tnd := false);
      StopTrafPolComponent();
      CheckTrafPolRunning();
      police := police.(tnd := profile.tndServers);
      assert View() == Step(old(View()), ProfileUpdate(profile));
    }

    method HandleCPDStatusUpdate(detected: bool)
      requires Valid() && trafpol != null
      modifies this`police
      ensures Valid() && View() == Step(old(View()), CpdStatus(detected))
    {
      StepInv(View(), CpdStatus(detected));
      if detected {
        police := police.(portal := Detected);
        return;
      }
      police := police.(portal := NotDetected);
    }
  }
}
