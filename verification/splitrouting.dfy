/** internal/splitrt: devices.go, addresses.go and splitrt.go.

    Split routing reacts to device, address, DNS and timer events. It keeps the
    static excludes in step with the addresses of local networks and publishes
    the list of all excludes to VPN setup. */
module SplitRouting {
  import opened Wrappers
  import opened Prefixes
  import opened Aging
  import opened SplitExcludes

  datatype DeviceUpdate = DeviceUpdate(add: bool, name: string, typ: string, index: int)
  datatype AddressUpdate = AddressUpdate(add: bool, address: Prefix, index: int)

  /** The part of the VPN config that split routing reads. */
  datatype Config = Config(gateway: Option<Addr>, exclude4: seq<Prefix>, exclude6: seq<Prefix>,
                           virtualOnly: bool, device: string)

  const ANY4: Prefix := RawPrefix.Prefix(RawAddr.Addr(V4, 0), 32)
  const ANY6: Prefix := RawPrefix.Prefix(RawAddr.Addr(V6, 0), 128)

  function Without(ps: seq<Prefix>, x: Prefix): (r: seq<Prefix>)
    ensures forall p :: p in r <==> p in ps && p != x
  {
    if ps == [] then [] else (if ps[0] == x then [] else [ps[0]]) + Without(ps[1..], x)
  }

  /** The prefixes that Start adds, in order. */
  function Configured(cfg: Config): seq<Prefix> {
    (if cfg.gateway.Some? then [Single(cfg.gateway.value)] else [])
    + Without(cfg.exclude4, ANY4) + Without(cfg.exclude6, ANY6)
  }

  /** The gateway, or in one of the two exclude lists and not its marker: the
      one unspecified address of the family. */
  predicate IsConfigured(cfg: Config, p: Prefix) {
    || (cfg.gateway.Some? && p == Single(cfg.gateway.value))
    || (p in cfg.exclude4 && p != Single(RawAddr.Addr(V4, 0)))
    || (p in cfg.exclude6 && p != Single(RawAddr.Addr(V6, 0)))
  }

  lemma ConfiguredMember(cfg: Config, p: Prefix)
    ensures p in Configured(cfg) <==> IsConfigured(cfg, p)
  {}

  function ToSet<T>(xs: seq<T>): set<T> {
    set x | x in xs
  }

  /** xs lists every element of s once; a map iteration is any such list. */
  ghost predicate Enumerates<T>(xs: seq<T>, s: set<T>) {
    && ToSet(xs) == s
    && forall i, j | 0 <= i < j < |xs| :: xs[i] != xs[j]
  }

  // ----- devices.go -----

  /** Indexes of the devices whose type is (not) typ. */
  function OfType(m: map<int, DeviceUpdate>, match_: bool, typ: string): set<int> {
    set i | i in m && (m[i].typ == typ) == match_
  }

  class Devices {
    var m: map<int, DeviceUpdate>

    ghost predicate Valid()
      reads this
    {
      forall i | i in m :: m[i].index == i
    }

    constructor ()
      ensures Valid() && m == map[]
    {
      m := map[];
    }

    method Add(dev: DeviceUpdate)
      requires Valid()
      modifies this
      ensures Valid() && m == old(m)[dev.index := dev]
    {
      m := m[dev.index := dev];
    }

    method Remove(dev: DeviceUpdate)
      requires Valid()
      modifies this
      ensures Valid() && m == old(m) - {dev.index}
    {
      m := m - {dev.index};
    }

    method GetType(match_: bool, typ: string) returns (indexes: seq<int>)
      requires Valid()
      ensures Enumerates(indexes, OfType(m, match_, typ))
    {
      indexes := [];
      var todo := m.Items;
      while todo != {}
        invariant todo <= m.Items
        invariant forall i :: i in indexes <==> i in OfType(m, match_, typ) && (i, m[i]) !in todo
        invariant forall i, j | 0 <= i < j < |indexes| :: indexes[i] != indexes[j]
      {
        var item :| item in todo;
        todo := todo - {item};
        var v := item.1;
        assert item.0 in m && m[item.0] == v && v.index == item.0;
        if match_ && v.typ != typ {
          continue;
        }
        if !match_ && v.typ == typ {
          continue;
        }
        indexes := indexes + [v.index];
      }
      assert forall i :: i in ToSet(indexes) <==> i in OfType(m, match_, typ);
    }
  }

  // ----- addresses.go -----

  function AddrsOf(m: map<int, seq<Prefix>>, i: int): seq<Prefix> {
    if i in m then m[i] else []
  }

  function AddrsAdded(m: map<int, seq<Prefix>>, i: int, p: Prefix): map<int, seq<Prefix>> {
    if p in AddrsOf(m, i) then m else m[i := AddrsOf(m, i) + [p]]
  }

  function AddrsRemoved(m: map<int, seq<Prefix>>, i: int, p: Prefix): map<int, seq<Prefix>> {
    if p !in AddrsOf(m, i) then m else m[i := Without(m[i], p)]
  }

  /** The per-device list is a set: no address twice. */
  ghost predicate NoDuplicates(m: map<int, seq<Prefix>>) {
    forall k | k in m :: Enumerates(m[k], ToSet(m[k]))
  }

  lemma {:induction false} WithoutKeepsDistinct(ps: seq<Prefix>, x: Prefix)
    requires Enumerates(ps, ToSet(ps))
    ensures Enumerates(Without(ps, x), ToSet(Without(ps, x)))
  {
    if ps != [] {
      assert forall i, j | 0 <= i < j < |ps[1..]| :: ps[1..][i] != ps[1..][j];
      WithoutKeepsDistinct(ps[1..], x);
      assert ps[0] !in ps[1..];
    }
  }

  lemma {:induction false} WithoutConcat(ps: seq<Prefix>, qs: seq<Prefix>, x: Prefix)
    ensures Without(ps + qs, x) == Without(ps, x) + Without(qs, x)
  {
    if ps == [] {
      assert ps + qs == qs;
    } else {
      assert (ps + qs)[1..] == ps[1..] + qs;
      WithoutConcat(ps[1..], qs, x);
    }
  }

  class Addresses {
    var m: map<int, seq<Prefix>>

    ghost predicate Valid()
      reads this
    {
      NoDuplicates(m)
    }

    constructor ()
      ensures Valid() && m == map[]
    {
      m := map[];
    }

    method Add(u: AddressUpdate)
      requires Valid()
      modifies this
      ensures Valid() && m == AddrsAdded(old(m), u.index, u.address)
      ensures forall k :: ToSet(AddrsOf(m, k)) == ToSet(AddrsOf(old(m), k)) + if k == u.index then {u.address} else {}
    {
      if u.address in AddrsOf(m, u.index) {
        return;
      }
      m := m[u.index := AddrsOf(m, u.index) + [u.address]];
    }

    method Remove(u: AddressUpdate)
      requires Valid()
      modifies this
      ensures Valid() && m == AddrsRemoved(old(m), u.index, u.address)
      ensures forall k :: ToSet(AddrsOf(m, k)) == ToSet(AddrsOf(old(m), k)) - if k == u.index then {u.address} else {}
    {
      if u.address !in AddrsOf(m, u.index) {
        return;
      }
      var before := m[u.index];
      var removed := [];
      for n := 0 to |before|
        invariant removed == Without(before[..n], u.address)
        invariant m == old(m)
      {
        assert before[..n + 1] == before[..n] + [before[n]];
        WithoutConcat(before[..n], [before[n]], u.address);
        if before[n] == u.address {
          continue;
        }
        removed := removed + [before[n]];
      }
      assert before[..|before|] == before;
      WithoutKeepsDistinct(before, u.address);
      assert removed == Without(before, u.address);
      m := m[u.index := removed];
    }
  }

  // ----- specification of split routing -----

  /** State: devices, addresses, local excludes, exclude table, the entries of
      the list last sent, the dynamic addresses dropped since that send, and the
      number of lists sent. */
  datatype State = State(devices: map<int, DeviceUpdate>, addrs: map<int, seq<Prefix>>, locals: seq<Prefix>,
                         table: Table, sent: set<Prefix>, dropped: set<Addr>, sends: nat)

  function Publish(st: State): State {
    st.(sent := Entries(st.table), dropped := {}, sends := st.sends + 1)
  }

  predicate ExcludesLocal(cfg: Config) {
    ANY4 in cfg.exclude4
  }

  /** Devices whose networks are excluded: all that are not physical, or all
      whose type is not empty. */
  function Selected(cfg: Config, devices: map<int, DeviceUpdate>): set<int> {
    OfType(devices, false, if cfg.virtualOnly then "device" else "")
  }

  function Gather(addrs: map<int, seq<Prefix>>, order: seq<int>): seq<Prefix> {
    if order == [] then [] else AddrsOf(addrs, order[0]) + Gather(addrs, order[1..])
  }

  function AddNew(s: set<Prefix>, locals: seq<Prefix>, es: seq<Prefix>): set<Prefix>
    decreases |es|
  {
    if es == [] then s
    else AddNew(if es[0] in locals then s else AddedStatic(s, es[0]), locals, es[1..])
  }

  predicate AnyNew(s: set<Prefix>, locals: seq<Prefix>, es: seq<Prefix>)
    decreases |es|
  {
    es != [] && ((es[0] !in locals && !Blocked(s, es[0]))
                 || AnyNew(if es[0] in locals then s else AddedStatic(s, es[0]), locals, es[1..]))
  }

  function Gone(locals: seq<Prefix>, es: seq<Prefix>): set<Prefix> {
    set l | l in locals && l !in es
  }

  function UpdateLocals(cfg: Config, st: State, order: seq<int>): State {
    if !ExcludesLocal(cfg) then st
    else
      var es := Gather(st.addrs, order);
      var added := AddNew(st.table.s, st.locals, es);
      var gone := Gone(st.locals, es);
      var updated := AnyNew(st.table.s, st.locals, es) || added * gone != {};
      var next := st.(table := st.table.(s := added - gone), locals := es);
      if updated then Publish(next) else next
  }

  datatype Event =
    | Device(du: DeviceUpdate, order: seq<int>)
    | Address(au: AddressUpdate, order: seq<int>)
    | Report(ip: Addr, ttl: uint32)
    | Timer

  predicate SkipsDevice(cfg: Config, u: DeviceUpdate) {
    u.add && (u.typ == "loopback" || u.name == cfg.device)
  }

  function WithDevice(st: State, u: DeviceUpdate): State {
    st.(devices := if u.add then st.devices[u.index := u] else st.devices - {u.index})
  }

  function WithAddress(st: State, u: AddressUpdate): State {
    st.(addrs := if u.add then AddrsAdded(st.addrs, u.index, u.address)
                 else AddrsRemoved(st.addrs, u.index, u.address))
  }

  function HandleReport(st: State, a: Addr, ttl: uint32): State {
    var next := st.(table := AddedDynamic(st.table, a, ttl));
    if DynamicIsNew(st.table, a) then Publish(next) else next
  }

  function HandleTimer(st: State): State {
    var table := CleanedUp(st.table);
    st.(table := table, dropped := st.dropped + (st.table.d.Keys - table.d.Keys))
  }

  function Step(cfg: Config, st: State, ev: Event): State {
    match ev
    case Device(u, order) => if SkipsDevice(cfg, u) then st else UpdateLocals(cfg, WithDevice(st, u), order)
    case Address(u, order) => UpdateLocals(cfg, WithAddress(st, u), order)
    case Report(a, ttl) => HandleReport(st, a, ttl)
    case Timer => HandleTimer(st)
  }

  function Init(cfg: Config): State {
    var table := Table(AddedAll({}, Configured(cfg)), map[]);
    State(map[], map[], [], table, Entries(table), {}, if table.s == {} then 0 else 1)
  }

  function Run(cfg: Config, st: State, evs: seq<Event>): State
    decreases |evs|
  {
    if evs == [] then st else Run(cfg, Step(cfg, st, evs[0]), evs[1..])
  }

  // ----- the published list agrees with the excludes -----

  /** The list last sent has exactly the current entries and the dynamic
      addresses dropped since the send. */
  ghost predicate Agrees(st: State) {
    Antichain(st.table.s) && st.sent == Entries(st.table) + Singles(st.dropped)
  }

  function Singles(addrs: set<Addr>): set<Prefix> {
    set a | a in addrs :: Single(a)
  }

  lemma {:induction false} AddNewKeeps(s: set<Prefix>, locals: seq<Prefix>, es: seq<Prefix>)
    requires Antichain(s)
    ensures Antichain(AddNew(s, locals, es))
    ensures !AnyNew(s, locals, es) ==> AddNew(s, locals, es) == s
    decreases |es|
  {
    if es != [] {
      AddedStaticAntichain(s, es[0]);
      AddNewKeeps(if es[0] in locals then s else AddedStatic(s, es[0]), locals, es[1..]);
    }
  }

  lemma UpdateLocalsAgrees(cfg: Config, st: State, order: seq<int>)
    requires Agrees(st)
    ensures Agrees(UpdateLocals(cfg, st, order))
  {
    if ExcludesLocal(cfg) {
      var es := Gather(st.addrs, order);
      AddNewKeeps(st.table.s, st.locals, es);
      var added, gone := AddNew(st.table.s, st.locals, es), Gone(st.locals, es);
      if added * gone == {} {
        assert forall p | p in added :: p !in gone by {
          assert forall p | p in gone && p in added :: p in added * gone;
        }
        assert added - gone == added;
      }
    }
  }

  lemma ReportAgrees(st: State, a: Addr, ttl: uint32)
    requires Agrees(st)
    ensures Agrees(HandleReport(st, a, ttl))
  {
    if !DynamicIsNew(st.table, a) {
      assert AddedDynamic(st.table, a, ttl).d.Keys == st.table.d.Keys;
      assert Entries(AddedDynamic(st.table, a, ttl)) == Entries(st.table);
    }
  }

  lemma TimerAgrees(st: State)
    requires Agrees(st)
    ensures Agrees(HandleTimer(st))
  {
    var next := HandleTimer(st);
    forall p
      ensures p in next.sent <==> p in Entries(next.table) + Singles(next.dropped)
    {
      EntriesMember(st.table, p);
      EntriesMember(next.table, p);
      SinglesMember(st.dropped, p);
      SinglesMember(next.dropped, p);
    }
  }

  lemma SinglesMember(addrs: set<Addr>, p: Prefix)
    ensures p in Singles(addrs) <==> IsSingle(p) && p.addr in addrs
  {
    if IsSingle(p) && p.addr in addrs {
      assert p == Single(p.addr);
    }
  }

  lemma StepAgrees(cfg: Config, st: State, ev: Event)
    requires Agrees(st)
    ensures Agrees(Step(cfg, st, ev))
  {
    match ev
    case Device(u, order) => UpdateLocalsAgrees(cfg, WithDevice(st, u), order);
    case Address(u, order) => UpdateLocalsAgrees(cfg, WithAddress(st, u), order);
    case Report(a, ttl) => ReportAgrees(st, a, ttl);
    case Timer => TimerAgrees(st);
  }

  lemma InitAgrees(cfg: Config)
    ensures Agrees(Init(cfg))
  {
    AddedAllSummary({}, {}, Configured(cfg), ToSet(Configured(cfg)));
  }

  /** In every run, after every event, the published list agrees with the excludes. */
  lemma {:induction false} RunAgrees(cfg: Config, st: State, evs: seq<Event>)
    requires Agrees(st)
    ensures Agrees(Run(cfg, st, evs))
    decreases |evs|
  {
    if evs != [] {
      StepAgrees(cfg, st, evs[0]);
      RunAgrees(cfg, Step(cfg, st, evs[0]), evs[1..]);
    }
  }

  /** When a DNS report has been handled, its address is covered by the list
      last sent, whether it was added, refreshed or skipped. */
  lemma ReportCovered(st: State, a: Addr, ttl: uint32)
    requires Agrees(st)
    ensures Covered(HandleReport(st, a, ttl).sent, a)
  {
    ReportAgrees(st, a, ttl);
    var next := HandleReport(st, a, ttl);
    if Covered(st.table.s, a) {
      var v :| v in st.table.s && Contains(v, a);
      assert v in next.sent;
    } else {
      ContainsOwnAddr(Single(a));
      EntriesMember(next.table, Single(a));
    }
  }

  // ----- lifetime of a dynamic exclude -----

  function Timers(evs: seq<Event>): nat {
    if evs == [] then 0 else (if evs[0].Timer? then 1 else 0) + Timers(evs[1..])
  }

  ghost predicate Refreshes(evs: seq<Event>, a: Addr) {
    exists i :: 0 <= i < |evs| && evs[i].Report? && evs[i].ip == a
  }

  lemma UpdateLocalsKeepsDynamic(cfg: Config, st: State, order: seq<int>)
    ensures UpdateLocals(cfg, st, order).table.d == st.table.d
  {}

  /** Only a cleanup or a report for the address itself touches a dynamic exclude. */
  lemma StepEntry(cfg: Config, st: State, ev: Event, a: Addr)
    requires !(ev.Report? && ev.ip == a)
    ensures var d, next := st.table.d, Step(cfg, st, ev).table.d;
            if ev.Timer? then
              && (a in next <==> a in d && Tick(d[a], EXCLUDES_TIMER).Some?)
              && (a in next ==> next[a] == Tick(d[a], EXCLUDES_TIMER).value)
            else
              && (a in next <==> a in d)
              && (a in next ==> next[a] == d[a])
  {
    match ev
    case Device(u, order) => UpdateLocalsKeepsDynamic(cfg, WithDevice(st, u), order);
    case Address(u, order) => UpdateLocalsKeepsDynamic(cfg, WithAddress(st, u), order);
    case _ =>
  }

  /** Whatever else happens, a dynamic exclude that is not refreshed is there
      exactly until it has seen more cleanups than it has lives. */
  lemma {:induction false} ExcludeLifetime(cfg: Config, st: State, evs: seq<Event>, a: Addr)
    requires !Refreshes(evs, a)
    ensures a in Run(cfg, st, evs).table.d <==>
            a in st.table.d && Timers(evs) <= Lives(st.table.d[a], EXCLUDES_TIMER)
    decreases |evs|
  {
    if evs != [] {
      assert forall i | 0 <= i < |evs[1..]| :: evs[1..][i] == evs[i + 1];
      StepEntry(cfg, st, evs[0], a);
      if a in st.table.d {
        TickLives(st.table.d[a], EXCLUDES_TIMER);
      }
      ExcludeLifetime(cfg, Step(cfg, st, evs[0]), evs[1..], a);
    }
  }

  /** From the report on: the address survives exactly floor(ttl / 300) + 1 cleanups. */
  lemma ReportLifetime(cfg: Config, st: State, a: Addr, ttl: uint32, evs: seq<Event>)
    requires !Covered(st.table.s, a) && !Refreshes(evs, a)
    ensures a in Run(cfg, st, [Report(a, ttl)] + evs).table.d <==> Timers(evs) <= ttl / 300 + 1
  {
    assert ([Report(a, ttl)] + evs)[1..] == evs;
    ExcludeLifetime(cfg, Step(cfg, st, Report(a, ttl)), evs, a);
  }

  // ----- local networks are tracked exactly -----

  /** The addresses of the devices that are currently selected. */
  ghost predicate IsLocal(cfg: Config, st: State, p: Prefix) {
    exists i :: i in Selected(cfg, st.devices) && p in AddrsOf(st.addrs, i)
  }

  /** u holds the configured prefixes and every local address of the run; they are
      pairwise equal or disjoint, and no local address is a configured prefix. */
  ghost predicate EventFits(cfg: Config, u: set<Prefix>, st: State, ev: Event) {
    match ev
    case Device(du, order) => !SkipsDevice(cfg, du) ==> Enumerates(order, Selected(cfg, WithDevice(st, du).devices))
    case Address(au, order) =>
      && Enumerates(order, Selected(cfg, st.devices))
      && (au.add ==> au.address in u && au.address !in Configured(cfg))
    case _ => true
  }

  ghost predicate RunFits(cfg: Config, u: set<Prefix>, st: State, evs: seq<Event>)
    decreases |evs|
  {
    evs != [] ==> EventFits(cfg, u, st, evs[0]) && RunFits(cfg, u, Step(cfg, st, evs[0]), evs[1..])
  }

  ghost predicate AddrsFit(cfg: Config, u: set<Prefix>, addrs: map<int, seq<Prefix>>) {
    forall i, p | i in addrs && p in addrs[i] :: p in u && p !in Configured(cfg)
  }

  ghost predicate Tracks(cfg: Config, u: set<Prefix>, st: State) {
    && AddrsFit(cfg, u, st.addrs)
    && (forall p :: p in st.locals <==> IsLocal(cfg, st, p))
    && st.table.s == ToSet(Configured(cfg)) + ToSet(st.locals)
  }

  lemma AddDisjoint(u: set<Prefix>, s: set<Prefix>, p: Prefix)
    requires Antichain(u) && s <= u && p in u
    ensures AddedStatic(s, p) == s + {p}
  {
    if p in s {
      assert Within(p, p);
    }
  }

  lemma {:induction false} AddNewDisjoint(u: set<Prefix>, s: set<Prefix>, locals: seq<Prefix>, es: seq<Prefix>)
    requires Antichain(u) && s <= u && ToSet(es) <= u
    ensures AddNew(s, locals, es) == s + set e | e in es && e !in locals
    decreases |es|
  {
    if es != [] {
      AddDisjoint(u, s, es[0]);
      var next := if es[0] in locals then s else s + {es[0]};
      AddNewDisjoint(u, next, locals, es[1..]);
      assert es == [es[0]] + es[1..];
      assert (set e | e in es && e !in locals) ==
             (if es[0] in locals then {} else {es[0]}) + set e | e in es[1..] && e !in locals;
    }
  }

  lemma {:induction false} AddedAllDisjoint(u: set<Prefix>, s: set<Prefix>, ps: seq<Prefix>)
    requires Antichain(u) && s <= u && ToSet(ps) <= u
    ensures AddedAll(s, ps) == s + ToSet(ps)
    decreases |ps|
  {
    if ps != [] {
      AddDisjoint(u, s, ps[0]);
      AddedAllDisjoint(u, s + {ps[0]}, ps[1..]);
      assert ps == [ps[0]] + ps[1..];
    }
  }

  lemma {:induction false} GatherMember(addrs: map<int, seq<Prefix>>, order: seq<int>, p: Prefix)
    ensures p in Gather(addrs, order) <==> exists i :: i in order && p in AddrsOf(addrs, i)
  {
    if order != [] {
      GatherMember(addrs, order[1..], p);
      assert order == [order[0]] + order[1..];
    }
  }

  lemma UpdateLocalsTracks(cfg: Config, u: set<Prefix>, st: State, order: seq<int>)
    requires Antichain(u) && ToSet(Configured(cfg)) <= u && ExcludesLocal(cfg)
    requires AddrsFit(cfg, u, st.addrs) && Enumerates(order, Selected(cfg, st.devices))
    requires forall l | l in st.locals :: l in u && l !in Configured(cfg)
    requires st.table.s == ToSet(Configured(cfg)) + ToSet(st.locals)
    ensures Tracks(cfg, u, UpdateLocals(cfg, st, order))
  {
    var es := Gather(st.addrs, order);
    forall p
      ensures p in es <==> IsLocal(cfg, st, p)
      ensures p in es ==> p in u && p !in Configured(cfg)
    {
      GatherMember(st.addrs, order, p);
      assert forall i :: i in order <==> i in ToSet(order);
    }
    AddNewDisjoint(u, st.table.s, st.locals, es);
    var next := UpdateLocals(cfg, st, order);
    assert next.table.s == ToSet(Configured(cfg)) + ToSet(es);
    assert forall p :: IsLocal(cfg, next, p) == IsLocal(cfg, st, p);
  }

  lemma StepTracks(cfg: Config, u: set<Prefix>, st: State, ev: Event)
    requires Antichain(u) && ToSet(Configured(cfg)) <= u && ExcludesLocal(cfg)
    requires Tracks(cfg, u, st) && EventFits(cfg, u, st, ev)
    ensures Tracks(cfg, u, Step(cfg, st, ev))
  {
    forall l | l in st.locals
      ensures l in u && l !in Configured(cfg)
    {
      assert IsLocal(cfg, st, l);
    }
    match ev
    case Device(du, order) =>
      if !SkipsDevice(cfg, du) {
        UpdateLocalsTracks(cfg, u, WithDevice(st, du), order);
      }
    case Address(au, order) =>
      UpdateLocalsTracks(cfg, u, WithAddress(st, au), order);
    case _ =>
      var next := Step(cfg, st, ev);
      assert forall p :: IsLocal(cfg, next, p) == IsLocal(cfg, st, p);
  }

  lemma {:induction false} RunTracks(cfg: Config, u: set<Prefix>, st: State, evs: seq<Event>)
    requires Antichain(u) && ToSet(Configured(cfg)) <= u && ExcludesLocal(cfg)
    requires Tracks(cfg, u, st) && RunFits(cfg, u, st, evs)
    ensures Tracks(cfg, u, Run(cfg, st, evs))
    decreases |evs|
  {
    if evs != [] {
      StepTracks(cfg, u, st, evs[0]);
      RunTracks(cfg, u, Step(cfg, st, evs[0]), evs[1..]);
    }
  }

  lemma StateTracked(cfg: Config, u: set<Prefix>, evs: seq<Event>)
    requires Antichain(u) && ToSet(Configured(cfg)) <= u && ExcludesLocal(cfg)
    requires RunFits(cfg, u, Init(cfg), evs)
    ensures Tracks(cfg, u, Run(cfg, Init(cfg), evs))
  {
    AddedAllDisjoint(u, {}, Configured(cfg));
    assert ToSet(Init(cfg).locals) == {};
    RunTracks(cfg, u, Init(cfg), evs);
  }

  // ----- devices and addresses, by the events of the run -----

  lemma {:induction false} RunLast(cfg: Config, st: State, evs: seq<Event>)
    requires evs != []
    ensures Run(cfg, st, evs) == Step(cfg, Run(cfg, st, evs[..|evs| - 1]), evs[|evs| - 1])
    decreases |evs|
  {
    if |evs| > 1 {
      RunLast(cfg, Step(cfg, st, evs[0]), evs[1..]);
      assert evs[1..][..|evs[1..]| - 1] == evs[..|evs| - 1][1..];
    }
  }

  /** The event says what there is at index i: loopback devices and the tunnel
      device of the VPN are not taken notice of when they are added. */
  predicate SaysDevice(cfg: Config, ev: Event, i: int) {
    ev.Device? && ev.du.index == i && (ev.du.add ==> ev.du.typ != "loopback" && ev.du.name != cfg.device)
  }

  /** The k-th event is the last of the run to say so. */
  ghost predicate LastDevice(cfg: Config, evs: seq<Event>, i: int, k: nat) {
    && k < |evs| && SaysDevice(cfg, evs[k], i)
    && forall m | k < m < |evs| :: !SaysDevice(cfg, evs[m], i)
  }

  predicate SaysAddress(ev: Event, i: int, p: Prefix) {
    ev.Address? && ev.au.index == i && ev.au.address == p
  }

  ghost predicate LastAddress(evs: seq<Event>, i: int, p: Prefix, k: nat) {
    && k < |evs| && SaysAddress(evs[k], i, p)
    && forall m | k < m < |evs| :: !SaysAddress(evs[m], i, p)
  }

  lemma UpdateLocalsFrame(cfg: Config, st: State, order: seq<int>)
    ensures UpdateLocals(cfg, st, order).devices == st.devices
    ensures UpdateLocals(cfg, st, order).addrs == st.addrs
  {}

  lemma StepDevice(cfg: Config, st: State, ev: Event, i: int)
    ensures var devices := Step(cfg, st, ev).devices;
            if SaysDevice(cfg, ev, i) then
              (i in devices <==> ev.du.add) && (ev.du.add ==> devices[i] == ev.du)
            else
              (i in devices <==> i in st.devices) && (i in devices ==> devices[i] == st.devices[i])
  {
    match ev
    case Device(u, order) => UpdateLocalsFrame(cfg, WithDevice(st, u), order);
    case Address(u, order) => UpdateLocalsFrame(cfg, WithAddress(st, u), order);
    case _ =>
  }

  lemma StepAddress(cfg: Config, st: State, ev: Event, i: int, p: Prefix)
    ensures p in AddrsOf(Step(cfg, st, ev).addrs, i) <==>
            if SaysAddress(ev, i, p) then ev.au.add else p in AddrsOf(st.addrs, i)
  {
    match ev
    case Device(u, order) => UpdateLocalsFrame(cfg, WithDevice(st, u), order);
    case Address(u, order) => UpdateLocalsFrame(cfg, WithAddress(st, u), order);
    case _ =>
  }

  /** There is a device at i exactly if the last event about i was an add, and it
      is the one of that event. */
  lemma {:induction false} DeviceByEvents(cfg: Config, st: State, evs: seq<Event>, i: int)
    requires st.devices == map[]
    ensures var devices := Run(cfg, st, evs).devices;
            && (i in devices <==> exists k: nat :: LastDevice(cfg, evs, i, k) && evs[k].du.add)
            && (forall k: nat | LastDevice(cfg, evs, i, k) && evs[k].du.add :: i in devices && devices[i] == evs[k].du)
    decreases |evs|
  {
    if evs != [] {
      var before, ev := evs[..|evs| - 1], evs[|evs| - 1];
      RunLast(cfg, st, evs);
      DeviceByEvents(cfg, st, before, i);
      StepDevice(cfg, Run(cfg, st, before), ev, i);
      if SaysDevice(cfg, ev, i) {
        assert LastDevice(cfg, evs, i, |evs| - 1);
      } else {
        LastDeviceBefore(cfg, evs, i);
      }
    }
  }

  lemma LastDeviceBefore(cfg: Config, evs: seq<Event>, i: int)
    requires evs != [] && !SaysDevice(cfg, evs[|evs| - 1], i)
    ensures forall k: nat :: LastDevice(cfg, evs, i, k) <==> LastDevice(cfg, evs[..|evs| - 1], i, k)
  {
    var before := evs[..|evs| - 1];
    forall k: nat
      ensures LastDevice(cfg, evs, i, k) <==> LastDevice(cfg, before, i, k)
    {
      if LastDevice(cfg, before, i, k) {
        assert forall m | k < m < |before| :: evs[m] == before[m];
      }
      if LastDevice(cfg, evs, i, k) {
        assert forall m | k < m < |before| :: evs[m] == before[m];
      }
    }
  }

  lemma {:induction false} AddressByEvents(cfg: Config, st: State, evs: seq<Event>, i: int, p: Prefix)
    requires st.addrs == map[]
    ensures p in AddrsOf(Run(cfg, st, evs).addrs, i) <==> HasAddress(evs, i, p)
    decreases |evs|
  {
    if evs != [] {
      var before, ev := evs[..|evs| - 1], evs[|evs| - 1];
      RunLast(cfg, st, evs);
      AddressByEvents(cfg, st, before, i, p);
      StepAddress(cfg, Run(cfg, st, before), ev, i, p);
      if SaysAddress(ev, i, p) {
        assert LastAddress(evs, i, p, |evs| - 1);
      } else {
        LastAddressBefore(evs, i, p);
      }
    }
  }

  lemma LastAddressBefore(evs: seq<Event>, i: int, p: Prefix)
    requires evs != [] && !SaysAddress(evs[|evs| - 1], i, p)
    ensures forall k: nat :: LastAddress(evs, i, p, k) <==> LastAddress(evs[..|evs| - 1], i, p, k)
  {
    var before := evs[..|evs| - 1];
    forall k: nat
      ensures LastAddress(evs, i, p, k) <==> LastAddress(before, i, p, k)
    {
      if LastAddress(before, i, p, k) {
        assert forall m | k < m < |before| :: evs[m] == before[m];
      }
      if LastAddress(evs, i, p, k) {
        assert forall m | k < m < |before| :: evs[m] == before[m];
      }
    }
  }

  /** The last event about i added a device whose networks count as local: one
      that is not physical, or with virtualOnly off any one that has a type. */
  ghost predicate LocalDevice(cfg: Config, evs: seq<Event>, i: int) {
    exists k: nat :: LastDevice(cfg, evs, i, k) && evs[k].du.add
                     && evs[k].du.typ != if cfg.virtualOnly then "device" else ""
  }

  ghost predicate HasAddress(evs: seq<Event>, i: int, p: Prefix) {
    exists k: nat :: LastAddress(evs, i, p, k) && evs[k].au.add
  }

  lemma LocalByEvents(cfg: Config, evs: seq<Event>, p: Prefix)
    ensures IsLocal(cfg, Run(cfg, Init(cfg), evs), p) <==> exists i :: LocalDevice(cfg, evs, i) && HasAddress(evs, i, p)
  {
    var st := Run(cfg, Init(cfg), evs);
    forall i
      ensures i in Selected(cfg, st.devices) <==> LocalDevice(cfg, evs, i)
      ensures p in AddrsOf(st.addrs, i) <==> HasAddress(evs, i, p)
    {
      DeviceByEvents(cfg, Init(cfg), evs, i);
      AddressByEvents(cfg, Init(cfg), evs, i, p);
    }
  }

  /** With local-network exclusion on, that is, with 0.0.0.0/32 among the excludes,
      the static excludes are after every event exactly the configured prefixes
      and the addresses that the events of the run give to local devices. */
  lemma LocalNetworksTracked(cfg: Config, u: set<Prefix>, evs: seq<Event>, p: Prefix)
    requires Antichain(u) && ToSet(Configured(cfg)) <= u && Single(RawAddr.Addr(V4, 0)) in cfg.exclude4
    requires RunFits(cfg, u, Init(cfg), evs)
    ensures p in Run(cfg, Init(cfg), evs).table.s <==>
            IsConfigured(cfg, p) || exists i :: LocalDevice(cfg, evs, i) && HasAddress(evs, i, p)
  {
    StateTracked(cfg, u, evs);
    ConfiguredMember(cfg, p);
    LocalByEvents(cfg, evs, p);
  }

  lemma {:induction false} RunKeepsStatic(cfg: Config, st: State, evs: seq<Event>)
    requires !ExcludesLocal(cfg)
    ensures Run(cfg, st, evs).table.s == st.table.s
    decreases |evs|
  {
    if evs != [] {
      RunKeepsStatic(cfg, Step(cfg, st, evs[0]), evs[1..]);
    }
  }

  /** With it off they are what the configured prefixes make, whatever happens. */
  lemma NoLocalNetworks(cfg: Config, evs: seq<Event>)
    requires Single(RawAddr.Addr(V4, 0)) !in cfg.exclude4
    ensures Run(cfg, Init(cfg), evs).table.s == AddedAll({}, Configured(cfg))
  {
    RunKeepsStatic(cfg, Init(cfg), evs);
  }

  // ----- a list is sent exactly when there is something new to send -----

  /** One of es that is in s holds e. */
  ghost predicate HeldBy(s: set<Prefix>, es: seq<Prefix>, e: Prefix) {
    exists v :: v in s && v in es && Within(e, v)
  }

  lemma AddKeepsBlocked(s: set<Prefix>, p: Prefix, e: Prefix)
    requires Blocked(s, e)
    ensures Blocked(AddedStatic(s, p), e)
  {
    var v :| v in s && Within(e, v);
    if v !in AddedStatic(s, p) {
      OverlapsSymmetric(v, p);
      WithinTransitive(e, v, p);
      assert p in AddedStatic(s, p);
    }
  }

  lemma NotBlockedBefore(s: set<Prefix>, p: Prefix, e: Prefix)
    ensures !Blocked(AddedStatic(s, p), e) ==> !Blocked(s, e)
  {
    if Blocked(s, e) {
      AddKeepsBlocked(s, p, e);
    }
  }

  lemma AddKeepsHeld(s: set<Prefix>, p: Prefix, es: seq<Prefix>, e: Prefix)
    requires HeldBy(s, es, e) && p in es
    ensures HeldBy(AddedStatic(s, p), es, e)
  {
    var v :| v in s && v in es && Within(e, v);
    if v !in AddedStatic(s, p) {
      OverlapsSymmetric(v, p);
      WithinTransitive(e, v, p);
      assert p in AddedStatic(s, p);
    }
  }

  lemma {:induction false} AddNewKeepsHeld(s: set<Prefix>, locals: seq<Prefix>, es: seq<Prefix>, all: seq<Prefix>,
                                           e: Prefix)
    requires HeldBy(s, all, e) && forall x | x in es :: x in all
    ensures HeldBy(AddNew(s, locals, es), all, e)
    decreases |es|
  {
    if es != [] {
      AddKeepsHeld(s, es[0], all, e);
      AddNewKeepsHeld(if es[0] in locals then s else AddedStatic(s, es[0]), locals, es[1..], all, e);
    }
  }

  /** What was new was not held before, and is held by one of the new ones after. */
  lemma {:induction false} AnyNewHeld(s: set<Prefix>, locals: seq<Prefix>, es: seq<Prefix>, all: seq<Prefix>)
    returns (e: Prefix)
    requires AnyNew(s, locals, es) && forall x | x in es :: x in all
    ensures !Blocked(s, e) && HeldBy(AddNew(s, locals, es), all, e)
    decreases |es|
  {
    var next := if es[0] in locals then s else AddedStatic(s, es[0]);
    if es[0] !in locals && !Blocked(s, es[0]) {
      e := es[0];
      assert e in next && e in all && Within(e, e);
      AddNewKeepsHeld(next, locals, es[1..], all, e);
    } else {
      e := AnyNewHeld(next, locals, es[1..], all);
      NotBlockedBefore(s, es[0], e);
    }
  }

  lemma UpdateLocalsSends(cfg: Config, st: State, order: seq<int>)
    requires Antichain(st.table.s)
    ensures var next := UpdateLocals(cfg, st, order);
            next.sends == st.sends + if next.table.s == st.table.s then 0 else 1
  {
    if ExcludesLocal(cfg) {
      var es := Gather(st.addrs, order);
      var added, gone := AddNew(st.table.s, st.locals, es), Gone(st.locals, es);
      if AnyNew(st.table.s, st.locals, es) {
        var e := AnyNewHeld(st.table.s, st.locals, es, es);
        var v :| v in added && v in es && Within(e, v);
        assert v in added - gone && v !in st.table.s;
      } else {
        AddNewKeeps(st.table.s, st.locals, es);
        if added * gone == {} {
          assert forall p | p in gone && p in added :: p in added * gone;
          assert added - gone == added;
        } else {
          var p :| p in added * gone;
          assert p in st.table.s && p !in added - gone;
        }
      }
    }
  }

  lemma ReportSends(st: State, a: Addr, ttl: uint32)
    ensures var next := HandleReport(st, a, ttl);
            && next.table.s == st.table.s
            && next.sends == st.sends + if next.table.d.Keys <= st.table.d.Keys then 0 else 1
  {
    if DynamicIsNew(st.table, a) {
      assert a in HandleReport(st, a, ttl).table.d.Keys && a !in st.table.d.Keys;
    }
  }

  lemma StepSends(cfg: Config, st: State, ev: Event)
    requires Antichain(st.table.s)
    ensures var next := Step(cfg, st, ev);
            next.sends == st.sends +
              if next.table.s == st.table.s && next.table.d.Keys <= st.table.d.Keys then 0 else 1
  {
    match ev
    case Device(u, order) => UpdateLocalsSends(cfg, WithDevice(st, u), order);
    case Address(u, order) => UpdateLocalsSends(cfg, WithAddress(st, u), order);
    case Report(a, ttl) => ReportSends(st, a, ttl);
    case Timer =>
  }

  /** In every run an event sends a list exactly when it changes the static
      excludes or brings a new dynamic address; a cleanup never does. */
  lemma SentIffChanged(cfg: Config, evs: seq<Event>, ev: Event)
    ensures var st := Run(cfg, Init(cfg), evs);
            var next := Step(cfg, st, ev);
            next.sends == st.sends +
              if next.table.s == st.table.s && next.table.d.Keys <= st.table.d.Keys then 0 else 1
  {
    InitAgrees(cfg);
    RunAgrees(cfg, Init(cfg), evs);
    StepSends(cfg, Run(cfg, Init(cfg), evs), ev);
  }

  // ----- splitrt.go -----

  /** The entries of the list last sent. */
  function LastSent(lists: seq<seq<Prefix>>): set<Prefix> {
    if lists == [] then {} else ToSet(lists[|lists| - 1])
  }

  class SplitRouting {
    const config: Config
    const devices: Devices
    const addrs: Addresses
    const excludes: Excludes
    var locals: seq<Prefix>
    // every list handed to VPN setup
    var sent: seq<seq<Prefix>>
    // dynamic addresses dropped since the last send
    ghost var dropped: set<Addr>

    ghost predicate Valid()
      reads this, devices, addrs, excludes
    {
      devices.Valid() && addrs.Valid() && excludes.Valid() && Agrees(View())
    }

    ghost function View(): State
      reads this, devices, addrs, excludes
    {
      State(devices.m, addrs.m, locals, excludes.View(), LastSent(sent), dropped, |sent|)
    }

    constructor (config: Config)
      ensures this.config == config
      ensures Valid() && fresh(devices) && fresh(addrs) && fresh(excludes)
      ensures View() == State(map[], map[], [], Table({}, map[]), {}, {}, 0)
    {
      this.config := config;
      devices := new Devices();
      addrs := new Addresses();
      excludes := new Excludes();
      locals, sent, dropped := [], [], {};
    }

    /** Start and the part of the main loop before its first select. */
    method Start()
      requires Valid() && View() == State(map[], map[], [], Table({}, map[]), {}, {}, 0)
      modifies this`sent, excludes`s
      ensures Valid() && View() == Init(config)
    {
      if config.gateway.Some? {
        var _ := excludes.AddStatic(Single(config.gateway.value));
      }
      ghost var gateway := if config.gateway.Some? then [Single(config.gateway.value)] else [];
      assert excludes.s == AddedAll({}, gateway);
      AddExcept(config.exclude4, ANY4);
      AddedAllConcat({}, gateway, Without(config.exclude4, ANY4));
      AddExcept(config.exclude6, ANY6);
      AddedAllConcat({}, gateway + Without(config.exclude4, ANY4), Without(config.exclude6, ANY6));
      assert excludes.View() == Init(config).table;
      SendInitialPrefixes();
      InitAgrees(config);
    }

    method SendInitialPrefixes()
      requires LastSent(sent) == {}
      modifies this`sent
      ensures LastSent(sent) == Entries(excludes.View())
      ensures |sent| == |old(sent)| + if excludes.s == {} && excludes.d == map[] then 0 else 1
    {
      var prefixes := excludes.GetPrefixes();
      if |prefixes| > 0 {
        sent := sent + [prefixes];
      }
    }

    /** One of the loops of Start over the configured excludes. */
    method AddExcept(ps: seq<Prefix>, marker: Prefix)
      requires excludes.Valid()
      modifies excludes`s
      ensures excludes.Valid() && excludes.s == AddedAll(old(excludes.s), Without(ps, marker))
    {
      for n := 0 to |ps|
        invariant excludes.Valid()
        invariant AddedAll(excludes.s, Without(ps[n..], marker)) == AddedAll(old(excludes.s), Without(ps, marker))
      {
        assert ps[n..][1..] == ps[n + 1..];
        if ps[n] == marker {
          assert Without(ps[n..], marker) == Without(ps[n + 1..], marker);
          continue;
        }
        assert Without(ps[n..], marker)[1..] == Without(ps[n + 1..], marker);
        var _ := excludes.AddStatic(ps[n]);
      }
      assert ps[|ps|..] == [];
    }

    method SendPrefixes()
      modifies this`sent, this`dropped
      ensures LastSent(sent) == Entries(excludes.View()) && dropped == {}
      ensures |sent| == |old(sent)| + 1 && old(sent) <= sent
    {
      var p := excludes.GetPrefixes();
      sent := sent + [p];
      dropped := {};
    }

    method AddNewExcludes(es: seq<Prefix>) returns (updated: bool)
      requires excludes.Valid()
      modifies excludes`s
      ensures excludes.Valid() && excludes.s == AddNew(old(excludes.s), locals, es)
      ensures updated == AnyNew(old(excludes.s), locals, es)
    {
      updated := false;
      for n := 0 to |es|
        invariant excludes.Valid()
        invariant AddNew(excludes.s, locals, es[n..]) == AddNew(old(excludes.s), locals, es)
        invariant AnyNew(old(excludes.s), locals, es) == (updated || AnyNew(excludes.s, locals, es[n..]))
      {
        assert es[n..][1..] == es[n + 1..];
        if es[n] !in locals {
          var ok := excludes.AddStatic(es[n]);
          updated := ok || updated;
        }
      }
      assert es[|es|..] == [];
    }

    method RemoveOldExcludes(es: seq<Prefix>) returns (updated: bool)
      requires excludes.Valid()
      modifies excludes`s
      ensures excludes.Valid() && excludes.s == old(excludes.s) - Gone(locals, es)
      ensures updated == (old(excludes.s) * Gone(locals, es) != {})
    {
      updated := false;
      ghost var before := excludes.s;
      for n := 0 to |locals|
        invariant excludes.Valid()
        invariant excludes.s == before - Gone(locals[..n], es)
        invariant updated == (before * Gone(locals[..n], es) != {})
      {
        assert Gone(locals[..n + 1], es) == Gone(locals[..n], es) + if locals[n] in es then {} else {locals[n]};
        if locals[n] !in es {
          ghost var gone := Gone(locals[..n], es);
          var ok := excludes.RemoveStatic(locals[n]);
          assert before * (gone + {locals[n]}) == before * gone + before * {locals[n]};
          assert ok ==> locals[n] in before * {locals[n]};
          updated := ok || updated;
        }
      }
      assert locals[..|locals|] == locals;
    }

    method ExcludeLocalNetworks() returns (exclude: bool)
      ensures exclude == ExcludesLocal(config)
    {
      exclude := false;
      for n := 0 to |config.exclude4|
        invariant exclude == (ANY4 in config.exclude4[..n])
      {
        if config.exclude4[n] == ANY4 {
          exclude := true;
        }
      }
      assert config.exclude4[..|config.exclude4|] == config.exclude4;
    }

    method GetAddresses(devs: seq<int>) returns (es: seq<Prefix>)
      ensures es == Gather(addrs.m, devs)
    {
      es := [];
      for n := 0 to |devs|
        invariant es + Gather(addrs.m, devs[n..]) == Gather(addrs.m, devs)
      {
        assert devs[n..][1..] == devs[n + 1..];
        es := es + AddrsOf(addrs.m, devs[n]);
      }
      assert devs[|devs|..] == [];
    }

    method UpdateLocalNetworkExcludes() returns (ghost order: seq<int>)
      requires Valid()
      modifies this`locals, this`sent, this`dropped, excludes`s
      ensures Valid() && Enumerates(order, Selected(config, devices.m))
      ensures View() == UpdateLocals(config, old(View()), order)
    {
      var exclude := ExcludeLocalNetworks();
      var devs := devices.GetType(false, if config.virtualOnly then "device" else "");
      order := devs;
      ghost var before := View();
      UpdateLocalsAgrees(config, before, order);
      if !exclude {
        return;
      }

      var es := GetAddresses(devs);
      var added := AddNewExcludes(es);
      var removed := RemoveOldExcludes(es);
      if added || removed {
        SendPrefixes();
      }
      locals := es;
      assert excludes.View() == UpdateLocals(config, before, order).table;
    }

    method HandleDeviceUpdate(u: DeviceUpdate) returns (ghost order: seq<int>)
      requires Valid()
      modifies this`locals, this`sent, this`dropped, excludes`s, devices
      ensures Valid()
      ensures !SkipsDevice(config, u) ==> Enumerates(order, Selected(config, devices.m))
      ensures View() == Step(config, old(View()), Device(u, order))
    {
      order := [];
      if u.add {
        if u.typ == "loopback" {
          return;
        }
        if u.name == config.device {
          return;
        }
        devices.Add(u);
      } else {
        devices.Remove(u);
      }
      order := UpdateLocalNetworkExcludes();
    }

    method HandleAddressUpdate(u: AddressUpdate) returns (ghost order: seq<int>)
      requires Valid()
      modifies this`locals, this`sent, this`dropped, excludes`s, addrs
      ensures Valid() && Enumerates(order, Selected(config, devices.m))
      ensures View() == Step(config, old(View()), Address(u, order))
    {
      if u.add {
        addrs.Add(u);
      } else {
        addrs.Remove(u);
      }
      order := UpdateLocalNetworkExcludes();
    }

    method HandleDNSReport(ip: Addr, ttl: uint32)
      requires Valid()
      modifies this`sent, this`dropped, excludes`d
      ensures Valid()
      ensures View() == Step(config, old(View()), Report(ip, ttl))
      ensures Covered(LastSent(sent), ip)
    {
      ghost var next := HandleReport(View(), ip, ttl);
      assert Agrees(next) && Covered(next.sent, ip) by {
        ReportAgrees(View(), ip, ttl);
        ReportCovered(View(), ip, ttl);
      }
      var isNew := excludes.AddDynamic(Single(ip), ttl);
      if isNew {
        SendPrefixes();
      }
      assert View() == next;
    }

    /** The result of the cleanup is ignored: nothing is sent. */
    method HandleTimer()
      requires Valid()
      modifies this`dropped, excludes`d
      ensures Valid()
      ensures View() == Step(config, old(View()), Timer)
    {
      TimerAgrees(View());
      ghost var before := excludes.d.Keys;
      var _ := excludes.Cleanup();
      dropped := dropped + (before - excludes.d.Keys);
    }
  }
}
