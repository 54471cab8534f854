/** internal/dnsproxy/proxy.go together with split routing.

    Requests are handled concurrently. Each one goes three times over the
    records of its reply: DNAMEs and CNAMEs of watched owners extend the watch
    list, then addresses of watched owners are reported to split routing, one
    at a time, and the request waits until the report is closed. The lock of
    the watch list makes its operations atomic, but nothing more: other
    requests, the cleaning timer and SetWatches run between any two of them. */
module DnsProxy {
  import opened Wrappers
  import opened Prefixes
  import opened Aging
  import opened SplitExcludes
  import opened WatchList
  import Split = SplitRouting

  datatype Record =
    | Dname(owner: Name, target: Name, ttl: uint32)
    | Cname(owner: Name, target: Name, ttl: uint32)
    | Address(owner: Name, ip: Option<Addr>, ttl: uint32)   // A or AAAA; None: not an IP address
    | Other(owner: Name)

  /** Where a request stands with the record at its index. */
  datatype Phase = Check | Store | Send | Wait | Written

  /** watched: indexes of the address records the third pass found watched;
      closed: indexes of the records whose report has been closed. */
  datatype Request = Request(reply: seq<Record>, pass: nat, idx: nat, phase: Phase,
                             watched: set<nat>, closed: set<nat>)
  {
    predicate Reporting() {
      phase.Send? || phase.Wait?
    }
  }

  /** Split routing is in its select, handles a report, or is about to close it. */
  datatype Handler = Idle | Handling(id: nat, idx: nat, ip: Addr, ttl: uint32) | Closing(id: nat, idx: nat, ip: Addr)

  /** A closed report and the prefix list that was last sent at that moment. */
  datatype Closed = Closed(id: nat, idx: nat, ip: Addr, sent: set<Prefix>)

  /** History: all watches ever configured, all records ever received, those of
      them whose target was stored, and all reports ever closed. */
  datatype State = State(w: List, requests: map<nat, Request>, split: Split.State, handler: Handler,
                         configured: set<Name>, received: set<Record>, stored: set<Record>, log: set<Closed>)

  datatype Step =
    | Receive(id: nat, reply: seq<Record>)
    | CheckRecord(id: nat)
    | StoreTarget(id: nat)
    | SendReport(id: nat)
    | HandleReport
    | CloseReport
    | Resume(id: nat)
    | SplitEvent(ev: Split.Event)
    | CleanWatches
    | FlushWatches
    | AddWatch(name: Name)

  function Init(cfg: Split.Config): State {
    State(EMPTY, map[], Split.Init(cfg), Idle, {}, {}, {}, {})
  }

  function NextRecord(r: Request): Request {
    r.(idx := r.idx + 1, phase := Check)
  }

  /** Contains on the owner of the current record, and the choice of its handler. */
  function AfterCheck(w: List, r: Request): Request {
    if r.idx >= |r.reply| then
      if r.pass < 2 then r.(pass := r.pass + 1, idx := 0) else r.(phase := Written)
    else
      var rec := r.reply[r.idx];
      if !Accepts(w, rec.owner) then NextRecord(r)
      else if (r.pass == 0 && rec.Dname?) || (r.pass == 1 && rec.Cname?) then r.(phase := Store)
      else if r.pass == 2 && rec.Address? && rec.ip.Some? then r.(phase := Send, watched := r.watched + {r.idx})
      else NextRecord(r)
  }

  function AfterStore(w: List, rec: Record): List {
    match rec
    case Dname(_, target, ttl) => w.(d := w.d[target := Fresh(ttl)])
    case Cname(_, target, ttl) => w.(c := w.c[target := Fresh(ttl)])
    case _ => w
  }

  predicate At(s: State, id: nat, phase: Phase) {
    && id in s.requests && s.requests[id].phase == phase
    && (phase != Check ==> s.requests[id].idx < |s.requests[id].reply|)
  }

  predicate Enabled(s: State, step: Step) {
    match step
    case Receive(id, _) => id !in s.requests
    case CheckRecord(id) => At(s, id, Check)
    case StoreTarget(id) => At(s, id, Store)
    case SendReport(id) =>
      && At(s, id, Send) && s.handler.Idle?
      && var rec := s.requests[id].reply[s.requests[id].idx];
         rec.Address? && rec.ip.Some?
    case HandleReport => s.handler.Handling?
    case CloseReport => s.handler.Closing? && s.handler.id in s.requests
    case Resume(id) => At(s, id, Wait) && s.requests[id].idx in s.requests[id].closed
    case SplitEvent(ev) => s.handler.Idle? && !ev.Report?
    case CleanWatches => true
    case FlushWatches => true
    case AddWatch(_) => true
  }

  /** A step that is not enabled leaves the state alone. */
  function Apply(cfg: Split.Config, s: State, step: Step): State {
    if !Enabled(s, step) then s
    else match step
         case Receive(id, reply) =>
           s.(requests := s.requests[id := Request(reply, 0, 0, Check, {}, {})],
              received := s.received + set rec | rec in reply)
         case CheckRecord(id) =>
           s.(requests := s.requests[id := AfterCheck(s.w, s.requests[id])])
         case StoreTarget(id) =>
           var r := s.requests[id];
           s.(requests := s.requests[id := NextRecord(r)], w := AfterStore(s.w, r.reply[r.idx]),
              stored := s.stored + {r.reply[r.idx]})
         case SendReport(id) =>
           var r := s.requests[id];
           var rec := r.reply[r.idx];
           s.(requests := s.requests[id := r.(phase := Wait)], handler := Handling(id, r.idx, rec.ip.value, rec.ttl))
         case HandleReport =>
           s.(split := Split.HandleReport(s.split, s.handler.ip, s.handler.ttl),
              handler := Closing(s.handler.id, s.handler.idx, s.handler.ip))
         case CloseReport =>
           var r := s.requests[s.handler.id];
           s.(requests := s.requests[s.handler.id := r.(closed := r.closed + {s.handler.idx})],
              log := s.log + {Closed(s.handler.id, s.handler.idx, s.handler.ip, s.split.sent)},
              handler := Idle)
         case Resume(id) => s.(requests := s.requests[id := NextRecord(s.requests[id])])
         case SplitEvent(ev) => s.(split := Split.Step(cfg, s.split, ev))
         case CleanWatches => s.(w := CleanedTemp(s.w, CLEAN_INTERVAL))
         case FlushWatches => s.(w := EMPTY)
         case AddWatch(n) => s.(w := s.w.(m := s.w.m + {n}), configured := s.configured + {n})
  }

  function Exec(cfg: Split.Config, s: State, steps: seq<Step>): State
    decreases |steps|
  {
    if steps == [] then s else Exec(cfg, Apply(cfg, s, steps[0]), steps[1..])
  }

  // ----- a reply is written only after its reports were handled -----

  ghost predicate RequestOk(r: Request) {
    && r.pass <= 2 && r.idx <= |r.reply|
    && (r.Reporting() ==>
          r.pass == 2 && r.idx < |r.reply| && r.reply[r.idx].Address? && r.reply[r.idx].ip.Some?)
    && (r.phase.Store? ==>
          r.idx < |r.reply| && ((r.pass == 0 && r.reply[r.idx].Dname?) || (r.pass == 1 && r.reply[r.idx].Cname?)))
    && (forall i | i in r.watched :: i in r.closed || (r.Reporting() && i == r.idx))
    && (forall i | i in r.closed :: r.pass == 2 && (i < r.idx || (r.phase.Wait? && i == r.idx)))
    && (forall i | i in r.watched + r.closed :: i < |r.reply| && r.reply[i].Address? && r.reply[i].ip.Some?)
  }

  ghost predicate HandlerOk(s: State) {
    !s.handler.Idle? ==>
      && s.handler.id in s.requests
      && var r := s.requests[s.handler.id];
         && RequestOk(r) && r.phase.Wait? && r.idx == s.handler.idx && r.idx !in r.closed
         && r.reply[r.idx].ip.value == s.handler.ip
         && (s.handler.Handling? ==> r.reply[r.idx].ttl == s.handler.ttl)
  }

  ghost predicate ReportsOk(s: State) {
    && Split.Agrees(s.split)
    && (forall id | id in s.requests :: RequestOk(s.requests[id]))
    && HandlerOk(s)
    && (s.handler.Closing? ==> Covered(s.split.sent, s.handler.ip))
    && (forall c | c in s.log :: Covered(c.sent, c.ip))
    && (forall id, i | id in s.requests && i in s.requests[id].closed :: WasClosed(s, id, i))
  }

  ghost predicate WasClosed(s: State, id: nat, i: nat) {
    && id in s.requests && i < |s.requests[id].reply| && s.requests[id].reply[i].Address?
    && s.requests[id].reply[i].ip.Some?
    && exists c :: c in s.log && c.id == id && c.idx == i && c.ip == s.requests[id].reply[i].ip.value
  }

  lemma CheckRequestOk(w: List, r: Request)
    requires RequestOk(r) && r.phase.Check?
    ensures RequestOk(AfterCheck(w, r))
  {}

  lemma OtherMovesOk(r: Request)
    requires RequestOk(r)
    ensures r.phase.Store? || (r.phase.Wait? && r.idx in r.closed) ==> RequestOk(NextRecord(r))
    ensures r.phase.Send? ==> RequestOk(r.(phase := Wait))
    ensures r.phase.Wait? ==> RequestOk(r.(closed := r.closed + {r.idx}))
  {}

  lemma StepRequestsOk(cfg: Split.Config, s: State, step: Step, id: nat)
    requires forall id | id in s.requests :: RequestOk(s.requests[id])
    requires HandlerOk(s)
    requires id in Apply(cfg, s, step).requests
    ensures RequestOk(Apply(cfg, s, step).requests[id])
  {
    if Enabled(s, step) && id in s.requests {
      var r := s.requests[id];
      assert RequestOk(r);
      match step
      case CheckRecord(_) =>
        if r.phase.Check? {
          CheckRequestOk(s.w, r);
        }
      case _ => OtherMovesOk(r);
    }
  }

  lemma StepHandlerOk(cfg: Split.Config, s: State, step: Step)
    requires forall id | id in s.requests :: RequestOk(s.requests[id])
    requires HandlerOk(s)
    ensures HandlerOk(Apply(cfg, s, step))
  {
    var next := Apply(cfg, s, step);
    if !next.handler.Idle? {
      assert next.handler.id in next.requests;
      StepRequestsOk(cfg, s, step, next.handler.id);
      assert RequestOk(s.requests[next.handler.id]);
    }
  }

  /** Replies stay, the log only grows, and only CloseReport closes. */
  lemma StepHistory(cfg: Split.Config, s: State, step: Step, id: nat)
    requires id in Apply(cfg, s, step).requests
    ensures var next := Apply(cfg, s, step);
            && s.log <= next.log
            && (id !in s.requests ==> next.requests[id].closed == {})
            && (id in s.requests ==> next.requests[id].reply == s.requests[id].reply)
            && (id in s.requests && next.requests[id].closed != s.requests[id].closed ==>
                  && s.handler.Closing? && s.handler.id == id
                  && next.requests[id].closed == s.requests[id].closed + {s.handler.idx}
                  && Closed(id, s.handler.idx, s.handler.ip, s.split.sent) in next.log)
  {}

  lemma StepClosedOk(cfg: Split.Config, s: State, step: Step, id: nat, i: nat)
    requires ReportsOk(s)
    requires id in Apply(cfg, s, step).requests && i in Apply(cfg, s, step).requests[id].closed
    ensures WasClosed(Apply(cfg, s, step), id, i)
  {
    StepHistory(cfg, s, step, id);
    if i in s.requests[id].closed {
      assert WasClosed(s, id, i);
    }
  }

  lemma StepReportsOk(cfg: Split.Config, s: State, step: Step)
    requires ReportsOk(s)
    ensures ReportsOk(Apply(cfg, s, step))
  {
    var next := Apply(cfg, s, step);
    forall id | id in next.requests
      ensures RequestOk(next.requests[id])
    {
      StepRequestsOk(cfg, s, step, id);
    }
    StepHandlerOk(cfg, s, step);
    forall id, i | id in next.requests && i in next.requests[id].closed
      ensures WasClosed(next, id, i)
    {
      StepClosedOk(cfg, s, step, id, i);
    }
    match step
    case HandleReport =>
      if s.handler.Handling? {
        Split.ReportAgrees(s.split, s.handler.ip, s.handler.ttl);
        Split.ReportCovered(s.split, s.handler.ip, s.handler.ttl);
      }
    case SplitEvent(ev) =>
      Split.StepAgrees(cfg, s.split, ev);
    case _ =>
  }

  lemma {:induction false} RunReportsOk(cfg: Split.Config, s: State, steps: seq<Step>)
    requires ReportsOk(s)
    ensures ReportsOk(Exec(cfg, s, steps))
    decreases |steps|
  {
    if steps != [] {
      StepReportsOk(cfg, s, steps[0]);
      RunReportsOk(cfg, Apply(cfg, s, steps[0]), steps[1..]);
    }
  }

  lemma InitReportsOk(cfg: Split.Config)
    ensures ReportsOk(Init(cfg))
  {
    Split.InitAgrees(cfg);
  }

  /** In every run, when a reply has been written, every address record that its
      third pass found watched had its report closed, and at the moment of
      closing the address was covered by the prefix list last sent. */
  lemma WrittenAfterExcluded(cfg: Split.Config, steps: seq<Step>, id: nat, i: nat)
    requires var s := Exec(cfg, Init(cfg), steps);
             id in s.requests && s.requests[id].phase == Written && i in s.requests[id].watched
    ensures var s := Exec(cfg, Init(cfg), steps);
            var r := s.requests[id];
            && i < |r.reply| && r.reply[i].Address? && r.reply[i].ip.Some?
            && exists c :: c in s.log && c.id == id && c.idx == i
                           && c.ip == r.reply[i].ip.value && Covered(c.sent, c.ip)
  {
    InitReportsOk(cfg);
    RunReportsOk(cfg, Init(cfg), steps);
    var s := Exec(cfg, Init(cfg), steps);
    assert RequestOk(s.requests[id]);
    assert WasClosed(s, id, i);
  }

  predicate AddressAt(reply: seq<Record>, i: nat) {
    i < |reply| && reply[i].Address? && reply[i].ip.Some?
  }

  lemma HandledAsRecord(cfg: Split.Config, s: State)
    requires HandlerOk(s) && s.handler.Handling?
    ensures s.handler.id in s.requests && s.requests[s.handler.id].phase.Wait?
    ensures var r := s.requests[s.handler.id];
            && AddressAt(r.reply, r.idx)
            && var rec := r.reply[r.idx];
               var table := Apply(cfg, s, HandleReport).split.table;
               Covered(table.s, rec.ip.value) || (rec.ip.value in table.d && table.d[rec.ip.value] == Fresh(rec.ttl))
  {}

  /** In every run, a report that split routing handles is that of the record its
      request waits for: afterwards its address is in a static exclude, or is a
      dynamic one with the full TTL of the record. */
  lemma ReportOfRecord(cfg: Split.Config, steps: seq<Step>)
    requires Exec(cfg, Init(cfg), steps).handler.Handling?
    ensures var s := Exec(cfg, Init(cfg), steps);
            && s.handler.id in s.requests && s.requests[s.handler.id].phase.Wait?
            && AddressAt(s.requests[s.handler.id].reply, s.requests[s.handler.id].idx)
            && var rec := s.requests[s.handler.id].reply[s.requests[s.handler.id].idx];
               var table := Apply(cfg, s, HandleReport).split.table;
               Covered(table.s, rec.ip.value) || (rec.ip.value in table.d && table.d[rec.ip.value] == Fresh(rec.ttl))
  {
    InitReportsOk(cfg);
    RunReportsOk(cfg, Init(cfg), steps);
    HandledAsRecord(cfg, Exec(cfg, Init(cfg), steps));
  }

  // ----- every accepted name goes back to a configured watch -----

  /** A record that makes its target, and for a DNAME the names below, watched. */
  predicate LeadsTo(rec: Record, n: Name) {
    match rec
    case Cname(_, target, _) => n == target
    case Dname(_, target, _) => SuffixIn({target}, n)
    case _ => false
  }

  /** A DNAME, or a CNAME, with this target. */
  predicate Renews(rec: Record, n: Name, dname: bool) {
    (if dname then rec.Dname? else rec.Cname?) && rec.target == n
  }

  /** chain links n to a configured watch: each record was stored because its
      owner was accepted, and leads to the name before it; the last owner is a
      configured watch or below one. */
  ghost predicate LinkedBy(configured: set<Name>, stored: set<Record>, n: Name, chain: seq<Record>)
    decreases |chain|
  {
    if chain == [] then SuffixIn(configured, n)
    else chain[0] in stored && LeadsTo(chain[0], n) && LinkedBy(configured, stored, chain[0].owner, chain[1..])
  }

  ghost predicate Linked(s: State, n: Name) {
    exists chain :: LinkedBy(s.configured, s.stored, n, chain)
  }

  lemma {:induction false} LinkedByMonotone(s: State, t: State, n: Name, chain: seq<Record>)
    requires LinkedBy(s.configured, s.stored, n, chain)
    requires s.configured <= t.configured && s.stored <= t.stored
    ensures LinkedBy(t.configured, t.stored, n, chain)
    decreases |chain|
  {
    if chain == [] {
      SuffixInMonotone(s.configured, t.configured, n);
    } else {
      LinkedByMonotone(s, t, chain[0].owner, chain[1..]);
    }
  }

  lemma LinkedMonotone(s: State, t: State, n: Name)
    requires Linked(s, n)
    requires s.configured <= t.configured && s.stored <= t.stored
    ensures Linked(t, n)
  {
    var chain :| LinkedBy(s.configured, s.stored, n, chain);
    LinkedByMonotone(s, t, n, chain);
  }

  lemma LinkedThrough(s: State, rec: Record, n: Name)
    requires rec in s.stored && LeadsTo(rec, n) && Linked(s, rec.owner)
    ensures Linked(s, n)
  {
    var chain :| LinkedBy(s.configured, s.stored, rec.owner, chain);
    assert ([rec] + chain)[1..] == chain;
    assert LinkedBy(s.configured, s.stored, n, [rec] + chain);
  }

  /** n was stored for a record whose owner was accepted. */
  ghost predicate Stored(s: State, n: Name, dname: bool) {
    exists rec :: rec in s.stored && Renews(rec, n, dname) && Linked(s, rec.owner)
  }

  ghost predicate NamesOk(s: State) {
    && s.w.m <= s.configured && s.stored <= s.received
    && (forall n | n in s.w.c :: Stored(s, n, false))
    && (forall n | n in s.w.d :: Stored(s, n, true))
    && (forall id | id in s.requests :: forall rec | rec in s.requests[id].reply :: rec in s.received)
    && (forall id | id in s.requests && s.requests[id].phase == Store :: StoreOk(s, s.requests[id]))
  }

  ghost predicate StoreOk(s: State, r: Request) {
    && r.idx < |r.reply| && (r.reply[r.idx].Dname? || r.reply[r.idx].Cname?)
    && Linked(s, r.reply[r.idx].owner)
  }

  lemma AcceptedLinked(s: State, n: Name)
    requires NamesOk(s) && Accepts(s.w, n)
    ensures Linked(s, n)
  {
    if n in s.w.c {
      var rec :| rec in s.stored && rec.Cname? && rec.target == n && Linked(s, rec.owner);
      LinkedThrough(s, rec, n);
    } else {
      var i :| 0 <= i < |n| && n[i..] in s.w.m + s.w.d.Keys;
      if n[i..] in s.w.m {
        assert LinkedBy(s.configured, s.stored, n, []);
      } else {
        assert Stored(s, n[i..], true);
        var rec :| rec in s.stored && rec.Dname? && rec.target == n[i..] && Linked(s, rec.owner);
        LinkedThrough(s, rec, n);
      }
    }
  }

  lemma StoredMonotone(s: State, t: State, n: Name, dname: bool)
    requires Stored(s, n, dname)
    requires s.configured <= t.configured && s.stored <= t.stored
    ensures Stored(t, n, dname)
  {
    var rec :| rec in s.stored && Renews(rec, n, dname) && Linked(s, rec.owner);
    LinkedMonotone(s, t, rec.owner);
  }

  /** What stays in place carries its justification along. */
  lemma NamesCarryOver(s: State, t: State)
    requires NamesOk(s)
    requires s.configured <= t.configured && s.stored <= t.stored
    ensures forall n | n in s.w.c :: Stored(t, n, false)
    ensures forall n | n in s.w.d :: Stored(t, n, true)
    ensures forall id | id in s.requests && s.requests[id].phase == Store :: StoreOk(t, s.requests[id])
  {
    forall n | n in s.w.c
      ensures Stored(t, n, false)
    {
      StoredMonotone(s, t, n, false);
    }
    forall n | n in s.w.d
      ensures Stored(t, n, true)
    {
      StoredMonotone(s, t, n, true);
    }
    forall id | id in s.requests && s.requests[id].phase == Store
      ensures StoreOk(t, s.requests[id])
    {
      LinkedMonotone(s, t, s.requests[id].reply[s.requests[id].idx].owner);
    }
  }

  lemma StoreNamesOk(cfg: Split.Config, s: State, id: nat)
    requires NamesOk(s) && Enabled(s, StoreTarget(id))
    ensures NamesOk(Apply(cfg, s, StoreTarget(id)))
  {
    var next := Apply(cfg, s, StoreTarget(id));
    NamesCarryOver(s, next);
    var rec := s.requests[id].reply[s.requests[id].idx];
    assert StoreOk(next, s.requests[id]);
    assert Stored(next, rec.target, rec.Dname?);
  }

  lemma CheckNamesOk(cfg: Split.Config, s: State, id: nat)
    requires NamesOk(s) && Enabled(s, CheckRecord(id))
    ensures NamesOk(Apply(cfg, s, CheckRecord(id)))
  {
    var r, next := s.requests[id], Apply(cfg, s, CheckRecord(id));
    NamesCarryOver(s, next);
    if next.requests[id].phase == Store {
      AcceptedLinked(s, r.reply[r.idx].owner);
      LinkedMonotone(s, next, r.reply[r.idx].owner);
    }
  }

  lemma StepNamesOk(cfg: Split.Config, s: State, step: Step)
    requires NamesOk(s)
    ensures NamesOk(Apply(cfg, s, step))
  {
    var next := Apply(cfg, s, step);
    NamesCarryOver(s, next);
    if Enabled(s, step) {
      match step
      case CheckRecord(id) => CheckNamesOk(cfg, s, id);
      case StoreTarget(id) => StoreNamesOk(cfg, s, id);
      case _ =>
    }
  }

  lemma {:induction false} RunNamesOk(cfg: Split.Config, s: State, steps: seq<Step>)
    requires NamesOk(s)
    ensures NamesOk(Exec(cfg, s, steps))
    decreases |steps|
  {
    if steps != [] {
      StepNamesOk(cfg, s, steps[0]);
      RunNamesOk(cfg, Apply(cfg, s, steps[0]), steps[1..]);
    }
  }

  /** In every run, every name the watch list accepts is linked to a watch
      configured in that run by a finite chain of received records, each stored
      only after its own owner was accepted. */
  lemma AcceptedHasOrigin(cfg: Split.Config, steps: seq<Step>, n: Name)
    requires Accepts(Exec(cfg, Init(cfg), steps).w, n)
    ensures var s := Exec(cfg, Init(cfg), steps);
            n != [] && s.stored <= s.received && Linked(s, n)
  {
    RunNamesOk(cfg, Init(cfg), steps);
    AcceptedLinked(Exec(cfg, Init(cfg), steps), n);
  }

  // ----- lifetime of a temporary watch -----

  function Cleanups(steps: seq<Step>): nat {
    if steps == [] then 0 else (if steps[0].CleanWatches? then 1 else 0) + Cleanups(steps[1..])
  }

  /** The record whose target a step stores, if it does. */
  function StoredBy(s: State, step: Step): Option<Record> {
    if step.StoreTarget? && Enabled(s, step) then Some(s.requests[step.id].reply[s.requests[step.id].idx]) else None
  }

  /** No step of the run stores n as the target of a DNAME, or of a CNAME. */
  predicate NotRenewed(cfg: Split.Config, s: State, steps: seq<Step>, n: Name, dname: bool)
    decreases |steps|
  {
    steps != [] ==>
      && (var rec := StoredBy(s, steps[0]); rec.None? || !Renews(rec.value, n, dname))
      && NotRenewed(cfg, Apply(cfg, s, steps[0]), steps[1..], n, dname)
  }

  /** The temporary watches for DNAME targets, or for CNAME targets. */
  function Temps(w: List, dname: bool): map<Name, Entry> {
    if dname then w.d else w.c
  }

  /** An entry and what a run leaves of it. */
  predicate Left(temps: map<Name, Entry>, n: Name, steps: seq<Step>) {
    n in temps && FlushWatches !in steps && Cleanups(steps) <= Lives(temps[n], CLEAN_INTERVAL)
  }

  lemma StepLeft(cfg: Split.Config, s: State, steps: seq<Step>, n: Name, dname: bool)
    requires steps != [] && NotRenewed(cfg, s, steps, n, dname)
    ensures Left(Temps(s.w, dname), n, steps) <==> Left(Temps(Apply(cfg, s, steps[0]).w, dname), n, steps[1..])
  {
    assert FlushWatches in steps <==> steps[0].FlushWatches? || FlushWatches in steps[1..];
    if steps[0].CleanWatches? && n in Temps(s.w, dname) {
      TickLives(Temps(s.w, dname)[n], CLEAN_INTERVAL);
    }
  }

  /** In every run without a new storing of its name, a temporary watch is there
      exactly until the list is flushed or it has seen more cleanups than it has
      lives, floor(ttl / 10) + 1 from its storing. */
  lemma {:induction false} TempLifetime(cfg: Split.Config, s: State, steps: seq<Step>, n: Name, dname: bool)
    requires NotRenewed(cfg, s, steps, n, dname)
    ensures n in Temps(Exec(cfg, s, steps).w, dname) <==> Left(Temps(s.w, dname), n, steps)
    decreases |steps|
  {
    if steps != [] {
      StepLeft(cfg, s, steps, n, dname);
      TempLifetime(cfg, Apply(cfg, s, steps[0]), steps[1..], n, dname);
    }
  }

  /** From the storing on, whatever was there before: floor(ttl / 10) + 1 cleanups. */
  lemma StoredLifetime(cfg: Split.Config, s: State, id: nat, rec: Record, steps: seq<Step>)
    requires StoredBy(s, StoreTarget(id)) == Some(rec) && (rec.Cname? || rec.Dname?)
    requires NotRenewed(cfg, Apply(cfg, s, StoreTarget(id)), steps, rec.target, rec.Dname?)
    ensures rec.target in Temps(Exec(cfg, s, [StoreTarget(id)] + steps).w, rec.Dname?) <==>
            FlushWatches !in steps && Cleanups(steps) <= rec.ttl / 10 + 1
  {
    assert ([StoreTarget(id)] + steps)[1..] == steps;
    TempLifetime(cfg, Apply(cfg, s, StoreTarget(id)), steps, rec.target, rec.Dname?);
  }

  /** A step that makes n accepted, whether or not it is already. */
  predicate Admits(s: State, step: Step, n: Name) {
    || (step.AddWatch? && SuffixIn({step.name}, n))
    || (StoredBy(s, step).Some? && LeadsTo(StoredBy(s, step).value, n))
  }

  predicate NeverAdmitted(cfg: Split.Config, s: State, steps: seq<Step>, n: Name)
    decreases |steps|
  {
    steps != [] ==> !Admits(s, steps[0], n) && NeverAdmitted(cfg, Apply(cfg, s, steps[0]), steps[1..], n)
  }

  /** n is under a watch, or under a DNAME target other than x. */
  predicate UnderOther(w: List, n: Name, x: Name) {
    SuffixIn(w.m + (w.d.Keys - {x}), n)
  }

  lemma StepNotUnder(cfg: Split.Config, s: State, step: Step, n: Name, x: Name)
    requires !Admits(s, step, n) && !UnderOther(s.w, n, x)
    ensures !UnderOther(Apply(cfg, s, step).w, n, x)
  {
    var w := Apply(cfg, s, step).w;
    forall i | 0 <= i < |n|
      ensures n[i..] !in w.m + (w.d.Keys - {x})
    {
      assert n[i..] !in s.w.m + (s.w.d.Keys - {x});
    }
  }

  lemma {:induction false} NeverUnder(cfg: Split.Config, s: State, steps: seq<Step>, n: Name, x: Name)
    requires NeverAdmitted(cfg, s, steps, n) && !UnderOther(s.w, n, x)
    ensures !UnderOther(Exec(cfg, s, steps).w, n, x)
    decreases |steps|
  {
    if steps != [] {
      StepNotUnder(cfg, s, steps[0], n, x);
      NeverUnder(cfg, Apply(cfg, s, steps[0]), steps[1..], n, x);
    }
  }

  /** What would renew an alias that leads to n would admit n. */
  lemma {:induction false} NeverRenewed(cfg: Split.Config, s: State, steps: seq<Step>, n: Name, x: Name, dname: bool)
    requires NeverAdmitted(cfg, s, steps, n) && (if dname then SuffixIn({x}, n) else x == n)
    ensures NotRenewed(cfg, s, steps, x, dname)
    decreases |steps|
  {
    if steps != [] {
      NeverRenewed(cfg, Apply(cfg, s, steps[0]), steps[1..], n, x, dname);
    }
  }

  /** The third pass of a request is about to look at an address at n. */
  predicate LooksAt(s: State, id: nat, n: Name) {
    && At(s, id, Check) && s.requests[id].pass == 2
    && AddressAt(s.requests[id].reply, s.requests[id].idx)
    && s.requests[id].reply[s.requests[id].idx].owner == n
  }

  /** It finds it watched. */
  predicate Finds(cfg: Split.Config, s: State, id: nat)
    requires At(s, id, Check)
  {
    s.requests[id].idx in Apply(cfg, s, CheckRecord(id)).requests[id].watched
  }

  lemma FindsIff(cfg: Split.Config, s: State, id: nat, n: Name)
    requires ReportsOk(s) && LooksAt(s, id, n)
    ensures Finds(cfg, s, id) <==> Accepts(s.w, n)
  {
    assert RequestOk(s.requests[id]);
  }

  /** Exactly when an address behind a CNAME is missed. Its name was stored with
      TTL t, and nothing else makes it accepted; whatever else happens until the
      third pass looks at the address, it is found watched if and only if the
      list was not flushed and at most floor(t / 10) + 1 cleanups were done. */
  lemma AddressFoundIff(cfg: Split.Config, s: State, steps: seq<Step>, id: nat, n: Name, ttl: uint32)
    requires ReportsOk(s) && n != []
    requires n in s.w.c && s.w.c[n] == Fresh(ttl) && !SuffixIn(s.w.m + s.w.d.Keys, n)
    requires NeverAdmitted(cfg, s, steps, n) && LooksAt(Exec(cfg, s, steps), id, n)
    ensures Finds(cfg, Exec(cfg, s, steps), id) <==>
            FlushWatches !in steps && Cleanups(steps) <= ttl / 10 + 1
  {
    var t := Exec(cfg, s, steps);
    // the empty name is no suffix, so leaving it out changes nothing
    assert forall w: List :: UnderOther(w, n, []) == SuffixIn(w.m + w.d.Keys, n);
    NeverUnder(cfg, s, steps, n, []);
    NeverRenewed(cfg, s, steps, n, n, false);
    TempLifetime(cfg, s, steps, n, false);
    RunReportsOk(cfg, s, steps);
    FindsIff(cfg, t, id, n);
  }

  /** The same for an address at or below a DNAME target x. */
  lemma AddressBelowFoundIff(cfg: Split.Config, s: State, steps: seq<Step>, id: nat, n: Name, x: Name, ttl: uint32)
    requires ReportsOk(s) && SuffixIn({x}, n)
    requires x in s.w.d && s.w.d[x] == Fresh(ttl) && n !in s.w.c && !UnderOther(s.w, n, x)
    requires NeverAdmitted(cfg, s, steps, n) && LooksAt(Exec(cfg, s, steps), id, n)
    ensures Finds(cfg, Exec(cfg, s, steps), id) <==>
            FlushWatches !in steps && Cleanups(steps) <= ttl / 10 + 1
  {
    var t := Exec(cfg, s, steps);
    NeverUnder(cfg, s, steps, n, x);
    NeverRenewed(cfg, s, steps, n, n, false);
    NeverRenewed(cfg, s, steps, n, x, true);
    TempLifetime(cfg, s, steps, n, false);
    TempLifetime(cfg, s, steps, x, true);
    AcceptedBelowIff(t.w, n, x);
    RunReportsOk(cfg, s, steps);
    FindsIff(cfg, t, id, n);
  }

  lemma AcceptedBelowIff(w: List, n: Name, x: Name)
    requires SuffixIn({x}, n) && n !in w.c && !UnderOther(w, n, x)
    ensures Accepts(w, n) <==> x in w.d
  {
    var i :| 0 <= i < |n| && n[i..] in {x};
    if x in w.d {
      assert n[i..] in w.m + w.d.Keys;
    } else {
      assert w.d.Keys - {x} == w.d.Keys;
    }
  }

  // ----- a chain of aliases from a watch is followed to its addresses -----

  /** n is at or below a watch, or at or below the target of one of the first j
      records, a DNAME in via whose owner is so already. */
  ghost predicate Below(reply: seq<Record>, via: set<Record>, watches: set<Name>, n: Name, j: nat)
    decreases j
  {
    n != [] && (SuffixIn(watches, n) ||
                exists i :: 0 <= i < j && i < |reply| && reply[i] in via && reply[i].Dname?
                            && SuffixIn({reply[i].target}, n) && Below(reply, via, watches, reply[i].owner, i))
  }

  /** n is so with the first d records, or the target of one of the first j
      records, a CNAME in via whose owner is on the chain already: DNAMEs and
      CNAMEs each stand in chain order. */
  ghost predicate OnChain(reply: seq<Record>, via: set<Record>, watches: set<Name>, n: Name, d: nat, j: nat)
    decreases j
  {
    n != [] && (Below(reply, via, watches, n, d) ||
                exists i :: 0 <= i < j && i < |reply| && reply[i] in via && reply[i].Cname?
                            && reply[i].target == n && OnChain(reply, via, watches, reply[i].owner, d, i))
  }

  /** On the chain that the aliases in via make in the whole reply. */
  ghost predicate InChain(reply: seq<Record>, via: set<Record>, watches: set<Name>, n: Name) {
    OnChain(reply, via, watches, n, |reply|, |reply|)
  }

  predicate CnameTo(via: set<Record>, n: Name) {
    exists rec | rec in via :: rec.Cname? && rec.target == n
  }

  predicate DnameTo(via: set<Record>, n: Name) {
    exists rec | rec in via :: rec.Dname? && rec.target == n
  }

  /** Storing this record replaces the entry of an alias in via. */
  predicate Replaces(rec: Record, via: set<Record>) {
    (rec.Cname? && CnameTo(via, rec.target)) || (rec.Dname? && DnameTo(via, rec.target))
  }

  /** No flush, and when the target of an alias in via is stored, by this or any
      other request, it is with a TTL that outlives the cleanups still to come. */
  predicate CalmStep(s: State, step: Step, via: set<Record>, left: nat) {
    && !step.FlushWatches?
    && (var rec := StoredBy(s, step);
        rec.Some? && Replaces(rec.value, via) ==> left <= rec.value.ttl / 10 + 1)
  }

  predicate Calm(cfg: Split.Config, s: State, steps: seq<Step>, via: set<Record>)
    decreases |steps|
  {
    steps != [] ==>
      && CalmStep(s, steps[0], via, Cleanups(steps[1..]))
      && Calm(cfg, Apply(cfg, s, steps[0]), steps[1..], via)
  }

  /** n is accepted because of a watch or an alias in via, and stays so for k cleanups. */
  ghost predicate Held(w: List, via: set<Record>, watches: set<Name>, n: Name, k: nat) {
    || SuffixIn(watches, n)
    || (CnameTo(via, n) && n in w.c && Lives(w.c[n], CLEAN_INTERVAL) >= k)
    || (exists i :: 0 <= i < |n| && HeldDname(w, via, n[i..], k))
  }

  ghost predicate HeldDname(w: List, via: set<Record>, n: Name, k: nat) {
    DnameTo(via, n) && n in w.d && Lives(w.d[n], CLEAN_INTERVAL) >= k
  }

  /** Numbers of leading records whose DNAMEs and CNAMEs the request has stored. */
  function Dnames(r: Request): nat {
    if r.pass == 0 then r.idx else |r.reply|
  }

  function Cnames(r: Request): nat {
    if r.pass == 0 then 0 else if r.pass == 1 then r.idx else |r.reply|
  }

  /** Number of leading records the third pass has looked at. */
  function LookedAt(r: Request): nat {
    if r.pass < 2 then 0 else if r.phase.Check? then r.idx else r.idx + 1
  }

  /** The names the request has followed the chain to are held. */
  ghost predicate HoldsChain(r: Request, w: List, via: set<Record>, watches: set<Name>, budget: nat) {
    forall n | OnChain(r.reply, via, watches, n, Dnames(r), Cnames(r)) :: Held(w, via, watches, n, budget)
  }

  /** The addresses on the chain that the third pass has looked at were found watched. */
  ghost predicate FoundSoFar(r: Request, via: set<Record>, watches: set<Name>) {
    && (r.phase.Written? ==> r.pass == 2 && r.idx == |r.reply|)
    && forall i: nat | i < LookedAt(r) && AddressAt(r.reply, i) && InChain(r.reply, via, watches, r.reply[i].owner) ::
         i in r.watched
  }

  /** How far a request has followed the chain. */
  ghost predicate Follows(r: Request, w: List, via: set<Record>, watches: set<Name>, budget: nat) {
    RequestOk(r) && HoldsChain(r, w, via, watches, budget) && FoundSoFar(r, via, watches)
  }

  ghost predicate Following(s: State, id: nat, reply: seq<Record>, via: set<Record>, watches: set<Name>, budget: nat) {
    && watches <= s.w.m
    && id in s.requests && s.requests[id].reply == reply && Follows(s.requests[id], s.w, via, watches, budget)
  }

  lemma CnameNext(reply: seq<Record>, via: set<Record>, watches: set<Name>, n: Name, d: nat, j: nat)
    requires j < |reply| && OnChain(reply, via, watches, n, d, j + 1) && !OnChain(reply, via, watches, n, d, j)
    ensures reply[j] in via && reply[j].Cname? && reply[j].target == n
    ensures OnChain(reply, via, watches, reply[j].owner, d, j)
  {
    var i :| 0 <= i < j + 1 && i < |reply| && reply[i] in via && reply[i].Cname? && reply[i].target == n
             && OnChain(reply, via, watches, reply[i].owner, d, i);
  }

  lemma DnameNext(reply: seq<Record>, via: set<Record>, watches: set<Name>, n: Name, j: nat)
    requires j < |reply| && OnChain(reply, via, watches, n, j + 1, 0) && !OnChain(reply, via, watches, n, j, 0)
    ensures reply[j] in via && reply[j].Dname? && SuffixIn({reply[j].target}, n)
    ensures OnChain(reply, via, watches, reply[j].owner, j, 0)
  {
    assert Below(reply, via, watches, n, j + 1) && !Below(reply, via, watches, n, j);
    var i :| 0 <= i < j + 1 && i < |reply| && reply[i] in via && reply[i].Dname? && SuffixIn({reply[i].target}, n)
             && Below(reply, via, watches, reply[i].owner, i);
  }

  /** A name that the next record brings onto the chain: what that record is. */
  lemma NextOnChain(r: Request, via: set<Record>, watches: set<Name>, n: Name)
    requires r.pass < 2 && r.idx < |r.reply|
    requires OnChain(r.reply, via, watches, n, Dnames(NextRecord(r)), Cnames(NextRecord(r)))
    requires !OnChain(r.reply, via, watches, n, Dnames(r), Cnames(r))
    ensures var rec := r.reply[r.idx];
            && rec in via && (if r.pass == 0 then rec.Dname? else rec.Cname?) && LeadsTo(rec, n)
            && OnChain(r.reply, via, watches, rec.owner, Dnames(r), Cnames(r))
  {
    if r.pass == 0 {
      DnameNext(r.reply, via, watches, n, r.idx);
    } else {
      CnameNext(r.reply, via, watches, n, |r.reply|, r.idx);
    }
  }

  lemma HeldAccepted(w: List, via: set<Record>, watches: set<Name>, n: Name, k: nat)
    requires watches <= w.m && n != [] && Held(w, via, watches, n, k)
    ensures Accepts(w, n)
  {
    if SuffixIn(watches, n) {
      SuffixInMonotone(watches, w.m + w.d.Keys, n);
    } else if n !in w.c {
      var i :| 0 <= i < |n| && HeldDname(w, via, n[i..], k);
      assert n[i..] in w.m + w.d.Keys;
    }
  }

  /** Storing a target, by any request, shortens the life of no chain name below the budget. */
  lemma StoreKeepsHeld(w: List, rec: Record, via: set<Record>, watches: set<Name>, n: Name, budget: nat)
    requires Held(w, via, watches, n, budget)
    requires Replaces(rec, via) ==> budget <= rec.ttl / 10 + 1
    ensures Held(AfterStore(w, rec), via, watches, n, budget)
  {
    var next := AfterStore(w, rec);
    if !SuffixIn(watches, n) && !(CnameTo(via, n) && n in w.c && Lives(w.c[n], CLEAN_INTERVAL) >= budget) {
      var i :| 0 <= i < |n| && HeldDname(w, via, n[i..], budget);
      assert HeldDname(next, via, n[i..], budget);
    }
  }

  lemma StoredIsHeld(w: List, rec: Record, via: set<Record>, watches: set<Name>, n: Name, budget: nat)
    requires rec in via && LeadsTo(rec, n) && budget <= rec.ttl / 10 + 1
    ensures Held(AfterStore(w, rec), via, watches, n, budget)
  {
    if rec.Dname? {
      var i :| 0 <= i < |n| && n[i..] in {rec.target};
      assert HeldDname(AfterStore(w, rec), via, n[i..], budget);
    }
  }

  lemma CleanKeepsHeld(w: List, via: set<Record>, watches: set<Name>, n: Name, budget: nat)
    requires Held(w, via, watches, n, budget + 1)
    ensures Held(CleanedTemp(w, CLEAN_INTERVAL), via, watches, n, budget)
  {
    var next := CleanedTemp(w, CLEAN_INTERVAL);
    if SuffixIn(watches, n) {
    } else if CnameTo(via, n) && n in w.c && Lives(w.c[n], CLEAN_INTERVAL) >= budget + 1 {
      TickLives(w.c[n], CLEAN_INTERVAL);
    } else {
      var i :| 0 <= i < |n| && HeldDname(w, via, n[i..], budget + 1);
      TickLives(w.d[n[i..]], CLEAN_INTERVAL);
      assert HeldDname(next, via, n[i..], budget);
    }
  }

  /** The request looks at one record. */
  lemma CheckFollows(w: List, r: Request, via: set<Record>, watches: set<Name>, budget: nat)
    requires watches <= w.m && Follows(r, w, via, watches, budget) && r.phase.Check?
    ensures Follows(AfterCheck(w, r), w, via, watches, budget)
  {
    var next := AfterCheck(w, r);
    CheckRequestOk(w, r);
    forall n | OnChain(r.reply, via, watches, n, Dnames(next), Cnames(next))
      ensures Held(w, via, watches, n, budget)
    {
      if !OnChain(r.reply, via, watches, n, Dnames(r), Cnames(r)) {
        NextOnChain(r, via, watches, n);
        HeldAccepted(w, via, watches, r.reply[r.idx].owner, budget);
      }
    }
    if r.pass == 2 && r.idx < |r.reply| && InChain(r.reply, via, watches, r.reply[r.idx].owner) {
      HeldAccepted(w, via, watches, r.reply[r.idx].owner, budget);
    }
  }

  /** The request stores the target of one record. */
  lemma StoreFollows(w: List, r: Request, via: set<Record>, watches: set<Name>, budget: nat)
    requires Follows(r, w, via, watches, budget) && r.phase.Store?
    requires Replaces(r.reply[r.idx], via) ==> budget <= r.reply[r.idx].ttl / 10 + 1
    ensures Follows(NextRecord(r), AfterStore(w, r.reply[r.idx]), via, watches, budget)
  {
    var rec := r.reply[r.idx];
    forall n | OnChain(r.reply, via, watches, n, Dnames(NextRecord(r)), Cnames(NextRecord(r)))
      ensures Held(AfterStore(w, rec), via, watches, n, budget)
    {
      if OnChain(r.reply, via, watches, n, Dnames(r), Cnames(r)) {
        StoreKeepsHeld(w, rec, via, watches, n, budget);
      } else {
        NextOnChain(r, via, watches, n);
        StoredIsHeld(w, rec, via, watches, n, budget);
      }
    }
  }

  /** Steps of others on the watch list. */
  lemma OtherStoreFollows(w: List, r: Request, rec: Record, via: set<Record>, watches: set<Name>, budget: nat)
    requires HoldsChain(r, w, via, watches, budget)
    requires Replaces(rec, via) ==> budget <= rec.ttl / 10 + 1
    ensures HoldsChain(r, AfterStore(w, rec), via, watches, budget)
  {
    forall n | OnChain(r.reply, via, watches, n, Dnames(r), Cnames(r))
      ensures Held(AfterStore(w, rec), via, watches, n, budget)
    {
      StoreKeepsHeld(w, rec, via, watches, n, budget);
    }
  }

  lemma CleanFollows(w: List, r: Request, via: set<Record>, watches: set<Name>, budget: nat)
    requires HoldsChain(r, w, via, watches, budget + 1)
    ensures HoldsChain(r, CleanedTemp(w, CLEAN_INTERVAL), via, watches, budget)
  {
    forall n | OnChain(r.reply, via, watches, n, Dnames(r), Cnames(r))
      ensures Held(CleanedTemp(w, CLEAN_INTERVAL), via, watches, n, budget)
    {
      CleanKeepsHeld(w, via, watches, n, budget);
    }
  }

  /** The request's own steps, and the closing of a report. */
  predicate OwnStep(step: Step, id: nat) {
    match step
    case CheckRecord(other) => other == id
    case StoreTarget(other) => other == id
    case SendReport(other) => other == id
    case Resume(other) => other == id
    case CloseReport => true
    case _ => false
  }

  lemma StepFrame(cfg: Split.Config, s: State, step: Step, id: nat)
    requires id in s.requests
    ensures var next := Apply(cfg, s, step);
            && id in next.requests && s.requests[id].reply == next.requests[id].reply
            && (OwnStep(step, id) || next.requests[id] == s.requests[id])
            && (step.FlushWatches? || s.w.m <= next.w.m)
  {}

  /** Steps of others and of the timer. */
  lemma OtherStepFollows(cfg: Split.Config, s: State, step: Step, id: nat, via: set<Record>,
                         watches: set<Name>, budget: nat)
    requires id in s.requests && !OwnStep(step, id) && CalmStep(s, step, via, budget)
    requires Follows(s.requests[id], s.w, via, watches, budget + (if step.CleanWatches? then 1 else 0))
    ensures Follows(s.requests[id], Apply(cfg, s, step).w, via, watches, budget)
  {
    var r := s.requests[id];
    if step.CleanWatches? {
      CleanFollows(s.w, r, via, watches, budget);
    } else if StoredBy(s, step).Some? {
      OtherStoreFollows(s.w, r, StoredBy(s, step).value, via, watches, budget);
    } else {
      assert Apply(cfg, s, step).w.c == s.w.c && Apply(cfg, s, step).w.d == s.w.d;
    }
  }

  /** Sending a report, its closing and going on after it. */
  lemma ReportStepFollows(cfg: Split.Config, s: State, step: Step, id: nat, via: set<Record>,
                          watches: set<Name>, budget: nat)
    requires id in s.requests && (step.SendReport? || step.CloseReport? || step.Resume?)
    requires Follows(s.requests[id], s.w, via, watches, budget)
    requires id in Apply(cfg, s, step).requests && RequestOk(Apply(cfg, s, step).requests[id])
    ensures Follows(Apply(cfg, s, step).requests[id], Apply(cfg, s, step).w, via, watches, budget)
  {
    var r, next := s.requests[id], Apply(cfg, s, step).requests[id];
    assert next.reply == r.reply && next.watched == r.watched && Apply(cfg, s, step).w == s.w;
    assert Dnames(next) == Dnames(r) && Cnames(next) == Cnames(r) && LookedAt(next) == LookedAt(r);
  }

  lemma StepFollows(cfg: Split.Config, s: State, step: Step, id: nat, reply: seq<Record>, via: set<Record>,
                    watches: set<Name>, budget: nat)
    requires Following(s, id, reply, via, watches, budget + (if step.CleanWatches? then 1 else 0))
    requires (forall other | other in s.requests :: RequestOk(s.requests[other])) && HandlerOk(s)
    requires CalmStep(s, step, via, budget)
    ensures Following(Apply(cfg, s, step), id, reply, via, watches, budget)
  {
    var r := s.requests[id];
    StepFrame(cfg, s, step, id);
    if Enabled(s, step) {
      if !OwnStep(step, id) {
        OtherStepFollows(cfg, s, step, id, via, watches, budget);
      } else if step.CheckRecord? {
        CheckFollows(s.w, r, via, watches, budget);
      } else if step.StoreTarget? {
        StoreFollows(s.w, r, via, watches, budget);
      } else {
        StepRequestsOk(cfg, s, step, id);
        ReportStepFollows(cfg, s, step, id, via, watches, budget);
      }
    }
  }

  lemma {:induction false} RunFollows(cfg: Split.Config, s: State, steps: seq<Step>, id: nat, reply: seq<Record>,
                                      via: set<Record>, watches: set<Name>)
    requires ReportsOk(s) && Following(s, id, reply, via, watches, Cleanups(steps)) && Calm(cfg, s, steps, via)
    ensures Following(Exec(cfg, s, steps), id, reply, via, watches, 0)
    decreases |steps|
  {
    if steps != [] {
      StepFollows(cfg, s, steps[0], id, reply, via, watches, Cleanups(steps[1..]));
      StepReportsOk(cfg, s, steps[0]);
      RunFollows(cfg, Apply(cfg, s, steps[0]), steps[1..], id, reply, via, watches);
    }
  }

  lemma StartFollows(cfg: Split.Config, s: State, id: nat, reply: seq<Record>, via: set<Record>, k: nat)
    requires id !in s.requests
    ensures Following(Apply(cfg, s, Receive(id, reply)), id, reply, via, s.w.m, k)
  {
    var started := Apply(cfg, s, Receive(id, reply));
    assert RequestOk(started.requests[id]);
    assert forall n :: OnChain(reply, via, s.w.m, n, 0, 0) ==> SuffixIn(s.w.m, n);
  }

  /** A request whose reply lists aliases in chain order from a watch: once it is
      written, every address record at a name on the chain was watched and its
      report closed, wherever the record stands in the reply. Cleanups may run
      meanwhile as long as the entries of the aliases used outlive them. */
  lemma ChainReported(cfg: Split.Config, s: State, id: nat, reply: seq<Record>, via: set<Record>,
                      steps: seq<Step>, i: nat)
    requires ReportsOk(s) && id !in s.requests
    requires Calm(cfg, Apply(cfg, s, Receive(id, reply)), steps, via)
    requires AddressAt(reply, i) && InChain(reply, via, s.w.m, reply[i].owner)
    ensures var t := Exec(cfg, s, [Receive(id, reply)] + steps);
            && id in t.requests
            && (t.requests[id].phase.Written? ==> i in t.requests[id].watched && i in t.requests[id].closed)
  {
    var started := Apply(cfg, s, Receive(id, reply));
    assert ([Receive(id, reply)] + steps)[1..] == steps;
    StepReportsOk(cfg, s, Receive(id, reply));
    StartFollows(cfg, s, id, reply, via, Cleanups(steps));
    RunFollows(cfg, started, steps, id, reply, via, s.w.m);
    RunReportsOk(cfg, started, steps);
    assert RequestOk(Exec(cfg, started, steps).requests[id]);
  }

  lemma {:induction false} OneCleanupIsCalm(cfg: Split.Config, s: State, steps: seq<Step>, via: set<Record>)
    requires Cleanups(steps) <= 1 && FlushWatches !in steps
    ensures Calm(cfg, s, steps, via)
    decreases |steps|
  {
    if steps != [] {
      assert steps == [steps[0]] + steps[1..];
      OneCleanupIsCalm(cfg, Apply(cfg, s, steps[0]), steps[1..], via);
    }
  }

  /** In particular one cleanup is always safe, whatever the TTLs and whatever
      other requests do. */
  lemma ChainReportedDespiteCleanup(cfg: Split.Config, s: State, id: nat, reply: seq<Record>, via: set<Record>,
                                    steps: seq<Step>, i: nat)
    requires ReportsOk(s) && id !in s.requests
    requires Cleanups(steps) <= 1 && FlushWatches !in steps
    requires AddressAt(reply, i) && InChain(reply, via, s.w.m, reply[i].owner)
    ensures var t := Exec(cfg, s, [Receive(id, reply)] + steps);
            && id in t.requests
            && (t.requests[id].phase.Written? ==> i in t.requests[id].watched && i in t.requests[id].closed)
  {
    OneCleanupIsCalm(cfg, Apply(cfg, s, Receive(id, reply)), steps, via);
    ChainReported(cfg, s, id, reply, via, steps, i);
  }

  // ----- a request that takes too long -----

  /** Request id up to the second pass, for a reply with one CNAME and one address. */
  function FirstPass(id: nat, reply: seq<Record>): seq<Step> {
    [Receive(id, reply), CheckRecord(id), CheckRecord(id), CheckRecord(id)]
  }

  function SecondPass(id: nat): seq<Step> {
    [CheckRecord(id), StoreTarget(id), CheckRecord(id), CheckRecord(id)]
  }

  /** n cleanups, and the third pass over the CNAME. */
  function CleanedBetween(id: nat, n: nat): seq<Step> {
    if n == 0 then [CheckRecord(id)] else [CleanWatches] + CleanedBetween(id, n - 1)
  }

  /** The third pass over the address; its report, if there is one; the end. */
  function LastPass(id: nat): seq<Step> {
    [CheckRecord(id), SendReport(id), HandleReport, CloseReport, Resume(id), CheckRecord(id)]
  }

  function SlowRun(id: nat, owner: Name, reply: seq<Record>, n: nat): seq<Step> {
    [AddWatch(owner)] + FirstPass(id, reply) + SecondPass(id) + CleanedBetween(id, n) + LastPass(id)
  }

  function OneAlias(owner: Name, target: Name, ttl: uint32, ip: Addr, ipTtl: uint32): seq<Record> {
    [Cname(owner, target, ttl), Address(target, Some(ip), ipTtl)]
  }

  /** Request id stands at r, and the watch list is w. */
  predicate Stands(s: State, id: nat, w: List, r: Request) {
    s.w == w && s.handler.Idle? && id in s.requests && s.requests[id] == r
  }

  lemma CheckStands(cfg: Split.Config, s: State, id: nat, w: List, r: Request)
    requires Stands(s, id, w, r) && r.phase.Check?
    ensures Stands(Apply(cfg, s, CheckRecord(id)), id, w, AfterCheck(w, r))
  {}

  lemma AfterFirstPass(cfg: Split.Config, s: State, id: nat, w: List, reply: seq<Record>)
    requires s.w == w && s.handler.Idle? && id !in s.requests
    requires |reply| == 2 && reply[0].Cname? && reply[1].Address?
    ensures Stands(Exec(cfg, s, FirstPass(id, reply)), id, w, Request(reply, 1, 0, Check, {}, {}))
  {
    var s0 := Apply(cfg, s, Receive(id, reply));
    var s1 := Apply(cfg, s0, CheckRecord(id));
    CheckStands(cfg, s0, id, w, Request(reply, 0, 0, Check, {}, {}));
    CheckStands(cfg, s1, id, w, Request(reply, 0, 1, Check, {}, {}));
    CheckStands(cfg, Apply(cfg, s1, CheckRecord(id)), id, w, Request(reply, 0, 2, Check, {}, {}));
    ExecFour(cfg, s, Receive(id, reply), CheckRecord(id), CheckRecord(id), CheckRecord(id));
  }

  lemma AfterSecondPass(cfg: Split.Config, s: State, id: nat, owner: Name, target: Name, reply: seq<Record>,
                        ttl: uint32)
    requires owner != [] && |reply| == 2 && reply[0] == Cname(owner, target, ttl) && reply[1].Address?
    requires Stands(s, id, List({owner}, map[], map[]), Request(reply, 1, 0, Check, {}, {}))
    ensures Stands(Exec(cfg, s, SecondPass(id)), id, List({owner}, map[target := Fresh(ttl)], map[]),
                   Request(reply, 2, 0, Check, {}, {}))
  {
    var w, w' := List({owner}, map[], map[]), List({owner}, map[target := Fresh(ttl)], map[]);
    assert owner[0..] == owner;
    var s1 := Apply(cfg, s, CheckRecord(id));
    CheckStands(cfg, s, id, w, Request(reply, 1, 0, Check, {}, {}));
    assert Stands(s1, id, w, Request(reply, 1, 0, Store, {}, {}));
    var s2 := Apply(cfg, s1, StoreTarget(id));
    assert Stands(s2, id, w', Request(reply, 1, 1, Check, {}, {}));
    CheckStands(cfg, s2, id, w', Request(reply, 1, 1, Check, {}, {}));
    CheckStands(cfg, Apply(cfg, s2, CheckRecord(id)), id, w', Request(reply, 1, 2, Check, {}, {}));
    ExecFour(cfg, s, CheckRecord(id), StoreTarget(id), CheckRecord(id), CheckRecord(id));
  }

  lemma {:induction false} AfterCleaned(cfg: Split.Config, s: State, id: nat, n: nat, target: Name)
    requires id in s.requests && s.requests[id].phase.Check? && s.requests[id].pass == 2
    requires s.requests[id].idx < |s.requests[id].reply| && s.requests[id].reply[s.requests[id].idx].Cname?
    ensures var t := Exec(cfg, s, CleanedBetween(id, n));
            && id in t.requests && t.requests[id] == NextRecord(s.requests[id]) && t.handler == s.handler
    ensures Cleanups(CleanedBetween(id, n)) == n && FlushWatches !in CleanedBetween(id, n)
    ensures NeverAdmitted(cfg, s, CleanedBetween(id, n), target)
    decreases n
  {
    if n > 0 {
      assert CleanedBetween(id, n)[1..] == CleanedBetween(id, n - 1);
      AfterCleaned(cfg, Apply(cfg, s, CleanWatches), id, n - 1, target);
    }
  }

  lemma ReportSkipped(cfg: Split.Config, s: State, id: nat)
    requires s.handler.Idle? && id in s.requests && s.requests[id].phase.Check?
    ensures Exec(cfg, s, [SendReport(id), HandleReport, CloseReport, Resume(id)]) == s
  {
    ExecFour(cfg, s, SendReport(id), HandleReport, CloseReport, Resume(id));
  }

  lemma AfterLastPass(cfg: Split.Config, s: State, id: nat)
    requires s.handler.Idle? && id in s.requests
    requires var r := s.requests[id];
             r.phase.Check? && r.pass == 2 && AddressAt(r.reply, r.idx) && |r.reply| == r.idx + 1
    ensures var t := Exec(cfg, s, LastPass(id));
            && id in t.requests && t.requests[id].reply == s.requests[id].reply && t.requests[id].phase.Written?
            && t.requests[id].watched == Apply(cfg, s, CheckRecord(id)).requests[id].watched
  {
    var next := Apply(cfg, s, CheckRecord(id));
    var report := [SendReport(id), HandleReport, CloseReport, Resume(id)];
    assert LastPass(id) == [CheckRecord(id)] + (report + [CheckRecord(id)]);
    ExecAppend(cfg, s, [CheckRecord(id)], report + [CheckRecord(id)]);
    ExecAppend(cfg, next, report, [CheckRecord(id)]);
    if next.requests[id].phase.Send? {
      ExecReport(cfg, next, id);
    } else {
      ReportSkipped(cfg, next, id);
    }
  }

  lemma SlowRunParts(cfg: Split.Config, id: nat, owner: Name, reply: seq<Record>, n: nat)
    ensures var first := Exec(cfg, Apply(cfg, Init(cfg), AddWatch(owner)), FirstPass(id, reply));
            Exec(cfg, Init(cfg), SlowRun(id, owner, reply, n)) ==
            Exec(cfg, Exec(cfg, Exec(cfg, first, SecondPass(id)), CleanedBetween(id, n)), LastPass(id))
  {
    var s := Init(cfg);
    ExecAppend(cfg, s, [AddWatch(owner)] + FirstPass(id, reply) + SecondPass(id) + CleanedBetween(id, n), LastPass(id));
    ExecAppend(cfg, s, [AddWatch(owner)] + FirstPass(id, reply) + SecondPass(id), CleanedBetween(id, n));
    ExecAppend(cfg, s, [AddWatch(owner)] + FirstPass(id, reply), SecondPass(id));
    ExecAppend(cfg, s, [AddWatch(owner)], FirstPass(id, reply));
  }

  lemma SlowThirdPass(cfg: Split.Config, s: State, id: nat, owner: Name, target: Name, reply: seq<Record>,
                      ttl: uint32, n: nat)
    requires ReportsOk(s) && target != [] && !SuffixIn({owner}, target)
    requires |reply| == 2 && reply[0].Cname? && AddressAt(reply, 1) && reply[1].owner == target
    requires Stands(s, id, List({owner}, map[target := Fresh(ttl)], map[]), Request(reply, 2, 0, Check, {}, {}))
    ensures var t := Exec(cfg, Exec(cfg, s, CleanedBetween(id, n)), LastPass(id));
            && id in t.requests && t.requests[id].reply == reply && t.requests[id].phase.Written?
            && (1 in t.requests[id].watched <==> n <= ttl / 10 + 1)
  {
    AfterCleaned(cfg, s, id, n, target);
    assert s.w.m + s.w.d.Keys == {owner};
    AddressFoundIff(cfg, s, CleanedBetween(id, n), id, target, ttl);
    AfterLastPass(cfg, Exec(cfg, s, CleanedBetween(id, n)), id);
  }

  lemma SlowPasses(cfg: Split.Config, s: State, id: nat, owner: Name, target: Name, reply: seq<Record>,
                   ttl: uint32, n: nat)
    requires ReportsOk(s) && owner != [] && target != [] && !SuffixIn({owner}, target)
    requires |reply| == 2 && reply[0] == Cname(owner, target, ttl) && AddressAt(reply, 1) && reply[1].owner == target
    requires s.w == List({owner}, map[], map[]) && s.handler.Idle? && id !in s.requests
    ensures var second := Exec(cfg, Exec(cfg, s, FirstPass(id, reply)), SecondPass(id));
            var t := Exec(cfg, Exec(cfg, second, CleanedBetween(id, n)), LastPass(id));
            && id in t.requests && t.requests[id].reply == reply && t.requests[id].phase.Written?
            && (1 in t.requests[id].watched <==> n <= ttl / 10 + 1)
  {
    var first := Exec(cfg, s, FirstPass(id, reply));
    RunReportsOk(cfg, s, FirstPass(id, reply));
    RunReportsOk(cfg, first, SecondPass(id));
    AfterFirstPass(cfg, s, id, s.w, reply);
    AfterSecondPass(cfg, first, id, owner, target, reply, ttl);
    SlowThirdPass(cfg, Exec(cfg, first, SecondPass(id)), id, owner, target, reply, ttl, n);
  }

  lemma FirstWatch(cfg: Split.Config, s: State, owner: Name)
    requires ReportsOk(s) && s.w == EMPTY
    ensures var t := Apply(cfg, s, AddWatch(owner));
            ReportsOk(t) && t.w == List({owner}, map[], map[]) && t.handler == s.handler && t.requests == s.requests
  {
    StepReportsOk(cfg, s, AddWatch(owner));
  }

  lemma OneAliasInChain(owner: Name, target: Name, ttl: uint32, ip: Addr, ipTtl: uint32)
    requires owner != [] && target != []
    ensures var reply := OneAlias(owner, target, ttl, ip, ipTtl);
            InChain(reply, {reply[0]}, {owner}, target)
  {
    var reply := OneAlias(owner, target, ttl, ip, ipTtl);
    assert owner[0..] in {owner};
    assert OnChain(reply, {reply[0]}, {owner}, reply[0].owner, |reply|, 0);
  }

  /** A whole run from the start: a CNAME of a watched owner and an address at its
      target, with n cleanups before the third pass. The reply is written, and
      its address was found watched exactly when n is at most floor(ttl / 10) + 1. */
  lemma SlowRequestReportedIff(cfg: Split.Config, id: nat, owner: Name, target: Name, ttl: uint32,
                               ip: Addr, ipTtl: uint32, n: nat)
    requires owner != [] && target != [] && !SuffixIn({owner}, target)
    ensures var reply := OneAlias(owner, target, ttl, ip, ipTtl);
            var t := Exec(cfg, Init(cfg), SlowRun(id, owner, reply, n));
            && InChain(reply, {reply[0]}, {owner}, target)
            && id in t.requests && t.requests[id].reply == reply && t.requests[id].phase.Written?
            && (1 in t.requests[id].watched <==> n <= ttl / 10 + 1)
  {
    var reply := OneAlias(owner, target, ttl, ip, ipTtl);
    OneAliasInChain(owner, target, ttl, ip, ipTtl);
    var watching := Apply(cfg, Init(cfg), AddWatch(owner));
    InitReportsOk(cfg);
    FirstWatch(cfg, Init(cfg), owner);
    SlowPasses(cfg, watching, id, owner, target, reply, ttl, n);
    SlowRunParts(cfg, id, owner, reply, n);
  }

  /** So two cleanups are not always safe: with a TTL of 0 the reply is written
      and its address, although on the chain, never was reported. */
  lemma TwoCleanupsLoseTarget(cfg: Split.Config, id: nat, owner: Name, target: Name, ip: Addr)
    requires owner != [] && target != [] && !SuffixIn({owner}, target)
    ensures var reply := OneAlias(owner, target, 0, ip, 0);
            var t := Exec(cfg, Init(cfg), SlowRun(id, owner, reply, 2));
            && InChain(reply, {reply[0]}, {owner}, reply[1].owner)
            && id in t.requests && t.requests[id].phase.Written? && 1 !in t.requests[id].watched
  {
    SlowRequestReportedIff(cfg, id, owner, target, 0, ip, 0, 2);
  }

  // ----- handleRequest -----

  lemma {:induction false} ExecAppend(cfg: Split.Config, s: State, xs: seq<Step>, ys: seq<Step>)
    ensures Exec(cfg, s, xs + ys) == Exec(cfg, Exec(cfg, s, xs), ys)
    decreases |xs|
  {
    if xs == [] {
      assert xs + ys == ys;
    } else {
      assert (xs + ys)[0] == xs[0] && (xs + ys)[1..] == xs[1..] + ys;
      ExecAppend(cfg, Apply(cfg, s, xs[0]), xs[1..], ys);
    }
  }

  lemma ExecFirst(cfg: Split.Config, s: State, step: Step, more: seq<Step>)
    ensures Exec(cfg, s, [step] + more) == Exec(cfg, Apply(cfg, s, step), more)
    ensures more == [] ==> Exec(cfg, s, [step]) == Apply(cfg, s, step)
  {
    assert ([step] + more)[1..] == more;
    assert more == [] ==> [step] + more == [step];
  }

  /** The answer handling of handleRequest, run without interference. It is one
      run of the step system above, which allows every interleaving. */
  class Proxy {
    const watches: Watches
    const split: Split.SplitRouting

    constructor (watches: Watches, split: Split.SplitRouting)
      ensures this.watches == watches && this.split == split
    {
      this.watches, this.split := watches, split;
    }

    /** The state of this proxy, with request id at record idx of pass. */
    ghost predicate Matches(s: State, id: nat, reply: seq<Record>, pass: nat, idx: nat)
      reads watches, split, split.devices, split.addrs, split.excludes
    {
      && s.w == watches.View() && s.split == split.View() && s.handler.Idle?
      && id in s.requests
      && var r := s.requests[id];
         r.reply == reply && r.pass == pass && r.idx == idx && r.phase.Check?
    }

    method HandleRecord(pass: nat, idx: nat, reply: seq<Record>, ghost s: State, ghost id: nat)
      returns (ghost steps: seq<Step>)
      requires split.Valid() && pass <= 2 && idx < |reply| && Matches(s, id, reply, pass, idx)
      modifies watches, split`sent, split`dropped, split.excludes`d
      ensures split.Valid()
      ensures Matches(Exec(split.config, s, steps), id, reply, pass, idx + 1)
    {
      var rec := reply[idx];
      steps := [CheckRecord(id)];
      ExecCheck(split.config, s, id);
      var watched := watches.Contains(rec.owner);
      if !watched {
        return;
      }
      if (pass == 0 && rec.Dname?) || (pass == 1 && rec.Cname?) {
        if rec.Dname? {
          watches.AddTempDNAME(rec.target, rec.ttl);
        } else {
          watches.AddTempCNAME(rec.target, rec.ttl);
        }
        steps := [CheckRecord(id), StoreTarget(id)];
        ExecStore(split.config, s, id);
      } else if pass == 2 && rec.Address? && rec.ip.Some? {
        split.HandleDNSReport(rec.ip.value, rec.ttl);
        steps := [CheckRecord(id)] + [SendReport(id), HandleReport, CloseReport, Resume(id)];
        ExecAddress(split.config, s, id);
      }
    }

    /** One pass over all records. */
    method HandlePass(pass: nat, reply: seq<Record>, ghost s: State, ghost id: nat) returns (ghost steps: seq<Step>)
      requires split.Valid() && pass <= 2 && Matches(s, id, reply, pass, 0)
      modifies watches, split`sent, split`dropped, split.excludes`d
      ensures split.Valid()
      ensures Matches(Exec(split.config, s, steps), id, reply, pass, |reply|)
    {
      steps := [];
      ghost var t := s;
      for idx := 0 to |reply|
        invariant split.Valid() && t == Exec(split.config, s, steps)
        invariant Matches(t, id, reply, pass, idx)
      {
        ghost var more := HandleRecord(pass, idx, reply, t, id);
        ExecAppend(split.config, s, steps, more);
        steps, t := steps + more, Exec(split.config, t, more);
      }
    }

    method HandleReply(reply: seq<Record>, ghost s: State, ghost id: nat) returns (ghost steps: seq<Step>)
      requires split.Valid() && id !in s.requests
      requires s.w == watches.View() && s.split == split.View() && s.handler.Idle?
      modifies watches, split`sent, split`dropped, split.excludes`d
      ensures split.Valid()
      ensures var t := Exec(split.config, s, steps);
              && t.w == watches.View() && t.split == split.View()
              && id in t.requests && t.requests[id].reply == reply && t.requests[id].phase.Written?
    {
      steps := [Receive(id, reply)];
      ghost var t := Exec(split.config, s, steps);
      ExecFirst(split.config, s, Receive(id, reply), []);
      for pass := 0 to 3
        invariant split.Valid() && t == Exec(split.config, s, steps)
        invariant pass < 3 ==> Matches(t, id, reply, pass, 0)
        invariant pass == 3 ==> Matches(t, id, reply, 2, |reply|)
      {
        ghost var more := HandlePass(pass, reply, t, id);
        ExecAppend(split.config, s, steps, more);
        steps, t := steps + more, Exec(split.config, t, more);
        if pass < 2 {
          ExecAppend(split.config, s, steps, [CheckRecord(id)]);
          ExecCheck(split.config, t, id);
          steps, t := steps + [CheckRecord(id)], Exec(split.config, t, [CheckRecord(id)]);
        }
      }
      ExecAppend(split.config, s, steps, [CheckRecord(id)]);
      ExecCheck(split.config, t, id);
      steps := steps + [CheckRecord(id)];
    }
  }

  /** One check changes the request alone. */
  lemma ExecCheck(cfg: Split.Config, s: State, id: nat)
    requires At(s, id, Check)
    ensures var t := Exec(cfg, s, [CheckRecord(id)]);
            && t.w == s.w && t.split == s.split && t.handler == s.handler
            && id in t.requests && t.requests[id] == AfterCheck(s.w, s.requests[id])
  {
    ExecFirst(cfg, s, CheckRecord(id), []);
  }

  /** Checking a record and storing its target without interference. */
  lemma ExecStore(cfg: Split.Config, s: State, id: nat)
    requires At(s, id, Check) && AfterCheck(s.w, s.requests[id]).phase.Store?
    ensures var r := s.requests[id];
            var t := Exec(cfg, s, [CheckRecord(id), StoreTarget(id)]);
            && r.idx < |r.reply| && t.w == AfterStore(s.w, r.reply[r.idx])
            && t.split == s.split && t.handler == s.handler
            && id in t.requests && t.requests[id] == NextRecord(r)
  {
    assert [CheckRecord(id), StoreTarget(id)] == [CheckRecord(id)] + [StoreTarget(id)];
    ExecFirst(cfg, s, CheckRecord(id), [StoreTarget(id)]);
    ExecFirst(cfg, Apply(cfg, s, CheckRecord(id)), StoreTarget(id), []);
  }

  /** Checking an address record that is watched and having it reported, likewise. */
  lemma ExecAddress(cfg: Split.Config, s: State, id: nat)
    requires s.handler.Idle? && At(s, id, Check) && AfterCheck(s.w, s.requests[id]).phase.Send?
    ensures var r := s.requests[id];
            var t := Exec(cfg, s, [CheckRecord(id)] + [SendReport(id), HandleReport, CloseReport, Resume(id)]);
            && AddressAt(r.reply, r.idx) && t.w == s.w && t.handler.Idle?
            && t.split == Split.HandleReport(s.split, r.reply[r.idx].ip.value, r.reply[r.idx].ttl)
            && id in t.requests && t.requests[id].reply == r.reply && t.requests[id].pass == r.pass
            && t.requests[id].idx == r.idx + 1 && t.requests[id].phase.Check?
  {
    ExecFirst(cfg, s, CheckRecord(id), [SendReport(id), HandleReport, CloseReport, Resume(id)]);
    ExecReport(cfg, Apply(cfg, s, CheckRecord(id)), id);
  }

  /** Sending, handling and closing a report without interference. */
  lemma ExecReport(cfg: Split.Config, s: State, id: nat)
    requires s.handler.Idle? && id in s.requests && s.requests[id].phase.Send?
    requires AddressAt(s.requests[id].reply, s.requests[id].idx)
    ensures var r := s.requests[id];
            var rec := r.reply[r.idx];
            var split := Split.HandleReport(s.split, rec.ip.value, rec.ttl);
            Exec(cfg, s, [SendReport(id), HandleReport, CloseReport, Resume(id)]) ==
            s.(requests := s.requests[id := NextRecord(r.(closed := r.closed + {r.idx}))], split := split,
               log := s.log + {Closed(id, r.idx, rec.ip.value, split.sent)})
  {
    var r := s.requests[id];
    var rec := r.reply[r.idx];
    var split := Split.HandleReport(s.split, rec.ip.value, rec.ttl);
    SentAndHandled(cfg, s, id);
    ClosedAndResumed(cfg, s.(requests := s.requests[id := r.(phase := Wait)], split := split,
                             handler := Closing(id, r.idx, rec.ip.value)), id);
    ExecFour(cfg, s, SendReport(id), HandleReport, CloseReport, Resume(id));
    var done := NextRecord(r.(closed := r.closed + {r.idx}));
    assert s.requests[id := r.(phase := Wait)][id := done] == s.requests[id := done];
  }

  lemma SentAndHandled(cfg: Split.Config, s: State, id: nat)
    requires s.handler.Idle? && id in s.requests && s.requests[id].phase.Send?
    requires AddressAt(s.requests[id].reply, s.requests[id].idx)
    ensures var r := s.requests[id];
            var rec := r.reply[r.idx];
            Apply(cfg, Apply(cfg, s, SendReport(id)), HandleReport) ==
            s.(requests := s.requests[id := r.(phase := Wait)],
               split := Split.HandleReport(s.split, rec.ip.value, rec.ttl),
               handler := Closing(id, r.idx, rec.ip.value))
  {}

  lemma ClosedAndResumed(cfg: Split.Config, s: State, id: nat)
    requires s.handler.Closing? && s.handler.id == id && id in s.requests && s.requests[id].phase.Wait?
    requires s.handler.idx == s.requests[id].idx < |s.requests[id].reply|
    ensures var r := s.requests[id];
            Apply(cfg, Apply(cfg, s, CloseReport), Resume(id)) ==
            s.(requests := s.requests[id := NextRecord(r.(closed := r.closed + {r.idx}))],
               log := s.log + {Closed(id, r.idx, s.handler.ip, s.split.sent)}, handler := Idle)
  {
    var r := s.requests[id];
    var r1 := r.(closed := r.closed + {r.idx});
    assert Apply(cfg, s, CloseReport).requests == s.requests[id := r1];
    assert s.requests[id := r1][id := NextRecord(r1)] == s.requests[id := NextRecord(r1)];
  }

  lemma ExecFour(cfg: Split.Config, s: State, a: Step, b: Step, c: Step, d: Step)
    ensures Exec(cfg, s, [a, b, c, d]) == Apply(cfg, Apply(cfg, Apply(cfg, Apply(cfg, s, a), b), c), d)
  {
    ExecAppend(cfg, s, [a, b], [c, d]);
    assert [a, b] + [c, d] == [a, b, c, d];
    ExecAppend(cfg, s, [a], [b]);
    assert [a] + [b] == [a, b];
    var t := Apply(cfg, Apply(cfg, s, a), b);
    ExecAppend(cfg, t, [c], [d]);
    assert [c] + [d] == [c, d];
  }
}
