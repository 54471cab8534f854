/** internal/trafpol/resolver.go: the resolver of the allowed names.

    An update puts the names that are due in a queue; one worker per ten names
    takes names from it, resolves them and hands changed addresses over to
    traffic policing. A command during an update is owed: another update of all
    names starts when the current one is done. */
module Resolver {
  import opened Wrappers
  import opened Prefixes
  import opened Aging

  datatype Config = Config(tries: nat, ttl: nat, timer: nat)

  datatype Resolved = Resolved(ips: seq<Addr>, ttl: nat)

  /** One try: both lookups failed, both said not found, or the sorted addresses found. */
  datatype Answer = Failed | NotFound | Found(ips: seq<Addr>)

  datatype Worker = Free | Busy(name: string, tries: nat) | Sending(name: string, ips: seq<Addr>) | Gone

  datatype Update = Update(queue: seq<string>, workers: seq<Worker>)

  /** updates: update goroutines. clock counts steps; forced is the time of the
      latest start of an update of all names, requests the times of all commands. */
  datatype State = State(names: map<string, Resolved>, updating: bool, upAgain: bool, updates: seq<Update>,
                         clock: nat, forced: nat, requests: set<nat>)

  function Init(names: set<string>): State {
    State(map n | n in names :: Resolved([], 0), false, false, [], 0, 0, {})
  }

  /** Names an update resolves. */
  function Due(names: map<string, Resolved>, timer: nat, force: bool): set<string> {
    set n | n in names && (force || names[n].ttl <= timer)
  }

  /** The others get older. */
  function Aged(names: map<string, Resolved>, timer: nat, force: bool): map<string, Resolved> {
    map n | n in names ::
      if n in Due(names, timer, force) then names[n] else names[n].(ttl := names[n].ttl - timer)
  }

  ghost predicate Lists(order: seq<string>, s: set<string>) {
    && (forall n :: n in order <==> n in s)
    && forall i, j | 0 <= i < j < |order| :: order[i] != order[j]
  }

  function StartUpdate(cfg: Config, r: State, force: bool, order: seq<string>): State {
    r.(names := Aged(r.names, cfg.timer, force), updating := true,
       updates := r.updates + [Update(order, seq(|order| / 10 + 1, _ => Free))],
       forced := if force then r.clock else r.forced)
  }

  function Command(cfg: Config, r: State, order: seq<string>): State {
    var t := r.(clock := r.clock + 1, requests := r.requests + {r.clock + 1});
    if t.updating then t.(upAgain := true) else StartUpdate(cfg, t, true, order)
  }

  function Timer(cfg: Config, r: State, order: seq<string>): State {
    var t := r.(clock := r.clock + 1);
    if t.updating then t else StartUpdate(cfg, t, false, order)
  }

  function UpdateDone(cfg: Config, r: State, u: nat, order: seq<string>): State
    requires u < |r.updates|
  {
    var t := r.(clock := r.clock + 1, updates := r.updates[..u] + r.updates[u + 1..]);
    if t.upAgain then StartUpdate(cfg, t.(upAgain := false), true, order) else t.(updating := false)
  }

  /** What one answer makes of a name, and whether the worker is done with it. */
  datatype Verdict = Retry | Done | Send

  function Judge(old_: Resolved, ans: Answer): Verdict {
    match ans
    case Failed => Retry
    case NotFound => Done
    case Found(ips) => if ips == old_.ips then Done else Send
  }

  function Updated(cfg: Config, old_: Resolved, ans: Answer): Resolved {
    match ans
    case Failed => old_
    case NotFound => old_.(ttl := cfg.ttl)
    case Found(ips) => Resolved(ips, cfg.ttl)
  }

  datatype Step =
    | TakeCommand(order: seq<string>)
    | TimerFires(order: seq<string>)
    | TakeDone(u: nat, order: seq<string>)
    | TakeName(u: nat, i: nat)
    | Answered(u: nat, i: nat, ans: Answer)
    | GiveUp(u: nat, i: nat)
    | Handed(u: nat, i: nat)
    | WorkerEnds(u: nat, i: nat)

  predicate HasWorker(r: State, u: nat, i: nat) {
    u < |r.updates| && i < |r.updates[u].workers|
  }

  function WorkerAt(r: State, u: nat, i: nat): Worker
    requires HasWorker(r, u, i)
  {
    r.updates[u].workers[i]
  }

  function SetWorker(r: State, u: nat, i: nat, w: Worker): State
    requires HasWorker(r, u, i)
  {
    r.(clock := r.clock + 1,
       updates := r.updates[u := r.updates[u].(workers := r.updates[u].workers[i := w])])
  }

  ghost predicate Enabled(cfg: Config, r: State, step: Step) {
    match step
    case TakeCommand(order) => Lists(order, Due(r.names, cfg.timer, true))
    case TimerFires(order) => Lists(order, Due(r.names, cfg.timer, false))
    case TakeDone(u, order) =>
      && u < |r.updates| && (forall w | w in r.updates[u].workers :: w.Gone?)
      && Lists(order, Due(r.names, cfg.timer, true))
    case TakeName(u, i) => HasWorker(r, u, i) && WorkerAt(r, u, i).Free? && r.updates[u].queue != []
    case Answered(u, i, _) => HasWorker(r, u, i) && WorkerAt(r, u, i).Busy? && WorkerAt(r, u, i).tries < cfg.tries
    case GiveUp(u, i) => HasWorker(r, u, i) && WorkerAt(r, u, i).Busy? && WorkerAt(r, u, i).tries >= cfg.tries
    case Handed(u, i) => HasWorker(r, u, i) && WorkerAt(r, u, i).Sending?
    case WorkerEnds(u, i) => HasWorker(r, u, i) && WorkerAt(r, u, i).Free? && r.updates[u].queue == []
  }

  function AfterAnswer(cfg: Config, r: State, u: nat, i: nat, ans: Answer): State
    requires HasWorker(r, u, i) && WorkerAt(r, u, i).Busy?
  {
    var w := WorkerAt(r, u, i);
    if w.name !in r.names then r
    else
      var was := r.names[w.name];
      var next := match Judge(was, ans)
                  case Retry => Busy(w.name, w.tries + 1)
                  case Done => Free
                  case Send => Sending(w.name, Updated(cfg, was, ans).ips);
      SetWorker(r, u, i, next).(names := r.names[w.name := Updated(cfg, was, ans)])
  }

  ghost function Apply(cfg: Config, r: State, step: Step): State {
    if !Enabled(cfg, r, step) then r
    else match step
         case TakeCommand(order) => Command(cfg, r, order)
         case TimerFires(order) => Timer(cfg, r, order)
         case TakeDone(u, order) => UpdateDone(cfg, r, u, order)
         case TakeName(u, i) =>
           var t := SetWorker(r, u, i, Busy(r.updates[u].queue[0], 0));
           t.(updates := t.updates[u := t.updates[u].(queue := r.updates[u].queue[1..])])
         case Answered(u, i, ans) => AfterAnswer(cfg, r, u, i, ans)
         case GiveUp(u, i) => SetWorker(r, u, i, Free)
         case Handed(u, i) => SetWorker(r, u, i, Free)
         case WorkerEnds(u, i) => SetWorker(r, u, i, Gone)
  }

  ghost function Exec(cfg: Config, r: State, steps: seq<Step>): State
    decreases |steps|
  {
    if steps == [] then r else Exec(cfg, Apply(cfg, r, steps[0]), steps[1..])
  }

  // ----- one update, one worker per name, no command lost -----

  predicate Holds(w: Worker) {
    w.Busy? || w.Sending?
  }

  /** There is a worker, and none ends before the queue is empty. Queue and
      workers hold different known names, and what is being sent is current. */
  ghost predicate UpdateOk(names: map<string, Resolved>, up: Update) {
    && |up.workers| > 0 && (Gone in up.workers ==> up.queue == [])
    && (forall i, j | 0 <= i < j < |up.queue| :: up.queue[i] != up.queue[j])
    && (forall n | n in up.queue :: n in names)
    && (forall w | w in up.workers && Holds(w) :: w.name in names && w.name !in up.queue)
    && (forall i, j | 0 <= i < j < |up.workers| && Holds(up.workers[i]) && Holds(up.workers[j]) ::
          up.workers[i].name != up.workers[j].name)
    && (forall w | w in up.workers && w.Sending? :: names[w.name].ips == w.ips)
  }

  ghost predicate FlagsOk(r: State) {
    && |r.updates| == (if r.updating then 1 else 0)
    && (r.upAgain ==> r.updating)
    && r.forced <= r.clock
    && (forall t | t in r.requests :: t <= r.clock && (t <= r.forced || r.upAgain))
  }

  ghost predicate Inv(r: State) {
    FlagsOk(r) && forall up | up in r.updates :: UpdateOk(r.names, up)
  }

  lemma StepFlagsOk(cfg: Config, r: State, step: Step)
    requires FlagsOk(r)
    ensures FlagsOk(Apply(cfg, r, step))
  {}

  lemma NewUpdateOk(cfg: Config, r: State, force: bool, order: seq<string>)
    requires r.updates == [] && Lists(order, Due(r.names, cfg.timer, force))
    ensures var t := StartUpdate(cfg, r, force, order);
            forall up | up in t.updates :: UpdateOk(t.names, up)
  {}

  predicate IsWorkerStep(step: Step) {
    !step.TakeCommand? && !step.TimerFires? && !step.TakeDone?
  }

  /** A step of one worker leaves the others alone. */
  lemma OtherWorkersKept(cfg: Config, r: State, step: Step, u: nat, i: nat)
    requires IsWorkerStep(step) && Enabled(cfg, r, step) && (step.u, step.i) != (u, i) && HasWorker(r, u, i)
    ensures HasWorker(Apply(cfg, r, step), u, i) && WorkerAt(Apply(cfg, r, step), u, i) == WorkerAt(r, u, i)
  {}

  lemma WorkerStepOk(names: map<string, Resolved>, up: Update, i: nat, w: Worker)
    requires UpdateOk(names, up) && i < |up.workers|
    requires Holds(w) ==> Holds(up.workers[i]) && w.name == up.workers[i].name
    requires w.Sending? ==> w.name in names && w.ips == names[w.name].ips
    requires w.Gone? ==> up.queue == []
    ensures UpdateOk(names, up.(workers := up.workers[i := w]))
  {}

  lemma AnswerOk(cfg: Config, r: State, i: nat, ans: Answer)
    requires |r.updates| == 1 && UpdateOk(r.names, r.updates[0])
    requires HasWorker(r, 0, i) && WorkerAt(r, 0, i).Busy?
    ensures var t := AfterAnswer(cfg, r, 0, i, ans);
            |t.updates| == 1 && UpdateOk(t.names, t.updates[0])
  {
    var w := WorkerAt(r, 0, i);
    var t := AfterAnswer(cfg, r, 0, i, ans);
    assert w in r.updates[0].workers;
    var up := r.updates[0];
    assert UpdateOk(t.names, up) by {
      forall x | x in up.workers && x.Sending?
        ensures t.names[x.name].ips == x.ips
      {
        var j :| 0 <= j < |up.workers| && up.workers[j] == x;
        assert Holds(up.workers[i]) && Holds(up.workers[j]) && i != j;
      }
    }
    WorkerStepOk(t.names, up, i, t.updates[0].workers[i]);
  }

  lemma TakeNameOk(names: map<string, Resolved>, up: Update, i: nat)
    requires UpdateOk(names, up) && i < |up.workers| && up.workers[i].Free? && up.queue != []
    ensures UpdateOk(names, Update(up.queue[1..], up.workers[i := Busy(up.queue[0], 0)]))
  {
    assert up.queue[0] in up.queue && up.queue[0] !in up.queue[1..];
    assert forall j | 0 <= j < |up.workers| :: up.workers[j] in up.workers;
  }

  /** Steps of the workers, with one update in progress. */
  lemma WorkersOk(cfg: Config, r: State, step: Step)
    requires |r.updates| == 1 && UpdateOk(r.names, r.updates[0]) && IsWorkerStep(step) && Enabled(cfg, r, step)
    ensures var t := Apply(cfg, r, step);
            |t.updates| == 1 && UpdateOk(t.names, t.updates[0])
  {
    match step
    case TakeName(u, i) => TakeNameOk(r.names, r.updates[0], i);
    case Answered(u, i, ans) => AnswerOk(cfg, r, i, ans);
    case GiveUp(u, i) => WorkerStepOk(r.names, r.updates[0], i, Free);
    case Handed(u, i) => WorkerStepOk(r.names, r.updates[0], i, Free);
    case WorkerEnds(u, i) => WorkerStepOk(r.names, r.updates[0], i, Gone);
  }

  /** Steps of the main loop that may start an update. */
  lemma CommandOk(cfg: Config, r: State, order: seq<string>)
    requires Inv(r) && Lists(order, Due(r.names, cfg.timer, true))
    ensures var t := Command(cfg, r, order);
            forall up | up in t.updates :: UpdateOk(t.names, up)
  {
    if !r.updating {
      NewUpdateOk(cfg, r.(clock := r.clock + 1, requests := r.requests + {r.clock + 1}), true, order);
    }
  }

  lemma TimerOk(cfg: Config, r: State, order: seq<string>)
    requires Inv(r) && Lists(order, Due(r.names, cfg.timer, false))
    ensures var t := Timer(cfg, r, order);
            forall up | up in t.updates :: UpdateOk(t.names, up)
  {
    if !r.updating {
      NewUpdateOk(cfg, r.(clock := r.clock + 1), false, order);
    }
  }

  lemma DoneOk(cfg: Config, r: State, u: nat, order: seq<string>)
    requires Inv(r) && u < |r.updates| && Lists(order, Due(r.names, cfg.timer, true))
    ensures var t := UpdateDone(cfg, r, u, order);
            forall up | up in t.updates :: UpdateOk(t.names, up)
  {
    assert r.updates[..u] + r.updates[u + 1..] == [];
    if r.upAgain {
      NewUpdateOk(cfg, r.(clock := r.clock + 1, updates := [], upAgain := false), true, order);
    }
  }

  lemma LoopOk(cfg: Config, r: State, step: Step)
    requires Inv(r) && !IsWorkerStep(step) && Enabled(cfg, r, step)
    ensures var t := Apply(cfg, r, step);
            forall up | up in t.updates :: UpdateOk(t.names, up)
  {
    match step
    case TakeCommand(order) => CommandOk(cfg, r, order);
    case TimerFires(order) => TimerOk(cfg, r, order);
    case TakeDone(u, order) => DoneOk(cfg, r, u, order);
  }

  lemma StepInv(cfg: Config, r: State, step: Step)
    requires Inv(r)
    ensures Inv(Apply(cfg, r, step))
  {
    StepFlagsOk(cfg, r, step);
    if Enabled(cfg, r, step) {
      if IsWorkerStep(step) {
        assert r.updates[0] in r.updates;
        WorkersOk(cfg, r, step);
        assert Apply(cfg, r, step).updates == [Apply(cfg, r, step).updates[0]];
      } else {
        LoopOk(cfg, r, step);
      }
    }
  }

  lemma {:induction false} ExecInv(cfg: Config, r: State, steps: seq<Step>)
    requires Inv(r)
    ensures Inv(Exec(cfg, r, steps))
    decreases |steps|
  {
    if steps != [] {
      StepInv(cfg, r, steps[0]);
      ExecInv(cfg, Apply(cfg, r, steps[0]), steps[1..]);
    }
  }

  /** In every run at most one update is in progress, a name is held by at most
      one worker, an update is done only when every due name was taken and no
      worker holds one, and for every command an update of all names has started at or
      after it or one is owed; the owed one starts when the current one is done. */
  lemma OneUpdateNoCommandLost(cfg: Config, names: set<string>, steps: seq<Step>, u: nat, order: seq<string>)
    ensures var r := Exec(cfg, Init(names), steps);
            && (r.upAgain && Enabled(cfg, r, TakeDone(u, order)) ==>
                  var next := Apply(cfg, r, TakeDone(u, order));
                  next.forced == next.clock && next.updating && !next.upAgain && |next.updates| == 1)
            && (Enabled(cfg, r, TakeDone(u, order)) ==>
                  r.updates[u].queue == [] && forall w | w in r.updates[u].workers :: !Holds(w))
            && |r.updates| <= 1 && (r.upAgain ==> r.updating)
            && (forall t | t in r.requests :: t <= r.forced || r.upAgain)
            && (forall up | up in r.updates ::
                  forall i, j | 0 <= i < j < |up.workers| && Holds(up.workers[i]) && Holds(up.workers[j]) ::
                    up.workers[i].name != up.workers[j].name)
  {
    ExecInv(cfg, Init(names), steps);
    var r := Exec(cfg, Init(names), steps);
    if Enabled(cfg, r, TakeDone(u, order)) {
      var up := r.updates[u];
      assert up in r.updates && up.workers[0] in up.workers;
    }
  }

  /** The step starts an update of all names. */
  ghost predicate Forces(cfg: Config, r: State, step: Step) {
    Enabled(cfg, r, step) && ((step.TakeCommand? && !r.updating) || (step.TakeDone? && r.upAgain))
  }

  /** The step starts a periodic update. */
  ghost predicate StartsPeriodic(cfg: Config, r: State, step: Step) {
    Enabled(cfg, r, step) && step.TimerFires? && !r.updating
  }

  /** In every run only these steps start an update. It has one worker per ten
      names, all idle, and a queue of all names, or of those whose TTL does not
      outlast the timer interval. */
  lemma UpdateStartsIff(cfg: Config, names: set<string>, steps: seq<Step>, step: Step)
    ensures var r := Exec(cfg, Init(names), steps);
            var next := Apply(cfg, r, step);
            && (Forces(cfg, r, step) || StartsPeriodic(cfg, r, step) ==>
                  && |next.updates| == 1 && next.updating && !next.upAgain
                  && |next.updates[0].workers| == |next.updates[0].queue| / 10 + 1
                  && (forall w | w in next.updates[0].workers :: w.Free?)
                  && forall n :: n in next.updates[0].queue <==>
                                 n in r.names && (Forces(cfg, r, step) || r.names[n].ttl <= cfg.timer))
            && (!Forces(cfg, r, step) && !StartsPeriodic(cfg, r, step) ==> |next.updates| <= |r.updates|)
  {
    ExecInv(cfg, Init(names), steps);
    var r := Exec(cfg, Init(names), steps);
    if Enabled(cfg, r, step) && step.TakeDone? {
      assert r.updates[..step.u] + r.updates[step.u + 1..] == [];
    }
  }

  // ----- when a name is resolved again -----

  /** The timer fires. While an update is in progress nothing comes of it. */
  ghost predicate Fires(cfg: Config, r: State, step: Step) {
    step.TimerFires? && Enabled(cfg, r, step)
  }

  /** The step starts a periodic update that resolves the name. */
  ghost predicate Takes(cfg: Config, r: State, step: Step, name: string) {
    Fires(cfg, r, step) && !r.updating && name in Due(r.names, cfg.timer, false)
  }

  ghost predicate NeverForced(cfg: Config, r: State, steps: seq<Step>)
    decreases |steps|
  {
    steps != [] ==> !Forces(cfg, r, steps[0]) && NeverForced(cfg, Apply(cfg, r, steps[0]), steps[1..])
  }

  ghost predicate NeverTaken(cfg: Config, r: State, steps: seq<Step>, name: string)
    decreases |steps|
  {
    steps != [] ==> !Takes(cfg, r, steps[0], name) && NeverTaken(cfg, Apply(cfg, r, steps[0]), steps[1..], name)
  }

  /** The firings of the timer in a run; true for those that are skipped because
      an update is in progress. */
  ghost function Firings(cfg: Config, r: State, steps: seq<Step>): seq<bool>
    decreases |steps|
  {
    if steps == [] then []
    else (if Fires(cfg, r, steps[0]) then [r.updating] else []) + Firings(cfg, Apply(cfg, r, steps[0]), steps[1..])
  }

  function Skipped(busy: seq<bool>): (k: nat)
    ensures k <= |busy|
  {
    if busy == [] then 0 else (if busy[0] then 1 else 0) + Skipped(busy[1..])
  }

  /** An update in progress is still to resolve the name. */
  ghost predicate Pending(r: State, name: string) {
    exists up | up in r.updates :: PendingIn(up, name)
  }

  ghost predicate PendingIn(up: Update, name: string) {
    name in up.queue || exists w | w in up.workers :: w.Busy? && w.name == name
  }

  /** So it is right after the name was resolved. */
  lemma AnsweredNotPending(cfg: Config, r: State, u: nat, i: nat, ans: Answer)
    requires Inv(r) && Enabled(cfg, r, Answered(u, i, ans)) && !ans.Failed?
    ensures var name := WorkerAt(r, u, i).name;
            var next := Apply(cfg, r, Answered(u, i, ans));
            name in next.names && next.names[name].ttl == cfg.ttl && !Pending(next, name)
  {
    var up, w := r.updates[u], WorkerAt(r, u, i);
    assert up in r.updates && w in up.workers && Holds(w);
    var next := Apply(cfg, r, Answered(u, i, ans));
    forall x | x in next.updates[u].workers && x.Busy?
      ensures x.name != w.name
    {
      var j :| 0 <= j < |up.workers| && next.updates[u].workers[j] == x;
      assert j != i && Holds(up.workers[j]) && Holds(up.workers[i]);
    }
    assert !PendingIn(next.updates[u], w.name);
    assert |next.updates| == 1;
  }

  /** A worker's step does not touch a name that no update is to resolve. */
  lemma WorkerStepKeeps(cfg: Config, r: State, step: Step, name: string)
    requires name in r.names && !Pending(r, name) && IsWorkerStep(step) && Enabled(cfg, r, step)
    ensures var next := Apply(cfg, r, step);
            name in next.names && next.names[name] == r.names[name] && !Pending(next, name)
  {
    var up, next := r.updates[step.u], Apply(cfg, r, step);
    assert up in r.updates && WorkerAt(r, step.u, step.i) in up.workers;
    assert !PendingIn(up, name);
    if step.TakeName? {
      assert up.queue[0] in up.queue;
    }
    if next.updates != r.updates {
      assert !PendingIn(next.updates[step.u], name);
      assert next.updates == r.updates[step.u := next.updates[step.u]];
    }
  }

  lemma PendingFewer(r: State, next: State, name: string)
    requires !Pending(r, name) && forall up | up in next.updates :: up in r.updates || !PendingIn(up, name)
    ensures !Pending(next, name)
  {}

  /** The main loop only makes it older, when it starts a periodic update. */
  lemma LoopStepAges(cfg: Config, r: State, step: Step, name: string)
    requires name in r.names && !Pending(r, name) && !IsWorkerStep(step) && Enabled(cfg, r, step)
    requires !Forces(cfg, r, step) && !Takes(cfg, r, step, name)
    ensures var next := Apply(cfg, r, step);
            && name in next.names && !Pending(next, name)
            && (if step.TimerFires? && !r.updating
                then r.names[name].ttl > cfg.timer && next.names[name].ttl == r.names[name].ttl - cfg.timer
                else next.names[name] == r.names[name])
  {
    var next := Apply(cfg, r, step);
    match step
    case TakeCommand(_) =>
    case TimerFires(order) =>
      if !r.updating {
        assert name !in order;
        assert !PendingIn(Update(order, seq(|order| / 10 + 1, _ => Free)), name);
      }
      PendingFewer(r, next, name);
    case TakeDone(u, _) => PendingFewer(r, next, name);
  }

  lemma StepAges(cfg: Config, r: State, step: Step, name: string)
    requires name in r.names && !Pending(r, name) && !Forces(cfg, r, step) && !Takes(cfg, r, step, name)
    ensures var next := Apply(cfg, r, step);
            && name in next.names && !Pending(next, name)
            && (if Fires(cfg, r, step) && !r.updating
                then r.names[name].ttl > cfg.timer && next.names[name].ttl == r.names[name].ttl - cfg.timer
                else next.names[name].ttl == r.names[name].ttl)
  {
    if Enabled(cfg, r, step) {
      if IsWorkerStep(step) {
        WorkerStepKeeps(cfg, r, step, name);
      } else {
        LoopStepAges(cfg, r, step, name);
      }
    }
  }

  lemma OneMore(n: nat, timer: nat)
    ensures (n + 1) * timer == n * timer + timer && 0 <= n * timer && 0 * timer == 0
  {}

  lemma SkippedFirst(b: bool, busy: seq<bool>)
    ensures Skipped([b] + busy) == (if b then 1 else 0) + Skipped(busy)
  {
    assert ([b] + busy)[1..] == busy;
  }

  /** Over a run without an update of all names: no periodic update takes the name
      exactly when the n firings that are not skipped do not use up its TTL. */
  lemma {:induction false} NotTakenIff(cfg: Config, r: State, steps: seq<Step>, name: string)
    requires name in r.names && !Pending(r, name) && NeverForced(cfg, r, steps)
    ensures var busy := Firings(cfg, r, steps);
            var n, t := |busy| - Skipped(busy), Exec(cfg, r, steps);
            && (NeverTaken(cfg, r, steps, name) <==> n == 0 || n * cfg.timer < r.names[name].ttl)
            && (NeverTaken(cfg, r, steps, name) ==>
                  name in t.names && !Pending(t, name) && t.names[name].ttl == r.names[name].ttl - n * cfg.timer)
    decreases |steps|
  {
    if steps != [] {
      var next, rest := Apply(cfg, r, steps[0]), Firings(cfg, Apply(cfg, r, steps[0]), steps[1..]);
      if Fires(cfg, r, steps[0]) {
        SkippedFirst(r.updating, rest);
      } else {
        assert [] + rest == rest;
      }
      OneMore(|rest| - Skipped(rest), cfg.timer);
      if !Takes(cfg, r, steps[0], name) {
        StepAges(cfg, r, steps[0], name);
        NotTakenIff(cfg, next, steps[1..], name);
      }
    }
  }

  /** The name was resolved, and the run leads to the firing of the timer that
      makes it be resolved again. */
  ghost predicate Refreshes(cfg: Config, r: State, steps: seq<Step>, order: seq<string>, name: string) {
    && name in r.names && !Pending(r, name) && NeverForced(cfg, r, steps) && NeverTaken(cfg, r, steps, name)
    && Takes(cfg, Exec(cfg, r, steps), TimerFires(order), name)
  }

  /** It is the firing after n that were not skipped exactly when the TTL is in
      the timer interval n + 1. */
  lemma DueAtBounds(cfg: Config, r: State, steps: seq<Step>, order: seq<string>, name: string)
    requires name in r.names && !Pending(r, name) && NeverForced(cfg, r, steps)
    requires Fires(cfg, Exec(cfg, r, steps), TimerFires(order)) && !Exec(cfg, r, steps).updating
    ensures var busy := Firings(cfg, r, steps);
            var n, ttl := |busy| - Skipped(busy), r.names[name].ttl;
            Refreshes(cfg, r, steps, order, name) <==>
            (n == 0 || n * cfg.timer < ttl) && ttl <= (n + 1) * cfg.timer
  {
    NotTakenIff(cfg, r, steps, name);
    var busy := Firings(cfg, r, steps);
    OneMore(|busy| - Skipped(busy), cfg.timer);
  }

  /** Its age then: the timer fires every `timer` seconds, first `offset` seconds
      after the name was resolved. */
  ghost function AgeAtRefresh(cfg: Config, r: State, steps: seq<Step>, offset: nat): nat {
    offset + |Firings(cfg, r, steps)| * cfg.timer
  }

  lemma Shares(n: nat, k: nat, timer: nat)
    ensures (n + k) * timer == n * timer + k * timer && (k > 0 ==> k * timer >= timer)
  {
    if k > 0 {
      OneMore(k - 1, timer);
    }
  }

  /** In wall-clock time: with k firings skipped the name is resolved again less
      than one timer interval before or after its TTL and k intervals. */
  lemma PeriodicRefreshAge(cfg: Config, r: State, steps: seq<Step>, order: seq<string>, name: string, offset: nat)
    requires Refreshes(cfg, r, steps, order, name) && 0 < offset <= cfg.timer
    ensures var k, ttl := Skipped(Firings(cfg, r, steps)), r.names[name].ttl;
            && ttl + k * cfg.timer - cfg.timer < AgeAtRefresh(cfg, r, steps, offset)
            && (ttl > 0 ==> AgeAtRefresh(cfg, r, steps, offset) < ttl + k * cfg.timer + cfg.timer)
            && (ttl == 0 ==> AgeAtRefresh(cfg, r, steps, offset) == offset + k * cfg.timer)
  {
    DueAtBounds(cfg, r, steps, order, name);
    var busy := Firings(cfg, r, steps);
    var k := Skipped(busy);
    Shares(|busy| - k, k, cfg.timer);
    OneMore(|busy| - k, cfg.timer);
  }

  lemma RemainderIs(x: nat, d: nat, q: nat)
    requires d > 0 && q * d <= x < (q + 1) * d
    ensures x % d == x - q * d
  {
    DivisionIs(x, d, q);
  }

  /** It is then at least as old as its TTL, as the comment on update has it,
      exactly when a firing was skipped or the first one came late enough. */
  lemma RefreshedInTimeIff(cfg: Config, r: State, steps: seq<Step>, order: seq<string>, name: string, offset: nat)
    requires Refreshes(cfg, r, steps, order, name) && 0 < offset <= cfg.timer
    ensures var k, ttl := Skipped(Firings(cfg, r, steps)), r.names[name].ttl;
            AgeAtRefresh(cfg, r, steps, offset) >= ttl <==>
            ttl == 0 || k > 0 || offset > (ttl - 1) % cfg.timer
  {
    DueAtBounds(cfg, r, steps, order, name);
    var busy := Firings(cfg, r, steps);
    var k, ttl := Skipped(busy), r.names[name].ttl;
    var n := |busy| - k;
    Shares(n, k, cfg.timer);
    OneMore(n, cfg.timer);
    if ttl > 0 {
      RemainderIs(ttl - 1, cfg.timer, n);
    }
  }

  /** In particular a name with a TTL of one timer interval is resolved again too
      early by every first firing that is not skipped and comes within the interval. */
  lemma RefreshedEarly(cfg: Config, r: State, steps: seq<Step>, order: seq<string>, name: string, offset: nat)
    requires Refreshes(cfg, r, steps, order, name) && 0 < offset < cfg.timer
    requires r.names[name].ttl == cfg.timer && Skipped(Firings(cfg, r, steps)) == 0
    ensures AgeAtRefresh(cfg, r, steps, offset) == offset < r.names[name].ttl
  {
    DueAtBounds(cfg, r, steps, order, name);
    var busy := Firings(cfg, r, steps);
    if |busy| > 0 {
      Shares(1, |busy| - 1, cfg.timer);
    }
  }

  // ----- every number of skipped and of other firings occurs -----

  function Repeat(b: bool, k: nat): seq<bool> {
    if k == 0 then [] else [b] + Repeat(b, k - 1)
  }

  lemma {:induction false} RepeatSkipped(k: nat, n: nat)
    ensures |Repeat(true, k) + Repeat(false, n)| == k + n && Skipped(Repeat(true, k) + Repeat(false, n)) == k
    decreases k + n
  {
    if k > 0 {
      RepeatSkipped(k - 1, n);
      assert Repeat(true, k) + Repeat(false, n) == [true] + (Repeat(true, k - 1) + Repeat(false, n));
      SkippedFirst(true, Repeat(true, k - 1) + Repeat(false, n));
    } else if n > 0 {
      RepeatSkipped(0, n - 1);
      assert Repeat(true, 0) + Repeat(false, n) == [false] + (Repeat(true, 0) + Repeat(false, n - 1));
      SkippedFirst(false, Repeat(true, 0) + Repeat(false, n - 1));
    }
  }

  lemma {:induction false} RunAppend(cfg: Config, r: State, xs: seq<Step>, ys: seq<Step>, name: string)
    ensures var t := Exec(cfg, r, xs);
            && Exec(cfg, r, xs + ys) == Exec(cfg, t, ys)
            && Firings(cfg, r, xs + ys) == Firings(cfg, r, xs) + Firings(cfg, t, ys)
            && (NeverForced(cfg, r, xs + ys) <==> NeverForced(cfg, r, xs) && NeverForced(cfg, t, ys))
            && (NeverTaken(cfg, r, xs + ys, name) <==> NeverTaken(cfg, r, xs, name) && NeverTaken(cfg, t, ys, name))
    decreases |xs|
  {
    if xs == [] {
      assert xs + ys == ys;
    } else {
      assert (xs + ys)[0] == xs[0] && (xs + ys)[1..] == xs[1..] + ys;
      RunAppend(cfg, Apply(cfg, r, xs[0]), xs[1..], ys, name);
    }
  }

  /** The only name has this TTL, and the only worker of an update has nothing left to do. */
  predicate Resting(r: State, name: string, ttl: nat) {
    && r.names == map[name := Resolved([], ttl)] && r.updating && !r.upAgain
    && r.updates == [Update([], [Free])]
  }

  lemma OneWorker(cfg: Config, r: State, force: bool, order: seq<string>)
    requires r.updates == [] && |order| < 10
    ensures StartUpdate(cfg, r, force, order).updates == [Update(order, [Free])]
  {
    var workers := StartUpdate(cfg, r, force, order).updates[0].workers;
    assert |workers| == 1 && workers[0] == Free;
    assert workers == [Free];
  }

  lemma OnlyWorkerSet(r: State, queue: seq<string>, w: Worker, x: Worker)
    requires r.updates == [Update(queue, [w])]
    ensures SetWorker(r, 0, 0, x).updates == [Update(queue, [x])]
  {
    assert SetWorker(r, 0, 0, x).updates[0].workers == [x];
  }

  function FirstUpdate(name: string): seq<Step> {
    [TimerFires([name]), TakeName(0, 0), Answered(0, 0, NotFound)]
  }

  lemma AfterFirstUpdate(cfg: Config, name: string)
    requires cfg.tries > 0
    ensures Resting(Exec(cfg, Init({name}), FirstUpdate(name)), name, cfg.ttl)
  {
    var steps := FirstUpdate(name);
    var r0 := Init({name});
    assert Lists([name], Due(r0.names, cfg.timer, false));
    var r1 := Apply(cfg, r0, steps[0]);
    OneWorker(cfg, r0.(clock := r0.clock + 1), false, [name]);
    assert r1.updates == [Update([name], [Free])] && r1.names == map[name := Resolved([], 0)];
    var r2 := Apply(cfg, r1, steps[1]);
    OnlyWorkerSet(r1, [name], Free, Busy(name, 0));
    assert [name][1..] == [];
    assert r2.updates == [Update([], [Busy(name, 0)])] && r2.names == r1.names;
    var r3 := Apply(cfg, r2, steps[2]);
    OnlyWorkerSet(r2, [], Busy(name, 0), Free);
    assert r3.updates == [Update([], [Free])] && r3.names == map[name := Resolved([], cfg.ttl)];
    assert steps[1..][1..] == [steps[2]] && [steps[2]][1..] == [];
    assert Exec(cfg, r0, steps) == Exec(cfg, r1, steps[1..]) == Exec(cfg, r2, [steps[2]]) == r3;
  }

  function DueList(name: string, ttl: nat, timer: nat): seq<string> {
    if ttl <= timer then [name] else []
  }

  function Skips(order: seq<string>, k: nat): seq<Step> {
    if k == 0 then [] else [TimerFires(order)] + Skips(order, k - 1)
  }

  lemma {:induction false} SkipsRest(cfg: Config, r: State, name: string, ttl: nat, k: nat)
    requires Resting(r, name, ttl)
    ensures var steps := Skips(DueList(name, ttl, cfg.timer), k);
            && Resting(Exec(cfg, r, steps), name, ttl) && Firings(cfg, r, steps) == Repeat(true, k)
            && NeverForced(cfg, r, steps) && NeverTaken(cfg, r, steps, name)
    decreases k
  {
    if k > 0 {
      var order := DueList(name, ttl, cfg.timer);
      assert Lists(order, Due(r.names, cfg.timer, false));
      var next := Apply(cfg, r, TimerFires(order));
      assert Resting(next, name, ttl);
      SkipsRest(cfg, next, name, ttl, k - 1);
      assert Skips(order, k)[1..] == Skips(order, k - 1);
    }
  }

  /** The update ends. */
  function Ending(name: string): seq<Step> {
    [WorkerEnds(0, 0), TakeDone(0, [name])]
  }

  ghost predicate AtRest(r: State, name: string, ttl: nat) {
    r.names == map[name := Resolved([], ttl)] && !r.updating && !r.upAgain && r.updates == []
  }

  lemma AfterEnding(cfg: Config, r: State, name: string, ttl: nat)
    requires Resting(r, name, ttl)
    ensures AtRest(Exec(cfg, r, Ending(name)), name, ttl) && Firings(cfg, r, Ending(name)) == []
    ensures NeverForced(cfg, r, Ending(name)) && NeverTaken(cfg, r, Ending(name), name)
  {
    var r1 := Apply(cfg, r, WorkerEnds(0, 0));
    OnlyWorkerSet(r, [], Free, Gone);
    assert r1.updates == [Update([], [Gone])] && r1.names == r.names;
    assert Lists([name], Due(r1.names, cfg.timer, true));
    var r2 := Apply(cfg, r1, TakeDone(0, [name]));
    assert AtRest(r2, name, ttl);
    assert Ending(name)[1..] == [TakeDone(0, [name])] && [TakeDone(0, [name])][1..] == [];
    assert Exec(cfg, r1, [TakeDone(0, [name])]) == r2;
    assert Firings(cfg, r1, [TakeDone(0, [name])]) == [];
  }

  /** n periodic updates that take nothing, and the end of the last one. */
  function Rounds(name: string, n: nat): seq<Step> {
    if n == 0 then Ending(name) else Ending(name) + ([TimerFires([])] + Rounds(name, n - 1))
  }

  /** From rest, a firing that takes nothing. */
  lemma FiringAtRest(cfg: Config, r: State, name: string, ttl: nat)
    requires AtRest(r, name, ttl) && ttl > cfg.timer
    ensures Fires(cfg, r, TimerFires([])) && !Takes(cfg, r, TimerFires([]), name)
    ensures Resting(Apply(cfg, r, TimerFires([])), name, ttl - cfg.timer)
  {
    assert Lists([], Due(r.names, cfg.timer, false));
    OneWorker(cfg, r.(clock := r.clock + 1), false, []);
  }

  lemma {:induction false} RoundsRun(cfg: Config, r: State, name: string, ttl: nat, n: nat)
    requires Resting(r, name, ttl)
    requires (n == 0 || n * cfg.timer < ttl) && ttl <= (n + 1) * cfg.timer
    ensures var steps := Rounds(name, n);
            && Takes(cfg, Exec(cfg, r, steps), TimerFires([name]), name)
            && Firings(cfg, r, steps) == Repeat(false, n)
            && NeverForced(cfg, r, steps) && NeverTaken(cfg, r, steps, name)
    decreases n
  {
    AfterEnding(cfg, r, name, ttl);
    var t := Exec(cfg, r, Ending(name));
    if n == 0 {
      assert Lists([name], Due(t.names, cfg.timer, false));
    } else {
      OneMore(n, cfg.timer);
      OneMore(n - 1, cfg.timer);
      FiringAtRest(cfg, t, name, ttl);
      RoundsRun(cfg, Apply(cfg, t, TimerFires([])), name, ttl - cfg.timer, n - 1);
      var tail := [TimerFires([])] + Rounds(name, n - 1);
      assert tail[0] == TimerFires([]) && tail[1..] == Rounds(name, n - 1);
      RunAppend(cfg, r, Ending(name), tail, name);
    }
  }

  /** For every k, and the n that fits the TTL, there is a run from the start with
      k skipped firings and n others before the one that resolves the name again. */
  lemma RefreshAfter(cfg: Config, name: string, n: nat, k: nat) returns (steps: seq<Step>)
    requires cfg.tries > 0
    requires (n == 0 || n * cfg.timer < cfg.ttl) && cfg.ttl <= (n + 1) * cfg.timer
    ensures var r := Exec(cfg, Init({name}), FirstUpdate(name));
            && Refreshes(cfg, r, steps, [name], name) && r.names[name].ttl == cfg.ttl
            && Firings(cfg, r, steps) == Repeat(true, k) + Repeat(false, n)
  {
    var r := Exec(cfg, Init({name}), FirstUpdate(name));
    AfterFirstUpdate(cfg, name);
    var skips := Skips(DueList(name, cfg.ttl, cfg.timer), k);
    SkipsRest(cfg, r, name, cfg.ttl, k);
    RoundsRun(cfg, Exec(cfg, r, skips), name, cfg.ttl, n);
    steps := skips + Rounds(name, n);
    RunAppend(cfg, r, skips, Rounds(name, n), name);
  }

  /** So no smaller window would do at either end, for any n and k. */
  lemma RefreshAgeTight(cfg: Config, name: string, n: nat, k: nat) returns (steps: seq<Step>)
    requires cfg.tries > 0 && cfg.timer > 0
    requires cfg.ttl == (n + 1) * cfg.timer || cfg.ttl == n * cfg.timer + 1
    ensures var r := Exec(cfg, Init({name}), FirstUpdate(name));
            && Refreshes(cfg, r, steps, [name], name) && Skipped(Firings(cfg, r, steps)) == k
            && (cfg.ttl == (n + 1) * cfg.timer ==>
                  AgeAtRefresh(cfg, r, steps, 1) == cfg.ttl + k * cfg.timer - cfg.timer + 1)
            && (cfg.ttl == n * cfg.timer + 1 ==>
                  AgeAtRefresh(cfg, r, steps, cfg.timer) == cfg.ttl + k * cfg.timer + cfg.timer - 1)
  {
    OneMore(n, cfg.timer);
    steps := RefreshAfter(cfg, name, n, k);
    RepeatSkipped(k, n);
    Shares(n, k, cfg.timer);
  }

  // ----- resolving one name -----

  /** The result of resolving a name with these answers, and the update to send. */
  function Outcome(cfg: Config, was: Resolved, answers: seq<Answer>): (Resolved, Option<seq<Addr>>) {
    if answers == [] then (was, None)
    else
      var next := Updated(cfg, was, answers[0]);
      match Judge(was, answers[0])
      case Retry => Outcome(cfg, was, answers[1..])
      case Done => (next, None)
      case Send => (next, Some(next.ips))
  }

  /** The first answer that settles the name: not a failure. */
  ghost predicate SettledBy(answers: seq<Answer>, k: nat) {
    k < |answers| && !answers[k].Failed? && forall j | 0 <= j < k :: answers[j].Failed?
  }

  /** What resolving a name comes to. Only failures: nothing changes. Otherwise the
      name gets the full TTL, and the addresses found, or keeps its own if it was
      not found. An update with the new addresses is sent exactly if they changed. */
  ghost predicate ResolvedAs(cfg: Config, was: Resolved, answers: seq<Answer>, now: Resolved,
                             update: Option<seq<Addr>>) {
    && ((forall j | 0 <= j < |answers| :: answers[j].Failed?) ==> now == was)
    && (forall k: nat | SettledBy(answers, k) ::
          now.ttl == cfg.ttl && now.ips == if answers[k].Found? then answers[k].ips else was.ips)
    && update == if now.ips == was.ips then None else Some(now.ips)
  }

  lemma {:induction false} OutcomeIs(cfg: Config, was: Resolved, answers: seq<Answer>)
    ensures var (now, update) := Outcome(cfg, was, answers);
            ResolvedAs(cfg, was, answers, now, update)
    decreases |answers|
  {
    if answers != [] && answers[0].Failed? {
      OutcomeIs(cfg, was, answers[1..]);
      assert forall j | 0 <= j < |answers[1..]| :: answers[1..][j] == answers[j + 1];
      forall k: nat | SettledBy(answers, k)
        ensures k > 0 && SettledBy(answers[1..], k - 1)
      {
      }
      if forall j | 0 <= j < |answers| :: answers[j].Failed? {
        assert forall j | 0 <= j < |answers[1..]| :: answers[1..][j].Failed?;
      }
    }
  }

  class ResolvedName {
    const name: string
    var ips: seq<Addr>
    var ttl: nat

    constructor (name: string)
      ensures this.name == name && ips == [] && ttl == 0
    {
      this.name, ips, ttl := name, [], 0;
    }

    /** resolve, with the answers its tries would get. */
    method Resolve(cfg: Config, answers: seq<Answer>) returns (update: Option<seq<Addr>>)
      requires |answers| == cfg.tries
      modifies this
      ensures (Resolved(ips, ttl), update) == Outcome(cfg, old(Resolved(ips, ttl)), answers)
      ensures ResolvedAs(cfg, old(Resolved(ips, ttl)), answers, Resolved(ips, ttl), update)
    {
      OutcomeIs(cfg, Resolved(ips, ttl), answers);
      update := None;
      var tries := 0;
      while tries < cfg.tries
        invariant tries <= cfg.tries && update == None
        invariant Outcome(cfg, Resolved(ips, ttl), answers[tries..]) == Outcome(cfg, old(Resolved(ips, ttl)), answers)
      {
        var ans := answers[tries];
        assert answers[tries..][0] == ans && answers[tries..][1..] == answers[tries + 1..];
        tries := tries + 1;
        match ans
        case Failed =>
          continue;
        case NotFound =>
          ttl := cfg.ttl;
          return None;
        case Found(found) =>
          ttl := cfg.ttl;
          if ips == found {
            return None;
          }
          ips := found;
          return Some(ips);
      }
      assert answers[tries..] == [];
    }
  }

  function Answers(u: nat, i: nat, answers: seq<Answer>): seq<Step> {
    if answers == [] then [] else [Answered(u, i, answers[0])] + Answers(u, i, answers[1..])
  }

  /** A worker that gets these answers one by one has the outcome of Resolve. */
  lemma {:induction false} WorkerOutcome(cfg: Config, r: State, u: nat, i: nat, answers: seq<Answer>)
    requires HasWorker(r, u, i) && WorkerAt(r, u, i).Busy? && WorkerAt(r, u, i).name in r.names
    requires WorkerAt(r, u, i).tries + |answers| <= cfg.tries
    ensures var w, t := WorkerAt(r, u, i), Exec(cfg, r, Answers(u, i, answers));
            var (result, update) := Outcome(cfg, r.names[w.name], answers);
            && t.names == r.names[w.name := result]
            && HasWorker(t, u, i)
            && (WorkerAt(t, u, i).Sending? <==> update.Some?)
            && (update.Some? ==> WorkerAt(t, u, i) == Sending(w.name, update.value))
    decreases |answers|
  {
    if answers != [] {
      var w := WorkerAt(r, u, i);
      var steps := Answers(u, i, answers);
      assert steps[0] == Answered(u, i, answers[0]) && steps[1..] == Answers(u, i, answers[1..]);
      var next := Apply(cfg, r, steps[0]);
      match Judge(r.names[w.name], answers[0])
      case Retry =>
        assert next.names == r.names;
        WorkerOutcome(cfg, next, u, i, answers[1..]);
      case _ =>
        LateAnswersIgnored(cfg, next, u, i, answers[1..]);
    }
  }

  lemma {:induction false} LateAnswersIgnored(cfg: Config, r: State, u: nat, i: nat, answers: seq<Answer>)
    requires HasWorker(r, u, i) && !WorkerAt(r, u, i).Busy?
    ensures Exec(cfg, r, Answers(u, i, answers)) == r
    decreases |answers|
  {
    if answers != [] {
      var steps := Answers(u, i, answers);
      assert steps[0] == Answered(u, i, answers[0]) && steps[1..] == Answers(u, i, answers[1..]);
      LateAnswersIgnored(cfg, r, u, i, answers[1..]);
    }
  }

  /** So it ends up with the result of Resolve, whatever the other workers hold: it
      changes no other name, and sends an update exactly if the addresses changed. */
  lemma WorkerResolves(cfg: Config, r: State, u: nat, i: nat, answers: seq<Answer>)
    requires HasWorker(r, u, i) && WorkerAt(r, u, i).Busy? && WorkerAt(r, u, i).name in r.names
    requires WorkerAt(r, u, i).tries + |answers| <= cfg.tries
    ensures var name, t := WorkerAt(r, u, i).name, Exec(cfg, r, Answers(u, i, answers));
            && HasWorker(t, u, i) && name in t.names && t.names == r.names[name := t.names[name]]
            && ResolvedAs(cfg, r.names[name], answers, t.names[name],
                          if WorkerAt(t, u, i).Sending? then Some(WorkerAt(t, u, i).ips) else None)
            && (WorkerAt(t, u, i).Sending? ==> WorkerAt(t, u, i).name == name)
  {
    WorkerOutcome(cfg, r, u, i, answers);
    OutcomeIs(cfg, r.names[WorkerAt(r, u, i).name], answers);
  }

  // ----- the main loop -----

  class ResolverLoop {
    const config: Config
    var names: map<string, Resolved>
    var updating: bool
    var upAgain: bool
    var updates: seq<Update>
    ghost var clock: nat
    ghost var forced: nat
    ghost var requests: set<nat>

    ghost function View(): State
      reads this
    {
      State(names, updating, upAgain, updates, clock, forced, requests)
    }

    constructor (config: Config, names: set<string>)
      ensures this.config == config && View() == Init(names)
    {
      this.config := config;
      this.names := map n | n in names :: Resolved([], 0);
      updating, upAgain, updates := false, false, [];
      clock, forced, requests := 0, 0, {};
    }

    /** The loop of update over the names, in any order. */
    method SelectNames(force: bool) returns (order: seq<string>)
      modifies this`names
      ensures Lists(order, Due(old(names), config.timer, force))
      ensures names == Aged(old(names), config.timer, force)
    {
      ghost var before := names;
      order := [];
      var todo := names.Keys;
      while todo != {}
        invariant todo <= before.Keys && names.Keys == before.Keys
        invariant forall n :: n in order <==> n in Due(before, config.timer, force) && n !in todo
        invariant forall i, j | 0 <= i < j < |order| :: order[i] != order[j]
        invariant forall n | n in todo :: names[n] == before[n]
        invariant forall n | n in before && n !in todo :: names[n] == Aged(before, config.timer, force)[n]
      {
        var n :| n in todo;
        todo := todo - {n};
        if !force && names[n].ttl > config.timer {
          names := names[n := names[n].(ttl := names[n].ttl - config.timer)];
          continue;
        }
        order := order + [n];
      }
    }

    method GoUpdate(force: bool) returns (order: seq<string>)
      modifies this
      ensures Lists(order, Due(old(names), config.timer, force))
      ensures View() == StartUpdate(config, old(View()), force, order)
    {
      order := SelectNames(force);
      updating := true;
      updates := updates + [Update(order, seq(|order| / 10 + 1, _ => Free))];
      if force {
        forced := clock;
      }
    }

    method HandleCommand() returns (ghost order: seq<string>)
      modifies this
      ensures !old(updating) ==> Lists(order, Due(old(names), config.timer, true))
      ensures View() == Command(config, old(View()), order)
    {
      clock := clock + 1;
      requests := requests + {clock};
      order := [];
      if updating {
        upAgain := true;
      } else {
        order := GoUpdate(true);
      }
    }

    method HandleUpdateDone() returns (ghost order: seq<string>)
      requires |updates| > 0
      modifies this
      ensures old(upAgain) ==> Lists(order, Due(old(names), config.timer, true))
      ensures View() == UpdateDone(config, old(View()), 0, order)
    {
      clock := clock + 1;
      assert updates[..0] + updates[1..] == updates[1..];
      updates := updates[1..];
      order := [];
      if upAgain {
        upAgain := false;
        order := GoUpdate(true);
      } else {
        updating := false;
      }
    }

    method HandleTimer() returns (ghost order: seq<string>)
      modifies this
      ensures !old(updating) ==> Lists(order, Due(old(names), config.timer, false))
      ensures View() == Timer(config, old(View()), order)
    {
      clock := clock + 1;
      order := [];
      if !updating {
        order := GoUpdate(false);
      }
    }
  }
}
