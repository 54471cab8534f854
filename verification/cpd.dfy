/** internal/cpd/cpd.go: captive portal detection.

    The main loop takes probe requests, reports of its probe goroutine and timer
    events. While it delivers a report it still takes requests. A request during
    a probe is owed: another probe starts when the report has been delivered. */
module Cpd {

  /** A probe goroutine: it checks the server, then waits to hand its report over. */
  datatype Probe = Checking | Reporting(detected: bool)

  /** The main loop is in its select or in handleProbeReport. */
  datatype Position = Select | Deliver(detected: bool)

  /** clock counts steps. started is the time of the latest start of a probe,
      requests the times of all requests taken. probed are the checks of all
      probes that ended, delivered all reports taken by their receiver. */
  datatype State = State(running: bool, runAgain: bool, detected: bool, at: Position, probes: seq<Probe>,
                         clock: nat, started: nat, requests: set<nat>,
                         probed: seq<seq<bool>>, delivered: seq<bool>)

  function Init(): State {
    State(false, false, false, Select, [], 0, 0, {}, [], [])
  }

  function StartProbe(c: State): State {
    c.(running := true, probes := c.probes + [Checking], started := c.clock)
  }

  function Request(c: State): State {
    var t := c.(clock := c.clock + 1, requests := c.requests + {c.clock + 1});
    if t.at.Deliver? || t.running then t.(runAgain := true) else StartProbe(t)
  }

  function Timer(c: State): State {
    var t := c.(clock := c.clock + 1);
    if !t.running && !t.runAgain then StartProbe(t) else t
  }

  /** The report is taken by its receiver. */
  function Delivered(c: State): State
    requires c.at.Deliver?
  {
    var t := c.(clock := c.clock + 1, running := false, detected := c.at.detected, at := Select,
                delivered := c.delivered + [c.at.detected]);
    if t.runAgain then StartProbe(t.(runAgain := false)) else t
  }

  datatype Step =
    | TakeRequest
    | TimerFires
    | CheckDone(i: nat, checks: seq<bool>)   // whether each of its checks would detect a portal
    | TakeReport(i: nat)
    | ReportTaken

  predicate Enabled(c: State, step: Step) {
    match step
    case TakeRequest => true
    case TimerFires => c.at.Select?
    case CheckDone(i, _) => i < |c.probes| && c.probes[i].Checking?
    case TakeReport(i) => c.at.Select? && i < |c.probes| && c.probes[i].Reporting?
    case ReportTaken => c.at.Deliver?
  }

  function Apply(c: State, step: Step): State {
    if !Enabled(c, step) then c
    else match step
         case TakeRequest => Request(c)
         case TimerFires => Timer(c)
         case CheckDone(i, checks) =>
           c.(clock := c.clock + 1, probes := c.probes[i := Reporting(true in checks)], probed := c.probed + [checks])
         case TakeReport(i) =>
           c.(clock := c.clock + 1, at := Deliver(c.probes[i].detected), probes := c.probes[..i] + c.probes[i + 1..])
         case ReportTaken => Delivered(c)
  }

  function Exec(c: State, steps: seq<Step>): State
    decreases |steps|
  {
    if steps == [] then c else Exec(Apply(c, steps[0]), steps[1..])
  }

  // ----- no request is lost -----

  ghost predicate Inv(c: State) {
    && |c.probes| + (if c.at.Deliver? then 1 else 0) == (if c.running then 1 else 0)
    && (c.runAgain ==> c.running)
    && c.started <= c.clock
    && (forall t | t in c.requests :: t <= c.clock && (t <= c.started || c.runAgain))
  }

  lemma StepInv(c: State, step: Step)
    requires Inv(c)
    ensures Inv(Apply(c, step))
  {}

  lemma {:induction false} ExecInv(c: State, steps: seq<Step>)
    requires Inv(c)
    ensures Inv(Exec(c, steps))
    decreases |steps|
  {
    if steps != [] {
      StepInv(c, steps[0]);
      ExecInv(Apply(c, steps[0]), steps[1..]);
    }
  }

  /** In every run: at most one probe is outstanding, an owed probe implies a
      running one, and for every request taken a probe has started at or after
      it or one is owed; the owed one starts when the report is delivered. */
  lemma NoRequestLost(steps: seq<Step>, t: nat)
    ensures var c := Exec(Init(), steps);
            && |c.probes| <= 1 && (c.runAgain ==> c.running)
            && (t in c.requests ==> t <= c.started || c.runAgain)
            && (c.at.Deliver? && c.runAgain ==>
                  var next := Apply(c, ReportTaken);
                  next.started == next.clock && next.probes == [Checking] && !next.runAgain)
  {
    ExecInv(Init(), steps);
  }

  /** In every run, exactly these steps start a probe: a request or a timer event
      when none runs, and the delivery of a report when one is owed. */
  lemma ProbeStartsIff(steps: seq<Step>, step: Step)
    requires Enabled(Exec(Init(), steps), step)
    ensures var c := Exec(Init(), steps);
            var next := Apply(c, step);
            && (next.started == next.clock <==>
                ((step.TakeRequest? || step.TimerFires?) && !c.running) || (step.ReportTaken? && c.runAgain))
            && (next.started == next.clock ==> next.running && next.probes == [Checking])
            && (next.started != next.clock ==> next.started == c.started && |next.probes| <= |c.probes|)
  {
    ExecInv(Init(), steps);
  }

  // ----- reports are what the probes found -----

  function LastOf(reports: seq<bool>): bool {
    reports != [] && reports[|reports| - 1]
  }

  /** The report that a probe or the main loop holds. */
  function Held(c: State): seq<bool> {
    if c.at.Deliver? then [c.at.detected]
    else if c.probes != [] && c.probes[0].Reporting? then [c.probes[0].detected]
    else []
  }

  ghost predicate ReportsOk(c: State) {
    && |c.probed| == |c.delivered + Held(c)|
    && (forall k | 0 <= k < |c.probed| :: (c.delivered + Held(c))[k] == (true in c.probed[k]))
    && c.detected == LastOf(c.delivered)
  }

  lemma StepReportsOk(c: State, step: Step)
    requires Inv(c) && ReportsOk(c)
    ensures ReportsOk(Apply(c, step))
  {
    if Enabled(c, step) && step.CheckDone? {
      assert c.probes == [Checking] && Held(c) == [];
    }
  }

  lemma {:induction false} ExecReportsOk(c: State, steps: seq<Step>)
    requires Inv(c) && ReportsOk(c)
    ensures ReportsOk(Exec(c, steps))
    decreases |steps|
  {
    if steps != [] {
      StepInv(c, steps[0]);
      StepReportsOk(c, steps[0]);
      ExecReportsOk(Apply(c, steps[0]), steps[1..]);
    }
  }

  /** In every run the reports delivered are, in order, what the probes found: a
      portal exactly when one of the checks of the probe detected one. At most
      the last probe is still to be delivered, and the report being delivered is its. */
  lemma ReportsAreResults(steps: seq<Step>)
    ensures var c := Exec(Init(), steps);
            && |c.delivered| <= |c.probed| <= |c.delivered| + 1
            && (forall k | 0 <= k < |c.delivered| :: c.delivered[k] == (true in c.probed[k]))
            && (c.at.Deliver? ==>
                  |c.probed| == |c.delivered| + 1 && c.at.detected == (true in c.probed[|c.delivered|]))
            && c.detected == LastOf(c.delivered)
  {
    ExecInv(Init(), steps);
    ExecReportsOk(Init(), steps);
    var c := Exec(Init(), steps);
    assert forall k | 0 <= k < |c.delivered| :: (c.delivered + Held(c))[k] == c.delivered[k];
    if c.at.Deliver? {
      assert (c.delivered + Held(c))[|c.delivered|] == c.at.detected;
    }
  }

  // ----- the class -----

  /** n requests taken one after the other. */
  function Requested(c: State, n: nat): (r: State)
    ensures r.at == c.at
    decreases n
  {
    if n == 0 then c else Requested(Request(c), n - 1)
  }

  /** probe: up to |checks| checks of the server, until one detects a portal. */
  method ProbeServer(checks: seq<bool>) returns (detected: bool, used: nat)
    ensures detected <==> true in checks
    ensures used <= |checks| && (forall i | 0 <= i < used - 1 :: !checks[i])
    ensures if detected then used > 0 && checks[used - 1] else used == |checks|
  {
    detected, used := false, 0;
    while used < |checks|
      invariant used <= |checks| && !detected
      invariant forall i | 0 <= i < used :: !checks[i]
    {
      detected := checks[used];
      used := used + 1;
      if detected {
        break;
      }
    }
  }

  class CPD {
    var running: bool
    var runAgain: bool
    var detected: bool
    var probes: seq<Probe>
    ghost var at: Position
    ghost var clock: nat
    ghost var started: nat
    ghost var requests: set<nat>
    ghost var probed: seq<seq<bool>>
    ghost var delivered: seq<bool>

    ghost function View(): State
      reads this
    {
      State(running, runAgain, detected, at, probes, clock, started, requests, probed, delivered)
    }

    constructor ()
      ensures View() == Init()
    {
      running, runAgain, detected, probes := false, false, false, [];
      at, clock, started, requests, probed, delivered := Select, 0, 0, {}, [], [];
    }

    method GoProbe()
      modifies this
      ensures View() == StartProbe(old(View()))
    {
      running := true;
      probes := probes + [Checking];
      started := clock;
    }

    /** The probe goroutine up to the hand-over of its report. */
    method Probe(i: nat, checks: seq<bool>)
      requires i < |probes| && probes[i].Checking?
      modifies this
      ensures View() == Apply(old(View()), CheckDone(i, checks))
    {
      var found, _ := ProbeServer(checks);
      clock := clock + 1;
      probes := probes[i := Reporting(found)];
      probed := probed + [checks];
    }

    /** The main loop takes the report of a probe. */
    method TakeProbeReport(i: nat) returns (report: bool)
      requires at == Select && i < |probes| && probes[i].Reporting?
      modifies this
      ensures View() == Apply(old(View()), TakeReport(i)) && at == Deliver(report)
    {
      clock := clock + 1;
      report := probes[i].detected;
      probes := probes[..i] + probes[i + 1..];
      at := Deliver(report);
    }

    method HandleProbeRequest()
      requires at == Select
      modifies this
      ensures View() == Request(old(View()))
    {
      clock := clock + 1;
      requests := requests + {clock};
      if running {
        runAgain := true;
        return;
      }
      GoProbe();
    }

    /** The report has been taken by its receiver. */
    method ReportSent(report: bool)
      requires at == Deliver(report)
      modifies this
      ensures View() == Delivered(old(View()))
    {
      clock := clock + 1;
      delivered := delivered + [report];
      at := Select;
      detected := report;
      running := false;
      if runAgain {
        runAgain := false;
        GoProbe();
      }
    }

    /** The loop that hands the report over and takes requests meanwhile;
        arrivals of them come in before the report is taken. */
    method HandleProbeReport(report: bool, arrivals: nat)
      requires at == Deliver(report)
      modifies this
      ensures View() == Delivered(Requested(old(View()), arrivals))
    {
      var n: nat := arrivals;
      while n > 0
        invariant n <= arrivals && at == Deliver(report)
        invariant Requested(View(), n) == Requested(old(View()), arrivals)
      {
        clock := clock + 1;
        requests := requests + {clock};
        runAgain := true;
        n := n - 1;
      }
      ReportSent(report);
    }

    method HandleTimer()
      requires at == Select
      modifies this
      ensures View() == Timer(old(View()))
    {
      clock := clock + 1;
      if !running && !runAgain {
        GoProbe();
      }
    }
  }
}
