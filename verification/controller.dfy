/** The job registered with cron: up to three normal attempts, stopping at the
    first success, then one fallback attempt if all three failed. Nothing is
    returned to cron; the outcomes are only logged, and the model keeps them
    in a report. */
module Controller {
  import opened Errors
  import opened Options
  import opened Mail
  import opened Trace
  import opened SchedulerState
  import opened Executor

  /** The fixed number of normal attempts per firing. */
  const MaxAttempts: nat := 3

  /** What a firing did: the outcome of each normal attempt in order, and the
      outcome of the fallback attempt if one was made. */
  datatype FireReport = FireReport(attempts: seq<Outcome>, fallback: Option<Outcome>)

  const NoReport := FireReport([], None)

  /** The phases of one firing: normal attempt `n`, success, the fallback
      attempt, and its two terminal results. */
  datatype Phase =
    | Attempting(n: nat)
    | Succeeded
    | FallingBack
    | FallbackDelivered
    | Failed

  predicate Terminal(p: Phase)
  {
    p.Succeeded? || p.FallbackDelivered? || p.Failed?
  }

  /** A firing in progress or completed: its phase, the state and the report so far. */
  datatype Firing = Firing(phase: Phase, world: World, report: FireReport)

  function Measure(p: Phase): nat
  {
    match p
    case Attempting(n) => if n <= MaxAttempts then MaxAttempts - n + 2 else 2
    case FallingBack => 1
    case _ => 0
  }

  /** One transition of the firing's state machine: a normal attempt moves to
      success, to the next attempt, or after the third to the fallback; the
      fallback attempt moves to one of its two terminal phases. */
  function Advance(f: Firing, net: Network): (f': Firing)
    ensures !Terminal(f.phase) ==> Measure(f'.phase) < Measure(f.phase)
  {
    match f.phase
    case Attempting(n) =>
      var s := SendNormal(f.world, net);
      var next := if s.outcome.Ok? then Succeeded else if n < MaxAttempts then Attempting(n + 1) else FallingBack;
      Firing(next, s.world, f.report.(attempts := f.report.attempts + [s.outcome]))
    case FallingBack =>
      var s := SendFallback(f.world, net);
      Firing(if s.outcome.Ok? then FallbackDelivered else Failed, s.world, f.report.(fallback := Some(s.outcome)))
    case _ => f
  }

  /** The firing as a state machine run to a terminal phase, the reference for `Fire`. */
  function Machine(f: Firing, net: Network): Firing
    decreases Measure(f.phase)
  {
    if Terminal(f.phase) then f else Machine(Advance(f, net), net)
  }

  /** One firing started from `w`. */
  function Scheduled(w: World, net: Network): Firing
  {
    Machine(Firing(Attempting(1), w, NoReport), net)
  }

  /** The cron job as the Go closure writes it: a counted loop left by `break`
      on the first successful send, then a fallback unless a send succeeded. */
  method Fire(w0: World, net: Network) returns (w: World, report: FireReport)
    ensures w == Scheduled(w0, net).world && report == Scheduled(w0, net).report
  {
    w := w0;
    report := NoReport;
    var sendSuccess := false;
    var i := 1;
    while i <= MaxAttempts
      invariant 1 <= i <= MaxAttempts + 1
      invariant !sendSuccess
      invariant Machine(Firing(if i <= MaxAttempts then Attempting(i) else FallingBack, w, report), net)
                == Scheduled(w0, net)
      decreases MaxAttempts + 1 - i
    {
      var step := SendNormal(w, net);
      w := step.world;
      report := report.(attempts := report.attempts + [step.outcome]);
      if step.outcome.Fail? {
        i := i + 1;
        continue;
      }
      sendSuccess := true;
      break;
    }
    if sendSuccess {
      return;
    }
    var step := SendFallback(w, net);
    w := step.world;
    report := report.(fallback := Some(step.outcome));
  }

  /** One normal attempt makes one producer call when the producer is set and
      none otherwise, no fallback call, and at most one transmission. */
  lemma NormalStepCounts(w: World, net: Network)
    ensures var s := SendNormal(w, net);
      && Count(Since(w, s.world), BuildCall) == (if w.sched.mailOptions.bodyBuildFunc.Some? then 1 else 0)
      && Count(Since(w, s.world), FallbackCall) == 0
      && Count(Since(w, s.world), TransportCall) <= 1
  {
  }

  /** One fallback attempt makes one fallback producer call when that producer
      is set and none otherwise, no normal producer call, and at most one
      transmission. */
  lemma FallbackStepCounts(w: World, net: Network)
    ensures var s := SendFallback(w, net);
      && Count(Since(w, s.world), BuildCall) == 0
      && Count(Since(w, s.world), FallbackCall)
         == (if w.sched.mailOptions.fallbackBodyBuildFunc.Some? then 1 else 0)
      && Count(Since(w, s.world), TransportCall) <= 1
  {
  }


  /** A firing run on from `f` only appends to the trace, keeps the attempts
      already reported, and changes nothing but the message body. */
  lemma {:induction false} MachineFrame(f: Firing, net: Network)
    ensures var m := Machine(f, net);
      && f.world.trace <= m.world.trace
      && f.report.attempts <= m.report.attempts
      && OnlyBodyChanged(f.world.sched, m.world.sched)
    decreases Measure(f.phase)
  {
    if !Terminal(f.phase) {
      var f1 := Advance(f, net);
      assert Machine(f, net) == Machine(f1, net);
      MachineFrame(f1, net);
    }
  }

  /** The report of a firing resumed at normal attempt `n` after `n - 1`
      failed attempts: the attempt made next is `sendNormal` on the current
      state; at most three attempts are made in all, all but the last failed,
      the last succeeded unless it was the third, and the fallback is
      attempted exactly when the last attempt failed. */
  lemma {:induction false} MachineReport(f: Firing, net: Network)
    requires f.phase.Attempting? && 1 <= f.phase.n <= MaxAttempts
    requires |f.report.attempts| == f.phase.n - 1
    requires forall i :: 0 <= i < |f.report.attempts| ==> f.report.attempts[i].Fail?
    requires f.report.fallback.None?
    ensures var r := Machine(f, net).report;
      && |f.report.attempts| < |r.attempts| <= MaxAttempts
      && r.attempts[|f.report.attempts|] == SendNormal(f.world, net).outcome
      && (forall i :: 0 <= i < |r.attempts| - 1 ==> r.attempts[i].Fail?)
      && (r.attempts[|r.attempts| - 1].Ok? || |r.attempts| == MaxAttempts)
      && (r.fallback.Some? <==> r.attempts[|r.attempts| - 1].Fail?)
    decreases MaxAttempts - f.phase.n
  {
    var f1 := Advance(f, net);
    assert Machine(f, net) == Machine(f1, net);
    MachineFrame(f1, net);
    if f1.phase.Attempting? {
      MachineReport(f1, net);
    } else if f1.phase == FallingBack {
      assert Machine(f1, net) == Advance(f1, net);
    }
  }

  /** The calls a firing run on from `f` makes, before any fallback: the
      normal producer once per attempt when it is set, the fallback producer
      once when the fallback is attempted and set, the transport at most once
      per attempt. */
  lemma {:induction false} MachineCalls(f: Firing, net: Network)
    requires f.report.fallback.None?
    ensures var m := Machine(f, net);
      && f.world.trace <= m.world.trace
      && |f.report.attempts| <= |m.report.attempts|
      && Count(Since(f.world, m.world), BuildCall)
         == (if f.world.sched.mailOptions.bodyBuildFunc.Some? then |m.report.attempts| - |f.report.attempts| else 0)
      && Count(Since(f.world, m.world), FallbackCall)
         == (if m.report.fallback.Some? && f.world.sched.mailOptions.fallbackBodyBuildFunc.Some? then 1 else 0)
      && Count(Since(f.world, m.world), TransportCall)
         <= |m.report.attempts| - |f.report.attempts| + (if m.report.fallback.Some? then 1 else 0)
    decreases Measure(f.phase)
  {
    if !Terminal(f.phase) {
      var f1 := Advance(f, net);
      var m := Machine(f1, net);
      assert Machine(f, net) == m;
      MachineFrame(f1, net);
      var d := Since(f.world, f1.world);
      if f.phase.Attempting? {
        NormalStepCounts(f.world, net);
      } else {
        FallbackStepCounts(f.world, net);
      }
      if f1.report.fallback.None? {
        MachineCalls(f1, net);
      } else {
        assert m == f1;
      }
      var e := Since(f1.world, m.world);
      SinceSplit(f.world, f1.world, m.world);
      CountAppend(d, e, BuildCall);
      CountAppend(d, e, FallbackCall);
      CountAppend(d, e, TransportCall);
    }
  }

  /** A firing makes one to three normal attempts and stops at the first
      success; the fallback is attempted exactly once when all three failed
      and never otherwise; the first attempt is `sendNormal` on the state the
      firing starts from; only the message body changes. */
  lemma ScheduledFacts(w: World, net: Network)
    ensures var f := Scheduled(w, net);
      && 1 <= |f.report.attempts| <= MaxAttempts
      && f.report.attempts[0] == SendNormal(w, net).outcome
      && (forall i :: 0 <= i < |f.report.attempts| - 1 ==> f.report.attempts[i].Fail?)
      && (f.report.fallback.Some? <==>
            |f.report.attempts| == MaxAttempts && f.report.attempts[MaxAttempts - 1].Fail?)
      && (f.report.fallback.None? ==> f.report.attempts[|f.report.attempts| - 1].Ok?)
    ensures var f := Scheduled(w, net);
      && w.trace <= f.world.trace
      && OnlyBodyChanged(w.sched, f.world.sched)
      && Count(Since(w, f.world), BuildCall)
         == (if w.sched.mailOptions.bodyBuildFunc.Some? then |f.report.attempts| else 0)
      && Count(Since(w, f.world), FallbackCall)
         == (if f.report.fallback.Some? && w.sched.mailOptions.fallbackBodyBuildFunc.Some? then 1 else 0)
      && Count(Since(w, f.world), TransportCall) <= MaxAttempts + 1
  {
    var f0 := Firing(Attempting(1), w, NoReport);
    MachineReport(f0, net);
    MachineFrame(f0, net);
    MachineCalls(f0, net);
  }

  /** A normal attempt whose producer fails leaves the scheduler as it was,
      records one producer call and consumes no transport answer. */
  lemma FailedBuildStep(w: World, net: Network)
    requires w.sched.mailOptions.bodyBuildFunc.Some? && NextBuild(w).BuildFailed?
    ensures SendNormal(w, net) == Step(World(w.sched, w.trace + [BodyBuilt]), Fail(BodyBuildError(NextBuild(w).cause)))
    ensures Count(w.trace + [BodyBuilt], BuildCall) == Count(w.trace, BuildCall) + 1
    ensures Count(w.trace + [BodyBuilt], FallbackCall) == Count(w.trace, FallbackCall)
    ensures Count(w.trace + [BodyBuilt], TransportCall) == Count(w.trace, TransportCall)
  {
    CountAppend(w.trace, [BodyBuilt], BuildCall);
    CountAppend(w.trace, [BodyBuilt], FallbackCall);
    CountAppend(w.trace, [BodyBuilt], TransportCall);
  }

  /** A normal attempt that fails, whether for a missing producer, a producer
      error or a transport error, moves the firing on to the next attempt, or
      to the fallback after the third, with the failure reported. */
  lemma FailedAttempt(f: Firing, net: Network)
    requires f.phase.Attempting? && 1 <= f.phase.n <= MaxAttempts
    requires SendNormal(f.world, net).outcome.Fail?
    ensures var s := SendNormal(f.world, net);
      Machine(f, net)
      == Machine(Firing(if f.phase.n < MaxAttempts then Attempting(f.phase.n + 1) else FallingBack,
                        s.world,
                        f.report.(attempts := f.report.attempts + [s.outcome])),
                 net)
  {
    assert Machine(f, net) == Machine(Advance(f, net), net);
  }

  /** A normal attempt that succeeds ends the firing: no further attempt and
      no fallback, with the success reported last. */
  lemma SucceededAttempt(f: Firing, net: Network)
    requires f.phase.Attempting? && 1 <= f.phase.n <= MaxAttempts
    requires SendNormal(f.world, net).outcome.Ok?
    ensures var s := SendNormal(f.world, net);
      Machine(f, net) == Firing(Succeeded, s.world, f.report.(attempts := f.report.attempts + [Ok]))
  {
    assert Machine(f, net) == Machine(Advance(f, net), net);
  }

  /** The case of `FailedAttempt` where the producer fails: the scheduler is
      unchanged and one producer call is recorded. */
  lemma FailedBuildAttempt(f: Firing, net: Network)
    requires f.phase.Attempting? && 1 <= f.phase.n <= MaxAttempts
    requires f.world.sched.mailOptions.bodyBuildFunc.Some? && NextBuild(f.world).BuildFailed?
    ensures Machine(f, net)
         == Machine(Firing(if f.phase.n < MaxAttempts then Attempting(f.phase.n + 1) else FallingBack,
                           World(f.world.sched, f.world.trace + [BodyBuilt]),
                           f.report.(attempts := f.report.attempts + [Fail(BodyBuildError(NextBuild(f.world).cause))])),
                    net)
  {
    FailedBuildStep(f.world, net);
    FailedAttempt(f, net);
  }

  /** Two failing producer calls in a row take a firing to its third attempt
      with the scheduler unchanged and two producer calls recorded. */
  lemma TwoFailedBuilds(w: World, net: Network)
    requires w.sched.mailOptions.bodyBuildFunc.Some?
    requires var p, k := w.sched.mailOptions.bodyBuildFunc.value, Count(w.trace, BuildCall);
      p(k).BuildFailed? && p(k + 1).BuildFailed?
    ensures var p, k := w.sched.mailOptions.bodyBuildFunc.value, Count(w.trace, BuildCall);
      var w2 := World(w.sched, w.trace + [BodyBuilt, BodyBuilt]);
      && Scheduled(w, net)
         == Machine(Firing(Attempting(3), w2,
                           FireReport([Fail(BodyBuildError(p(k).cause)), Fail(BodyBuildError(p(k + 1).cause))], None)),
                    net)
      && Count(w2.trace, BuildCall) == k + 2
      && Count(w2.trace, FallbackCall) == Count(w.trace, FallbackCall)
      && Count(w2.trace, TransportCall) == Count(w.trace, TransportCall)
  {
    var p, k := w.sched.mailOptions.bodyBuildFunc.value, Count(w.trace, BuildCall);
    var w1 := World(w.sched, w.trace + [BodyBuilt]);
    var e1 := Fail(BodyBuildError(p(k).cause));
    FailedBuildStep(w, net);
    FailedBuildAttempt(Firing(Attempting(1), w, NoReport), net);
    assert NoReport.(attempts := NoReport.attempts + [e1]) == FireReport([e1], None);
    assert NextBuild(w1) == p(k + 1);
    FailedBuildStep(w1, net);
    FailedBuildAttempt(Firing(Attempting(2), w1, FireReport([e1], None)), net);
    assert w.trace + [BodyBuilt, BodyBuilt] == w1.trace + [BodyBuilt];
    var w2 := World(w.sched, w.trace + [BodyBuilt, BodyBuilt]);
    var e2 := Fail(BodyBuildError(p(k + 1).cause));
    assert Scheduled(w, net) == Machine(Firing(Attempting(2), w1, FireReport([e1], None)), net);
    assert FireReport([e1], None).(attempts := [e1] + [e2]) == FireReport([e1, e2], None);
    assert Machine(Firing(Attempting(2), w1, FireReport([e1], None)), net)
           == Machine(Firing(Attempting(3), w2, FireReport([e1, e2], None)), net);
    assert Count(w2.trace, BuildCall) == k + 2;
  }

  /** A producer that fails twice and then succeeds, with a network that
      delivers: three attempts, the third succeeds, no fallback is attempted
      and the third body is the one transmitted. */
  lemma RecoverOnThirdAttempt(w: World, net: Network)
    requires w.sched.mailOptions.bodyBuildFunc.Some?
    requires var p, k := w.sched.mailOptions.bodyBuildFunc.value, Count(w.trace, BuildCall);
      p(k).BuildFailed? && p(k + 1).BuildFailed? && p(k + 2).Built?
    requires NextDelivery(w, net).Delivered?
    ensures var p, k := w.sched.mailOptions.bodyBuildFunc.value, Count(w.trace, BuildCall);
      var r := Scheduled(w, net);
      && r.report == FireReport([Fail(BodyBuildError(p(k).cause)), Fail(BodyBuildError(p(k + 1).cause)), Ok], None)
      && r.world.sched.message.body
         == Some(Part(ContentType(w.sched.mailOptions.bodyType), p(k + 2).body))
      && r.world.trace
         == w.trace + [BodyBuilt, BodyBuilt, BodyBuilt, Dialed(w.sched.dialer, r.world.sched.message)]
  {
    var p, k := w.sched.mailOptions.bodyBuildFunc.value, Count(w.trace, BuildCall);
    var w2 := World(w.sched, w.trace + [BodyBuilt, BodyBuilt]);
    var rep := FireReport([Fail(BodyBuildError(p(k).cause)), Fail(BodyBuildError(p(k + 1).cause))], None);
    TwoFailedBuilds(w, net);
    var f2 := Firing(Attempting(3), w2, rep);
    assert NextBuild(w2) == p(k + 2);
    assert NextDelivery(w2, net) == NextDelivery(w, net);
    var s := SendNormal(w2, net);
    assert s.outcome == Ok;
    assert Machine(f2, net) == Machine(Advance(f2, net), net);
    assert Advance(f2, net) == Firing(Succeeded, s.world, rep.(attempts := rep.attempts + [Ok]));
    assert w2.trace + Since(w2, s.world) == s.world.trace;
  }

  /** Three failing producer calls in a row take a firing to its fallback
      phase with the scheduler unchanged and no fallback or transport call. */
  lemma ThreeFailedBuilds(w: World, net: Network)
    requires w.sched.mailOptions.bodyBuildFunc.Some?
    requires var p, k := w.sched.mailOptions.bodyBuildFunc.value, Count(w.trace, BuildCall);
      p(k).BuildFailed? && p(k + 1).BuildFailed? && p(k + 2).BuildFailed?
    ensures var p, k := w.sched.mailOptions.bodyBuildFunc.value, Count(w.trace, BuildCall);
      var w3 := World(w.sched, w.trace + [BodyBuilt, BodyBuilt, BodyBuilt]);
      && Scheduled(w, net)
         == Machine(Firing(FallingBack, w3,
                           FireReport([Fail(BodyBuildError(p(k).cause)), Fail(BodyBuildError(p(k + 1).cause)),
                                       Fail(BodyBuildError(p(k + 2).cause))], None)),
                    net)
      && Count(w3.trace, FallbackCall) == Count(w.trace, FallbackCall)
      && Count(w3.trace, TransportCall) == Count(w.trace, TransportCall)
  {
    var p, k := w.sched.mailOptions.bodyBuildFunc.value, Count(w.trace, BuildCall);
    var w2 := World(w.sched, w.trace + [BodyBuilt, BodyBuilt]);
    var e1, e2, e3 := Fail(BodyBuildError(p(k).cause)), Fail(BodyBuildError(p(k + 1).cause)),
                      Fail(BodyBuildError(p(k + 2).cause));
    TwoFailedBuilds(w, net);
    assert NextBuild(w2) == p(k + 2);
    FailedBuildStep(w2, net);
    FailedBuildAttempt(Firing(Attempting(3), w2, FireReport([e1, e2], None)), net);
    assert FireReport([e1, e2], None).(attempts := [e1, e2] + [e3]) == FireReport([e1, e2, e3], None);
    assert w2.trace + [BodyBuilt] == w.trace + [BodyBuilt, BodyBuilt, BodyBuilt];
  }

  /** The fallback phase makes one fallback attempt and ends. */
  lemma FallbackPhase(f: Firing, net: Network)
    requires f.phase == FallingBack
    ensures var s := SendFallback(f.world, net);
      Machine(f, net)
      == Firing(if s.outcome.Ok? then FallbackDelivered else Failed, s.world, f.report.(fallback := Some(s.outcome)))
  {
    assert Machine(f, net) == Machine(Advance(f, net), net);
  }

  /** A producer that fails on all three attempts: exactly three attempts,
      then exactly one fallback attempt whose body is the fallback producer's
      text, and whose outcome is the network's answer. */
  lemma FallbackAfterThreeFailures(w: World, net: Network)
    requires w.sched.mailOptions.bodyBuildFunc.Some?
    requires w.sched.mailOptions.fallbackBodyBuildFunc.Some?
    requires var p, k := w.sched.mailOptions.bodyBuildFunc.value, Count(w.trace, BuildCall);
      p(k).BuildFailed? && p(k + 1).BuildFailed? && p(k + 2).BuildFailed?
    ensures var p, k := w.sched.mailOptions.bodyBuildFunc.value, Count(w.trace, BuildCall);
      var r := Scheduled(w, net);
      && r.report.attempts
         == [Fail(BodyBuildError(p(k).cause)), Fail(BodyBuildError(p(k + 1).cause)), Fail(BodyBuildError(p(k + 2).cause))]
      && r.report.fallback
         == Some(if NextDelivery(w, net).Delivered? then Ok else Fail(TransportError(NextDelivery(w, net).cause)))
      && r.world.sched.message.body
         == Some(Part(ContentType(w.sched.mailOptions.bodyType), NextFallback(w)))
      && r.world.trace
         == w.trace + [BodyBuilt, BodyBuilt, BodyBuilt, FallbackBuilt, Dialed(w.sched.dialer, r.world.sched.message)]
  {
    var p, k := w.sched.mailOptions.bodyBuildFunc.value, Count(w.trace, BuildCall);
    var w3 := World(w.sched, w.trace + [BodyBuilt, BodyBuilt, BodyBuilt]);
    var f3 := Firing(FallingBack, w3,
                     FireReport([Fail(BodyBuildError(p(k).cause)), Fail(BodyBuildError(p(k + 1).cause)),
                                 Fail(BodyBuildError(p(k + 2).cause))], None));
    ThreeFailedBuilds(w, net);
    FallbackPhase(f3, net);
    assert NextFallback(w3) == NextFallback(w);
    assert NextDelivery(w3, net) == NextDelivery(w, net);
    var b := SendFallback(w3, net);
    assert w3.trace + Since(w3, b.world) == b.world.trace;
  }
}
