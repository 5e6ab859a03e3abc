/** Construction, start, stop, cron firings and manual sends over a session. */
module Lifecycle {
  import opened Errors
  import opened Options
  import opened Mail
  import opened Trace
  import opened SchedulerState
  import opened Executor
  import opened Controller

  /** What the cron engine answers when a job is added for an expression. */
  datatype Registration = Registered(id: nat) | Rejected(reason: string)

  /** The message is typed: it has no body yet, or one of the configured content type. */
  predicate Typed(m: Message, o: MailOptions)
  {
    m.body.None? || m.body.value.contentType == ContentType(o.bodyType)
  }

  /** A transport call of `s`: through its dialer, with its envelope and a typed body. */
  predicate Transmitted(e: Event, s: Scheduler)
  {
    e.Dialed? ==>
      && e.dialer == s.dialer
      && SameEnvelope(e.sent, s.message)
      && e.sent.body.Some?
      && Typed(e.sent, s.mailOptions)
  }

  /** What holds of every scheduler from construction on: the envelope is the
      configured one, the dialer is built from the SMTP options, the body is
      typed, and every message transmitted so far had that envelope, a typed
      body and went through that dialer. */
  ghost predicate Inv(w: World)
  {
    && SameEnvelope(w.sched.message, GenMailMessage(w.sched.mailOptions))
    && w.sched.dialer == GenSmtpDialer(w.sched.smtpOptions)
    && Typed(w.sched.message, w.sched.mailOptions)
    && forall i :: 0 <= i < |w.trace| ==> Transmitted(w.trace[i], w.sched)
  }

  /** New: nil options are refused, then the job is registered with cron (a
      refused expression is a failure), then the message and the dialer are
      built. No producer is called and nothing is transmitted. */
  function New(cron: string, mOpt: Option<MailOptions>, sOpt: Option<SmtpOptions>,
               addFunc: string -> Registration): (r: Result<World>)
    ensures r.Success? <==> mOpt.Some? && sOpt.Some? && addFunc(cron).Registered?
    ensures mOpt.None? || sOpt.None? ==> r == Failure(InvalidOptions)
    ensures mOpt.Some? && sOpt.Some? && addFunc(cron).Rejected? ==>
              r == Failure(ScheduleError(addFunc(cron).reason))
    ensures r.Success? ==>
              && Inv(r.value)
              && r.value.trace == []
              && r.value.sched.message.body.None?
              && r.value.sched.message.from == mOpt.value.from
              && r.value.sched.message.to == mOpt.value.to
              && r.value.sched.message.subject == mOpt.value.subject
              && r.value.sched.mailOptions == mOpt.value
              && r.value.sched.smtpOptions == sOpt.value
              && r.value.sched.exec == Cron(addFunc(cron).id, true, false)
  {
    if mOpt.None? || sOpt.None? then Failure(InvalidOptions)
    else
      match addFunc(cron)
      case Rejected(reason) => Failure(ScheduleError(reason))
      case Registered(id) =>
        var s := Scheduler(cron, mOpt.value, sOpt.value, GenMailMessage(mOpt.value),
                           GenSmtpDialer(sOpt.value), Cron(id, true, false));
        Success(World(s, []))
  }

  /** Start: the cron dispatch loop runs; the job, the message and the trace
      are as they were. */
  function Start(w: World): (w': World)
    ensures w'.sched.exec.running
    ensures w'.sched.exec.registered == w.sched.exec.registered
    ensures w'.sched.message == w.sched.message && w'.trace == w.trace
  {
    w.(sched := w.sched.(exec := w.sched.exec.(running := true)))
  }

  /** Stop: the job is removed and the dispatch loop halts; the message and
      the trace are as they were. */
  function Stop(w: World): (w': World)
    ensures !w'.sched.exec.registered && !w'.sched.exec.running
    ensures w'.sched.message == w.sched.message && w'.trace == w.trace
  {
    w.(sched := w.sched.(exec := w.sched.exec.(registered := false, running := false)))
  }

  /** A matching instant of the schedule: the job fires only while it is
      registered and the loop runs; otherwise nothing happens. A firing
      never hands an error back. */
  function Tick(w: World, net: Network): (w': World)
    ensures !(w.sched.exec.registered && w.sched.exec.running) ==> w' == w
    ensures w.sched.exec.registered && w.sched.exec.running ==> w' == Scheduled(w, net).world
    ensures w.trace <= w'.trace
    ensures OnlyBodyChanged(w.sched, w'.sched)
  {
    if w.sched.exec.registered && w.sched.exec.running then
      ScheduledFacts(w, net);
      Scheduled(w, net).world
    else w
  }

  /** What a session of the scheduler's users can do. */
  datatype Command = StartCmd | StopCmd | Trigger | ManualSend(fallback: bool)

  function Apply(w: World, net: Network, c: Command): World
  {
    match c
    case StartCmd => Start(w)
    case StopCmd => Stop(w)
    case Trigger => Tick(w, net)
    case ManualSend(fallback) => Send(w, net, fallback).world
  }

  /** The state after the commands of a session, in order. */
  function Run(w: World, net: Network, cmds: seq<Command>): World
    decreases |cmds|
  {
    if |cmds| == 0 then w else Run(Apply(w, net, cmds[0]), net, cmds[1..])
  }

  /** If the message body changes and a typed body message was transmitted
      after `w`, the invariant carries over. */
  lemma InvAfterSend(w: World, w': World)
    requires Inv(w)
    requires w.trace <= w'.trace
    requires OnlyBodyChanged(w.sched, w'.sched)
    requires Typed(w'.sched.message, w'.sched.mailOptions)
    requires forall i :: 0 <= i < |Since(w, w')| ==> Transmitted(Since(w, w')[i], w'.sched)
    ensures Inv(w')
  {
    forall i | 0 <= i < |w'.trace|
      ensures Transmitted(w'.trace[i], w'.sched)
    {
      if i < |w.trace| {
        assert w'.trace[i] == w.trace[i];
      } else {
        assert w'.trace[i] == Since(w, w')[i - |w.trace|];
      }
    }
  }

  /** sendNormal keeps the invariant. */
  lemma SendNormalInv(w: World, net: Network)
    requires Inv(w)
    ensures Inv(SendNormal(w, net).world)
  {
    var w' := SendNormal(w, net).world;
    InvAfterSend(w, w');
  }

  /** sendFallback keeps the invariant. */
  lemma SendFallbackInv(w: World, net: Network)
    requires Inv(w)
    ensures Inv(SendFallback(w, net).world)
  {
    var w' := SendFallback(w, net).world;
    InvAfterSend(w, w');
  }

  /** A firing run on from any phase keeps the invariant. */
  lemma {:induction false} MachineInv(f: Firing, net: Network)
    requires Inv(f.world)
    ensures Inv(Machine(f, net).world)
    decreases Measure(f.phase)
  {
    if !Terminal(f.phase) {
      var f1 := Advance(f, net);
      assert Machine(f, net) == Machine(f1, net);
      if f.phase.Attempting? {
        SendNormalInv(f.world, net);
      } else {
        SendFallbackInv(f.world, net);
      }
      MachineInv(f1, net);
    }
  }

  /** Over any session the invariant holds, the trace only grows, and the
      configuration and the envelope built at construction stay as they were:
      only the body and the cron flags change. */
  lemma {:induction false} RunPreservesInv(w: World, net: Network, cmds: seq<Command>)
    requires Inv(w)
    ensures Inv(Run(w, net, cmds))
    ensures w.trace <= Run(w, net, cmds).trace
    ensures SameEnvelope(w.sched.message, Run(w, net, cmds).sched.message)
    ensures Run(w, net, cmds).sched.mailOptions == w.sched.mailOptions
    ensures Run(w, net, cmds).sched.smtpOptions == w.sched.smtpOptions
    ensures Run(w, net, cmds).sched.dialer == w.sched.dialer
    decreases |cmds|
  {
    if |cmds| > 0 {
      var w1 := Apply(w, net, cmds[0]);
      match cmds[0] {
        case StartCmd =>
        case StopCmd =>
        case Trigger =>
          if w.sched.exec.registered && w.sched.exec.running {
            MachineInv(Firing(Attempting(1), w, NoReport), net);
          }
        case ManualSend(fallback) =>
          if fallback { SendFallbackInv(w, net); } else { SendNormalInv(w, net); }
      }
      RunPreservesInv(w1, net, cmds[1..]);
    }
  }

  /** After Stop no firing happens again: a session without manual sends
      leaves the trace and the message as they were, even if it starts the
      loop again, because the job stays removed. */
  lemma {:induction false} StoppedJobNeverFires(w: World, net: Network, cmds: seq<Command>)
    requires !w.sched.exec.registered
    requires forall i :: 0 <= i < |cmds| ==> !cmds[i].ManualSend?
    ensures Run(w, net, cmds).trace == w.trace
    ensures Run(w, net, cmds).sched.message == w.sched.message
    ensures !Run(w, net, cmds).sched.exec.registered
    decreases |cmds|
  {
    if |cmds| > 0 {
      StoppedJobNeverFires(Apply(w, net, cmds[0]), net, cmds[1..]);
    }
  }

  /** Manual sends do not depend on the cron job: after Stop they behave
      exactly as before it. */
  lemma ManualSendAfterStop(w: World, net: Network, fallback: bool)
    ensures Send(Stop(w), net, fallback).outcome == Send(w, net, fallback).outcome
    ensures Send(Stop(w), net, fallback).world.trace == Send(w, net, fallback).world.trace
    ensures Send(Stop(w), net, fallback).world.sched.message == Send(w, net, fallback).world.sched.message
  {
  }
}
