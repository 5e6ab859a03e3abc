/** One attempt to send the normal or the fallback body (sendNormal,
    sendFallback, sendMessage and the manual Send of mailscheduler.go). */
module Executor {
  import opened Errors
  import opened Options
  import opened Mail
  import opened Trace
  import opened SchedulerState

  /** The state after a send and the error it returns. */
  datatype Step = Step(world: World, outcome: Outcome)

  /** sendMessage: one dial-and-send of the current message; a transport
      failure is returned as `TransportError` carrying the network's cause. */
  function SendMessage(w: World, net: Network): (r: Step)
    ensures r.world.sched == w.sched
    ensures r.world.trace == w.trace + [Dialed(w.sched.dialer, w.sched.message)]
    ensures r.outcome.Ok? <==> NextDelivery(w, net).Delivered?
    ensures r.outcome.Fail? ==> r.outcome.error == TransportError(NextDelivery(w, net).cause)
  {
    var t := w.trace + [Dialed(w.sched.dialer, w.sched.message)];
    match NextDelivery(w, net)
    case Delivered => Step(World(w.sched, t), Ok)
    case Undelivered(cause) => Step(World(w.sched, t), Fail(TransportError(cause)))
  }

  /** sendNormal: needs the normal producer, calls it once, stops on its error,
      otherwise sets the body with the configured content type and transmits. */
  function SendNormal(w: World, net: Network): (r: Step)
    ensures w.trace <= r.world.trace
    ensures OnlyBodyChanged(w.sched, r.world.sched)
    ensures w.sched.mailOptions.bodyBuildFunc.None? ==>
              r.world == w && r.outcome == Fail(NoProducer(NormalBody))
    ensures w.sched.mailOptions.bodyBuildFunc.Some? && NextBuild(w).BuildFailed? ==>
              && r.world.sched == w.sched
              && Since(w, r.world) == [BodyBuilt]
              && r.outcome == Fail(BodyBuildError(NextBuild(w).cause))
    ensures w.sched.mailOptions.bodyBuildFunc.Some? && NextBuild(w).Built? ==>
              && r.world.sched.message.body
                   == Some(Part(ContentType(w.sched.mailOptions.bodyType), NextBuild(w).body))
              && Since(w, r.world) == [BodyBuilt, Dialed(w.sched.dialer, r.world.sched.message)]
              && (r.outcome.Ok? <==> NextDelivery(w, net).Delivered?)
              && (r.outcome.Fail? ==> r.outcome.error == TransportError(NextDelivery(w, net).cause))
  {
    match w.sched.mailOptions.bodyBuildFunc
    case None => Step(w, Fail(NoProducer(NormalBody)))
    case Some(f) =>
      var t := w.trace + [BodyBuilt];
      match f(Count(w.trace, BuildCall))
      case BuildFailed(cause) => Step(World(w.sched, t), Fail(BodyBuildError(cause)))
      case Built(body) =>
        var s := w.sched.(message := SetBody(w.sched.message, ContentType(w.sched.mailOptions.bodyType), body));
        CountAppend(w.trace, [BodyBuilt], TransportCall);
        SendMessage(World(s, t), net)
  }

  /** sendFallback: needs the fallback producer; it cannot fail, so the body is
      always set and exactly one transmission follows. */
  function SendFallback(w: World, net: Network): (r: Step)
    ensures w.trace <= r.world.trace
    ensures OnlyBodyChanged(w.sched, r.world.sched)
    ensures w.sched.mailOptions.fallbackBodyBuildFunc.None? ==>
              r.world == w && r.outcome == Fail(NoProducer(FallbackBody))
    ensures w.sched.mailOptions.fallbackBodyBuildFunc.Some? ==>
              && r.world.sched.message.body
                   == Some(Part(ContentType(w.sched.mailOptions.bodyType), NextFallback(w)))
              && Since(w, r.world) == [FallbackBuilt, Dialed(w.sched.dialer, r.world.sched.message)]
              && (r.outcome.Ok? <==> NextDelivery(w, net).Delivered?)
              && (r.outcome.Fail? ==> r.outcome.error == TransportError(NextDelivery(w, net).cause))
  {
    match w.sched.mailOptions.fallbackBodyBuildFunc
    case None => Step(w, Fail(NoProducer(FallbackBody)))
    case Some(f) =>
      var text := f(Count(w.trace, FallbackCall));
      var s := w.sched.(message := SetBody(w.sched.message, ContentType(w.sched.mailOptions.bodyType), text));
      CountAppend(w.trace, [FallbackBuilt], TransportCall);
      SendMessage(World(s, w.trace + [FallbackBuilt]), net)
  }

  /** Send: the manual entry point; one plain dispatch whose error goes back
      to the caller, with no retry. */
  function Send(w: World, net: Network, fallback: bool): (r: Step)
    ensures fallback ==> r == SendFallback(w, net)
    ensures !fallback ==> r == SendNormal(w, net)
  {
    if fallback then SendFallback(w, net) else SendNormal(w, net)
  }

  /** A manual send makes at most one producer call and at most one
      transmission, and never touches the other producer. */
  lemma ManualSendNoRetry(w: World, net: Network, fallback: bool)
    ensures w.trace <= Send(w, net, fallback).world.trace
    ensures Count(Since(w, Send(w, net, fallback).world), TransportCall) <= 1
    ensures fallback ==> Count(Since(w, Send(w, net, fallback).world), BuildCall) == 0
    ensures fallback ==> Count(Since(w, Send(w, net, fallback).world), FallbackCall)
                         == (if w.sched.mailOptions.fallbackBodyBuildFunc.Some? then 1 else 0)
    ensures !fallback ==> Count(Since(w, Send(w, net, fallback).world), FallbackCall) == 0
    ensures !fallback ==> Count(Since(w, Send(w, net, fallback).world), BuildCall)
                          == (if w.sched.mailOptions.bodyBuildFunc.Some? then 1 else 0)
  {
  }
}
