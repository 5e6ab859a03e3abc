/** The scheduler's state and the oracles that stand for its collaborators. */
module SchedulerState {
  import opened Errors
  import opened Options
  import opened Mail
  import opened Trace

  /** What the model keeps of the cron engine: the id of the registered job,
      whether the job is still registered, and whether the dispatch loop runs. */
  datatype Cron = Cron(entryId: nat, registered: bool, running: bool)

  /** The scheduler: configuration, the shared message and dialer, and the cron job. */
  datatype Scheduler = Scheduler(
    cron: string,
    mailOptions: MailOptions,
    smtpOptions: SmtpOptions,
    message: Message,
    dialer: Dialer,
    exec: Cron)

  /** A scheduler together with every call it has made so far. */
  datatype World = World(sched: Scheduler, trace: seq<Event>)

  /** The calls made in going from `w` to `w'`. */
  function Since(w: World, w': World): seq<Event>
    requires w.trace <= w'.trace
  {
    w'.trace[|w.trace|..]
  }

  /** Calls made from `w1` to `w3` are those to `w2` followed by those from `w2`. */
  lemma SinceSplit(w1: World, w2: World, w3: World)
    requires w1.trace <= w2.trace <= w3.trace
    ensures Since(w1, w3) == Since(w1, w2) + Since(w2, w3)
  {
  }

  /** Only the message body may differ between `s` and `s'`. */
  ghost predicate OnlyBodyChanged(s: Scheduler, s': Scheduler)
  {
    s' == s.(message := s'.message) && SameEnvelope(s.message, s'.message)
  }

  /** What the normal producer answers on its next call. */
  function NextBuild(w: World): BuildResult
    requires w.sched.mailOptions.bodyBuildFunc.Some?
  {
    w.sched.mailOptions.bodyBuildFunc.value(Count(w.trace, BuildCall))
  }

  /** What the fallback producer answers on its next call. */
  function NextFallback(w: World): string
    requires w.sched.mailOptions.fallbackBodyBuildFunc.Some?
  {
    w.sched.mailOptions.fallbackBodyBuildFunc.value(Count(w.trace, FallbackCall))
  }

  /** What the network answers to the next dial-and-send. */
  function NextDelivery(w: World, net: Network): Delivery
  {
    net(Count(w.trace, TransportCall))
  }
}
