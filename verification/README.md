# go-mailscheduler: a Dafny model of the send, retry and fallback logic

go-mailscheduler sends an email on a cron schedule. Each time the schedule
fires, the registered job asks a user-supplied *body producer* for the body,
puts it into a message whose From/To/Subject headers were fixed at
construction, and hands the message to an SMTP dialer. It makes up to three
such attempts and stops at the first success. If all three fail it sends one
mail whose body comes from a *fallback producer*. A manual `Send(fallback)`
performs a single attempt of either kind and returns its error to the caller.

The model is functional. The foreign parts are oracles:

- **Body producers.** Each is a function of the number of earlier calls to it.
  The normal one yields `Built(body)` or `BuildFailed(cause)`. The fallback one
  always yields a string. An absent (nil) producer is `None`.
- **SMTP transport.** A `Network` gives the answer of the k-th dial-and-send.
- **Cron registration.** A function maps the expression to `Registered(id)` or `Rejected(reason)`.

A `World` is the scheduler plus a trace of every call it has made: `BodyBuilt`,
`FallbackBuilt`, and `Dialed(dialer, message)`. Each oracle is read at the
index given by the number of calls of that kind already in the trace.
Properties are stated over the new part of the trace, `Since(w, w')`: counts
of producer and transport calls, their order, whether a fallback happened,
and that only the message body changes.

Modules:

- `errors.dfy`: `Errors`, with the error variants and the `Outcome`, `Option` and `Result` types.
- `options.dfy`: `Options`, the types of options.go.
- `mail.dfy`: `Mail`, with the message, body part, dialer and network answer.
- `trace.dfy`: `Trace`, the call record and its counting.
- `state.dfy`: `SchedulerState`, with the scheduler, the world and the oracle reads.
- `executor.dfy`: `Executor`, containing `sendMessage`, `sendNormal`, `sendFallback` and `Send`.
- `controller.dfy`: `Controller`, the cron job. It contains a reference state
  machine with phases attempting n, succeeded, falling back, fallback delivered
  and failed. It also contains `Fire`, which follows the Go loop with
  `continue`/`break` and is proved equal to the state machine.
- `lifecycle.dfy`: `Lifecycle`, containing `New`, `Start`, `Stop`, cron ticks,
  sessions of commands and the invariant they keep.

Notes on the Go code as written, which the model follows:

- `New` rejects only nil mail or SMTP options. An absent producer is detected
  at send time, not at construction.
- An empty recipient list is accepted; nothing checks the recipients.
- A missing normal producer is its own error, "no mail body build function".
  The model's name for it is `NoProducer(NormalBody)`, next to `NoProducer(FallbackBody)`.
- `Stop` removes the job and calls `Stop().Done()` without receiving from the
  returned channel, so it returns without waiting for an in-flight firing.

## Model

| member | source | states |
|---|---|---|
| Options.ContentType | options.go:3-9 | the body type is one of two tags, "text/plain" or "text/html", and the two are distinct |
| Mail.GenMailMessage | mailscheduler.go:158-166 | the constructed message has exactly the configured From, To and Subject and no body; no producer is consulted |
| Mail.SetBody | mailscheduler.go:94 | setting a body leaves From/To/Subject untouched and replaces any previous body with the given content type and text |
| Executor.SendMessage | mailscheduler.go:100-105 | one transport call with the current message through the scheduler's dialer; error iff the transport fails, carrying its cause; scheduler unchanged |
| Executor.SendNormal | mailscheduler.go:83-97 | no producer: NoProducer error, nothing called, nothing changed; producer error: BodyBuildError, one producer call, no transport call, body not overwritten; producer success: body = produced text with the configured type, producer call then exactly one transport call, error iff that call fails; envelope never changes |
| Executor.SendFallback | mailscheduler.go:71-80 | no fallback producer: NoProducer error with no call and no change; otherwise the body is set to the fallback text, one producer call then exactly one transport call, error iff the transport fails |
| Executor.Send | mailscheduler.go:63-68 | Send(true) is exactly sendFallback and Send(false) exactly sendNormal, with the error returned to the caller |
| Executor.ManualSendNoRetry | mailscheduler.go:63-68 | a manual send makes at most one transport call and one producer call of the chosen kind, never the other kind; no retry |
| Controller.Fire | mailscheduler.go:111-138 | the Go loop (three tries, continue on error, break on success, fallback unless a try succeeded) computes the same state and report as the reference state machine |
| Controller.MachineReport | mailscheduler.go:113-137 | resumed at attempt n after n-1 failed attempts, at least one more attempt is made and the next one is sendNormal's outcome on the current state; at most three attempts are made in all, all but the last failed, the last succeeded unless it was the third, and the fallback is attempted iff the last attempt failed |
| Controller.MachineFrame | mailscheduler.go:111-138 | a firing, from any phase, only appends to the trace, keeps the outcomes already reported and changes nothing but the message body |
| Controller.MachineCalls | mailscheduler.go:111-138 | a firing not yet past its fallback calls the normal producer once per attempt when it is set, the fallback producer once iff the fallback is attempted and set, and the transport at most once per attempt |
| Controller.ScheduledFacts | mailscheduler.go:111-138 | a firing makes 1 to 3 sendNormal attempts starting from the current state and stops at the first success; the fallback is attempted exactly once iff all three failed and never after a success; the envelope is unchanged |
| Controller.RecoverOnThirdAttempt | mailscheduler.go:116-131 | two producer failures then a success with a delivering network: exactly three attempts, no fallback, the third body is the one transmitted |
| Controller.FallbackAfterThreeFailures | mailscheduler.go:116-137 | three producer failures: exactly three failed attempts, then one fallback whose body is the fallback text and whose outcome is the network's answer |
| Controller.FailedAttempt | mailscheduler.go:119-123 | an attempt whose sendNormal fails for any reason (no producer, producer error, transport error) moves on to the next attempt, or to the fallback after the third, keeping sendNormal's state and reporting its error |
| Controller.SucceededAttempt | mailscheduler.go:124-132 | an attempt whose sendNormal succeeds ends the firing: no further attempt and no fallback, with the success reported last |
| Mail.GenSmtpDialer | mailscheduler.go:149-156 | the dialer carries the host, port, username and credential of the SMTP options unchanged |
| Lifecycle.New | mailscheduler.go:28-48 | nil mail or SMTP options give InvalidOptions and no scheduler; a refused cron expression gives ScheduleError and no scheduler; otherwise success, with a message holding exactly the configured envelope and no body, an empty trace (no producer called), the job registered and not running, and the invariant established |
| Lifecycle.Start | mailscheduler.go:51-53 | starting runs the dispatch loop and leaves the job registration, the message and the trace as they were |
| Lifecycle.Stop | mailscheduler.go:56-59 | stopping removes the job and halts the loop, leaving the message and the trace as they were |
| Lifecycle.Tick | mailscheduler.go:108-146 | a cron firing while the job is registered and the loop runs gives exactly the state of one run of the retry/fallback job; otherwise nothing changes; it returns no error and changes only the body |
| Lifecycle.RunPreservesInv | mailscheduler.go:71-105 | over any session of starts, stops, firings and manual sends: options, dialer and envelope stay as built, the body always has the configured type, and every transmitted message had the configured envelope, a typed body and went through the dialer built from the SMTP options |
| Lifecycle.StoppedJobNeverFires | mailscheduler.go:56-59 | after Stop, firings (even after a new Start) call nothing and change nothing, since the job stays removed |
| Lifecycle.ManualSendAfterStop | mailscheduler.go:61-68 | a manual send after Stop behaves exactly as before it |

## Left out

- The cron expression parser and trigger engine are not modelled. Registration is an oracle from the expression to an id or a refusal.
- `Start` and `Stop` only set two flags: job registered and loop running. Starting twice and the timing of firings are not modelled.
- `Stop` does not wait for an in-flight firing, because it does not receive from the `Done()` channel. This only matters with concurrency, which is left out.
- The gomail internals are not modelled: `NewDialer` (including its choice of SSL by port), header encoding and `DialAndSend`. The transport is an oracle of answers. The SMTP options are four opaque fields copied into the dialer.
- Logging (`log.Printf`) has no effect on the state machine. The outcomes it would print are kept in the firing report.
- The error text built with `errors.Join` is not modelled. Errors are tagged variants carrying the collaborator's cause.
- The Go scheduler keeps the caller's `*MailOptions` pointer and re-reads `BodyBuildFunc`, `FallbackBodyBuildFunc` and `BodyType` at every send, so a caller who changes them after `New` changes later sends. The model copies the options into the scheduler by value and has no command that replaces them; `Lifecycle.RunPreservesInv`'s "options stay as built" rests on that copy. Mutating the caller's options while the scheduler runs is also an unsynchronised data race in Go.
- Concurrency between a manual `Send` and a scheduled firing on the shared message is not modelled. The Go code has no synchronisation. The model runs commands one after another.
- `MailBodyType` has only its two documented constants. In Go the named string type would also accept any other string, including the empty zero value, and pass it through unchanged.
- Panics inside producers or the transport are not modelled. A producer is a total function of its call count.
- Controller.ScheduledFacts: bounds the transport calls of a firing by four instead of counting them exactly. The exact count depends on which attempts got a body, and `Controller.MachineCalls` bounds it per attempt.
