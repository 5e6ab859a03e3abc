/** The record of calls the scheduler makes into its collaborators. */
module Trace {
  import opened Mail

  /** One call: to the normal producer, to the fallback producer, or to the
      transport with the dialer used and the message as transmitted. */
  datatype Event =
    | BodyBuilt
    | FallbackBuilt
    | Dialed(dialer: Dialer, sent: Message)

  datatype Kind = BuildCall | FallbackCall | TransportCall

  function KindOf(e: Event): Kind
  {
    match e
    case BodyBuilt => BuildCall
    case FallbackBuilt => FallbackCall
    case Dialed(_, _) => TransportCall
  }

  /** The number of calls of kind `k` in `t`. */
  function Count(t: seq<Event>, k: Kind): (c: nat)
    ensures c <= |t|
  {
    if |t| == 0 then 0
    else (if KindOf(t[0]) == k then 1 else 0) + Count(t[1..], k)
  }

  /** Counting distributes over concatenation of traces. */
  lemma {:induction false} CountAppend(t: seq<Event>, u: seq<Event>, k: Kind)
    ensures Count(t + u, k) == Count(t, k) + Count(u, k)
  {
    if |t| == 0 {
      assert t + u == u;
    } else {
      assert (t + u)[1..] == t[1..] + u;
      CountAppend(t[1..], u, k);
    }
  }
}
