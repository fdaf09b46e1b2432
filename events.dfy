/** Events: the short-lived notices shown on the dashboard (index.ts, class
    Event). An event is a value: its text, its lifetime in milliseconds and the
    clock reading at which it was built. The wall clock is not read here; every
    operation that needs the time receives it as `now`. */
module Events {

  /** What an event says. The source builds coloured strings; the model keeps
      only what they say. */
  datatype Text =
    | Joined(count: nat)                  // "Player joined x<count>"
    | Left(count: nat)                    // "Player left x<count>"
    | PingFailed(host: string, port: int) // "Ping failed to <host>:<port>"
    | IntervalWarning                     // "warning: ping interval under 3s."

  /** The default constructor argument: "take the lifetime of the feed the
      event is added to". */
  const InheritLifetime: int := -2

  datatype Event = Event(text: Text, life: int, createdAt: int)

  /** `new Event(text)`: the lifetime defaults to the inherit sentinel, so
      the event never expires on its own and takes the base lifetime of
      whichever feed it is added to. */
  function NewEvent(text: Text, now: int): (e: Event)
    ensures e.text == text && e.createdAt == now
    ensures forall t :: !Expired(e, t)
    ensures forall base :: Resolve(e, base).life == base
  {
    Event(text, InheritLifetime, now)
  }

  /** `getDuration()`: milliseconds elapsed since the event was built. */
  function Duration(e: Event, now: int): int
  {
    now - e.createdAt
  }

  /** The signed change in players online that a text reports (0 for texts
      that report none). */
  function Delta(t: Text): int
  {
    match t
    case Joined(n) => n as int
    case Left(n) => -(n as int)
    case _ => 0
  }

  /** `Math.abs`. */
  function Abs(x: int): nat
  {
    if x < 0 then -x else x
  }

  /** `Event.player_diff(diff)`: "joined" for a positive change, "left" with
      the absolute value otherwise (so 0 reads "left x0"). */
  function PlayerDiff(diff: int, now: int): (e: Event)
    ensures e.life == InheritLifetime && e.createdAt == now
    ensures e.text.Joined? <==> diff > 0
    ensures e.text.Left? <==> diff <= 0
    ensures Delta(e.text) == diff
  {
    NewEvent(if diff > 0 then Joined(Abs(diff)) else Left(Abs(diff)), now)
  }

  /** `Event.ping_failure(host, port)`: names the address and reports no
      change in players; like every factory it inherits its lifetime. */
  function PingFailure(host: string, port: int, now: int): (e: Event)
    ensures e.text == PingFailed(host, port) && e.createdAt == now
    ensures e.life == InheritLifetime && Delta(e.text) == 0
  {
    NewEvent(PingFailed(host, port), now)
  }

  /** The removal test of `EventRenderer.tick`: a positive lifetime that the
      event's age exceeds. */
  predicate Expired(e: Event, now: int)
  {
    Duration(e, now) > e.life && e.life > 0
  }

  /** Once an event has expired it stays expired as the clock advances. */
  lemma ExpiredLater(e: Event, t1: int, t2: int)
    requires t1 <= t2 && Expired(e, t1)
    ensures Expired(e, t2)
  {
  }

  /** `EventRenderer.add` back-fills the lifetime of an event that carries the
      inherit sentinel with the feed's base lifetime, and nothing else. */
  function Resolve(e: Event, base: int): (r: Event)
    ensures r.text == e.text && r.createdAt == e.createdAt
    ensures e.life == InheritLifetime ==> r.life == base
    ensures e.life != InheritLifetime ==> r.life == e.life
  {
    if e.life == InheritLifetime then e.(life := base) else e
  }
}
