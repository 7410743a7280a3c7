/** A pending action remembered across sign-in (`src/app/intent-service.ts`): one
    record in the tab's session storage under `litloom_intent`, with an optional
    expiry time in milliseconds. The clock is a parameter. */
module Intents {
  import opened Wrappers

  const StorageKey := "litloom_intent"
  /** Milliseconds in a minute. */
  const MinuteMs := 60000

  datatype IntentType = AddToCart | AddToLibrary

  /** A pending action; `T` is its payload (a book to add). */
  datatype Intent<T> = Intent(kind: IntentType, data: T, redirectTo: string, expiresAt: Option<int>)

  /** `set`: the intent, stamped to expire `ttlMinutes` minutes from `now`. */
  function Stamped<T>(intent: Intent<T>, ttlMinutes: int, now: int): (r: Intent<T>)
    ensures r.expiresAt == Some(now + ttlMinutes * MinuteMs)
    ensures r.kind == intent.kind && r.data == intent.data && r.redirectTo == intent.redirectTo
  {
    intent.(expiresAt := Some(now + ttlMinutes * MinuteMs))
  }

  /** `parsed.expiresAt && parsed.expiresAt < now`: only a set, non-zero expiry that
      lies strictly before `now` has passed. */
  predicate Expired<T>(intent: Intent<T>, now: int) {
    intent.expiresAt.Some? && intent.expiresAt.value != 0 && intent.expiresAt.value < now
  }

  /** What `peek` returns. */
  function Peeked<T>(slot: Slot<Intent<T>>, now: int): (r: Option<Intent<T>>)
    ensures slot.Absent? || slot.Malformed? ==> r.None?
    ensures slot.Present? ==> (r.None? <==> Expired(slot.value, now))
    ensures r.Some? ==> slot == Present(r.value)
  {
    match slot
    case Present(intent) => if Expired(intent, now) then None else Some(intent)
    case _ => None
  }

  /** What `peek` leaves in storage: an expired or unreadable record is removed, an
      empty cell stays empty and a live record is left alone. */
  function AfterPeek<T>(slot: Slot<Intent<T>>, now: int): (r: Slot<Intent<T>>)
    ensures Peeked(slot, now).Some? ==> r == slot
    ensures Peeked(slot, now).None? ==> r == Absent
  {
    match slot
    case Present(intent) => if Expired(intent, now) then Absent else slot
    case _ => Absent
  }

  /** Peeking twice at the same moment sees the same thing and leaves the same
      storage as peeking once. */
  lemma {:induction false} PeekRepeats<T>(slot: Slot<Intent<T>>, now: int)
    ensures Peeked(AfterPeek(slot, now), now) == Peeked(slot, now)
    ensures AfterPeek(AfterPeek(slot, now), now) == AfterPeek(slot, now)
  {
  }

  /** An intent read at the very millisecond it expires is still returned; one
      millisecond later it is gone. */
  lemma {:induction false} ExpiryBoundary<T>(intent: Intent<T>, ttlMinutes: int, now: int)
    requires now + ttlMinutes * MinuteMs != 0
    ensures var e := now + ttlMinutes * MinuteMs;
            Peeked(Present(Stamped(intent, ttlMinutes, now)), e) == Some(Stamped(intent, ttlMinutes, now))
            && Peeked(Present(Stamped(intent, ttlMinutes, now)), e + 1).None?
  {
  }

  /** `consume`: what `peek` returns, and the cell is empty afterwards whatever it held. */
  function Consumed<T>(slot: Slot<Intent<T>>, now: int): (r: (Option<Intent<T>>, Slot<Intent<T>>))
    ensures r.0 == Peeked(slot, now)
    ensures r.1 == Absent
  {
    var value := Peeked(slot, now);
    (value, if value.Some? then Absent else AfterPeek(slot, now))
  }

  /** A second `consume` finds nothing, at any time. */
  lemma {:induction false} ConsumeOnce<T>(slot: Slot<Intent<T>>, now: int, later: int)
    ensures Consumed(Consumed(slot, now).1, later).0.None?
  {
  }

  /** The tab's session-storage cell for the intent. */
  class IntentService<T> {
    var slot: Slot<Intent<T>>

    constructor (stored: Slot<Intent<T>>)
      ensures slot == stored
    {
      slot := stored;
    }

    method Set(intent: Intent<T>, ttlMinutes: int, now: int)
      modifies this
      ensures slot == Present(Stamped(intent, ttlMinutes, now))
    {
      slot := Present(intent.(expiresAt := Some(now + ttlMinutes * MinuteMs)));
    }

    method Peek(now: int) returns (r: Option<Intent<T>>)
      modifies this
      ensures r == Peeked(old(slot), now) && slot == AfterPeek(old(slot), now)
    {
      match slot {
        case Absent =>
          r := None;
        case Malformed =>
          Clear();
          r := None;
        case Present(intent) =>
          if intent.expiresAt.Some? && intent.expiresAt.value != 0 && intent.expiresAt.value < now {
            Clear();
            r := None;
          } else {
            r := Some(intent);
          }
      }
    }

    method Consume(now: int) returns (r: Option<Intent<T>>)
      modifies this
      ensures (r, slot) == Consumed(old(slot), now)
    {
      r := Peek(now);
      if r.Some? {
        Clear();
      }
    }

    method Clear()
      modifies this
      ensures slot == Absent
    {
      slot := Absent;
    }
  }
}
