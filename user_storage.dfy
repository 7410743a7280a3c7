/** Per-user namespacing of browser storage (`src/app/user-storage-service.ts`):
    every key is written as `litloom:<email>:<key>`, with the signed-in user's
    lower-cased email, or `guest` when nobody is signed in. */
module UserStorage {
  import opened Wrappers
  import opened Js

  const AppPrefix := "litloom"

  /** What a storage cell holds, as `get` sees it: an empty text (falsy, so the
      fallback is used), text that `JSON.parse` rejects, or a parsed value. */
  datatype Entry<V> = Blank | Unparsable | Json(value: V)

  /** The name of a user's space: the lower-cased email, or `guest` when there is no
      email or it is empty. */
  function Space(email: Option<string>): (r: string)
    ensures email.Some? && email.value != "" ==> r == ToLower(email.value)
    ensures email.None? || email.value == "" ==> r == "guest"
    ensures r != ""
  {
    if email.Some? && ToLower(email.value) != "" then ToLower(email.value) else "guest"
  }

  /** `litloom:<space>:`, the prefix `clearUserSpace` wipes. */
  function Prefix(email: Option<string>): (r: string)
    ensures |r| == |AppPrefix| + |Space(email)| + 2
  {
    AppPrefix + ":" + Space(email) + ":"
  }

  /** The private `k`: the namespaced storage key. */
  function Key(email: Option<string>, key: string): (r: string)
    ensures StartsWith(r, Prefix(email)) && r[|Prefix(email)|..] == key
  {
    Prefix(email) + key
  }

  /** Within one user's space, distinct keys map to distinct storage keys. */
  lemma {:induction false} KeyInjective(email: Option<string>, a: string, b: string)
    ensures Key(email, a) == Key(email, b) ==> a == b
  {
    if Key(email, a) == Key(email, b) {
      assert a == Key(email, a)[|Prefix(email)|..];
    }
  }

  predicate ColonFree(s: string) {
    forall i :: 0 <= i < |s| ==> s[i] != ':'
  }

  /** No key of one space lies under another space's prefix, as long as neither
      space name contains a colon. */
  lemma {:induction false} OtherSpaceOutsidePrefix(e1: Option<string>, e2: Option<string>, key: string)
    requires Space(e1) != Space(e2) && ColonFree(Space(e1)) && ColonFree(Space(e2))
    ensures !StartsWith(Key(e2, key), Prefix(e1))
  {
    var u1, u2 := Space(e1), Space(e2);
    var s, p := Key(e2, key), Prefix(e1);
    var n := |AppPrefix| + 1;
    if |p| <= |s| {
      if |u1| < |u2| {
        assert p[n + |u1|] == ':' && s[n + |u1|] == u2[|u1|];
      } else if |u1| > |u2| {
        assert s[n + |u2|] == ':' && p[n + |u2|] == u1[|u2|];
      } else {
        var i :| 0 <= i < |u1| && u1[i] != u2[i];
        assert p[n + i] == u1[i] && s[n + i] == u2[i];
      }
    }
  }

  /** Two users with different, colon-free space names never share a storage key. */
  lemma {:induction false} SpacesDisjoint(e1: Option<string>, k1: string, e2: Option<string>, k2: string)
    requires Space(e1) != Space(e2) && ColonFree(Space(e1)) && ColonFree(Space(e2))
    ensures Key(e1, k1) != Key(e2, k2)
  {
    OtherSpaceOutsidePrefix(e1, e2, k2);
  }

  /** A space name with a colon breaks the isolation: user `a:b`'s `c` and user
      `a`'s `b:c` are one storage key. */
  lemma {:induction false} ColonCollision()
    ensures Space(Some("a:b")) != Space(Some("a"))
    ensures Key(Some("a:b"), "c") == Key(Some("a"), "b:c")
  {
    assert ToLower("a:b") == "a:b";
    assert ToLower("a") == "a";
  }

  /** `get`: the parsed value under the user's key, or the fallback when the key is
      missing, its text is empty or does not parse. */
  function Lookup<V>(entries: map<string, Entry<V>>, email: Option<string>, key: string, fallback: V): (r: V)
    ensures (Key(email, key) in entries && entries[Key(email, key)].Json?) ==> r == entries[Key(email, key)].value
    ensures !(Key(email, key) in entries && entries[Key(email, key)].Json?) ==> r == fallback
  {
    var k := Key(email, key);
    if k in entries && entries[k].Json? then entries[k].value else fallback
  }

  /** `set`: the user's key now holds the value; every other entry is kept. */
  function Written<V>(entries: map<string, Entry<V>>, email: Option<string>, key: string, value: V): (r: map<string, Entry<V>>)
    ensures r.Keys == entries.Keys + {Key(email, key)}
    ensures r[Key(email, key)] == Json(value)
    ensures forall k :: k in r && k != Key(email, key) ==> r[k] == entries[k]
  {
    entries[Key(email, key) := Json(value)]
  }

  /** `remove`: the user's key is gone; every other entry is kept. */
  function Erased<V>(entries: map<string, Entry<V>>, email: Option<string>, key: string): (r: map<string, Entry<V>>)
    ensures r.Keys == entries.Keys - {Key(email, key)}
    ensures forall k :: k in r ==> r[k] == entries[k]
  {
    entries - {Key(email, key)}
  }

  /** `clearUserSpace`: every key under the prefix is gone, every other key kept. */
  function WithoutPrefix<V>(entries: map<string, Entry<V>>, prefix: string): (r: map<string, Entry<V>>)
    ensures forall k :: k in r <==> k in entries && !StartsWith(k, prefix)
    ensures forall k :: k in r ==> r[k] == entries[k]
  {
    map k | k in entries && !StartsWith(k, prefix) :: entries[k]
  }

  /** Reading a key back after writing it gives the written value, and no other key
      of any user whose space is colon-free and different is affected. */
  lemma {:induction false} ReadAfterWrite<V>(entries: map<string, Entry<V>>, email: Option<string>, key: string, value: V,
                                              other: Option<string>, otherKey: string, fallback: V)
    ensures Lookup(Written(entries, email, key, value), email, key, fallback) == value
    ensures otherKey != key ==>
              Lookup(Written(entries, email, key, value), email, otherKey, fallback) == Lookup(entries, email, otherKey, fallback)
    ensures Space(other) != Space(email) && ColonFree(Space(other)) && ColonFree(Space(email)) ==>
              Lookup(Written(entries, email, key, value), other, otherKey, fallback) == Lookup(entries, other, otherKey, fallback)
  {
    KeyInjective(email, key, otherKey);
    if Space(other) != Space(email) && ColonFree(Space(other)) && ColonFree(Space(email)) {
      SpacesDisjoint(email, key, other, otherKey);
    }
  }

  /** After a removal the key reads as the fallback; the user's other keys, and every
      key of any user whose space is colon-free and different, read as before. */
  lemma {:induction false} ReadAfterErase<V>(entries: map<string, Entry<V>>, email: Option<string>, key: string,
                                              other: Option<string>, otherKey: string, fallback: V)
    ensures Lookup(Erased(entries, email, key), email, key, fallback) == fallback
    ensures otherKey != key ==>
              Lookup(Erased(entries, email, key), email, otherKey, fallback) == Lookup(entries, email, otherKey, fallback)
    ensures Space(other) != Space(email) && ColonFree(Space(other)) && ColonFree(Space(email)) ==>
              Lookup(Erased(entries, email, key), other, otherKey, fallback) == Lookup(entries, other, otherKey, fallback)
  {
    KeyInjective(email, key, otherKey);
    if Space(other) != Space(email) && ColonFree(Space(other)) && ColonFree(Space(email)) {
      SpacesDisjoint(email, key, other, otherKey);
    }
  }

  /** After clearing a space every key of it reads as the fallback, while the keys
      of another colon-free space read as before. */
  lemma {:induction false} ReadAfterClear<V>(entries: map<string, Entry<V>>, email: Option<string>, key: string,
                                              other: Option<string>, fallback: V)
    ensures Lookup(WithoutPrefix(entries, Prefix(email)), email, key, fallback) == fallback
    ensures Space(other) != Space(email) && ColonFree(Space(other)) && ColonFree(Space(email)) ==>
              Lookup(WithoutPrefix(entries, Prefix(email)), other, key, fallback) == Lookup(entries, other, key, fallback)
  {
    if Space(other) != Space(email) && ColonFree(Space(other)) && ColonFree(Space(email)) {
      OtherSpaceOutsidePrefix(email, other, key);
    }
  }

  /** The browser's storage as seen through the current user's namespace. */
  class UserStorageService<V> {
    /** Every key of the browser's storage, whoever it belongs to. */
    var entries: map<string, Entry<V>>
    /** The signed-in user's email, as the auth service reports it. */
    var email: Option<string>

    constructor (entries: map<string, Entry<V>>, email: Option<string>)
      ensures this.entries == entries && this.email == email
    {
      this.entries := entries;
      this.email := email;
    }

    function Get(key: string, fallback: V): (r: V)
      reads this
      ensures r == Lookup(entries, email, key, fallback)
    {
      Lookup(entries, email, key, fallback)
    }

    method Set(key: string, value: V)
      modifies this
      ensures entries == Written(old(entries), email, key, value) && email == old(email)
    {
      entries := entries[Key(email, key) := Json(value)];
    }

    method Remove(key: string)
      modifies this
      ensures entries == Erased(old(entries), email, key) && email == old(email)
    {
      entries := entries - {Key(email, key)};
    }

    /** Collects the keys under the user's prefix in one pass over storage, then
        deletes them. */
    method ClearUserSpace()
      modifies this
      ensures entries == WithoutPrefix(old(entries), Prefix(email)) && email == old(email)
    {
      var prefix := Prefix(email);
      var toDelete: set<string> := {};
      var rest := entries.Keys;
      while rest != {}
        invariant rest <= entries.Keys
        invariant toDelete == set k | k in entries.Keys - rest && StartsWith(k, prefix)
        decreases |rest|
      {
        var k :| k in rest;
        if StartsWith(k, prefix) {
          toDelete := toDelete + {k};
        }
        rest := rest - {k};
      }
      entries := map k | k in entries && k !in toDelete :: entries[k];
    }
  }
}
