/** The rotating quote banner (`src/app/quotes-service.ts`): a list of fetched
    quotes, the index of the one shown, and whether it rotates by itself, with the
    index and the muted flag kept in browser storage. The fetch, the timer and
    `Math.random` are parameters. */
module Quotes {
  import opened Wrappers
  import opened Js

  const IndexKey := "quote:index"
  const MutedKey := "quote:muted"

  /** `{ text: r?.quote, author: r?.author }`: either may be missing in the response. */
  datatype Quote = Quote(text: Option<string>, author: Option<string>)

  /** What is shown while the list is empty. */
  const Placeholder := Quote(Some("Loading quotes…"), Some(""))

  /** `currentQuote$`: the placeholder for an empty list, otherwise
      `list[i % list.length]`, which is `undefined` (here `None`) when a negative
      index leaves a negative remainder. */
  function Shown(list: seq<Quote>, i: int): (r: Option<Quote>)
    ensures list == [] ==> r == Some(Placeholder)
    ensures list != [] && i >= 0 ==> r == Some(list[i % |list|])
    ensures list != [] && i < 0 ==> (r.None? <==> Rem(i, |list|) != 0)
    ensures r.Some? && list != [] ==> r.value in list
  {
    if list == [] then Some(Placeholder)
    else
      var k := Rem(i, |list|);
      if k >= 0 then Some(list[k]) else None
  }

  /** The index `next` moves to. */
  function NextIndex(i: int, n: int): (r: int)
    requires n > 0
    ensures i >= -1 ==> 0 <= r < n
    ensures 0 <= i < n ==> r == if i + 1 == n then 0 else i + 1
  {
    Rem(i + 1, n)
  }

  /** The index `prev` moves to. */
  function PrevIndex(i: int, n: int): (r: int)
    requires n > 0
    ensures i >= 1 - n ==> 0 <= r < n
    ensures 0 <= i < n ==> r == if i == 0 then n - 1 else i - 1
  {
    if 0 < i < n then
      WrapOnce(i - 1, n);
      Rem(i - 1 + n, n)
    else if i == 0 then
      WrapOnce(n - 1, n);
      Rem(i - 1 + n, n)
    else Rem(i - 1 + n, n)
  }

  /** Below `n`, adding `n` once does not change the remainder. */
  lemma WrapOnce(x: int, n: int)
    requires 0 <= x < n
    ensures x % n == x && (x + n) % n == x
  {
    assert x + n == 1 * n + x;
  }

  /** On an index in range, `prev` undoes `next` and `next` undoes `prev`. */
  lemma {:induction false} NextPrevInverse(i: int, n: int)
    requires 0 <= i < n
    ensures PrevIndex(NextIndex(i, n), n) == i
    ensures NextIndex(PrevIndex(i, n), n) == i
  {
  }

  /** The index after `k` calls of `next`. */
  function NextTimes(i: int, n: int, k: nat): (r: int)
    requires n > 0
  {
    if k == 0 then i else NextIndex(NextTimes(i, n, k - 1), n)
  }

  /** Steps of `next` compose. */
  lemma {:induction false} NextTimesAdd(i: int, n: int, a: nat, b: nat)
    requires n > 0
    ensures NextTimes(i, n, a + b) == NextTimes(NextTimes(i, n, a), n, b)
  {
    if b > 0 {
      NextTimesAdd(i, n, a, b - 1);
    }
  }

  /** From an index in range, `k` steps of `next` that stay below `n` count up. */
  lemma {:induction false} NextTimesCounts(i: int, n: int, k: nat)
    requires 0 <= i && i + k < n
    ensures NextTimes(i, n, k) == i + k
  {
    if k > 0 {
      NextTimesCounts(i, n, k - 1);
    }
  }

  /** `n` steps of `next` from an index in range come back to it: the rotation
      shows every quote once per cycle. */
  lemma {:induction false} NextTimesCycle(i: int, n: int)
    requires 0 <= i < n
    ensures NextTimes(i, n, n) == i
  {
    NextTimesCounts(i, n, n - 1 - i);
    assert NextTimes(i, n, n - i) == 0;
    if i > 0 {
      NextTimesCounts(0, n, i);
    }
    NextTimesAdd(i, n, n - i, i);
  }

  /** However many steps it takes, `next` never leaves the range. */
  lemma {:induction false} NextTimesInRange(i: int, n: int, k: nat)
    requires 0 <= i < n
    ensures 0 <= NextTimes(i, n, k) < n
  {
    if k > 0 {
      NextTimesInRange(i, n, k - 1);
    }
  }

  /** `random`: `Math.floor(roll * n)` for a roll in `[0, 1)` is an index in range. */
  function RandomIndex(roll: real, n: int): (r: int)
    requires 0.0 <= roll < 1.0 && n > 0
    ensures 0 <= r < n
  {
    assert roll * n as real < 1.0 * n as real;
    (roll * n as real).Floor
  }

  class QuotesService {
    var quotes: seq<Quote>
    var index: int
    var rotating: bool
    /** The `quote:index` cell, as a number. */
    var storedIndex: Option<int>
    /** The `quote:muted` cell, as text. */
    var storedMuted: Option<string>

    constructor (storedIndex: Option<int>, storedMuted: Option<string>)
      ensures quotes == [] && index == 0 && !rotating
      ensures this.storedIndex == storedIndex && this.storedMuted == storedMuted
    {
      quotes := [];
      index := 0;
      rotating := false;
      this.storedIndex := storedIndex;
      this.storedMuted := storedMuted;
    }

    function Current(): Option<Quote>
      reads this
    {
      Shown(quotes, index)
    }

    /** `init`: `fetched` is the response's quote list, or `None` when the request
        failed or did not carry one. */
    method Init(fetched: Option<seq<Quote>>)
      modifies this
      ensures quotes == fetched.GetOr([])
      ensures index == old(storedIndex).GetOr(0) && storedIndex == Some(index)
      ensures rotating == (old(rotating) || old(storedMuted) != Some("1"))
      ensures storedMuted == (if !old(rotating) && old(storedMuted) != Some("1") then Some("0") else old(storedMuted))
    {
      var savedIndex := storedIndex.GetOr(0);
      var savedMuted := storedMuted == Some("1");
      quotes := fetched.GetOr([]);
      SetIndex(savedIndex);
      if !savedMuted {
        StartAutoRotate();
      }
    }

    method Next()
      modifies this
      ensures quotes == old(quotes) && rotating == old(rotating) && storedMuted == old(storedMuted)
      ensures quotes == [] ==> index == old(index) && storedIndex == old(storedIndex)
      ensures quotes != [] ==> index == NextIndex(old(index), |quotes|) && storedIndex == Some(index)
    {
      var n := |quotes|;
      if n != 0 {
        SetIndex(Rem(index + 1, n));
      }
    }

    method Prev()
      modifies this
      ensures quotes == old(quotes) && rotating == old(rotating) && storedMuted == old(storedMuted)
      ensures quotes == [] ==> index == old(index) && storedIndex == old(storedIndex)
      ensures quotes != [] ==> index == PrevIndex(old(index), |quotes|) && storedIndex == Some(index)
    {
      var n := |quotes|;
      if n != 0 {
        SetIndex(Rem(index - 1 + n, n));
      }
    }

    /** `random`, with the value `Math.random()` returned. */
    method Random(roll: real)
      requires 0.0 <= roll < 1.0
      modifies this
      ensures quotes == old(quotes) && rotating == old(rotating) && storedMuted == old(storedMuted)
      ensures quotes == [] ==> index == old(index) && storedIndex == old(storedIndex)
      ensures quotes != [] ==> index == RandomIndex(roll, |quotes|) && storedIndex == Some(index)
    {
      var n := |quotes|;
      if n != 0 {
        SetIndex((roll * n as real).Floor);
      }
    }

    /** One tick of the rotation timer, which runs only while rotating. */
    method Tick()
      modifies this
      ensures quotes == old(quotes) && rotating == old(rotating) && storedMuted == old(storedMuted)
      ensures rotating && quotes != [] ==> index == NextIndex(old(index), |quotes|) && storedIndex == Some(index)
      ensures !rotating || quotes == [] ==> index == old(index) && storedIndex == old(storedIndex)
    {
      if rotating {
        Next();
      }
    }

    method StartAutoRotate()
      modifies this
      ensures rotating && quotes == old(quotes) && index == old(index) && storedIndex == old(storedIndex)
      ensures storedMuted == (if old(rotating) then old(storedMuted) else Some("0"))
    {
      if rotating {
        return;
      }
      rotating := true;
      storedMuted := Some("0");
    }

    method StopAutoRotate()
      modifies this
      ensures !rotating && quotes == old(quotes) && index == old(index) && storedIndex == old(storedIndex)
      ensures storedMuted == (if old(rotating) then Some("1") else old(storedMuted))
    {
      if !rotating {
        return;
      }
      rotating := false;
      storedMuted := Some("1");
    }

    function IsRotating(): bool
      reads this
    {
      rotating
    }

    method SetIndex(i: int)
      modifies this
      ensures index == i && storedIndex == Some(i)
      ensures quotes == old(quotes) && rotating == old(rotating) && storedMuted == old(storedMuted)
    {
      index := i;
      storedIndex := Some(i);
    }
  }
}
