/**
 * The final `sort_values`: BUY_SIGNAL, then SELL_SIGNAL, then score, each
 * descending, a NaN score after every number. A row without a score is
 * placed as a NaN score, which for a table without the score column means
 * the order is by the two signals alone.
 */
module Ordering {
  import opened Wrappers
  import opened Cells
  import opened Rows
  import opened Rules

  /** A normalised row with the columns `decide` and the signals add. */
  datatype Annotated = Annotated(row: Row, decision: Decision, buy: bool, sell: bool)

  /** The three sort columns of a row. */
  datatype SortKey = SortKey(buy: bool, sell: bool, score: Num)

  function Key(a: Annotated): SortKey {
    SortKey(a.buy, a.sell, SafeGet(a.row.score, NaN))
  }

  /** Descending on a boolean column: true before false. */
  predicate FlagFirst(x: bool, y: bool) {
    x || !y
  }

  /** Descending on the score with NaN last. */
  predicate ScoreFirst(x: Num, y: Num) {
    y.NaN? || (x.Fin? && x.v >= y.v)
  }

  /** A row with key `k` may precede a row with key `l`. */
  predicate KeyFirst(k: SortKey, l: SortKey) {
    if k.buy != l.buy then FlagFirst(k.buy, l.buy)
    else if k.sell != l.sell then FlagFirst(k.sell, l.sell)
    else ScoreFirst(k.score, l.score)
  }

  predicate InOrder(a: Annotated, b: Annotated) {
    KeyFirst(Key(a), Key(b))
  }

  predicate Sorted(s: seq<Annotated>) {
    forall i, j :: 0 <= i < j < |s| ==> InOrder(s[i], s[j])
  }

  lemma KeyFirstTotal(k: SortKey, l: SortKey)
    ensures KeyFirst(k, l) || KeyFirst(l, k)
  {
  }

  lemma KeyFirstTransitive(k: SortKey, l: SortKey, m: SortKey)
    requires KeyFirst(k, l) && KeyFirst(l, m)
    ensures KeyFirst(k, m)
  {
  }

  /** Two keys that may each precede the other are the same key. */
  lemma KeyFirstAntisymmetric(k: SortKey, l: SortKey)
    requires KeyFirst(k, l) && KeyFirst(l, k)
    ensures k == l
  {
  }

  /** A row that may precede every row of a sorted list can head it. */
  lemma ConsSorted(y: Annotated, s: seq<Annotated>)
    requires Sorted(s) && forall k :: 0 <= k < |s| ==> InOrder(y, s[k])
    ensures Sorted([y] + s)
  {
    var r := [y] + s;
    forall i, j | 0 <= i < j < |r|
      ensures InOrder(r[i], r[j])
    {
      assert r[j] == s[j - 1];
      if i > 0 {
        assert r[i] == s[i - 1];
      }
    }
  }

  /** A row that may precede the head of a sorted list may precede all of it. */
  lemma BeforeHead(x: Annotated, s: seq<Annotated>)
    requires Sorted(s) && s != [] && InOrder(x, s[0])
    ensures forall k :: 0 <= k < |s| ==> InOrder(x, s[k])
  {
    forall k | 0 < k < |s|
      ensures InOrder(x, s[k])
    {
      KeyFirstTransitive(Key(x), Key(s[0]), Key(s[k]));
    }
  }

  /** The head of a sorted list may precede every row of the tail with `x`
      inserted, when it may not follow `x`. */
  lemma HeadBeforeRest(x: Annotated, s: seq<Annotated>, rest: seq<Annotated>)
    requires Sorted(s) && s != [] && !InOrder(x, s[0])
    requires multiset(rest) == multiset(s[1..]) + multiset{x}
    ensures forall k :: 0 <= k < |rest| ==> InOrder(s[0], rest[k])
  {
    forall k | 0 <= k < |rest|
      ensures InOrder(s[0], rest[k])
    {
      assert rest[k] in multiset(rest);
      if rest[k] == x {
        KeyFirstTotal(Key(x), Key(s[0]));
      } else {
        assert rest[k] in multiset(s[1..]);
        var j :| 0 <= j < |s[1..]| && s[1..][j] == rest[k];
        assert s[j + 1] == rest[k];
      }
    }
  }

  /** Inserting into a sorted list: before the first row it may precede. */
  function Insert(x: Annotated, s: seq<Annotated>): (r: seq<Annotated>)
    requires Sorted(s)
    ensures Sorted(r)
    ensures multiset(r) == multiset(s) + multiset{x}
    decreases |s|
  {
    if s == [] then [x]
    else if InOrder(x, s[0]) then
      BeforeHead(x, s);
      ConsSorted(x, s);
      [x] + s
    else
      assert s == [s[0]] + s[1..];
      var rest := Insert(x, s[1..]);
      HeadBeforeRest(x, s, rest);
      ConsSorted(s[0], rest);
      [s[0]] + rest
  }

  /** The sorted arrangement of the rows: a permutation in key order. */
  function SortRows(s: seq<Annotated>): (r: seq<Annotated>)
    ensures Sorted(r)
    ensures multiset(r) == multiset(s)
    decreases |s|
  {
    if s == [] then []
    else
      assert s == [s[0]] + s[1..];
      Insert(s[0], SortRows(s[1..]))
  }

  /** Rows with the same key up to position `k` of a sorted list share the key
      of every row between them. */
  lemma SortedPrefixKeys(t: seq<Annotated>, k: nat)
    requires Sorted(t) && k < |t| && Key(t[0]) == Key(t[k])
    ensures forall i :: 0 <= i <= k ==> Key(t[i]) == Key(t[k])
  {
    forall i | 0 <= i <= k
      ensures Key(t[i]) == Key(t[k])
    {
      if 0 < i < k {
        KeyFirstTransitive(Key(t[i]), Key(t[k]), Key(t[0]));
        KeyFirstAntisymmetric(Key(t[i]), Key(t[k]));
      }
    }
  }

  /** Leaving one row out of a sorted list keeps it sorted. */
  lemma SortedWithout(t: seq<Annotated>, k: nat)
    requires Sorted(t) && k < |t|
    ensures Sorted(t[..k] + t[k + 1..])
  {
    var u := t[..k] + t[k + 1..];
    forall i, j | 0 <= i < j < |u|
      ensures InOrder(u[i], u[j])
    {
      var i' := if i < k then i else i + 1;
      var j' := if j < k then j else j + 1;
      assert u[i] == t[i'] && u[j] == t[j'];
    }
  }

  /** In sorted arrangements of the same rows the head of `s` sits at some
      position `k` of `t`, and every row of `t` up to there has its key. */
  lemma HeadPosition(s: seq<Annotated>, t: seq<Annotated>) returns (k: nat)
    requires Sorted(s) && Sorted(t) && multiset(s) == multiset(t) && s != []
    ensures k < |t| && t[k] == s[0]
    ensures forall i :: 0 <= i <= k ==> Key(t[i]) == Key(s[0])
  {
    var x := s[0];
    assert x in multiset(t);
    k :| 0 <= k < |t| && t[k] == x;
    assert t[0] in multiset(s);
    var j :| 0 <= j < |s| && s[j] == t[0];
    KeyFirstTotal(Key(x), Key(x));
    assert InOrder(s[0], s[j]);
    assert InOrder(t[0], t[k]);
    KeyFirstAntisymmetric(Key(t[0]), Key(x));
    SortedPrefixKeys(t, k);
  }

  /** Keys of `t` with position `k` left out, shifted back into place. */
  lemma ShiftedKeys(s: seq<Annotated>, t: seq<Annotated>, k: nat)
    requires |s| == |t| && k < |t| && s != []
    requires forall i :: 0 <= i <= k ==> Key(t[i]) == Key(s[0])
    requires forall i :: 0 <= i < |s| - 1 ==> Key(s[1..][i]) == Key((t[..k] + t[k + 1..])[i])
    ensures forall i :: 0 <= i < |s| ==> Key(s[i]) == Key(t[i])
  {
    var u := t[..k] + t[k + 1..];
    forall i | 0 < i < |s|
      ensures Key(s[i]) == Key(t[i])
    {
      assert s[1..][i - 1] == s[i];
      if i - 1 < k {
        assert u[i - 1] == t[i - 1];
      } else {
        assert u[i - 1] == t[i];
      }
    }
  }

  /** Removing the same row from two arrangements of the same rows leaves
      arrangements of the same rows. */
  lemma RemoveBoth(s: seq<Annotated>, t: seq<Annotated>, k: nat)
    requires multiset(s) == multiset(t) && s != [] && k < |t| && t[k] == s[0]
    ensures multiset(t[..k] + t[k + 1..]) == multiset(s[1..])
  {
    assert t == t[..k] + [s[0]] + t[k + 1..];
    assert s == [s[0]] + s[1..];
    assert multiset(t) == multiset(t[..k]) + multiset{s[0]} + multiset(t[k + 1..]);
    assert multiset(s) == multiset{s[0]} + multiset(s[1..]);
    assert multiset(t[..k] + t[k + 1..]) == multiset(t[..k]) + multiset(t[k + 1..]);
    assert multiset(s[1..]) == multiset(s) - multiset{s[0]};
  }

  /**
   * The sort fixes the key of every position: two sorted arrangements of
   * the same rows agree, position by position, on BUY_SIGNAL, SELL_SIGNAL
   * and score. Only rows with equal keys can appear in either order.
   */
  lemma {:induction false} SortedKeysUnique(s: seq<Annotated>, t: seq<Annotated>)
    requires Sorted(s) && Sorted(t) && multiset(s) == multiset(t)
    ensures |s| == |t|
    ensures forall i :: 0 <= i < |s| ==> Key(s[i]) == Key(t[i])
    decreases |s|
  {
    assert |s| == |multiset(s)| == |multiset(t)| == |t|;
    if s != [] {
      var k := HeadPosition(s, t);
      var u := t[..k] + t[k + 1..];
      SortedWithout(t, k);
      RemoveBoth(s, t, k);
      SortedKeysUnique(s[1..], u);
      ShiftedKeys(s, t, k);
    }
  }

  /** What a sorted table looks like: buy rows first, then, among rows with
      the same BUY_SIGNAL, sell rows first, then numbers before missing or
      NaN scores, larger scores first. */
  lemma SortedMeaning(s: seq<Annotated>, i: int, j: int)
    requires Sorted(s) && 0 <= i < j < |s|
    ensures s[j].buy ==> s[i].buy
    ensures s[i].buy == s[j].buy && s[j].sell ==> s[i].sell
    ensures s[i].buy == s[j].buy && s[i].sell == s[j].sell && Key(s[j]).score.Fin? ==>
              Key(s[i]).score.Fin? && Key(s[i]).score.v >= Key(s[j]).score.v
  {
    assert InOrder(s[i], s[j]);
  }
}
