/** Model of dlc-trie/src/combination_iterator.rs: enumeration of the
    `k`-element selections out of `n` elements, in place. */
module CombinationIteration {

  import opened Results

  /** A selection of `k` of the elements lo to n-1, written in increasing order. */
  predicate IsSelection(s: seq<nat>, lo: nat, n: nat, k: nat) {
    && |s| == k
    && (forall i :: 0 <= i < k ==> lo <= s[i] < n)
    && (forall i, j :: 0 <= i < j < k ==> s[i] < s[j])
  }

  predicate LexLess(s: seq<nat>, t: seq<nat>) {
    s != [] && t != [] && (s[0] < t[0] || (s[0] == t[0] && LexLess(s[1..], t[1..])))
  }

  function Choose(n: nat, k: nat): nat {
    if k == 0 then 1 else if n < k then 0 else Choose(n - 1, k - 1) + Choose(n - 1, k)
  }

  function PrependAll(a: nat, list: seq<seq<nat>>): seq<seq<nat>> {
    if list == [] then [] else PrependAll(a, list[..|list| - 1]) + [[a] + list[|list| - 1]]
  }

  lemma {:induction false} PrependAllEntries(a: nat, list: seq<seq<nat>>)
    ensures |PrependAll(a, list)| == |list|
    ensures forall i :: 0 <= i < |list| ==> PrependAll(a, list)[i] == [a] + list[i]
  {
    if list != [] {
      PrependAllEntries(a, list[..|list| - 1]);
    }
  }

  /** All selections: first those that hold `lo`, then those that do not. */
  function Selections(lo: nat, n: nat, k: nat): seq<seq<nat>>
    requires lo <= n
    decreases n - lo
  {
    if k == 0 then [[]]
    else if n - lo < k then []
    else Split(lo, Selections(lo + 1, n, k - 1), Selections(lo + 1, n, k))
  }

  function Split(lo: nat, held: seq<seq<nat>>, rest: seq<seq<nat>>): seq<seq<nat>> {
    PrependAll(lo, held) + rest
  }

  lemma SplitEntries(lo: nat, held: seq<seq<nat>>, rest: seq<seq<nat>>, i: nat)
    ensures |Split(lo, held, rest)| == |held| + |rest|
    ensures i < |held| ==> Split(lo, held, rest)[i] == [lo] + held[i]
    ensures i < |rest| ==> Split(lo, held, rest)[|held| + i] == rest[i]
  {
    PrependAllEntries(lo, held);
  }

  lemma {:induction false} NumberOfSelections(lo: nat, n: nat, k: nat)
    requires lo <= n
    ensures |Selections(lo, n, k)| == Choose(n - lo, k)
    decreases n - lo
  {
    if 0 < k <= n - lo {
      PrependAllEntries(lo, Selections(lo + 1, n, k - 1));
      NumberOfSelections(lo + 1, n, k - 1);
      NumberOfSelections(lo + 1, n, k);
    }
  }

  /** The `k` numbers from `a` on. */
  function Run(a: nat, k: nat): seq<nat> {
    seq(k, i requires 0 <= i < k => a + i)
  }

  lemma {:induction false} SelectionsAreSelections(lo: nat, n: nat, k: nat, i: nat)
    requires lo <= n && i < |Selections(lo, n, k)|
    ensures IsSelection(Selections(lo, n, k)[i], lo, n, k)
    decreases n - lo
  {
    if k > 0 {
      var held := Selections(lo + 1, n, k - 1);
      PrependAllEntries(lo, held);
      if i < |held| {
        SelectionsAreSelections(lo + 1, n, k - 1, i);
      } else {
        SelectionsAreSelections(lo + 1, n, k, i - |held|);
      }
    }
  }

  lemma {:induction false} EverySelectionIsListed(s: seq<nat>, lo: nat, n: nat, k: nat) returns (i: nat)
    requires lo <= n && IsSelection(s, lo, n, k)
    ensures i < |Selections(lo, n, k)| && Selections(lo, n, k)[i] == s
    decreases n - lo
  {
    if k == 0 {
      i := 0;
    } else {
      SelectionFits(s, lo, n, k);
      var held, rest := Selections(lo + 1, n, k - 1), Selections(lo + 1, n, k);
      if s[0] == lo {
        TailIsSelection(s, lo, n, k);
        i := EverySelectionIsListed(s[1..], lo + 1, n, k - 1);
        SplitEntries(lo, held, rest, i);
      } else {
        assert IsSelection(s, lo + 1, n, k) by {
          assert forall j :: 0 <= j < k ==> s[0] <= s[j];
        }
        i := EverySelectionIsListed(s, lo + 1, n, k);
        SplitEntries(lo, held, rest, i);
        i := i + |held|;
      }
    }
  }

  lemma TailIsSelection(s: seq<nat>, lo: nat, n: nat, k: nat)
    requires k > 0 && IsSelection(s, lo, n, k) && s[0] == lo
    ensures s == [lo] + s[1..] && IsSelection(s[1..], lo + 1, n, k - 1)
  {
  }

  lemma {:induction false} SelectionFits(s: seq<nat>, lo: nat, n: nat, k: nat)
    requires IsSelection(s, lo, n, k) && lo <= n
    ensures k <= n - lo
    decreases k
  {
    if k > 0 {
      SelectionFits(s[1..], s[0] + 1, n, k - 1);
    }
  }

  lemma SplitSorted(lo: nat, held: seq<seq<nat>>, rest: seq<seq<nat>>, i: nat, j: nat)
    requires i < j < |held| + |rest|
    requires j < |held| ==> LexLess(held[i], held[j])
    requires i < |held| <= j ==> rest[j - |held|] != [] && lo < rest[j - |held|][0]
    requires |held| <= i ==> LexLess(rest[i - |held|], rest[j - |held|])
    ensures j < |Split(lo, held, rest)| && LexLess(Split(lo, held, rest)[i], Split(lo, held, rest)[j])
  {
    PrependAllEntries(lo, held);
    if j < |held| {
      assert ([lo] + held[i])[1..] == held[i] && ([lo] + held[j])[1..] == held[j];
    }
  }

  lemma {:induction false} SelectionsSorted(lo: nat, n: nat, k: nat, i: nat, j: nat)
    requires lo <= n && i < j < |Selections(lo, n, k)|
    ensures LexLess(Selections(lo, n, k)[i], Selections(lo, n, k)[j])
    decreases n - lo
  {
    if k > 0 {
      var held, rest := Selections(lo + 1, n, k - 1), Selections(lo + 1, n, k);
      SplitEntries(lo, held, rest, 0);
      if j < |held| {
        SelectionsSorted(lo + 1, n, k - 1, i, j);
      } else if i < |held| {
        SelectionsAreSelections(lo + 1, n, k, j - |held|);
      } else {
        SelectionsSorted(lo + 1, n, k, i - |held|, j - |held|);
      }
      SplitSorted(lo, held, rest, i, j);
    }
  }

  lemma {:induction false} LexIrreflexive(s: seq<nat>, t: seq<nat>)
    ensures !(LexLess(s, t) && LexLess(t, s))
  {
    if s != [] && t != [] {
      LexIrreflexive(s[1..], t[1..]);
    }
  }

  /** The position of a selection in the list is its lexicographic rank, and it
      is listed nowhere else. */
  lemma RankIsPosition(n: nat, k: nat, i: nat, j: nat)
    requires i < |Selections(0, n, k)| && j < |Selections(0, n, k)|
    ensures var all := Selections(0, n, k);
            (LexLess(all[j], all[i]) <==> j < i) && (all[i] == all[j] <==> i == j)
  {
    var all := Selections(0, n, k);
    if i < j {
      SelectionsSorted(0, n, k, i, j);
      LexIrreflexive(all[i], all[j]);
    } else if j < i {
      SelectionsSorted(0, n, k, j, i);
    }
    LexIrreflexive(all[i], all[j]);
  }

  predicate HasEnds(list: seq<seq<nat>>, first: seq<nat>, last: seq<nat>) {
    list != [] && list[0] == first && list[|list| - 1] == last
  }

  lemma {:induction false} FirstAndLast(lo: nat, n: nat, k: nat)
    requires lo <= n && k <= n - lo
    ensures HasEnds(Selections(lo, n, k), Run(lo, k), Run(n - k, k))
    decreases n - lo
  {
    if k > 0 {
      var held, rest := Selections(lo + 1, n, k - 1), Selections(lo + 1, n, k);
      assert HasEnds(held, Run(lo + 1, k - 1), Run(n - (k - 1), k - 1)) by { FirstAndLast(lo + 1, n, k - 1); }
      if k < n - lo {
        FirstAndLast(lo + 1, n, k);
      } else {
        assert rest == [];
      }
      SplitEnds(lo, n, k, held, rest);
    }
  }

  lemma SplitEnds(lo: nat, n: nat, k: nat, held: seq<seq<nat>>, rest: seq<seq<nat>>)
    requires 1 <= k <= n - lo
    requires HasEnds(held, Run(lo + 1, k - 1), Run(n - (k - 1), k - 1))
    requires if k < n - lo then HasEnds(rest, Run(lo + 1, k), Run(n - k, k)) else rest == []
    ensures HasEnds(Split(lo, held, rest), Run(lo, k), Run(n - k, k))
  {
    PrependAllEntries(lo, held);
    assert [lo] + Run(lo + 1, k - 1) == Run(lo, k);
    if k == n - lo {
      assert [lo] + Run(n - (k - 1), k - 1) == Run(n - k, k);
    }
  }

  /** `t` is `s` with the entry at `cur`, the last one that can still grow,
      incremented and the entries after it running on from there. */
  predicate Follows(s: seq<nat>, t: seq<nat>, cur: nat, n: nat) {
    && cur < |s| <= n
    && s[cur] < n - |s| + cur
    && (forall i :: cur < i < |s| ==> s[i] == n - |s| + i)
    && GrownAt(s, t, cur, |s|)
  }

  /** The first `len` entries of `t` are those of `s`, grown at `cur`. */
  predicate GrownAt(s: seq<nat>, t: seq<nat>, cur: nat, len: nat) {
    && cur < len <= |s| == |t|
    && (forall i :: 0 <= i < cur ==> t[i] == s[i])
    && (forall i :: cur <= i < len ==> t[i] == s[cur] + 1 + i - cur)
  }

  ghost predicate FollowsSomewhere(s: seq<nat>, t: seq<nat>, n: nat) {
    exists cur :: Follows(s, t, cur, n)
  }

  ghost predicate FollowsAt(list: seq<seq<nat>>, i: nat, n: nat)
    requires i + 1 < |list|
  {
    FollowsSomewhere(list[i], list[i + 1], n)
  }

  ghost predicate EachFollows(list: seq<seq<nat>>, n: nat) {
    forall i: nat | i + 1 < |list| :: FollowsAt(list, i, n)
  }

  predicate AllOfLength(list: seq<seq<nat>>, k: nat) {
    forall i :: 0 <= i < |list| ==> |list[i]| == k
  }

  lemma FollowsUnder(a: nat, s: seq<nat>, t: seq<nat>, cur: nat, n: nat)
    requires Follows(s, t, cur, n) && |s| < n
    ensures Follows([a] + s, [a] + t, cur + 1, n)
  {
  }

  lemma FollowsCarry(s: seq<nat>, t: seq<nat>, lo: nat, n: nat, k: nat)
    requires 1 <= k && lo + k < n
    requires s == [lo] + Run(n - (k - 1), k - 1) && t == Run(lo + 1, k)
    ensures Follows(s, t, 0, n)
  {
  }

  /** What follows a selection is determined by it. */
  lemma NextIsUnique(s: seq<nat>, t: seq<nat>, u: seq<nat>, cur: nat, n: nat)
    requires FollowsSomewhere(s, u, n) && GrownAt(s, t, cur, |s|)
    requires forall i :: cur < i < |s| ==> s[i] == n - |s| + i
    requires cur == 0 || s[cur] != n - |s| + cur
    ensures t == u
  {
    var c :| Follows(s, u, c, n);
    assert c == cur;
  }

  lemma PrependFollows(a: nat, list: seq<seq<nat>>, n: nat, k: nat)
    requires k < n && EachFollows(list, n) && AllOfLength(list, k)
    ensures EachFollows(PrependAll(a, list), n)
  {
    var r := PrependAll(a, list);
    PrependAllEntries(a, list);
    forall i: nat | i + 1 < |r| ensures FollowsAt(r, i, n) {
      assert FollowsAt(list, i, n);
      var cur :| Follows(list[i], list[i + 1], cur, n);
      FollowsUnder(a, list[i], list[i + 1], cur, n);
    }
  }

  lemma JoinFollows(a: seq<seq<nat>>, b: seq<seq<nat>>, n: nat)
    requires EachFollows(a, n) && EachFollows(b, n)
    requires a != [] && b != [] ==> Follows(a[|a| - 1], b[0], 0, n)
    ensures EachFollows(a + b, n)
  {
    var r := a + b;
    forall i: nat | i + 1 < |r| ensures FollowsAt(r, i, n) {
      if i + 1 < |a| {
        assert FollowsAt(a, i, n) && r[i] == a[i] && r[i + 1] == a[i + 1];
      } else if i + 1 == |a| {
        assert Follows(r[i], r[i + 1], 0, n);
      } else {
        var m := i - |a|;
        assert FollowsAt(b, m, n) && r[i] == b[m] && r[i + 1] == b[m + 1];
      }
    }
  }

  lemma SplitFollows(lo: nat, n: nat, k: nat, held: seq<seq<nat>>, rest: seq<seq<nat>>)
    requires 1 <= k <= n && EachFollows(held, n) && EachFollows(rest, n)
    requires AllOfLength(held, k - 1)
    requires HasEnds(held, Run(lo + 1, k - 1), Run(n - (k - 1), k - 1))
    requires rest != [] ==> lo + k < n && rest[0] == Run(lo + 1, k)
    ensures EachFollows(Split(lo, held, rest), n)
  {
    var under := PrependAll(lo, held);
    PrependFollows(lo, held, n, k - 1);
    PrependAllEntries(lo, held);
    if rest != [] {
      FollowsCarry(under[|under| - 1], rest[0], lo, n, k);
    }
    JoinFollows(under, rest, n);
  }

  lemma FirstIfAny(lo: nat, n: nat, k: nat)
    requires lo <= n && k > 0
    ensures Selections(lo, n, k) != [] ==> lo + k <= n && Selections(lo, n, k)[0] == Run(lo, k)
  {
    if k <= n - lo {
      FirstAndLast(lo, n, k);
    }
  }

  lemma SelectionLengths(lo: nat, n: nat, k: nat)
    requires lo <= n
    ensures AllOfLength(Selections(lo, n, k), k)
  {
    forall i | 0 <= i < |Selections(lo, n, k)| ensures |Selections(lo, n, k)[i]| == k {
      SelectionsAreSelections(lo, n, k, i);
    }
  }

  lemma {:induction false} NeighboursFollow(lo: nat, n: nat, k: nat)
    requires lo <= n
    ensures EachFollows(Selections(lo, n, k), n)
    decreases n - lo
  {
    if 0 < k <= n - lo {
      var held, rest := Selections(lo + 1, n, k - 1), Selections(lo + 1, n, k);
      assert EachFollows(held, n) by { NeighboursFollow(lo + 1, n, k - 1); }
      assert EachFollows(rest, n) by { NeighboursFollow(lo + 1, n, k); }
      assert AllOfLength(held, k - 1) by { SelectionLengths(lo + 1, n, k - 1); }
      assert HasEnds(held, Run(lo + 1, k - 1), Run(n - (k - 1), k - 1)) by { FirstAndLast(lo + 1, n, k - 1); }
      assert rest != [] ==> lo + k < n && rest[0] == Run(lo + 1, k) by { FirstIfAny(lo + 1, n, k); }
      SplitFollows(lo, n, k, held, rest);
    }
  }

  class CombinationIterator {
    var selector: seq<nat>
    const nbElements: nat
    const nbSelected: nat
    var isInit: bool
    ghost var yielded: nat

    ghost function All(): seq<seq<nat>> {
      Selections(0, nbElements, nbSelected)
    }

    /** The iterator has yielded the first `yielded` selections and holds the last of them. */
    ghost predicate Valid()
      reads this
    {
      && nbSelected <= nbElements
      && yielded <= |All()| && |All()| > 0
      && isInit == (yielded > 0)
      && selector == All()[if yielded == 0 then 0 else yielded - 1]
    }

    constructor (nbElements: nat, nbSelected: nat)
      requires nbElements >= nbSelected
      ensures Valid() && yielded == 0
      ensures this.nbElements == nbElements && this.nbSelected == nbSelected
    {
      this.nbElements := nbElements;
      this.nbSelected := nbSelected;
      this.selector := Run(0, nbSelected);
      this.isInit := false;
      this.yielded := 0;
      new;
      FirstAndLast(0, nbElements, nbSelected);
    }

    /** Yields the selections one after the other, then None. */
    method Next() returns (item: Option<seq<nat>>)
      requires Valid() && (isInit ==> nbSelected >= 1)
      modifies this
      ensures item.None? <==> old(yielded) == |All()|
      ensures item.Some? ==> Valid() && yielded == old(yielded) + 1 && item.value == All()[old(yielded)]
    {
      if !isInit {
        isInit := true;
        yielded := 1;
        return Some(selector);
      }
      ghost var before := selector;
      assert 1 <= yielded && before == Selections(0, nbElements, nbSelected)[yielded - 1];
      SelectionsAreSelections(0, nbElements, nbSelected, yielded - 1);
      var lastIndex := nbSelected - 1;
      var cur := lastIndex;
      while cur > 0 && selector[cur] == nbElements - 1 - (lastIndex - cur)
        invariant yielded == old(yielded) && isInit
        invariant 0 <= cur <= lastIndex && selector == before
        invariant forall i :: cur < i < nbSelected ==> before[i] == nbElements - nbSelected + i
      {
        cur := cur - 1;
      }
      ghost var grown := cur;
      assert grown == 0 || before[grown] != nbElements - nbSelected + grown;

      selector := selector[cur := selector[cur] + 1];
      cur := cur + 1;

      while cur <= lastIndex
        invariant yielded == old(yielded) && isInit
        invariant cur <= nbSelected && GrownAt(before, selector, grown, cur)
      {
        selector := selector[cur := selector[cur - 1] + 1];
        cur := cur + 1;
      }
      AdvanceIsNext(before, selector, grown, nbElements, nbSelected, yielded);

      if selector[0] == nbElements - nbSelected + 1 {
        return None;
      }
      yielded := yielded + 1;
      return Some(selector);
    }

    /** The index, counted from the next selection to be yielded, of `combination`. */
    method GetIndexForCombination(combination: seq<nat>) returns (index: Option<nat>)
      requires Valid() && nbSelected >= 1
      modifies this
      ensures index.Some? ==> old(yielded) + index.value < |All()| && All()[old(yielded) + index.value] == combination
      ensures index.None? ==> forall i :: old(yielded) <= i < |All()| ==> All()[i] != combination
      ensures old(yielded) == 0 ==> (index.Some? <==> IsSelection(combination, 0, nbElements, nbSelected))
    {
      IndexedExactlyOnce(nbElements, nbSelected, combination);
      var i := 0;
      var cur := Next();
      while cur.Some?
        invariant cur.Some? ==> Valid() && yielded == old(yielded) + i + 1 && cur.value == All()[old(yielded) + i]
        invariant cur.None? ==> old(yielded) + i == |All()|
        invariant forall j :: old(yielded) <= j < old(yielded) + i ==> All()[j] != combination
        decreases |All()| - i
      {
        if combination == cur.value {
          return Some(i);
        }
        i := i + 1;
        cur := Next();
      }
      return None;
    }
  }

  /** Growing the last entry that can grow leads to the next selection, and when
      none can, to a first entry that is one too large. */
  lemma AdvanceIsNext(s: seq<nat>, t: seq<nat>, cur: nat, n: nat, k: nat, yielded: nat)
    requires 1 <= k <= n && 1 <= yielded <= |Selections(0, n, k)| && s == Selections(0, n, k)[yielded - 1]
    requires cur < k == |s| && (forall i :: cur < i < k ==> s[i] == n - k + i)
    requires cur == 0 || s[cur] != n - k + cur
    requires GrownAt(s, t, cur, k)
    ensures t[0] == n - k + 1 <==> yielded == |Selections(0, n, k)|
    ensures yielded < |Selections(0, n, k)| ==> t == Selections(0, n, k)[yielded]
  {
    var all := Selections(0, n, k);
    if yielded < |all| {
      NeighboursFollow(0, n, k);
      assert FollowsAt(all, yielded - 1, n);
      NextIsUnique(s, t, all[yielded], cur, n);
      SelectionsAreSelections(0, n, k, yielded);
      SelectionFits(t[1..], t[0] + 1, n, k - 1);
    } else {
      FirstAndLast(0, n, k);
      assert s[cur] == n - k + cur;
    }
  }

  /** A fresh iterator numbers exactly the increasing tuples over [0, n), C(n, k)
      in all, each once. */
  lemma IndexedExactlyOnce(n: nat, k: nat, s: seq<nat>)
    ensures |Selections(0, n, k)| == Choose(n, k)
    ensures IsSelection(s, 0, n, k) <==> s in Selections(0, n, k)
    ensures forall i, j | 0 <= i < Choose(n, k) && 0 <= j < Choose(n, k) ::
              Selections(0, n, k)[i] == s == Selections(0, n, k)[j] ==> i == j
  {
    var all := Selections(0, n, k);
    NumberOfSelections(0, n, k);
    if IsSelection(s, 0, n, k) {
      var i := EverySelectionIsListed(s, 0, n, k);
    }
    forall i | 0 <= i < |all| && all[i] == s ensures IsSelection(s, 0, n, k) {
      SelectionsAreSelections(0, n, k, i);
    }
    forall i, j | 0 <= i < |all| && 0 <= j < |all| && all[i] == s == all[j] ensures i == j {
      RankIsPosition(n, k, i, j);
    }
  }
}
