/** Model of pad_range_payouts in dlc-trie/src/digit_decomposition.rs and of the
    generate loop of dlc-trie/src/multi_oracle_trie_with_diff.rs with one oracle. */
module TrieGeneration {

  import opened Results
  import opened Positional
  import opened DigitCover
  import DigitDecomposition
  import PayoutRounding
  import opened PayoutCurve
  import opened PayoutRanges

  // ---- Padding ----

  /** Ranges one after the other, each with at least one outcome. */
  predicate Contiguous(outcomes: seq<RangePayout>) {
    && (forall i :: 0 <= i < |outcomes| ==> outcomes[i].count > 0)
    && (forall i: nat | i + 1 < |outcomes| :: FollowsOn(outcomes, i))
  }

  predicate FollowsOn(outcomes: seq<RangePayout>, i: nat)
    requires i + 1 < |outcomes|
  {
    outcomes[i + 1].start == End(outcomes[i])
  }

  /** The ranges partition the outcomes 0 to `size` - 1. */
  predicate Partitions(outcomes: seq<RangePayout>, size: nat) {
    && outcomes != [] && Contiguous(outcomes)
    && outcomes[0].start == 0 && End(outcomes[|outcomes| - 1]) == size
  }

  predicate SamePayout(a: RangePayout, b: RangePayout) {
    a.offer == b.offer && a.accept == b.accept
  }

  /** Stretches the first range down to 0 and the last one to the largest
      outcome, and leaves all payouts and inner boundaries alone. */
  method PadRangePayouts(originalOutcomes: seq<RangePayout>, base: nat, nbDigits: nat)
    returns (outcomes: seq<RangePayout>)
    requires originalOutcomes != []
    requires originalOutcomes[|originalOutcomes| - 1].start < Pow(base, nbDigits)
    ensures |outcomes| == |originalOutcomes|
    ensures forall i :: 0 <= i < |outcomes| ==> SamePayout(outcomes[i], originalOutcomes[i])
    ensures forall i :: 1 <= i < |outcomes| ==> outcomes[i].start == originalOutcomes[i].start
    ensures Contiguous(originalOutcomes) ==> Partitions(outcomes, Pow(base, nbDigits))
    ensures Partitions(originalOutcomes, Pow(base, nbDigits)) ==> outcomes == originalOutcomes
  {
    outcomes := originalOutcomes;
    if outcomes[0].start != 0 {
      outcomes := outcomes[0 := RangePayout(0, outcomes[0].count + outcomes[0].start, outcomes[0].offer,
                                            outcomes[0].accept)];
    }
    var lastIndex := |outcomes| - 1;
    var lastOutcome := outcomes[lastIndex];
    var maxValue := Pow(base, nbDigits);
    if End(lastOutcome) != maxValue {
      outcomes := outcomes[lastIndex :=
        RangePayout(lastOutcome.start, maxValue - lastOutcome.start, lastOutcome.offer, lastOutcome.accept)];
    }
    if Contiguous(originalOutcomes) {
      PaddedPartitions(originalOutcomes, outcomes, maxValue);
    }
  }

  lemma PaddedPartitions(original: seq<RangePayout>, padded: seq<RangePayout>, size: nat)
    requires original != [] && Contiguous(original) && original[|original| - 1].start < size
    requires |padded| == |original| && padded[0].start == 0 && End(padded[|padded| - 1]) == size
    requires forall i :: 1 <= i < |padded| ==> padded[i].start == original[i].start
    requires forall i :: 0 <= i < |padded| - 1 ==> End(padded[i]) == End(original[i])
    ensures Partitions(padded, size)
  {
    forall i: nat | i + 1 < |padded| ensures FollowsOn(padded, i) {
      assert FollowsOn(original, i);
    }
    forall i | 0 <= i < |padded| ensures padded[i].count > 0 {
      if i == |padded| - 1 {
        assert padded[i].start < size;
      } else {
        assert End(padded[i]) == End(original[i]) && original[i].count > 0;
        assert padded[i].start <= original[i].start;
      }
    }
  }

  lemma RunLengthsAreContiguous(ranges: seq<RangePayout>, first: nat, last: nat, total: nat)
    requires RunLengths(ranges, first, last, total)
    ensures Contiguous(ranges)
    ensures first == 0 ==> Partitions(ranges, last + 1)
  {
    forall i | 0 <= i < |ranges| ensures ranges[i].count > 0 {
      assert Splits(ranges[i], total);
    }
    forall i: nat | i + 1 < |ranges| ensures FollowsOn(ranges, i) {
      assert AdjoinsNext(ranges, i);
    }
  }

  lemma {:induction false} OrderedStarts(outcomes: seq<RangePayout>, i: nat, j: nat)
    requires Contiguous(outcomes) && i <= j < |outcomes|
    ensures i < j ==> End(outcomes[i]) <= outcomes[j].start
    decreases j
  {
    if i < j {
      OrderedStarts(outcomes, i, j - 1);
      assert FollowsOn(outcomes, j - 1);
    }
  }

  /** Every outcome lies in one range only. */
  lemma RangeIsUnique(outcomes: seq<RangePayout>, i: nat, j: nat, x: nat)
    requires Contiguous(outcomes) && i < |outcomes| && j < |outcomes|
    requires InRange(outcomes[i], x) && InRange(outcomes[j], x)
    ensures i == j
  {
    OrderedStarts(outcomes, if i <= j then i else j, if i <= j then j else i);
  }

  lemma {:induction false} RangeHolding(outcomes: seq<RangePayout>, size: nat, x: nat) returns (i: nat)
    requires Partitions(outcomes, size) && x < size
    ensures i < |outcomes| && InRange(outcomes[i], x)
    decreases |outcomes|
  {
    i := |outcomes| - 1;
    if x < outcomes[i].start {
      var shorter := outcomes[..i];
      assert FollowsOn(outcomes, i - 1);
      forall k: nat | k + 1 < i ensures FollowsOn(shorter, k) {
        assert FollowsOn(outcomes, k);
      }
      i := RangeHolding(shorter, outcomes[i].start, x);
    }
  }

  // ---- Generation ----

  datatype RangeInfo = RangeInfo(cetIndex: nat, adaptorIndex: nat)

  datatype TrieIterInfo = TrieIterInfo(indexes: seq<nat>, paths: seq<Path>, value: RangeInfo)

  /** What one group of digits turns into. */
  function InfoOf(group: Path, cetIndex: nat, adaptorIndex: nat): TrieIterInfo {
    TrieIterInfo([0], [group], RangeInfo(cetIndex, adaptorIndex))
  }

  /** The entries for the first `n` groups of one range. */
  function GroupInfos(groups: seq<Path>, n: nat, cetIndex: nat, adaptorIndex: nat): (r: seq<TrieIterInfo>)
    requires n <= |groups|
    ensures |r| == n
  {
    if n == 0 then []
    else GroupInfos(groups, n - 1, cetIndex, adaptorIndex) + [InfoOf(groups[n - 1], cetIndex, adaptorIndex + n - 1)]
  }

  function Infos(groups: seq<seq<Path>>, adaptorIndexStart: nat): seq<TrieIterInfo> {
    if groups == [] then []
    else
      var last := |groups| - 1;
      AddInfos(Infos(groups[..last], adaptorIndexStart), groups[last], last, adaptorIndexStart)
  }

  function AddInfos(before: seq<TrieIterInfo>, list: seq<Path>, cetIndex: nat,
                    adaptorIndexStart: nat): seq<TrieIterInfo> {
    before + GroupInfos(list, |list|, cetIndex, adaptorIndexStart + |before|)
  }

  /** Where the entry of a group is found. */
  function Position(groups: seq<seq<Path>>, i: nat, j: nat): nat
    requires i < |groups| && j < |groups[i]|
  {
    |Infos(groups[..i], 0)| + j
  }

  lemma {:induction false} InfosLength(groups: seq<seq<Path>>, a: nat, b: nat)
    ensures |Infos(groups, a)| == |Infos(groups, b)|
  {
    if groups != [] {
      InfosLength(groups[..|groups| - 1], a, b);
    }
  }

  lemma {:induction false} GroupInfoAt(groups: seq<Path>, n: nat, cetIndex: nat, adaptorIndex: nat, j: nat)
    requires j < n <= |groups|
    ensures GroupInfos(groups, n, cetIndex, adaptorIndex)[j] == InfoOf(groups[j], cetIndex, adaptorIndex + j)
    decreases n
  {
    if j < n - 1 {
      GroupInfoAt(groups, n - 1, cetIndex, adaptorIndex, j);
    }
  }

  /** Entries are numbered consecutively and each carries the index of its range. */
  lemma {:induction false} InfoAt(groups: seq<seq<Path>>, start: nat, i: nat, j: nat)
    requires i < |groups| && j < |groups[i]|
    ensures var k := Position(groups, i, j);
            k < |Infos(groups, start)| && Infos(groups, start)[k] == InfoOf(groups[i][j], i, start + k)
    decreases |groups|
  {
    var last := |groups| - 1;
    var before := Infos(groups[..last], start);
    InfosLength(groups[..last], start, 0);
    if i == last {
      GroupInfoAt(groups[last], |groups[last]|, last, start + |before|, j);
    } else {
      InfoAt(groups[..last], start, i, j);
      assert groups[..last][..i] == groups[..i];
    }
  }

  /** There are no other entries. */
  lemma {:induction false} InfoSource(groups: seq<seq<Path>>, start: nat, k: nat) returns (i: nat, j: nat)
    requires k < |Infos(groups, start)|
    ensures i < |groups| && j < |groups[i]| && k == Position(groups, i, j)
    decreases |groups|
  {
    var last := |groups| - 1;
    var before := Infos(groups[..last], start);
    InfosLength(groups[..last], start, 0);
    if k < |before| {
      i, j := InfoSource(groups[..last], start, k);
      assert groups[..last][..i] == groups[..i];
    } else {
      i, j := last, k - |before|;
    }
  }

  /** Group by group, the smallest exact cover of each range. */
  ghost predicate BestGroups(groups: seq<seq<Path>>, outcomes: seq<RangePayout>, base: nat, n: nat)
    requires base >= 2
  {
    && |groups| <= |outcomes|
    && forall i :: 0 <= i < |groups| ==> BestFor(groups[i], outcomes[i], base, n)
  }

  ghost predicate BestFor(group: seq<Path>, outcome: RangePayout, base: nat, n: nat)
    requires base >= 2
  {
    && outcome.count > 0
    && CoversExactly(group, base, n, outcome.start, End(outcome) - 1)
    && PairwiseDisjoint(group, base, n)
    && IsSmallestCover(group, base, n, outcome.start, End(outcome) - 1)
  }

  /** Entry `k` is the one whose prefix the digits of `x` extend. */
  predicate Selects(infos: seq<TrieIterInfo>, k: nat, x: nat, base: nat, n: nat)
    requires base >= 2 && k < |infos|
  {
    infos[k].paths != [] && Matches(infos[k].paths[0], x, base, n)
  }

  /** The digits of every outcome extend the prefix of exactly one entry, and
      the payout at that entry's index is the one of the outcome's range. */
  lemma EveryOutcomeIsServed(groups: seq<seq<Path>>, outcomes: seq<RangePayout>, start: nat, base: nat, n: nat, x: nat)
    returns (k: nat)
    requires base >= 2 && BestGroups(groups, outcomes, base, n) && |groups| == |outcomes|
    requires Partitions(outcomes, Pow(base, n)) && x < Pow(base, n)
    ensures var infos := Infos(groups, start);
            && k < |infos| && Selects(infos, k, x, base, n)
            && infos[k].indexes == [0] && infos[k].value.adaptorIndex == start + k
            && infos[k].value.cetIndex < |outcomes| && InRange(outcomes[infos[k].value.cetIndex], x)
            && forall l | 0 <= l < |infos| && Selects(infos, l, x, base, n) :: l == k
  {
    var infos := Infos(groups, start);
    var i := RangeHolding(outcomes, Pow(base, n), x);
    assert BestFor(groups[i], outcomes[i], base, n);
    assert Covers(groups[i], x, base, n);
    var j :| 0 <= j < |groups[i]| && Matches(groups[i][j], x, base, n);
    InfoAt(groups, start, i, j);
    k := Position(groups, i, j);
    forall l: nat | l < |infos| && Selects(infos, l, x, base, n) ensures l == k {
      var i', j' := InfoSource(groups, start, l);
      InfoAt(groups, start, i', j');
      SameGroup(groups, outcomes, base, n, x, i, j, i', j');
    }
  }

  lemma SameGroup(groups: seq<seq<Path>>, outcomes: seq<RangePayout>, base: nat, n: nat, x: nat,
                  i: nat, j: nat, i': nat, j': nat)
    requires base >= 2 && BestGroups(groups, outcomes, base, n) && Contiguous(outcomes) && x < Pow(base, n)
    requires i < |groups| && j < |groups[i]| && Matches(groups[i][j], x, base, n)
    requires i' < |groups| && j' < |groups[i']| && Matches(groups[i'][j'], x, base, n)
    ensures i == i' && j == j'
  {
    assert BestFor(groups[i], outcomes[i], base, n) && BestFor(groups[i'], outcomes[i'], base, n);
    assert Covers(groups[i], x, base, n) && Covers(groups[i'], x, base, n);
    RangeIsUnique(outcomes, i, i', x);
  }

  /** A cover of all outcomes that is as small as possible is the empty prefix,
      and no other range has the empty prefix in its cover. */
  lemma EmptyPrefixIffEverything(group: seq<Path>, base: nat, n: nat, start: nat, end: nat)
    requires base >= 2 && start <= end < Pow(base, n)
    requires CoversExactly(group, base, n, start, end) && IsSmallestCover(group, base, n, start, end)
    ensures [] in group <==> start == 0 && end == Pow(base, n) - 1
  {
    if [] in group {
      var i :| 0 <= i < |group| && group[i] == [];
      assert Matches(group[i], 0, base, n) && Matches(group[i], Pow(base, n) - 1, base, n);
      assert Covers(group, 0, base, n) && Covers(group, Pow(base, n) - 1, base, n);
    }
    if start == 0 && end == Pow(base, n) - 1 {
      var whole: seq<Path> := [[]];
      forall x: nat | x < Pow(base, n) ensures Covers(whole, x, base, n) {
        assert Matches(whole[0], x, base, n);
      }
      assert CoversExactly(whole, base, n, start, end);
      assert Covers(group, 0, base, n) && Covers(group, end, base, n);
      assert |group| == 1;
      OnlyEmptyPrefixIsEverything(group[0], base, n);
    }
  }

  lemma OnlyEmptyPrefixIsEverything(p: Path, base: nat, n: nat)
    requires base >= 2 && IsPrefix(p, base, n)
    requires Matches(p, 0, base, n) && Matches(p, Pow(base, n) - 1, base, n)
    ensures p == []
  {
    ExtendsIffInside(p, 0, base, n);
    ExtendsIffInside(p, Pow(base, n) - 1, base, n);
    if p != [] {
      var w := Pow(base, n - |p|);
      assert Value(p, base) * w <= 0;
      if Value(p, base) > 0 {
        MulMonotone(1, Value(p, base), w);
        assert false;
      }
      PowAdd(base, |p|, n - |p|);
      MulMonotone(2, base, Pow(base, |p| - 1));
      MulMonotone(2, Pow(base, |p|), w);
      assert false;
    }
  }

  datatype TrieError = InvalidPath

  lemma GroupsOfRange(list: seq<Path>, outcome: RangePayout, base: nat, n: nat)
    requires base >= 2 && outcome.count > 0 && End(outcome) <= Pow(base, n)
    requires var end := outcome.start + outcome.count - 1;
             CoversExactly(list, base, n, outcome.start, end) && PairwiseDisjoint(list, base, n)
             && IsSmallestCover(list, base, n, outcome.start, end)
    ensures BestFor(list, outcome, base, n)
    ensures forall i :: 0 <= i < |list| ==> IsPrefix(list[i], base, n)
    ensures [] in list <==> IsEverything(outcome, Pow(base, n))
  {
    EmptyPrefixIffEverything(list, base, n, outcome.start, End(outcome) - 1);
  }

  lemma OneMoreBest(groups: seq<seq<Path>>, list: seq<Path>, outcomes: seq<RangePayout>, base: nat, n: nat)
    requires base >= 2 && BestGroups(groups, outcomes, base, n)
    requires |groups| < |outcomes| && BestFor(list, outcomes[|groups|], base, n)
    ensures BestGroups(groups + [list], outcomes, base, n)
  {
    var all := groups + [list];
    forall i | 0 <= i < |all| ensures BestFor(all[i], outcomes[i], base, n) {
      if i < |groups| {
        assert all[i] == groups[i] && BestFor(groups[i], outcomes[i], base, n);
      } else {
        assert all[i] == list;
      }
    }
  }

  lemma OneMoreRange(groups: seq<seq<Path>>, list: seq<Path>, cetIndex: nat, adaptorIndex: nat, start: nat,
                     before: seq<TrieIterInfo>, added: seq<TrieIterInfo>, entries: map<Path, RangeInfo>)
    requires cetIndex == |groups| && adaptorIndex == start + |before|
    requires before == Infos(groups, start) && added == GroupInfos(list, |list|, cetIndex, adaptorIndex)
    ensures before + added == Infos(groups + [list], start)
    ensures StoreAll(StoreAll(entries, before), added) == StoreAll(entries, before + added)
  {
    var all := groups + [list];
    var last := |all| - 1;
    assert last == |groups| && all[last] == list && all[..last] == groups;
    assert Infos(all, start) == AddInfos(before, list, last, start);
    StoreInTurn(entries, before, added);
  }

  class MultiOracleTrie {
    const base: nat
    const nbDigits: nat
    /** The values stored in the one digit trie, by path. */
    var entries: map<Path, RangeInfo>

    constructor (base: nat, nbDigits: nat)
      ensures this.base == base && this.nbDigits == nbDigits && entries == map[]
    {
      this.base := base;
      this.nbDigits := nbDigits;
      entries := map[];
    }

    /** The digit trie takes no empty path. */
    method Insert(path: Path, value: RangeInfo) returns (r: Result<(), TrieError>)
      modifies this
      ensures r.Ok? <==> path != [] && forall i :: 0 <= i < |path| ==> path[i] <= base
      ensures entries == if r.Ok? then old(entries)[path := value] else old(entries)
    {
      if path == [] || exists i :: 0 <= i < |path| && path[i] > base {
        return Err(InvalidPath);
      }
      entries := entries[path := value];
      return Ok(());
    }

    /** The inner loop: numbers the groups of one range and inserts them. */
    method InsertGroups(groups: seq<Path>, cetIndex: nat, adaptorIndex0: nat)
      returns (r: Result<seq<TrieIterInfo>, TrieError>)
      requires forall i :: 0 <= i < |groups| ==> IsPrefix(groups[i], base, nbDigits)
      modifies this
      ensures r.Err? <==> [] in groups
      ensures r.Ok? ==> r.value == GroupInfos(groups, |groups|, cetIndex, adaptorIndex0)
      ensures r.Ok? ==> entries == StoreAll(old(entries), r.value)
    {
      var adaptorIndex := adaptorIndex0;
      var trieInfos: seq<TrieIterInfo> := [];
      for j := 0 to |groups|
        invariant trieInfos == GroupInfos(groups, j, cetIndex, adaptorIndex0)
        invariant adaptorIndex == adaptorIndex0 + j
        invariant forall i :: 0 <= i < j ==> groups[i] != []
        invariant entries == StoreAll(old(entries), trieInfos)
      {
        var group := groups[j];
        var value := RangeInfo(cetIndex, adaptorIndex);
        ghost var before := trieInfos;
        trieInfos := trieInfos + [TrieIterInfo([0], [group], value)];
        assert trieInfos[..|before|] == before;
        adaptorIndex := adaptorIndex + 1;
        assert IsPrefix(group, base, nbDigits);
        var inserted := Insert(group, value);
        if inserted.Err? {
          return Err(InvalidPath);
        }
      }
      return Ok(trieInfos);
    }

    /** What the generation does for one range. */
    method AddRange(outcome: RangePayout, cetIndex: nat, adaptorIndex: nat)
      returns (r: Result<seq<TrieIterInfo>, TrieError>, ghost groups: seq<Path>)
      requires base >= 2 && outcome.count > 0 && End(outcome) <= Pow(base, nbDigits)
      modifies this
      ensures BestFor(groups, outcome, base, nbDigits)
      ensures r.Err? <==> IsEverything(outcome, Pow(base, nbDigits))
      ensures r.Ok? ==> r.value == GroupInfos(groups, |groups|, cetIndex, adaptorIndex)
      ensures r.Ok? ==> entries == StoreAll(old(entries), r.value)
    {
      var list := DigitDecomposition.GroupByIgnoringDigits(outcome.start, outcome.start + outcome.count - 1,
                                                              base, nbDigits);
      GroupsOfRange(list, outcome, base, nbDigits);
      r := InsertGroups(list, cetIndex, adaptorIndex);
      groups := list;
    }

    /** One entry per group of digits of each range; fails exactly when one range
        takes up all outcomes. */
    method Generate(adaptorIndexStart: nat, outcomes: seq<RangePayout>)
      returns (r: Result<seq<TrieIterInfo>, TrieError>, ghost groups: seq<seq<Path>>)
      requires base >= 2 && AllWithin(outcomes, Pow(base, nbDigits))
      modifies this
      ensures BestGroups(groups, outcomes, base, nbDigits)
      ensures r.Err? <==> SomeIsEverything(outcomes, Pow(base, nbDigits))
      ensures r.Ok? ==> |groups| == |outcomes| && r.value == Infos(groups, adaptorIndexStart)
      ensures r.Ok? ==> entries == StoreAll(old(entries), r.value)
    {
      var adaptorIndex := adaptorIndexStart;
      var trieInfos: seq<TrieIterInfo> := [];
      groups := [];
      for cetIndex := 0 to |outcomes|
        invariant |groups| == cetIndex && BestGroups(groups, outcomes, base, nbDigits)
        invariant trieInfos == Infos(groups, adaptorIndexStart)
        invariant adaptorIndex == adaptorIndexStart + |trieInfos|
        invariant !SomeIsEverything(outcomes[..cetIndex], Pow(base, nbDigits))
        invariant entries == StoreAll(old(entries), trieInfos)
      {
        var added, list := AddRange(outcomes[cetIndex], cetIndex, adaptorIndex);
        EverythingSoFar(outcomes, cetIndex, Pow(base, nbDigits));
        if added.Err? {
          return Err(InvalidPath), groups;
        }
        OneMoreBest(groups, list, outcomes, base, nbDigits);
        OneMoreRange(groups, list, cetIndex, adaptorIndex, adaptorIndexStart, trieInfos, added.value, old(entries));
        groups := groups + [list];
        trieInfos := trieInfos + added.value;
        adaptorIndex := adaptorIndex + |added.value|;
      }
      assert outcomes[..|outcomes|] == outcomes;
      return Ok(trieInfos), groups;
    }
  }

  lemma EverythingSoFar(outcomes: seq<RangePayout>, i: nat, size: nat)
    requires i < |outcomes|
    ensures IsEverything(outcomes[i], size) ==> SomeIsEverything(outcomes, size)
    ensures SomeIsEverything(outcomes[..i + 1], size) <==>
            SomeIsEverything(outcomes[..i], size) || IsEverything(outcomes[i], size)
  {
    if SomeIsEverything(outcomes[..i], size) {
      var k :| 0 <= k < i && IsEverything(outcomes[..i][k], size);
      assert outcomes[..i + 1][k] == outcomes[..i][k];
    }
    if IsEverything(outcomes[i], size) {
      assert outcomes[..i + 1][i] == outcomes[i];
    }
    if SomeIsEverything(outcomes[..i + 1], size) {
      var k :| 0 <= k < i + 1 && IsEverything(outcomes[..i + 1][k], size);
      assert k < i ==> outcomes[..i][k] == outcomes[..i + 1][k];
    }
  }

  /** The entries after storing the value of each info under its path. */
  function StoreAll(entries: map<Path, RangeInfo>, infos: seq<TrieIterInfo>): map<Path, RangeInfo> {
    if infos == [] then entries
    else
      var last := infos[|infos| - 1];
      StoreAll(entries, infos[..|infos| - 1])[(if last.paths == [] then [] else last.paths[0]) := last.value]
  }

  lemma {:induction false} StoreInTurn(entries: map<Path, RangeInfo>, a: seq<TrieIterInfo>, b: seq<TrieIterInfo>)
    ensures StoreAll(entries, a + b) == StoreAll(StoreAll(entries, a), b)
    decreases |b|
  {
    if b == [] {
      assert a + b == a;
    } else {
      assert (a + b)[..|a + b| - 1] == a + b[..|b| - 1];
      StoreInTurn(entries, a, b[..|b| - 1]);
    }
  }

  /** A range that takes up all outcomes, the one case the trie has no place for. */
  predicate IsEverything(outcome: RangePayout, size: nat) {
    outcome.start == 0 && End(outcome) == size
  }

  predicate SomeIsEverything(outcomes: seq<RangePayout>, size: nat) {
    exists i :: 0 <= i < |outcomes| && IsEverything(outcomes[i], size)
  }

  predicate AllWithin(outcomes: seq<RangePayout>, size: nat) {
    forall i :: 0 <= i < |outcomes| ==> outcomes[i].count > 0 && End(outcomes[i]) <= size
  }

  lemma OnlyRangeIsEverything(outcomes: seq<RangePayout>, size: nat)
    requires Partitions(outcomes, size)
    ensures SomeIsEverything(outcomes, size) <==> |outcomes| == 1
  {
    if |outcomes| == 1 {
      assert IsEverything(outcomes[0], size);
    } else {
      forall i | 0 <= i < |outcomes| ensures !IsEverything(outcomes[i], size) {
        OrderedStarts(outcomes, 0, i);
        OrderedStarts(outcomes, i, |outcomes| - 1);
        assert outcomes[0].count > 0 && outcomes[|outcomes| - 1].count > 0;
      }
    }
  }

  predicate DistinctPaths(infos: seq<TrieIterInfo>) {
    && (forall k :: 0 <= k < |infos| ==> infos[k].paths != [])
    && (forall k, l :: 0 <= k < l < |infos| ==> infos[k].paths[0] != infos[l].paths[0])
  }

  /** With distinct paths, a new trie holds exactly the infos. */
  lemma {:induction false} StoredExactly(infos: seq<TrieIterInfo>, path: Path)
    requires DistinctPaths(infos)
    ensures var entries := StoreAll(map[], infos);
            && (path in entries <==> exists k :: 0 <= k < |infos| && infos[k].paths[0] == path)
            && forall k :: 0 <= k < |infos| && infos[k].paths[0] == path ==> entries[path] == infos[k].value
    decreases |infos|
  {
    if infos != [] {
      var n := |infos| - 1;
      StoredExactly(infos[..n], path);
      if path != infos[n].paths[0] && exists k :: 0 <= k < |infos| && infos[k].paths[0] == path {
        var k :| 0 <= k < |infos| && infos[k].paths[0] == path;
        assert infos[..n][k] == infos[k];
      }
    }
  }

  lemma GeneratedPathsDistinct(groups: seq<seq<Path>>, outcomes: seq<RangePayout>, start: nat, base: nat, n: nat)
    requires base >= 2 && BestGroups(groups, outcomes, base, n) && |groups| == |outcomes|
    requires Partitions(outcomes, Pow(base, n))
    ensures DistinctPaths(Infos(groups, start))
  {
    var infos := Infos(groups, start);
    forall k | 0 <= k < |infos| ensures infos[k].paths != [] {
      var i, j := InfoSource(groups, start, k);
      InfoAt(groups, start, i, j);
    }
    forall k, l | 0 <= k < l < |infos| ensures infos[k].paths[0] != infos[l].paths[0] {
      if infos[k].paths[0] == infos[l].paths[0] {
        var i, j := InfoSource(groups, start, k);
        InfoAt(groups, start, i, j);
        var p := groups[i][j];
        assert BestFor(groups[i], outcomes[i], base, n);
        assert IsPrefix(p, base, n);
        IntervalNonempty(p, base, n);
        IntervalBounded(p, base, n);
        var x := Lo(p, base, n);
        ExtendsIffInside(p, x, base, n);
        var m := EveryOutcomeIsServed(groups, outcomes, start, base, n, x);
        assert Selects(infos, k, x, base, n) && Selects(infos, l, x, base, n);
        assert false;
      }
    }
  }

  /** In the generated trie the digits of every outcome extend exactly one stored
      path, and the value there names the range of the outcome. */
  lemma TrieDecides(groups: seq<seq<Path>>, outcomes: seq<RangePayout>, start: nat, base: nat, n: nat, x: nat)
    returns (path: Path)
    requires base >= 2 && BestGroups(groups, outcomes, base, n) && |groups| == |outcomes|
    requires Partitions(outcomes, Pow(base, n)) && x < Pow(base, n)
    ensures var trie := StoreAll(map[], Infos(groups, start));
            && path in trie && Matches(path, x, base, n)
            && (forall other | other in trie && Matches(other, x, base, n) :: other == path)
            && trie[path].cetIndex < |outcomes| && InRange(outcomes[trie[path].cetIndex], x)
  {
    var infos := Infos(groups, start);
    var trie := StoreAll(map[], infos);
    GeneratedPathsDistinct(groups, outcomes, start, base, n);
    var k := EveryOutcomeIsServed(groups, outcomes, start, base, n, x);
    path := infos[k].paths[0];
    StoredExactly(infos, path);
    forall other | other in trie && Matches(other, x, base, n) ensures other == path {
      StoredExactly(infos, other);
      var l :| 0 <= l < |infos| && infos[l].paths[0] == other;
      assert Selects(infos, l, x, base, n);
    }
  }

  /** The digits of `x` extend exactly one path, and the value stored there
      leads to what the curve pays at `x`. */
  ghost predicate PaysFor(trie: map<Path, RangeInfo>, ranges: seq<RangePayout>, pieces: seq<Piece>, terms: Terms,
                          base: nat, n: nat, x: nat)
    requires base >= 2 && pieces != [] && PayoutRounding.UsableIntervals(terms.roundingIntervals)
  {
    exists path ::
      && path in trie && Matches(path, x, base, n)
      && (forall other | other in trie && Matches(other, x, base, n) :: other == path)
      && trie[path].cetIndex < |ranges|
      && OfferAt(pieces, x, terms) == Ok(ranges[trie[path].cetIndex].offer)
  }

  /** The ranges of a validated curve need no padding. */
  lemma CurvePartitions(pieces: seq<Piece>, terms: Terms, ranges: seq<RangePayout>, size: nat)
    requires pieces != [] && size > 0 && ValidatePayoutFunction(pieces, size - 1).Ok?
    requires PayoutRounding.UsableIntervals(terms.roundingIntervals) && CurveRanges(pieces, terms) == Ok(ranges)
    ensures Partitions(ranges, size) && Carries(ranges, pieces, terms) && AllWithin(ranges, size)
  {
    RangesAreThePayouts(pieces, terms);
    RunLengthsAreContiguous(ranges, 0, size - 1, terms.totalCollateral);
    forall i | 0 <= i < |ranges| ensures End(ranges[i]) <= size {
      EndsOrdered(ranges, 0, size - 1, terms.totalCollateral, i);
    }
  }

  lemma CurveToTrie(pieces: seq<Piece>, terms: Terms, ranges: seq<RangePayout>, groups: seq<seq<Path>>,
                    start: nat, base: nat, n: nat, x: nat)
    requires base >= 2 && pieces != [] && PayoutRounding.UsableIntervals(terms.roundingIntervals)
    requires Partitions(ranges, Pow(base, n)) && Carries(ranges, pieces, terms)
    requires BestGroups(groups, ranges, base, n) && |groups| == |ranges| && x < Pow(base, n)
    ensures PaysFor(StoreAll(map[], Infos(groups, start)), ranges, pieces, terms, base, n, x)
  {
    var trie := StoreAll(map[], Infos(groups, start));
    var path := TrieDecides(groups, ranges, start, base, n, x);
    assert PaysInside(ranges[trie[path].cetIndex], pieces, terms);
  }

  /** Entries are numbered consecutively from `start`. */
  predicate Numbered(infos: seq<TrieIterInfo>, start: nat) {
    forall k :: 0 <= k < |infos| ==> infos[k].value.adaptorIndex == start + k
  }

  lemma InfosNumbered(groups: seq<seq<Path>>, start: nat)
    ensures Numbered(Infos(groups, start), start)
  {
    forall k: nat | k < |Infos(groups, start)| ensures Infos(groups, start)[k].value.adaptorIndex == start + k {
      var i, j := InfoSource(groups, start, k);
      InfoAt(groups, start, i, j);
    }
  }

  /** Ranges, padding and trie of a validated curve. */
  method GenerateForCurve(pieces: seq<Piece>, terms: Terms, base: nat, nbDigits: nat, adaptorIndexStart: nat)
    returns (trie: MultiOracleTrie, ranges: Result<seq<RangePayout>, CurveError>,
             infos: Result<seq<TrieIterInfo>, TrieError>)
    requires base >= 2 && pieces != [] && ValidatePayoutFunction(pieces, Pow(base, nbDigits) - 1).Ok?
    requires PayoutRounding.UsableIntervals(terms.roundingIntervals)
    ensures ranges.Ok? <==> AllPay(pieces, terms)
    ensures ranges.Ok? ==> (infos.Err? <==> |ranges.value| == 1)
    ensures ranges.Ok? && infos.Ok? ==> Numbered(infos.value, adaptorIndexStart)
    ensures ranges.Ok? && infos.Ok? ==>
              forall x: nat | x < Pow(base, nbDigits) ::
                PaysFor(trie.entries, ranges.value, pieces, terms, base, nbDigits, x)
  {
    trie := new MultiOracleTrie(base, nbDigits);
    ranges := ToRangePayouts(pieces, terms);
    SucceedsIfAllPay(pieces, terms);
    if ranges.Err? {
      infos := Err(InvalidPath);
      return;
    }
    CurvePartitions(pieces, terms, ranges.value, Pow(base, nbDigits));
    var outcomes := PadRangePayouts(ranges.value, base, nbDigits);
    ghost var groups;
    infos, groups := trie.Generate(adaptorIndexStart, outcomes);
    OnlyRangeIsEverything(outcomes, Pow(base, nbDigits));
    if infos.Ok? {
      InfosNumbered(groups, adaptorIndexStart);
      forall x: nat | x < Pow(base, nbDigits)
        ensures PaysFor(trie.entries, ranges.value, pieces, terms, base, nbDigits, x)
      {
        CurveToTrie(pieces, terms, ranges.value, groups, adaptorIndexStart, base, nbDigits, x);
      }
    }
  }
}
