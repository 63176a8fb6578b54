/** `_stable_user_grouping` of candidate_templates/lambdarank/candidate.py, and the first-seen
    codes it shares with the pair sampler. */
module Grouping {
  import opened Results
  import opened Sums
  import opened Numpy
  import opened Blocks

  // ---------------------------------------------------------------- np.unique

  function InsertDistinct(x: int, vs: seq<int>): (ws: seq<int>)
    ensures forall v :: v in ws <==> v == x || v in vs
  {
    if vs == [] || x < vs[0] then [x] + vs
    else if x == vs[0] then vs
    else [vs[0]] + InsertDistinct(x, vs[1..])
  }

  /** The distinct values in ascending order. */
  function SortedDistinct(xs: seq<int>): (vs: seq<int>)
    ensures forall v :: v in vs <==> v in xs
  {
    if xs == [] then [] else InsertDistinct(xs[|xs|-1], SortedDistinct(xs[..|xs|-1]))
  }

  function FirstIndex<T(==)>(xs: seq<T>, v: T): (i: nat)
    requires v in xs
    ensures i < |xs| && xs[i] == v
    ensures forall j :: 0 <= j < i ==> xs[j] != v
  {
    if xs[0] == v then 0 else 1 + FirstIndex(xs[1..], v)
  }

  /** Position of every listed value in the table. */
  function Positions(table: seq<int>, vs: seq<int>): (ps: seq<nat>)
    requires forall v | v in vs :: v in table
    ensures |ps| == |vs|
    ensures forall k :: 0 <= k < |vs| ==> ps[k] < |table| && table[ps[k]] == vs[k]
    ensures forall k :: 0 <= k < |vs| ==> vs[k] in table && ps[k] == FirstIndex(table, vs[k])
  {
    seq(|vs|, k requires 0 <= k < |vs| => assert vs[k] in vs; FirstIndex(table, vs[k]))
  }

  lemma {:induction false} InsertDistinctAscending(x: int, vs: seq<int>)
    requires Ascending(vs)
    ensures Ascending(InsertDistinct(x, vs))
  {
    if vs != [] && x > vs[0] {
      InsertDistinctAscending(x, vs[1..]);
      var rest := InsertDistinct(x, vs[1..]);
      forall j | 0 <= j < |rest|
        ensures vs[0] < rest[j]
      {
        assert rest[j] in rest;
      }
    }
  }

  lemma {:induction false} SortedDistinctAscending(xs: seq<int>)
    ensures Ascending(SortedDistinct(xs))
  {
    if xs != [] {
      SortedDistinctAscending(xs[..|xs|-1]);
      InsertDistinctAscending(xs[|xs|-1], SortedDistinct(xs[..|xs|-1]));
    }
  }

  // ---------------------------------------------------------------- first-seen order

  /** The distinct values in order of first appearance. */
  function FirstSeen<T(==)>(xs: seq<T>): (us: seq<T>)
    ensures forall u | u in us :: u in xs
    ensures forall u | u in xs :: u in us
    ensures NoDuplicates(us)
  {
    if xs == [] then []
    else
      var us, last := FirstSeen(xs[..|xs|-1]), xs[|xs|-1];
      if last in us then us else us + [last]
  }

  /** Earlier in first-seen order means an earlier first row. */
  lemma {:induction false} FirstSeenOrder(xs: seq<int>, i: nat, j: nat)
    requires i < j < |FirstSeen(xs)|
    ensures FirstSeen(xs)[i] in xs && FirstSeen(xs)[j] in xs
    ensures FirstIndex(xs, FirstSeen(xs)[i]) < FirstIndex(xs, FirstSeen(xs)[j])
  {
    var us := FirstSeen(xs);
    assert us[i] in us && us[j] in us;
    var n := |xs| - 1;
    var front := xs[..n];
    var us' := FirstSeen(front);
    assert us[i] == us'[i] && us'[i] in us';
    FirstIndexOfPrefix(xs, us[i]);
    if j < |us'| {
      assert us[j] == us'[j] && us'[j] in us';
      FirstSeenOrder(front, i, j);
      FirstIndexOfPrefix(xs, us[j]);
    }
  }

  lemma FirstIndexOfPrefix(xs: seq<int>, v: int)
    requires xs != [] && v in xs[..|xs|-1]
    ensures v in xs && FirstIndex(xs, v) == FirstIndex(xs[..|xs|-1], v)
  {
    var front := xs[..|xs|-1];
    var i := FirstIndex(front, v);
    assert xs[i] == v;
    assert forall j | 0 <= j < i :: xs[j] == front[j];
  }

  /** Code of every row: the rank of its user by first appearance. */
  function RowCodes(groups: seq<int>): (codes: seq<nat>) {
    Positions(FirstSeen(groups), groups)
  }

  /** First row of every distinct value (`return_index`). */
  function FirstIndices(groups: seq<int>, values: seq<int>): (first: seq<nat>)
    requires forall v | v in values :: v in groups
    ensures |first| == |values|
    ensures forall k :: 0 <= k < |values| ==> values[k] in groups && first[k] == FirstIndex(groups, values[k])
  {
    Positions(groups, values)
  }

  /** Sorting the distinct values by first row yields exactly first-seen order. */
  lemma SortByFirstRow(groups: seq<int>)
    ensures var values := SortedDistinct(groups);
            Argsort(FirstIndices(groups, values)) == Positions(values, FirstSeen(groups))
  {
    var values, us := SortedDistinct(groups), FirstSeen(groups);
    var first := FirstIndices(groups, values);
    var order, ranks := Argsort(first), Positions(values, us);
    SortedDistinctAscending(groups);
    ArgsortOrder(first);
    forall i, j | 0 <= i < j < |ranks|
      ensures Lex(first, ranks[i], ranks[j])
    {
      FirstSeenOrder(groups, i, j);
    }
    forall c: nat
      ensures c in order <==> c in ranks
    {
      if c < |values| {
        assert values[c] in values;
        var k := FirstIndex(us, values[c]);
        assert values[ranks[k]] == values[c];
        AscendingInjective(values, ranks[k], c);
      }
    }
    LexUnique(first, order, ranks);
  }

  ghost predicate DistinctBelow(idx: seq<nat>, m: nat) {
    && (forall k :: 0 <= k < |idx| ==> idx[k] < m)
    && (forall i, j :: 0 <= i < j < |idx| ==> idx[i] != idx[j])
  }

  /** `table[idx] = np.arange(len(idx))` on a table of m slots that starts out filled with `init`. */
  method Scatter(idx: seq<nat>, m: nat, init: int) returns (table: array<int>)
    requires DistinctBelow(idx, m)
    ensures fresh(table) && table.Length == m
    ensures forall k :: 0 <= k < |idx| ==> table[idx[k]] == k
    ensures forall c: nat :: c < m && c !in idx ==> table[c] == init
  {
    table := new int[m](_ => init);
    for k := 0 to |idx|
      invariant forall i :: 0 <= i < k ==> table[idx[i]] == i
      invariant forall c: nat :: c < m && c !in idx[..k] ==> table[c] == init
    {
      assert idx[..k+1] == idx[..k] + [idx[k]];
      table[idx[k]] := k;
    }
    assert idx[..|idx|] == idx;
  }

  /** The scatter in first-seen order writes every slot once, and slot c receives the code of value c. */
  lemma ScatterTargets(groups: seq<int>)
    ensures var values, us := SortedDistinct(groups), FirstSeen(groups);
            DistinctBelow(Positions(values, us), |values|) && |us| == |values|
  {
    var values, us := SortedDistinct(groups), FirstSeen(groups);
    SortByFirstRow(groups);
    ArgsortOrder(FirstIndices(groups, values));
  }

  /** Looking the sorted codes up in the scattered table gives the first-seen codes. */
  lemma GatherCodes(groups: seq<int>, ranks: seq<nat>, table: seq<int>)
    requires ranks == Positions(SortedDistinct(groups), FirstSeen(groups))
    requires |table| == |SortedDistinct(groups)|
    requires forall k :: 0 <= k < |ranks| ==> table[ranks[k]] == k
    ensures Gather(table, Positions(SortedDistinct(groups), groups)) == RowCodes(groups)
  {
    var values, us := SortedDistinct(groups), FirstSeen(groups);
    var sortedCodes, codes := Positions(values, groups), RowCodes(groups);
    forall r | 0 <= r < |groups|
      ensures table[sortedCodes[r]] == codes[r]
    {
      var m := codes[r];
      assert us[m] == groups[r];
      assert ranks[m] == sortedCodes[r] && table[ranks[m]] == m;
    }
  }

  /** unique, argsort of the first rows, scatter, gather: the source's way to the first-seen codes. */
  method FirstSeenCodes(groups: seq<int>) returns (codes: seq<nat>, count: nat)
    ensures codes == RowCodes(groups) && count == |FirstSeen(groups)|
  {
    var values := SortedDistinct(groups);
    var bySeen := Argsort(FirstIndices(groups, values));
    SortByFirstRow(groups);
    ScatterTargets(groups);
    var scattered := Scatter(bySeen, |values|, 0);
    var table := scattered[..];
    GatherCodes(groups, bySeen, table);
    codes, count := Gather(table, Positions(values, groups)), |bySeen|;
  }

  // ---------------------------------------------------------------- stable grouping

  lemma {:induction false} CodesAreMembers(groups: seq<int>, g: nat)
    requires g < |FirstSeen(groups)|
    ensures Members(RowCodes(groups), g) == Members(groups, FirstSeen(groups)[g])
  {
    var codes, us := RowCodes(groups), FirstSeen(groups);
    forall i: nat | i < |groups|
      ensures codes[i] == g <==> groups[i] == us[g]
    {
      assert us[codes[i]] == groups[i];
    }
    MembersAgree(codes, groups, g, us[g]);
  }

  lemma {:induction false} MembersAgree(keys: seq<int>, keys': seq<int>, c: int, c': int)
    requires |keys| == |keys'|
    requires forall i :: 0 <= i < |keys| ==> (keys[i] == c <==> keys'[i] == c')
    ensures Members(keys, c) == Members(keys', c')
  {
    if keys != [] {
      MembersAgree(keys[..|keys|-1], keys'[..|keys|-1], c, c');
    }
  }

  /** A stable argsort by code lays the rows out user by user. */
  lemma ArgsortOfCodes(codes: seq<nat>, us: seq<int>, bs: seq<seq<nat>>)
    requires forall i | 0 <= i < |codes| :: codes[i] < |bs|
    requires forall g | 0 <= g < |bs| :: bs[g] == Members(codes, g)
    ensures Argsort(codes) == Flatten(bs)
  {
    ArgsortOrder(codes);
    forall g | 0 <= g < |bs|
      ensures Ascending(bs[g]) && forall i | i in bs[g] :: Key(codes, i) == g
    {
      MembersAscending(codes, g);
    }
    BlocksLexSorted(codes, Range(|bs|), bs);
    forall i: nat
      ensures i in Argsort(codes) <==> i in Flatten(bs)
    {
      FlattenMembers(bs, i);
      if i < |codes| {
        assert i in bs[codes[i]];
      }
    }
    LexUnique(codes, Argsort(codes), Flatten(bs));
  }

  /** Users by first appearance, each with its rows in their original order. */
  function UserBlocks(groups: seq<int>): seq<seq<nat>> { MemberBlocks(groups, FirstSeen(groups)) }

  datatype Grouping = Grouping(permutation: seq<nat>, sizes: seq<nat>)

  /** Row order and query sizes handed to LambdaRank; an empty training set is refused. */
  method StableUserGrouping(groups: seq<int>) returns (r: Result<Grouping, string>)
    ensures r == if groups == [] then Failure("training user groups must be a non-empty numeric vector")
                 else Success(Grouping(Flatten(UserBlocks(groups)), Lengths(UserBlocks(groups))))
  {
    if groups == [] {
      return Failure("training user groups must be a non-empty numeric vector");
    }
    var codes, count := FirstSeenCodes(groups);
    GroupingLayout(groups);
    return Success(Grouping(Argsort(codes), Bincount(codes, count)));
  }

  lemma GroupingLayout(groups: seq<int>)
    ensures Argsort(RowCodes(groups)) == Flatten(UserBlocks(groups))
    ensures Bincount(RowCodes(groups), |FirstSeen(groups)|) == Lengths(UserBlocks(groups))
  {
    var codes, bs := RowCodes(groups), UserBlocks(groups);
    forall g | 0 <= g < |bs|
      ensures bs[g] == Members(codes, g) && CountCode(codes, g) == |bs[g]|
    {
      CodesAreMembers(groups, g);
      MembersCount(codes, g);
    }
    ArgsortOfCodes(codes, FirstSeen(groups), bs);
  }

  /** The row order is a permutation of all rows. */
  lemma GroupingIsPermutation(groups: seq<int>)
    ensures var p := Flatten(UserBlocks(groups));
            multiset(p) == multiset(Range(|groups|)) && |p| == |groups|
  {
    GroupingLayout(groups);
    ArgsortOrder(RowCodes(groups));
  }

  /** Segment g of the announced sizes holds exactly the rows of the g-th user to appear, in row order. */
  lemma GroupingSegments(groups: seq<int>, g: nat)
    requires g < |FirstSeen(groups)|
    ensures var order, ends := Flatten(UserBlocks(groups)), Cumsum(Lengths(UserBlocks(groups)));
            var start := if g == 0 then 0 else ends[g-1];
            && start + |Members(groups, FirstSeen(groups)[g])| == ends[g] <= |order|
            && order[start..ends[g]] == Members(groups, FirstSeen(groups)[g])
  {
    var bs := UserBlocks(groups);
    hide UserBlocks, Flatten, Cumsum;
    UserBlockAt(groups, g);
    SegmentStarts(bs, g);
    StartStep(bs, g);
    StartMonotone(bs, g + 1, |bs|);
    SliceOfFlatten(bs, g);
  }

  lemma UserBlockAt(groups: seq<int>, g: nat)
    requires g < |FirstSeen(groups)|
    ensures g < |UserBlocks(groups)| && UserBlocks(groups)[g] == Members(groups, FirstSeen(groups)[g])
  {
  }

  /** The cumulative sizes are where the blocks end, and so where the next ones begin. */
  lemma SegmentStarts<T>(bs: seq<seq<T>>, g: nat)
    requires g < |bs|
    ensures Cumsum(Lengths(bs))[g] == Start(bs, g + 1)
    ensures (if g == 0 then 0 else Cumsum(Lengths(bs))[g-1]) == Start(bs, g)
  {
    CumsumIsStart(bs, g);
    if g > 0 {
      CumsumIsStart(bs, g - 1);
    }
  }

  /** No query is empty, and the sizes cover all rows: the source's closing check never fires. */
  lemma GroupingSizes(groups: seq<int>)
    ensures forall g :: 0 <= g < |UserBlocks(groups)| ==> Lengths(UserBlocks(groups))[g] > 0
    ensures groups != [] ==> UserBlocks(groups) != []
    ensures groups != [] ==> Cumsum(Lengths(UserBlocks(groups)))[|UserBlocks(groups)| - 1] == |groups|
  {
    hide UserBlocks, FirstSeen, Flatten, Cumsum;
    var bs := UserBlocks(groups);
    forall g | 0 <= g < |bs|
      ensures |bs[g]| > 0
    {
      UserBlockNotEmpty(groups, g);
    }
    GroupingIsPermutation(groups);
    if groups != [] {
      SomeUserBlock(groups);
      CumsumIsStart(bs, |bs| - 1);
      assert bs[..|bs|] == bs;
    }
  }

  lemma UserBlockNotEmpty(groups: seq<int>, g: nat)
    requires g < |UserBlocks(groups)|
    ensures |UserBlocks(groups)[g]| > 0
  {
    var us := FirstSeen(groups);
    assert us[g] in us;
    assert FirstIndex(groups, us[g]) in UserBlocks(groups)[g];
  }

  lemma SomeUserBlock(groups: seq<int>)
    requires groups != []
    ensures UserBlocks(groups) != []
  {
    assert groups[0] in FirstSeen(groups);
  }
}
