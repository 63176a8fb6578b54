/** `encode` of kuairand-starter-kit/data.py and `StarterEncoding` of src/kuairand_agent/baselines/encoding.py:
    the row-major organizer loop and the column-wise encoder. */
module Encoding {
  import opened Results
  import opened Sums
  import opened Numpy
  import opened Auc
  import opened Grouping

  const FIELD_COUNT: nat := 5

  /** A raw categorical value: text, or the decimal text of a duration bucket. */
  datatype Value = Text(text: string) | Bucket(index: nat)

  datatype LogRow = LogRow(user: string, video: string, author: string, tab: string, duration: real, rel: Label)

  /** `np.searchsorted(edges, d)`: how many edges lie strictly below d, up to the first that does not. */
  function SearchLeft(edges: seq<real>, d: real): (g: nat)
    ensures g <= |edges|
    ensures forall j :: 0 <= j < g ==> edges[j] < d
    ensures g < |edges| ==> d <= edges[g]
  {
    if edges == [] || d <= edges[0] then 0 else 1 + SearchLeft(edges[1..], d)
  }

  /** The five raw values of a row. */
  function Raw(edges: seq<real>, x: LogRow): (vs: seq<Value>)
    ensures |vs| == FIELD_COUNT
  {
    [Text(x.user), Text(x.video), Text(x.author), Text(x.tab), Bucket(SearchLeft(edges, x.duration))]
  }

  /** One raw column. */
  function Column(edges: seq<real>, rows: seq<LogRow>, i: nat): (vs: seq<Value>)
    requires i < FIELD_COUNT
    ensures |vs| == |rows|
    ensures forall n :: 0 <= n < |rows| ==> vs[n] == Raw(edges, rows[n])[i]
  {
    seq(|rows|, n requires 0 <= n < |rows| => Raw(edges, rows[n])[i])
  }

  /** Training values of one field in first-seen order. */
  function Vocab(edges: seq<real>, train: seq<LogRow>, i: nat): seq<Value>
    requires i < FIELD_COUNT
  {
    FirstSeen(Column(edges, train, i))
  }

  /** Local id: position in the vocabulary, or the slot right after it. */
  function LocalId(vocab: seq<Value>, v: Value): (id: nat)
    ensures id <= |vocab|
    ensures id == |vocab| <==> v !in vocab
    ensures id < |vocab| ==> vocab[id] == v
  {
    if v in vocab then FirstIndex(vocab, v) else |vocab|
  }

  function Dim(edges: seq<real>, train: seq<LogRow>, i: nat): (d: nat)
    requires i < FIELD_COUNT
    ensures d >= 1
  {
    |Vocab(edges, train, i)| + 1
  }

  /** Sum of the dimensions of the earlier fields. */
  function Offset(edges: seq<real>, train: seq<LogRow>, i: nat): nat
    requires i <= FIELD_COUNT
  {
    if i == 0 then 0 else Offset(edges, train, i - 1) + Dim(edges, train, i - 1)
  }

  function TotalDim(edges: seq<real>, train: seq<LogRow>): nat { Offset(edges, train, FIELD_COUNT) }

  /** The global id that both encoders must write for field i of a row. */
  function Cell(edges: seq<real>, train: seq<LogRow>, x: LogRow, i: nat): nat
    requires i < FIELD_COUNT
  {
    Offset(edges, train, i) + LocalId(Vocab(edges, train, i), Raw(edges, x)[i])
  }

  function EncodedRow(edges: seq<real>, train: seq<LogRow>, x: LogRow): (ids: seq<nat>)
    ensures |ids| == FIELD_COUNT
    ensures forall i :: 0 <= i < FIELD_COUNT ==> ids[i] == Cell(edges, train, x, i)
  {
    seq(FIELD_COUNT, i requires 0 <= i < FIELD_COUNT => Cell(edges, train, x, i))
  }

  // ---------------------------------------------------------------- the id space

  lemma {:induction false} OffsetsGrow(edges: seq<real>, train: seq<LogRow>, i: nat, j: nat)
    requires i < j <= FIELD_COUNT
    ensures Offset(edges, train, i) + Dim(edges, train, i) <= Offset(edges, train, j)
  {
    if i < j - 1 {
      OffsetsGrow(edges, train, i, j - 1);
    }
  }

  /** Every id lies in its own field's block, and so below the total dimension. */
  lemma IdInBlock(edges: seq<real>, train: seq<LogRow>, x: LogRow, i: nat)
    requires i < FIELD_COUNT
    ensures Offset(edges, train, i) <= Cell(edges, train, x, i) < Offset(edges, train, i + 1) <= TotalDim(edges, train)
  {
    if i + 1 < FIELD_COUNT {
      OffsetsGrow(edges, train, i + 1, FIELD_COUNT);
    }
  }

  /** The ids of one row are pairwise distinct, whatever the row: what the gradient of the model relies on. */
  lemma RowIdsDistinct(edges: seq<real>, train: seq<LogRow>, x: LogRow)
    ensures NoDuplicates(EncodedRow(edges, train, x))
    ensures forall i :: 0 <= i < FIELD_COUNT ==> EncodedRow(edges, train, x)[i] < TotalDim(edges, train)
  {
    forall i, j | 0 <= i < j < FIELD_COUNT
      ensures Cell(edges, train, x, i) != Cell(edges, train, x, j)
    {
      OffsetsGrow(edges, train, i, j);
    }
    forall i | 0 <= i < FIELD_COUNT
      ensures Cell(edges, train, x, i) < TotalDim(edges, train)
    {
      IdInBlock(edges, train, x, i);
    }
  }

  /** The blocks fill the whole id range without overlap. */
  lemma {:induction false} BlocksCover(edges: seq<real>, train: seq<LogRow>, m: nat, id: nat) returns (i: nat)
    requires m <= FIELD_COUNT && id < Offset(edges, train, m)
    ensures i < m && Offset(edges, train, i) <= id < Offset(edges, train, i + 1)
  {
    if Offset(edges, train, m - 1) <= id {
      i := m - 1;
    } else {
      i := BlocksCover(edges, train, m - 1, id);
    }
  }

  lemma BlocksDisjoint(edges: seq<real>, train: seq<LogRow>, i: nat, j: nat, id: nat)
    requires i < FIELD_COUNT && j < FIELD_COUNT
    requires Offset(edges, train, i) <= id < Offset(edges, train, i + 1)
    requires Offset(edges, train, j) <= id < Offset(edges, train, j + 1)
    ensures i == j
  {
    if i < j {
      OffsetsGrow(edges, train, i, j);
    } else if j < i {
      OffsetsGrow(edges, train, j, i);
    }
  }

  /** Reading an id of field i back: the value, or nothing for the unknown slot. */
  function Decode(edges: seq<real>, train: seq<LogRow>, i: nat, id: nat): Option<Value>
    requires i < FIELD_COUNT
  {
    var vocab, o := Vocab(edges, train, i), Offset(edges, train, i);
    if o <= id < o + |vocab| then Some(vocab[id - o]) else None
  }

  /** Values seen in training decode back; all others share the block's last slot. */
  lemma DecodeRoundTrip(edges: seq<real>, train: seq<LogRow>, x: LogRow, i: nat)
    requires i < FIELD_COUNT
    ensures var v, id := Raw(edges, x)[i], Cell(edges, train, x, i);
            && (v in Column(edges, train, i) ==> Decode(edges, train, i, id) == Some(v))
            && (v !in Column(edges, train, i) <==> id == Offset(edges, train, i + 1) - 1)
            && (v !in Column(edges, train, i) ==> Decode(edges, train, i, id) == None)
  {
    hide Column, Raw, Vocab, Offset;
    var vocab, v := Vocab(edges, train, i), Raw(edges, x)[i];
    VocabLists(edges, train, i, v);
    OffsetStep(edges, train, i);
  }

  lemma VocabLists(edges: seq<real>, train: seq<LogRow>, i: nat, v: Value)
    requires i < FIELD_COUNT
    ensures v in Vocab(edges, train, i) <==> v in Column(edges, train, i)
  {
  }

  lemma OffsetStep(edges: seq<real>, train: seq<LogRow>, i: nat)
    requires i < FIELD_COUNT
    ensures Offset(edges, train, i + 1) == Offset(edges, train, i) + |Vocab(edges, train, i)| + 1
  {
  }

  // ---------------------------------------------------------------- what a cell shows of its row

  predicate NonDecreasing(edges: seq<real>) { forall j | 0 < j < |edges| :: edges[j-1] <= edges[j] }

  lemma {:induction false} EdgesAscend(edges: seq<real>, i: nat, j: nat)
    requires NonDecreasing(edges) && i <= j < |edges|
    ensures edges[i] <= edges[j]
  {
    if i < j {
      EdgesAscend(edges, i, j - 1);
    }
  }

  /** Two durations share a bucket exactly if no edge separates them. */
  lemma SameBucket(edges: seq<real>, d: real, d': real)
    requires NonDecreasing(edges)
    ensures SearchLeft(edges, d) == SearchLeft(edges, d') <==> forall e | e in edges :: e < d <==> e < d'
  {
    var g, g' := SearchLeft(edges, d), SearchLeft(edges, d');
    if g == g' {
      forall j | 0 <= j < |edges|
        ensures edges[j] < d <==> edges[j] < d'
      {
        if j >= g {
          EdgesAscend(edges, g, j);
        }
      }
    } else {
      var j := if g < g' then g else g';
      assert edges[j] in edges;
    }
  }

  lemma KnownValue(edges: seq<real>, train: seq<LogRow>, x: LogRow, i: nat)
    requires x in train && i < FIELD_COUNT
    ensures Raw(edges, x)[i] in Vocab(edges, train, i)
  {
    var n :| 0 <= n < |train| && train[n] == x;
    assert Column(edges, train, i)[n] == Raw(edges, x)[i];
  }

  /** Two training rows have the same id in a column exactly if they have the same value there. */
  lemma SameCell(edges: seq<real>, train: seq<LogRow>, x: LogRow, y: LogRow, i: nat)
    requires x in train && y in train && i < FIELD_COUNT
    ensures Cell(edges, train, x, i) == Cell(edges, train, y, i) <==> Raw(edges, x)[i] == Raw(edges, y)[i]
  {
    KnownValue(edges, train, x, i);
    KnownValue(edges, train, y, i);
  }

  /** The columns are user, video, author, tab and duration bucket. */
  lemma CellsShowFields(edges: seq<real>, train: seq<LogRow>, x: LogRow, y: LogRow)
    requires x in train && y in train
    ensures Cell(edges, train, x, 0) == Cell(edges, train, y, 0) <==> x.user == y.user
    ensures Cell(edges, train, x, 1) == Cell(edges, train, y, 1) <==> x.video == y.video
    ensures Cell(edges, train, x, 2) == Cell(edges, train, y, 2) <==> x.author == y.author
    ensures Cell(edges, train, x, 3) == Cell(edges, train, y, 3) <==> x.tab == y.tab
    ensures NonDecreasing(edges) ==>
              (Cell(edges, train, x, 4) == Cell(edges, train, y, 4)
               <==> forall e | e in edges :: e < x.duration <==> e < y.duration)
  {
    hide Cell;
    forall i: nat | i < FIELD_COUNT
      ensures Cell(edges, train, x, i) == Cell(edges, train, y, i) <==> Raw(edges, x)[i] == Raw(edges, y)[i]
    {
      SameCell(edges, train, x, y, i);
    }
    if NonDecreasing(edges) {
      SameBucket(edges, x.duration, y.duration);
    }
  }

  /** A text that training does not show has a larger id than all that it shows. */
  lemma UnseenIsLast(edges: seq<real>, train: seq<LogRow>, x: LogRow, y: LogRow)
    requires y in train
    ensures (forall t | t in train :: t.user != x.user) ==> Cell(edges, train, y, 0) < Cell(edges, train, x, 0)
    ensures (forall t | t in train :: t.video != x.video) ==> Cell(edges, train, y, 1) < Cell(edges, train, x, 1)
    ensures (forall t | t in train :: t.author != x.author) ==> Cell(edges, train, y, 2) < Cell(edges, train, x, 2)
    ensures (forall t | t in train :: t.tab != x.tab) ==> Cell(edges, train, y, 3) < Cell(edges, train, x, 3)
  {
    hide Cell;
    forall i: nat | i < FIELD_COUNT
      ensures Raw(edges, x)[i] !in Column(edges, train, i) ==> Cell(edges, train, y, i) < Cell(edges, train, x, i)
    {
      UnseenCell(edges, train, x, y, i);
    }
    UnseenTexts(edges, train, x);
  }

  lemma UnseenCell(edges: seq<real>, train: seq<LogRow>, x: LogRow, y: LogRow, i: nat)
    requires y in train && i < FIELD_COUNT
    ensures Raw(edges, x)[i] !in Column(edges, train, i) ==> Cell(edges, train, y, i) < Cell(edges, train, x, i)
  {
    KnownValue(edges, train, y, i);
  }

  lemma UnseenTexts(edges: seq<real>, train: seq<LogRow>, x: LogRow)
    ensures (forall t | t in train :: t.user != x.user) ==> Raw(edges, x)[0] !in Column(edges, train, 0)
    ensures (forall t | t in train :: t.video != x.video) ==> Raw(edges, x)[1] !in Column(edges, train, 1)
    ensures (forall t | t in train :: t.author != x.author) ==> Raw(edges, x)[2] !in Column(edges, train, 2)
    ensures (forall t | t in train :: t.tab != x.tab) ==> Raw(edges, x)[3] !in Column(edges, train, 3)
  {
  }

  /** The matrix holds the ids of the rows. */
  ghost predicate Encodes(X: array2<nat>, edges: seq<real>, train: seq<LogRow>, rows: seq<LogRow>)
    reads X
  {
    && X.Length0 == |rows| && X.Length1 == FIELD_COUNT
    && forall n, i | 0 <= n < |rows| && 0 <= i < FIELD_COUNT :: X[n, i] == Cell(edges, train, rows[n], i)
  }

  /** In such a matrix the columns show user, video, author, tab and duration bucket of every training row, and a text
      that training does not show has a larger id than all that it shows. */
  lemma MatrixShowsFields(X: array2<nat>, edges: seq<real>, train: seq<LogRow>, rows: seq<LogRow>, m: nat, n: nat)
    requires Encodes(X, edges, train, rows) && m < |rows| && n < |rows| && rows[n] in train
    ensures rows[m] in train ==>
              && (X[m, 0] == X[n, 0] <==> rows[m].user == rows[n].user)
              && (X[m, 1] == X[n, 1] <==> rows[m].video == rows[n].video)
              && (X[m, 2] == X[n, 2] <==> rows[m].author == rows[n].author)
              && (X[m, 3] == X[n, 3] <==> rows[m].tab == rows[n].tab)
              && ((forall j | 0 < j < |edges| :: edges[j-1] <= edges[j]) ==>
                    (X[m, 4] == X[n, 4] <==> forall e | e in edges :: e < rows[m].duration <==> e < rows[n].duration))
    ensures (forall t | t in train :: t.user != rows[m].user) ==> X[n, 0] < X[m, 0]
    ensures (forall t | t in train :: t.video != rows[m].video) ==> X[n, 1] < X[m, 1]
    ensures (forall t | t in train :: t.author != rows[m].author) ==> X[n, 2] < X[m, 2]
    ensures (forall t | t in train :: t.tab != rows[m].tab) ==> X[n, 3] < X[m, 3]
  {
    hide Cell;
    if rows[m] in train {
      CellsShowFields(edges, train, rows[m], rows[n]);
    }
    UnseenIsLast(edges, train, rows[m], rows[n]);
  }

  // ---------------------------------------------------------------- dictionaries

  /** `{value: index for index, value in enumerate(vocab)}` */
  function IndexMap(us: seq<Value>): map<Value, nat> {
    if us == [] then map[] else IndexMap(us[..|us|-1])[us[|us|-1] := |us| - 1]
  }

  lemma {:induction false} IndexMapLookup(us: seq<Value>, v: Value)
    requires NoDuplicates(us)
    ensures v in IndexMap(us) <==> v in us
    ensures v in us ==> IndexMap(us)[v] == LocalId(us, v)
  {
    if us != [] {
      var n := |us| - 1;
      IndexMapLookup(us[..n], v);
      assert us == us[..n] + [us[n]];
      if v in us[..n] {
        assert us[FirstIndex(us[..n], v)] == v;
        assert us[FirstIndex(us, v)] == v;
      }
    }
  }

  lemma {:induction false} IndexMapSize(us: seq<Value>)
    requires NoDuplicates(us)
    ensures |IndexMap(us)| == |us|
  {
    if us != [] {
      var n := |us| - 1;
      IndexMapSize(us[..n]);
      IndexMapLookup(us[..n], us[n]);
      assert us[n] !in us[..n];
    }
  }

  lemma SeenStep(vs: seq<Value>, v: Value)
    ensures FirstSeen(vs + [v]) == if v in FirstSeen(vs) then FirstSeen(vs) else FirstSeen(vs) + [v]
  {
    assert (vs + [v])[..|vs|] == vs;
  }

  /** Growing a dictionary by one training value keeps it the index of the first-seen list. */
  lemma IndexMapStep(vs: seq<Value>, v: Value)
    ensures var m := IndexMap(FirstSeen(vs));
            && |m| == |FirstSeen(vs)|
            && IndexMap(FirstSeen(vs + [v])) == if v in m then m else m[v := |m|]
  {
    var us := FirstSeen(vs);
    IndexMapSize(us);
    IndexMapLookup(us, v);
    SeenStep(vs, v);
    hide FirstSeen, LocalId;
    assert (us + [v])[..|us|] == us;
  }

  // ---------------------------------------------------------------- the organizer's row-major loop

  /** dictionary i after the first n training rows */
  ghost function VocabMap(edges: seq<real>, train: seq<LogRow>, n: nat, i: nat): map<Value, nat>
    requires n <= |train| && i < FIELD_COUNT
  {
    IndexMap(Vocab(edges, train[..n], i))
  }

  lemma VocabMapStep(edges: seq<real>, train: seq<LogRow>, n: nat, i: nat)
    requires n < |train| && i < FIELD_COUNT
    ensures var m, v := VocabMap(edges, train, n, i), Raw(edges, train[n])[i];
            VocabMap(edges, train, n + 1, i) == if v in m then m else m[v := |m|]
  {
    var col := Column(edges, train[..n], i);
    assert Column(edges, train[..n+1], i) == col + [Raw(edges, train[n])[i]];
    IndexMapStep(col, Raw(edges, train[n])[i]);
  }

  /** `vocabs`: five dictionaries grown row by row, field by field. */
  method BuildVocabs(edges: seq<real>, train: seq<LogRow>) returns (vocabs: seq<map<Value, nat>>)
    ensures |vocabs| == FIELD_COUNT
    ensures forall i | 0 <= i < FIELD_COUNT :: vocabs[i] == IndexMap(Vocab(edges, train, i))
  {
    vocabs := [map[], map[], map[], map[], map[]];
    for n := 0 to |train|
      invariant |vocabs| == FIELD_COUNT
      invariant forall i | 0 <= i < FIELD_COUNT :: vocabs[i] == VocabMap(edges, train, n, i)
    {
      var raw := Raw(edges, train[n]);
      for i := 0 to FIELD_COUNT
        invariant |vocabs| == FIELD_COUNT
        invariant forall j | 0 <= j < i :: vocabs[j] == VocabMap(edges, train, n + 1, j)
        invariant forall j | i <= j < FIELD_COUNT :: vocabs[j] == VocabMap(edges, train, n, j)
      {
        VocabMapStep(edges, train, n, i);
        var v := raw[i];
        if v !in vocabs[i] {
          var grown: map<Value, nat> := vocabs[i];
          grown := grown[v := |grown|];
          vocabs := vocabs[i := grown];
        }
      }
    }
    assert train[..|train|] == train;
  }

  /** `np.cumsum([0] + field_dims[:-1])` */
  function OffsetsFrom(dims: seq<nat>): (os: seq<nat>)
    ensures |os| == |dims|
  {
    if dims == [] then [] else Cumsum([0] + dims[..|dims|-1])
  }

  /** The field dimensions as both encoders list them. */
  function Dims(edges: seq<real>, train: seq<LogRow>): (ds: seq<nat>)
    ensures |ds| == FIELD_COUNT
    ensures forall i :: 0 <= i < FIELD_COUNT ==> ds[i] == Dim(edges, train, i)
  {
    seq(FIELD_COUNT, i requires 0 <= i < FIELD_COUNT => Dim(edges, train, i))
  }

  function SumDims(ds: seq<nat>): nat {
    if ds == [] then 0 else SumDims(ds[..|ds|-1]) + ds[|ds|-1]
  }

  lemma {:induction false} SumDimsIsOffset(edges: seq<real>, train: seq<LogRow>, m: nat)
    requires m <= FIELD_COUNT
    ensures SumDims(Dims(edges, train)[..m]) == Offset(edges, train, m)
  {
    if m > 0 {
      assert Dims(edges, train)[..m][..m-1] == Dims(edges, train)[..m-1];
      SumDimsIsOffset(edges, train, m - 1);
    }
  }

  /** Cumulative sums are sums of prefixes. */
  lemma {:induction false} CumsumIsPrefixSum(xs: seq<nat>, i: nat)
    requires i < |xs|
    ensures Cumsum(xs)[i] == SumDims(xs[..i+1])
  {
    var n := |xs| - 1;
    if i < n {
      assert xs[..n][..i+1] == xs[..i+1];
      CumsumIsPrefixSum(xs[..n], i);
    } else {
      assert xs[..i+1] == xs;
      if n > 0 {
        CumsumIsPrefixSum(xs[..n], n - 1);
        assert xs[..n][..n] == xs[..n];
      }
    }
  }

  lemma {:induction false} ZeroFirst(xs: seq<nat>)
    ensures SumDims([0] + xs) == SumDims(xs)
  {
    if xs == [] {
      assert [0][..0] == [];
    } else {
      assert ([0] + xs)[..|xs|] == [0] + xs[..|xs|-1];
      ZeroFirst(xs[..|xs|-1]);
    }
  }

  lemma OffsetsArePrefixSums(ds: seq<nat>, i: nat)
    requires i < |ds|
    ensures OffsetsFrom(ds)[i] == SumDims(ds[..i])
  {
    CumsumIsPrefixSum([0] + ds[..|ds|-1], i);
    assert ([0] + ds[..|ds|-1])[..i+1] == [0] + ds[..i];
    ZeroFirst(ds[..i]);
  }

  lemma OffsetsAgree(edges: seq<real>, train: seq<LogRow>, i: nat)
    requires i < FIELD_COUNT
    ensures OffsetsFrom(Dims(edges, train))[i] == Offset(edges, train, i)
  {
    OffsetsArePrefixSums(Dims(edges, train), i);
    SumDimsIsOffset(edges, train, i);
  }

  /** What the dictionary lookup with its default yields. */
  lemma LookupIsLocalId(edges: seq<real>, train: seq<LogRow>, i: nat, v: Value)
    requires i < FIELD_COUNT
    ensures var m, vocab := IndexMap(Vocab(edges, train, i)), Vocab(edges, train, i);
            && |m| == |vocab|
            && (if v in m then m[v] else |m|) == LocalId(vocab, v)
  {
    IndexMapLookup(Vocab(edges, train, i), v);
    IndexMapSize(Vocab(edges, train, i));
  }

  /** What one lookup writes: `vocabs[i].get(raw, unk) + offsets[i]`. */
  function Lookup(m: map<Value, nat>, unknown: nat, offset: nat, v: Value): nat {
    (if v in m then m[v] else unknown) + offset
  }

  lemma LookupIsCell(edges: seq<real>, train: seq<LogRow>, x: LogRow, i: nat)
    requires i < FIELD_COUNT
    ensures var m := IndexMap(Vocab(edges, train, i));
            Lookup(m, |m|, Offset(edges, train, i), Raw(edges, x)[i]) == Cell(edges, train, x, i)
  {
    LookupIsLocalId(edges, train, i, Raw(edges, x)[i]);
  }

  /** The dictionaries and offsets that training produced. */
  ghost predicate Trained(edges: seq<real>, train: seq<LogRow>, vocabs: seq<map<Value, nat>>, offsets: seq<nat>) {
    && |vocabs| == |offsets| == FIELD_COUNT
    && (forall i | 0 <= i < FIELD_COUNT :: vocabs[i] == IndexMap(Vocab(edges, train, i)))
    && (forall i | 0 <= i < FIELD_COUNT :: offsets[i] == Offset(edges, train, i))
  }

  method LookUp(edges: seq<real>, ghost train: seq<LogRow>, vocabs: seq<map<Value, nat>>, offsets: seq<nat>,
                ghost x: LogRow, raw: seq<Value>, i: nat) returns (id: nat)
    requires Trained(edges, train, vocabs, offsets) && raw == Raw(edges, x) && i < FIELD_COUNT
    ensures id == Cell(edges, train, x, i)
  {
    LookupIsCell(edges, train, x, i);
    id := Lookup(vocabs[i], |vocabs[i]|, offsets[i], raw[i]);
  }

  /** Row n of the matrix: the inner loop over the five fields. */
  method FillRow(edges: seq<real>, ghost train: seq<LogRow>, vocabs: seq<map<Value, nat>>, offsets: seq<nat>,
                 X: array2<nat>, n: nat, x: LogRow)
    requires Trained(edges, train, vocabs, offsets)
    requires n < X.Length0 && X.Length1 == FIELD_COUNT
    modifies X
    ensures forall i | 0 <= i < FIELD_COUNT :: X[n, i] == Cell(edges, train, x, i)
    ensures forall m, i | 0 <= m < X.Length0 && 0 <= i < FIELD_COUNT && m != n :: X[m, i] == old(X[m, i])
  {
    hide Raw, Trained, Cell;
    var raw := Raw(edges, x);
    for i := 0 to FIELD_COUNT
      invariant forall m, j | 0 <= m < X.Length0 && 0 <= j < FIELD_COUNT && m != n :: X[m, j] == old(X[m, j])
      invariant forall j | 0 <= j < i :: X[n, j] == Cell(edges, train, x, j)
    {
      var id := LookUp(edges, train, vocabs, offsets, x, raw, i);
      X[n, i] := id;
    }
  }

  /** One split of the organizer's `encode`: the id matrix filled row by row, the labels and the users. */
  method EncodeSplit(edges: seq<real>, ghost train: seq<LogRow>, vocabs: seq<map<Value, nat>>, offsets: seq<nat>,
                     rows: seq<LogRow>)
    returns (X: array2<nat>, y: seq<Label>, users: seq<string>)
    requires Trained(edges, train, vocabs, offsets)
    ensures fresh(X) && X.Length0 == |rows| && X.Length1 == FIELD_COUNT
    ensures forall n, i | 0 <= n < |rows| && 0 <= i < FIELD_COUNT :: X[n, i] == Cell(edges, train, rows[n], i)
    ensures |y| == |users| == |rows|
    ensures forall n | 0 <= n < |rows| :: y[n] == rows[n].rel && users[n] == rows[n].user
  {
    X := new nat[|rows|, FIELD_COUNT]((_, _) => 0);
    y, users := [], [];
    for n := 0 to |rows|
      invariant |y| == |users| == n
      invariant forall m | 0 <= m < n :: y[m] == rows[m].rel && users[m] == rows[m].user
      invariant forall m, i | 0 <= m < n && 0 <= i < FIELD_COUNT :: X[m, i] == Cell(edges, train, rows[m], i)
    {
      FillRow(edges, train, vocabs, offsets, X, n, rows[n]);
      y, users := y + [rows[n].rel], users + [rows[n].user];
    }
  }

  /** The organizer's `encode`, one split at a time; returns the matrix and the total dimension. */
  method OrganizerEncode(edges: seq<real>, train: seq<LogRow>, rows: seq<LogRow>)
    returns (X: array2<nat>, y: seq<Label>, users: seq<string>, dim: nat)
    ensures fresh(X) && Encodes(X, edges, train, rows)
    ensures |y| == |users| == |rows|
    ensures forall n | 0 <= n < |rows| :: y[n] == rows[n].rel && users[n] == rows[n].user
    ensures dim == TotalDim(edges, train)
  {
    var vocabs := BuildVocabs(edges, train);
    forall i | 0 <= i < FIELD_COUNT
      ensures |vocabs[i]| + 1 == Dims(edges, train)[i]
      ensures OffsetsFrom(Dims(edges, train))[i] == Offset(edges, train, i)
    {
      IndexMapSize(Vocab(edges, train, i));
      OffsetsAgree(edges, train, i);
    }
    var dims := seq(FIELD_COUNT, i requires 0 <= i < FIELD_COUNT => |vocabs[i]| + 1);
    assert dims == Dims(edges, train) && dims[..FIELD_COUNT] == dims;
    SumDimsIsOffset(edges, train, FIELD_COUNT);
    X, y, users := EncodeSplit(edges, train, vocabs, OffsetsFrom(dims), rows);
    dim := SumDims(dims);
  }

  // ---------------------------------------------------------------- the column-wise encoder

  datatype StarterEncoding = StarterEncoding(edges: seq<real>, vocabs: seq<seq<Value>>) {
    function FieldDims(): seq<nat> { seq(|vocabs|, i requires 0 <= i < |vocabs| => |vocabs[i]| + 1) }

    function Offsets(): seq<nat> { OffsetsFrom(FieldDims()) }

    function Total(): nat { SumDims(FieldDims()) }
  }

  predicate CanonicalText(s: string) { s != "" && '\0' !in s }

  predicate CanonicalRow(x: LogRow) {
    CanonicalText(x.user) && CanonicalText(x.video) && CanonicalText(x.author) && CanonicalText(x.tab)
  }

  predicate CanonicalRows(train: seq<LogRow>) { forall n: nat | n < |train| :: CanonicalRow(train[n]) }

  predicate CanonicalValue(v: Value) { v.Text? ==> CanonicalText(v.text) }

  predicate CanonicalAt(edges: seq<real>, x: LogRow, i: nat)
    requires i < FIELD_COUNT
  {
    CanonicalValue(Raw(edges, x)[i])
  }

  /** Raw value i of a row is canonical for every i exactly when the row's four texts are. */
  lemma CanonicalFields(edges: seq<real>, x: LogRow)
    ensures CanonicalRow(x) <==> forall i: nat | i < FIELD_COUNT :: CanonicalAt(edges, x, i)
  {
    if forall i: nat | i < FIELD_COUNT :: CanonicalAt(edges, x, i) {
      assert CanonicalAt(edges, x, 0) && CanonicalAt(edges, x, 1);
      assert CanonicalAt(edges, x, 2) && CanonicalAt(edges, x, 3);
    }
  }

  predicate CanonicalVocab(us: seq<Value>) { forall v | v in us :: CanonicalValue(v) }

  predicate CanonicalColumn(edges: seq<real>, train: seq<LogRow>, i: nat)
    requires i < FIELD_COUNT
  {
    forall n: nat | n < |train| :: CanonicalAt(edges, train[n], i)
  }

  lemma VocabReveals(edges: seq<real>, train: seq<LogRow>, i: nat)
    requires i < FIELD_COUNT
    ensures CanonicalVocab(Vocab(edges, train, i)) <==> CanonicalColumn(edges, train, i)
  {
    var col := Column(edges, train, i);
    forall n | 0 <= n < |train|
      ensures Raw(edges, train[n])[i] in Vocab(edges, train, i)
    {
      assert col[n] in col;
    }
    forall v | v in Vocab(edges, train, i)
      ensures exists n: nat :: n < |train| && Raw(edges, train[n])[i] == v
    {
      assert v in col;
      var n: nat :| n < |col| && col[n] == v;
    }
    if CanonicalColumn(edges, train, i) {
      forall v | v in Vocab(edges, train, i)
        ensures CanonicalValue(v)
      {
        var n: nat :| n < |train| && Raw(edges, train[n])[i] == v;
        assert CanonicalAt(edges, train[n], i);
      }
    }
  }

  /** Looking at the distinct values of the columns sees every bad text. */
  lemma VocabsRevealText(edges: seq<real>, train: seq<LogRow>)
    ensures CanonicalRows(train) <==> forall i: nat | i < FIELD_COUNT :: CanonicalVocab(Vocab(edges, train, i))
  {
    forall i: nat | i < FIELD_COUNT
      ensures CanonicalVocab(Vocab(edges, train, i)) <==> CanonicalColumn(edges, train, i)
    {
      VocabReveals(edges, train, i);
    }
    forall n: nat | n < |train|
      ensures CanonicalRow(train[n]) <==> forall i: nat | i < FIELD_COUNT :: CanonicalAt(edges, train[n], i)
    {
      CanonicalFields(edges, train[n]);
    }
    if forall i: nat | i < FIELD_COUNT :: CanonicalVocab(Vocab(edges, train, i)) {
      forall n: nat, i: nat | n < |train| && i < FIELD_COUNT
        ensures CanonicalAt(edges, train[n], i)
      {
        assert CanonicalVocab(Vocab(edges, train, i));
      }
      assert CanonicalRows(train);
    }
    if CanonicalRows(train) {
      forall i: nat | i < FIELD_COUNT
        ensures CanonicalVocab(Vocab(edges, train, i))
      {
        assert CanonicalColumn(edges, train, i);
      }
    }
  }

  /** The vocabulary of every field, one column at a time. */
  method ColumnVocabs(edges: seq<real>, train: seq<LogRow>) returns (vocabs: seq<seq<Value>>)
    ensures |vocabs| == FIELD_COUNT
    ensures forall i | 0 <= i < FIELD_COUNT :: vocabs[i] == Vocab(edges, train, i)
  {
    vocabs := [];
    for i := 0 to FIELD_COUNT
      invariant |vocabs| == i
      invariant forall j | 0 <= j < i :: vocabs[j] == Vocab(edges, train, j)
    {
      vocabs := vocabs + [FirstSeen(Column(edges, train, i))];
    }
  }

  method AllCanonical(vocabs: seq<seq<Value>>) returns (clean: bool)
    ensures clean <==> forall i: nat | i < |vocabs| :: CanonicalVocab(vocabs[i])
  {
    for i := 0 to |vocabs|
      invariant forall j: nat | j < i :: CanonicalVocab(vocabs[j])
    {
      if !CanonicalVocab(vocabs[i]) {
        return false;
      }
    }
    return true;
  }

  /** `StarterEncoding.fit`, column by column. */
  method Fit(edges: seq<real>, train: seq<LogRow>) returns (r: Result<StarterEncoding, string>)
    ensures r.Success?
       <==> && train != [] && |edges| == 9 && (forall j | 0 < j < |edges| :: edges[j-1] <= edges[j])
            && forall n | 0 <= n < |train| ::
                 var x := train[n];
                 && x.user != "" && x.video != "" && x.author != "" && x.tab != ""
                 && '\0' !in x.user && '\0' !in x.video && '\0' !in x.author && '\0' !in x.tab
    ensures r.Success? ==> r.value.edges == edges && |r.value.vocabs| == FIELD_COUNT
    ensures r.Success? ==> forall i | 0 <= i < FIELD_COUNT :: r.value.vocabs[i] == Vocab(edges, train, i)
  {
    if train == [] {
      return Failure("cannot fit starter encoding on empty training inputs");
    }
    var vocabs := ColumnVocabs(edges, train);
    if |edges| != 9 {
      return Failure("duration encoding requires exactly nine finite edges");
    }
    if !NonDecreasing(edges) {
      return Failure("duration edges must be non-decreasing");
    }
    var clean := AllCanonical(vocabs);
    VocabsRevealText(edges, train);
    if !clean {
      return Failure("vocabulary values must be non-empty canonical text");
    }
    return Success(StarterEncoding(edges, vocabs));
  }

  /** `matrix[:, column]` */
  method FillColumn(edges: seq<real>, ghost train: seq<LogRow>, vocab: seq<Value>, offset: nat, X: array2<nat>,
                    column: nat, rows: seq<LogRow>)
    requires column < FIELD_COUNT && vocab == Vocab(edges, train, column) && offset == Offset(edges, train, column)
    requires X.Length0 == |rows| && X.Length1 == FIELD_COUNT
    modifies X
    ensures forall n | 0 <= n < |rows| :: X[n, column] == Cell(edges, train, rows[n], column)
    ensures forall n, i | 0 <= n < |rows| && 0 <= i < FIELD_COUNT && i != column :: X[n, i] == old(X[n, i])
  {
    hide Raw, Offset, Cell, FirstSeen;
    var mapping := IndexMap(vocab);
    for n := 0 to |rows|
      invariant forall m, i | 0 <= m < |rows| && 0 <= i < FIELD_COUNT && i != column :: X[m, i] == old(X[m, i])
      invariant forall m | 0 <= m < n :: X[m, column] == Cell(edges, train, rows[m], column)
    {
      LookupIsCell(edges, train, rows[n], column);
      IndexMapSize(vocab);
      X[n, column] := Lookup(mapping, |vocab|, offset, Raw(edges, rows[n])[column]);
    }
  }

  /** `transform`: the matrix filled column by column. It meets the same cell specification as the organizer's
      loop, so on equal edges the two matrices agree cell by cell. */
  method Transform(enc: StarterEncoding, ghost train: seq<LogRow>, rows: seq<LogRow>) returns (X: array2<nat>)
    requires |enc.vocabs| == FIELD_COUNT
    requires forall i | 0 <= i < FIELD_COUNT :: enc.vocabs[i] == Vocab(enc.edges, train, i)
    ensures fresh(X) && Encodes(X, enc.edges, train, rows)
    ensures enc.Total() == TotalDim(enc.edges, train)
  {
    ghost var edges := enc.edges;
    assert enc.FieldDims() == Dims(edges, train) && Dims(edges, train)[..FIELD_COUNT] == Dims(edges, train);
    SumDimsIsOffset(edges, train, FIELD_COUNT);
    var offsets := enc.Offsets();
    X := new nat[|rows|, FIELD_COUNT]((_, _) => 0);
    for column := 0 to FIELD_COUNT
      invariant forall n, i | 0 <= n < |rows| && 0 <= i < column :: X[n, i] == Cell(edges, train, rows[n], i)
    {
      OffsetsAgree(edges, train, column);
      FillColumn(enc.edges, train, enc.vocabs[column], offsets[column], X, column, rows);
    }
  }

  /** Wherever the fast encoder accepts the training columns, both encoders give the same matrix and dimension. */
  method EncodersAgree(edges: seq<real>, train: seq<LogRow>, rows: seq<LogRow>)
    returns (X: array2<nat>, dim: nat, fitted: Result<StarterEncoding, string>, Z: array2<nat>)
    ensures Encodes(X, edges, train, rows)
    ensures fitted.Success? ==>
              && dim == fitted.value.Total() && Z.Length0 == X.Length0 == |rows| && Z.Length1 == X.Length1 == FIELD_COUNT
              && forall n, i | 0 <= n < |rows| && 0 <= i < FIELD_COUNT :: X[n, i] == Z[n, i]
  {
    var y, users;
    X, y, users, dim := OrganizerEncode(edges, train, rows);
    fitted := Fit(edges, train);
    Z := X;
    if fitted.Success? {
      Z := Transform(fitted.value, train, rows);
    }
  }
}
