/** Every id of both encoders, computed from the rows alone: counts of distinct values among training rows. */
module EncodingLaws {
  import opened Grouping
  import opened Encoding

  lemma {:induction false} FirstSeenPrefix<T>(xs: seq<T>, k: nat)
    requires k <= |xs|
    ensures FirstSeen(xs[..k]) <= FirstSeen(xs)
  {
    if k < |xs| {
      var n := |xs| - 1;
      FirstSeenPrefix(xs[..n], k);
      assert xs[..n][..k] == xs[..k];
    } else {
      assert xs[..k] == xs;
    }
  }

  /** A value that is new at place k gets as its code the number of distinct values before. */
  lemma NewCode<T>(xs: seq<T>, k: nat)
    requires k < |xs| && xs[k] !in xs[..k]
    ensures var us, code := FirstSeen(xs), |FirstSeen(xs[..k])|;
            && code < |us| && us[code] == xs[k]
            && forall c | 0 <= c < |us| && us[c] == xs[k] :: c == code
  {
    FirstSeenPrefix(xs, k + 1);
    assert xs[..k+1][..k] == xs[..k];
  }

  /** There are as many codes as distinct keys, if the values tell the keys apart. */
  lemma {:induction false} CodesCount<K>(edges: seq<real>, train: seq<LogRow>, i: nat, key: LogRow -> K)
    requires i < FIELD_COUNT && forall x, y :: Raw(edges, x)[i] == Raw(edges, y)[i] <==> key(x) == key(y)
    ensures |Vocab(edges, train, i)| == |Keys(train, key)|
  {
    if train != [] {
      CodesCount(edges, train[..|train|-1], i, key);
      CodesStep(edges, train, i, key);
    }
  }

  /** The distinct keys of some rows. */
  function Keys<K>(train: seq<LogRow>, key: LogRow -> K): set<K> { set x | x in train :: key(x) }

  lemma CodesStep<K>(edges: seq<real>, train: seq<LogRow>, i: nat, key: LogRow -> K)
    requires train != []
    requires i < FIELD_COUNT && forall x, y :: Raw(edges, x)[i] == Raw(edges, y)[i] <==> key(x) == key(y)
    ensures var front, last := train[..|train|-1], train[|train|-1];
            && Keys(train, key) == Keys(front, key) + {key(last)}
            && |Vocab(edges, train, i)| == |Vocab(edges, front, i)| + if key(last) in Keys(front, key) then 0 else 1
  {
    var n := |train| - 1;
    var front, last := train[..n], train[n];
    assert train == front + [last];
    var col := Column(edges, train, i);
    assert col[..n] == Column(edges, front, i) && col[n] == Raw(edges, last)[i];
    SeenBefore(edges, front, i, key, last);
  }

  lemma SeenBefore<K>(edges: seq<real>, train: seq<LogRow>, i: nat, key: LogRow -> K, x: LogRow)
    requires i < FIELD_COUNT && forall x, y :: Raw(edges, x)[i] == Raw(edges, y)[i] <==> key(x) == key(y)
    ensures Raw(edges, x)[i] in Column(edges, train, i) <==> exists t :: t in train && key(t) == key(x)
  {
    var col := Column(edges, train, i);
    if Raw(edges, x)[i] in col {
      var n :| 0 <= n < |col| && col[n] == Raw(edges, x)[i];
      assert train[n] in train && key(train[n]) == key(x);
    }
    if t :| t in train && key(t) == key(x) {
      var n :| 0 <= n < |train| && train[n] == t;
      assert col[n] == Raw(edges, x)[i];
    }
  }

  /** The code of a value: how many distinct keys come before its first row, or all of them if it has none. */
  lemma CodeExactly<K>(edges: seq<real>, train: seq<LogRow>, i: nat, key: LogRow -> K, x: LogRow, k: nat)
    requires i < FIELD_COUNT && forall x, y :: Raw(edges, x)[i] == Raw(edges, y)[i] <==> key(x) == key(y)
    requires k <= |train| && forall t | t in train[..k] :: key(t) != key(x)
    requires k < |train| ==> key(train[k]) == key(x)
    ensures LocalId(Vocab(edges, train, i), Raw(edges, x)[i]) == |Keys(train[..k], key)|
  {
    var col, v := Column(edges, train, i), Raw(edges, x)[i];
    assert Column(edges, train[..k], i) == col[..k];
    CodesCount(edges, train[..k], i, key);
    SeenBefore(edges, train[..k], i, key, x);
    if k < |train| {
      assert col[k] == v;
      NewCode(col, k);
    } else {
      assert train[..k] == train;
    }
  }

  /** The number of edges below a duration. */
  function EdgesBelow(edges: seq<real>, d: real): nat { |set j: nat | j < |edges| && edges[j] < d| }

  lemma BucketCounts(edges: seq<real>, d: real)
    requires NonDecreasing(edges)
    ensures SearchLeft(edges, d) == EdgesBelow(edges, d)
  {
    var g := SearchLeft(edges, d);
    forall j: nat | j < |edges|
      ensures edges[j] < d <==> j < g
    {
      if j >= g {
        EdgesAscend(edges, g, j);
      }
    }
    assert (set j: nat | j < |edges| && edges[j] < d) == Below(g);
  }

  function Below(n: nat): (s: set<nat>)
    ensures |s| == n && forall j: nat :: j in s <==> j < n
  {
    if n == 0 then {} else Below(n - 1) + {n - 1}
  }

  lemma UserCodes(edges: seq<real>, train: seq<LogRow>)
    ensures |Vocab(edges, train, 0)| == |set t | t in train :: t.user|
  {
    var key := (x: LogRow) => x.user;
    CodesCount(edges, train, 0, key);
    assert Keys(train, key) == set t | t in train :: t.user;
  }

  lemma VideoCodes(edges: seq<real>, train: seq<LogRow>)
    ensures |Vocab(edges, train, 1)| == |set t | t in train :: t.video|
  {
    var key := (x: LogRow) => x.video;
    CodesCount(edges, train, 1, key);
    assert Keys(train, key) == set t | t in train :: t.video;
  }

  lemma AuthorCodes(edges: seq<real>, train: seq<LogRow>)
    ensures |Vocab(edges, train, 2)| == |set t | t in train :: t.author|
  {
    var key := (x: LogRow) => x.author;
    CodesCount(edges, train, 2, key);
    assert Keys(train, key) == set t | t in train :: t.author;
  }

  lemma TabCodes(edges: seq<real>, train: seq<LogRow>)
    ensures |Vocab(edges, train, 3)| == |set t | t in train :: t.tab|
  {
    var key := (x: LogRow) => x.tab;
    CodesCount(edges, train, 3, key);
    assert Keys(train, key) == set t | t in train :: t.tab;
  }

  lemma BucketCodes(edges: seq<real>, train: seq<LogRow>)
    requires NonDecreasing(edges)
    ensures |Vocab(edges, train, 4)| == |set t | t in train :: EdgesBelow(edges, t.duration)|
  {
    var key := (x: LogRow) => EdgesBelow(edges, x.duration);
    BucketKeys(edges);
    CodesCount(edges, train, 4, key);
    assert Keys(train, key) == set t | t in train :: EdgesBelow(edges, t.duration);
  }

  /** How wide the first four blocks are: one id for every distinct value and one for all others. */
  lemma BlocksExactly(edges: seq<real>, train: seq<LogRow>)
    ensures Offset(edges, train, 0) == 0
    ensures Offset(edges, train, 1) == |set t | t in train :: t.user| + 1
    ensures Offset(edges, train, 2) == Offset(edges, train, 1) + |set t | t in train :: t.video| + 1
    ensures Offset(edges, train, 3) == Offset(edges, train, 2) + |set t | t in train :: t.author| + 1
    ensures Offset(edges, train, 4) == Offset(edges, train, 3) + |set t | t in train :: t.tab| + 1
    ensures NonDecreasing(edges) ==>
              TotalDim(edges, train)
              == Offset(edges, train, 4) + |set t | t in train :: EdgesBelow(edges, t.duration)| + 1
  {
    hide *;
    OffsetStarts(edges, train);
    UserCodes(edges, train);
    VideoCodes(edges, train);
    AuthorCodes(edges, train);
    TabCodes(edges, train);
    if NonDecreasing(edges) {
      BucketCodes(edges, train);
    }
  }

  lemma OffsetStarts(edges: seq<real>, train: seq<LogRow>)
    ensures Offset(edges, train, 0) == 0 && TotalDim(edges, train) == Offset(edges, train, 5)
    ensures Offset(edges, train, 1) == Offset(edges, train, 0) + |Vocab(edges, train, 0)| + 1
    ensures Offset(edges, train, 2) == Offset(edges, train, 1) + |Vocab(edges, train, 1)| + 1
    ensures Offset(edges, train, 3) == Offset(edges, train, 2) + |Vocab(edges, train, 2)| + 1
    ensures Offset(edges, train, 4) == Offset(edges, train, 3) + |Vocab(edges, train, 3)| + 1
    ensures Offset(edges, train, 5) == Offset(edges, train, 4) + |Vocab(edges, train, 4)| + 1
  {
    hide Vocab;
    OffsetStep(edges, train, 0);
    OffsetStep(edges, train, 1);
    OffsetStep(edges, train, 2);
    OffsetStep(edges, train, 3);
    OffsetStep(edges, train, 4);
  }

  lemma BucketKeys(edges: seq<real>)
    requires NonDecreasing(edges)
    ensures forall x, y ::
              Raw(edges, x)[4] == Raw(edges, y)[4] <==> EdgesBelow(edges, x.duration) == EdgesBelow(edges, y.duration)
  {
    forall x: LogRow
      ensures SearchLeft(edges, x.duration) == EdgesBelow(edges, x.duration)
    {
      BucketCounts(edges, x.duration);
    }
  }

  /** The id of a row's value in each text column: its block's start plus the number of distinct values that training
      shows before this one first appears; a value that training does not show gets the block's last id. */
  lemma TextIdsExactly(edges: seq<real>, train: seq<LogRow>, x: LogRow, k: nat)
    requires k <= |train|
    ensures (forall t | t in train[..k] :: t.user != x.user) && (k < |train| ==> train[k].user == x.user) ==>
              Cell(edges, train, x, 0) == |set t | t in train[..k] :: t.user|
    ensures (forall t | t in train[..k] :: t.video != x.video) && (k < |train| ==> train[k].video == x.video) ==>
              Cell(edges, train, x, 1) == Offset(edges, train, 1) + |set t | t in train[..k] :: t.video|
    ensures (forall t | t in train[..k] :: t.author != x.author) && (k < |train| ==> train[k].author == x.author) ==>
              Cell(edges, train, x, 2) == Offset(edges, train, 2) + |set t | t in train[..k] :: t.author|
    ensures (forall t | t in train[..k] :: t.tab != x.tab) && (k < |train| ==> train[k].tab == x.tab) ==>
              Cell(edges, train, x, 3) == Offset(edges, train, 3) + |set t | t in train[..k] :: t.tab|
  {
    hide Vocab, Offset, LocalId, Keys;
    OffsetStarts(edges, train);
    UserCode(edges, train, x, k);
    VideoCode(edges, train, x, k);
    AuthorCode(edges, train, x, k);
    TabCode(edges, train, x, k);
  }

  lemma UserCode(edges: seq<real>, train: seq<LogRow>, x: LogRow, k: nat)
    requires k <= |train|
    ensures (forall t | t in train[..k] :: t.user != x.user) && (k < |train| ==> train[k].user == x.user) ==>
              LocalId(Vocab(edges, train, 0), Raw(edges, x)[0]) == |set t | t in train[..k] :: t.user|
  {
    var key := (x: LogRow) => x.user;
    assert Keys(train[..k], key) == set t | t in train[..k] :: t.user;
    if (forall t | t in train[..k] :: t.user != x.user) && (k < |train| ==> train[k].user == x.user) {
      CodeExactly(edges, train, 0, key, x, k);
    }
  }

  lemma VideoCode(edges: seq<real>, train: seq<LogRow>, x: LogRow, k: nat)
    requires k <= |train|
    ensures (forall t | t in train[..k] :: t.video != x.video) && (k < |train| ==> train[k].video == x.video) ==>
              LocalId(Vocab(edges, train, 1), Raw(edges, x)[1]) == |set t | t in train[..k] :: t.video|
  {
    var key := (x: LogRow) => x.video;
    assert Keys(train[..k], key) == set t | t in train[..k] :: t.video;
    if (forall t | t in train[..k] :: t.video != x.video) && (k < |train| ==> train[k].video == x.video) {
      CodeExactly(edges, train, 1, key, x, k);
    }
  }

  lemma AuthorCode(edges: seq<real>, train: seq<LogRow>, x: LogRow, k: nat)
    requires k <= |train|
    ensures (forall t | t in train[..k] :: t.author != x.author) && (k < |train| ==> train[k].author == x.author) ==>
              LocalId(Vocab(edges, train, 2), Raw(edges, x)[2]) == |set t | t in train[..k] :: t.author|
  {
    var key := (x: LogRow) => x.author;
    assert Keys(train[..k], key) == set t | t in train[..k] :: t.author;
    if (forall t | t in train[..k] :: t.author != x.author) && (k < |train| ==> train[k].author == x.author) {
      CodeExactly(edges, train, 2, key, x, k);
    }
  }

  lemma TabCode(edges: seq<real>, train: seq<LogRow>, x: LogRow, k: nat)
    requires k <= |train|
    ensures (forall t | t in train[..k] :: t.tab != x.tab) && (k < |train| ==> train[k].tab == x.tab) ==>
              LocalId(Vocab(edges, train, 3), Raw(edges, x)[3]) == |set t | t in train[..k] :: t.tab|
  {
    var key := (x: LogRow) => x.tab;
    assert Keys(train[..k], key) == set t | t in train[..k] :: t.tab;
    if (forall t | t in train[..k] :: t.tab != x.tab) && (k < |train| ==> train[k].tab == x.tab) {
      CodeExactly(edges, train, 3, key, x, k);
    }
  }

  /** The same for the duration column, where the value is the number of edges below the duration. */
  lemma BucketIdExactly(edges: seq<real>, train: seq<LogRow>, x: LogRow, k: nat)
    requires NonDecreasing(edges) && k <= |train|
    requires forall t | t in train[..k] :: EdgesBelow(edges, t.duration) != EdgesBelow(edges, x.duration)
    requires k < |train| ==> EdgesBelow(edges, train[k].duration) == EdgesBelow(edges, x.duration)
    ensures Cell(edges, train, x, 4)
         == Offset(edges, train, 4) + |set t | t in train[..k] :: EdgesBelow(edges, t.duration)|
  {
    hide Vocab, Offset, LocalId, EdgesBelow;
    var key := (x: LogRow) => EdgesBelow(edges, x.duration);
    assert Keys(train[..k], key) == set t | t in train[..k] :: EdgesBelow(edges, t.duration);
    BucketKeys(edges);
    CodeExactly(edges, train, 4, key, x, k);
  }
}
