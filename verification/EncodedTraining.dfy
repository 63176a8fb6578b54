/** Where the encoder and the factorization machine meet: the ids that `encode` writes make the scatter of
    `FM.step` exact. */
module EncodedTraining {
  import opened Vectors
  import opened Encoding
  import opened FactorizationMachine

  /** On every encoded row, whatever the row, moving the embedding that one field uses by h moves the logit by
      exactly <h, S - E_f>; S - E_f is also all that the scatter puts into that field's slot. */
  lemma EncodedRowsMoveExactly(edges: seq<real>, train: seq<LogRow>, x: LogRow, p: Params, k: nat, f: nat, h: seq<real>)
    requires ValidParams(p, k) && |p.V| == TotalDim(edges, train) && f < FIELD_COUNT && |h| == k
    ensures var ids := EncodedRow(edges, train, x);
            && ValidIds(ids, |p.V|) && ids[f] < |p.V| && ValidParams(ShiftV(p, ids[f], h), k)
            && var s := SumVectors(Embed(p.V, ids), k);
               && Slot(p.V, k, ids, s, ids[f]) == Sub(s, p.V[ids[f]])
               && Logit(ShiftV(p, ids[f], h), k, ids) - Logit(p, k, ids) == Dot(h, Sub(s, p.V[ids[f]]))
  {
    var ids := EncodedRow(edges, train, x);
    RowIdsDistinct(edges, train, x);
    LogitShiftV(p, k, ids, ids[f], h);
    SlotPresent(p.V, k, ids, SumVectors(Embed(p.V, ids), k), f);
  }

  /** An id that no field of the row uses leaves its logit alone. */
  lemma OtherIdsDoNotMatter(edges: seq<real>, train: seq<LogRow>, x: LogRow, p: Params, k: nat, id: nat, h: seq<real>)
    requires ValidParams(p, k) && |p.V| == TotalDim(edges, train) && id < |p.V| && |h| == k
    requires id !in EncodedRow(edges, train, x)
    ensures ValidIds(EncodedRow(edges, train, x), |p.V|) && ValidParams(ShiftV(p, id, h), k)
    ensures Logit(ShiftV(p, id, h), k, EncodedRow(edges, train, x)) == Logit(p, k, EncodedRow(edges, train, x))
  {
    var ids := EncodedRow(edges, train, x);
    RowIdsDistinct(edges, train, x);
    LogitShiftV(p, k, ids, id, h);
    SlotAbsent(p.V, k, ids, SumVectors(Embed(p.V, ids), k), id);
    DotZero(h);
  }
}
