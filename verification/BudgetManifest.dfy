/** `BudgetLedger.manifest` and `from_manifest` of src/kuairand_agent/campaign/budgets.py. */
module BudgetManifest {
  import opened Results
  import opened Budgets

  /** The field names of a manifest; any other text is an unknown field. */
  datatype Name =
    | MaxTrainingLaunches | MaxScientificIterations | ScientificIterations | Charges | Reallocations
    | LaunchNumber | ExecutionId | FamilyName | ChargedCategory | OriginalCategory | RepairChild
    | ImportedFromQualification | Source | Target | Amount | ReasonText | Unknown(text: string)

  datatype Json = Int(num: int) | Str(str: string) | Bool(flag: bool) | List(items: seq<Json>)
                | Object(fields: map<Name, Json>)

  function CategoryName(c: Category): string {
    match c
    case BaselineQualificationReplay => "baseline_qualification_replay"
    case DiverseInnerScreen => "diverse_inner_screen"
    case TemporalFoldConfirmation => "temporal_fold_confirmation"
    case DistinctOuterPromotion => "distinct_outer_promotion"
    case MatchedSeedConfirmation => "matched_seed_confirmation"
    case BlendFusion => "blend_fusion"
    case FinalTrainingReplay => "final_training_replay"
    case RecoveryReserve => "recovery_reserve"
  }

  /** `LaunchCategory(value)` */
  function ParseCategory(s: string): (r: Option<Category>)
    ensures r.Some? ==> CategoryName(r.value) == s
  {
    if s == "baseline_qualification_replay" then Some(BaselineQualificationReplay)
    else if s == "diverse_inner_screen" then Some(DiverseInnerScreen)
    else if s == "temporal_fold_confirmation" then Some(TemporalFoldConfirmation)
    else if s == "distinct_outer_promotion" then Some(DistinctOuterPromotion)
    else if s == "matched_seed_confirmation" then Some(MatchedSeedConfirmation)
    else if s == "blend_fusion" then Some(BlendFusion)
    else if s == "final_training_replay" then Some(FinalTrainingReplay)
    else if s == "recovery_reserve" then Some(RecoveryReserve)
    else None
  }

  lemma CategoryRoundTrip(c: Category)
    ensures ParseCategory(CategoryName(c)) == Some(c)
  {
    match c
    case BaselineQualificationReplay =>
    case DiverseInnerScreen => assert CategoryName(c)[0] == 'd';
    case TemporalFoldConfirmation => assert CategoryName(c)[0] == 't';
    case DistinctOuterPromotion => assert CategoryName(c)[0] == 'd' && CategoryName(c)[2] == 's';
    case MatchedSeedConfirmation => assert CategoryName(c)[0] == 'm';
    case BlendFusion => assert CategoryName(c)[0] == 'b' && CategoryName(c)[1] == 'l';
    case FinalTrainingReplay => assert CategoryName(c)[0] == 'f';
    case RecoveryReserve => assert CategoryName(c)[0] == 'r';
  }

  // ---------------------------------------------------------------- writing

  function ChargeFields(x: Charge): map<Name, Json> {
    map[LaunchNumber := Int(x.number), ExecutionId := Str(x.execution), FamilyName := Str(x.family),
        ChargedCategory := Str(CategoryName(x.category)), OriginalCategory := Str(CategoryName(x.original)),
        RepairChild := Bool(x.repairChild), ImportedFromQualification := Bool(x.imported)]
  }

  function TransferFields(t: Transfer): map<Name, Json> {
    map[Source := Str(CategoryName(t.source)), Target := Str(CategoryName(t.target)), Amount := Int(t.amount),
        ReasonText := Str(t.reason)]
  }

  function WriteCharge(x: Charge): Json { Object(ChargeFields(x)) }

  function WriteTransfer(t: Transfer): Json { Object(TransferFields(t)) }

  function WriteAll<T>(write: T -> Json, xs: seq<T>): (items: seq<Json>)
    ensures |items| == |xs|
  {
    if xs == [] then [] else WriteAll(write, xs[..|xs|-1]) + [write(xs[|xs|-1])]
  }

  function Manifest(l: Ledger): map<Name, Json> {
    map[MaxTrainingLaunches := Int(l.maxLaunches), MaxScientificIterations := Int(l.maxIterations),
        ScientificIterations := Int(l.iterations), Charges := List(WriteAll(WriteCharge, l.charges)),
        Reallocations := List(WriteAll(WriteTransfer, l.transfers))]
  }

  // ---------------------------------------------------------------- reading

  const CHARGE_KEYS: set<Name> :=
    {LaunchNumber, ExecutionId, FamilyName, ChargedCategory, OriginalCategory, RepairChild,
     ImportedFromQualification}

  const TRANSFER_KEYS: set<Name> := {Source, Target, Amount, ReasonText}

  const LEDGER_KEYS: set<Name> :=
    {MaxTrainingLaunches, MaxScientificIterations, ScientificIterations, Charges, Reallocations}

  /** An object with exactly the given keys. */
  predicate Has(item: Json, keys: set<Name>) { item.Object? && item.fields.Keys == keys }

  predicate ChargeTypes(m: map<Name, Json>)
    requires m.Keys == CHARGE_KEYS
  {
    && m[LaunchNumber].Int? && m[ExecutionId].Str? && m[FamilyName].Str? && m[ChargedCategory].Str?
    && m[OriginalCategory].Str? && m[RepairChild].Bool? && m[ImportedFromQualification].Bool?
  }

  /** One element of the charge list, with every check that reading and construction make. */
  function ReadCharge(item: Json): (r: Option<Charge>)
    ensures r.Some? ==> ValidCharge(r.value)
  {
    if !Has(item, CHARGE_KEYS) || !ChargeTypes(item.fields) then None
    else
      var m := item.fields;
      var category, original := ParseCategory(m[ChargedCategory].str), ParseCategory(m[OriginalCategory].str);
      if category == None || original == None then None
      else
        var x := Charge(m[LaunchNumber].num, m[ExecutionId].str, m[FamilyName].str, category.value, original.value,
                        m[RepairChild].flag, m[ImportedFromQualification].flag);
        if ValidCharge(x) then Some(x) else None
  }

  function ReadTransfer(item: Json): (r: Option<Transfer>)
    ensures r.Some? ==> ValidTransfer(r.value)
  {
    if !Has(item, TRANSFER_KEYS) then None
    else
      var m := item.fields;
      if !(m[Source].Str? && m[Target].Str? && m[Amount].Int? && m[ReasonText].Str?) then None
      else
        var source, target := ParseCategory(m[Source].str), ParseCategory(m[Target].str);
        if source == None || target == None then None
        else
          var t := Transfer(source.value, target.value, m[Amount].num, m[ReasonText].str);
          if ValidTransfer(t) then Some(t) else None
  }

  /** A list is read entry by entry; one bad entry spoils it. */
  function ReadAll<T>(read: Json -> Option<T>, items: seq<Json>): Option<seq<T>> {
    if items == [] then Some([])
    else
      var front, last := ReadAll(read, items[..|items|-1]), read(items[|items|-1]);
      if front == None || last == None then None else Some(front.value + [last.value])
  }

  predicate LedgerTypes(raw: map<Name, Json>)
    requires raw.Keys == LEDGER_KEYS
  {
    && raw[Charges].List? && raw[Reallocations].List? && raw[MaxTrainingLaunches].Int?
    && raw[MaxScientificIterations].Int? && raw[ScientificIterations].Int?
  }

  /** Building the ledger from its parts, and the qualification check on the result. */
  function Assemble(charges: seq<Charge>, transfers: seq<Transfer>, iterations: int, maxLaunches: int,
                    maxIterations: int): Result<Ledger, string> {
    if iterations < 0 then Failure("scientific iteration count must be non-negative")
    else
      var l := Ledger(charges, iterations, transfers, maxLaunches, maxIterations);
      if !ValidLedger(l) then Failure("invalid ledger")
      else if !Qualified(l.charges) then Failure("restored campaign must lead with six qualification launches")
      else Success(l)
  }

  /** The ledger that a manifest denotes. */
  function ReadManifest(raw: map<Name, Json>): Result<Ledger, string> {
    if raw.Keys != LEDGER_KEYS then Failure("unknown or missing budget fields")
    else if !LedgerTypes(raw) then Failure("wrong field types")
    else
      var charges, transfers := ReadAll(ReadCharge, raw[Charges].items), ReadAll(ReadTransfer, raw[Reallocations].items);
      if charges == None || transfers == None then Failure("invalid entry")
      else
        Assemble(charges.value, transfers.value, raw[ScientificIterations].num, raw[MaxTrainingLaunches].num,
                 raw[MaxScientificIterations].num)
  }

  lemma {:induction false} NoneStays<T>(read: Json -> Option<T>, items: seq<Json>, k: nat)
    requires k <= |items| && ReadAll(read, items[..k]) == None
    ensures ReadAll(read, items) == None
    decreases |items| - k
  {
    if k == |items| {
      assert items[..k] == items;
    } else {
      assert items[..k+1][..k] == items[..k];
      NoneStays(read, items, k + 1);
    }
  }

  /** The reading loops of `from_manifest`: each appends one parsed entry or raises. */
  method Collect<T(==)>(read: Json -> Option<T>, items: seq<Json>) returns (r: Option<seq<T>>)
    ensures r == ReadAll(read, items)
  {
    var entries: seq<T> := [];
    for k := 0 to |items|
      invariant ReadAll(read, items[..k]) == Some(entries)
    {
      assert items[..k+1][..k] == items[..k];
      var x := read(items[k]);
      if x == None {
        NoneStays(read, items, k + 1);
        return None;
      }
      entries := entries + [x.value];
    }
    assert items[..|items|] == items;
    return Some(entries);
  }

  method FromManifest(raw: map<Name, Json>) returns (r: Result<Ledger, string>)
    ensures r == ReadManifest(raw)
  {
    if raw.Keys != LEDGER_KEYS {
      return Failure("unknown or missing budget fields");
    }
    if !LedgerTypes(raw) {
      return Failure("wrong field types");
    }
    var charges := Collect(ReadCharge, raw[Charges].items);
    var transfers := Collect(ReadTransfer, raw[Reallocations].items);
    if charges == None || transfers == None {
      return Failure("invalid entry");
    }
    return Assemble(charges.value, transfers.value, raw[ScientificIterations].num, raw[MaxTrainingLaunches].num,
                    raw[MaxScientificIterations].num);
  }

  // ---------------------------------------------------------------- round trips

  lemma ChargeRoundTrip(x: Charge)
    ensures ReadCharge(Object(ChargeFields(x))) == if ValidCharge(x) then Some(x) else None
  {
    CategoryRoundTrip(x.category);
    CategoryRoundTrip(x.original);
    assert ChargeFields(x).Keys == CHARGE_KEYS;
  }

  lemma TransferRoundTrip(t: Transfer)
    ensures ReadTransfer(Object(TransferFields(t))) == if ValidTransfer(t) then Some(t) else None
  {
    CategoryRoundTrip(t.source);
    CategoryRoundTrip(t.target);
    assert TransferFields(t).Keys == TRANSFER_KEYS;
  }

  lemma {:induction false} ListRoundTrip<T>(write: T -> Json, read: Json -> Option<T>, xs: seq<T>)
    requires forall x | x in xs :: read(write(x)) == Some(x)
    ensures ReadAll(read, WriteAll(write, xs)) == Some(xs)
  {
    if xs != [] {
      var n := |xs| - 1;
      ListRoundTrip(write, read, xs[..n]);
      assert xs[n] in xs && WriteAll(write, xs)[..n] == WriteAll(write, xs[..n]);
      assert xs == xs[..n] + [xs[n]];
    }
  }

  lemma {:induction false} ListIsExact<T>(write: T -> Json, read: Json -> Option<T>, items: seq<Json>)
    requires forall item: Json :: read(item).Some? ==> write(read(item).value) == item
    requires ReadAll(read, items).Some?
    ensures WriteAll(write, ReadAll(read, items).value) == items
  {
    if items != [] {
      var n := |items| - 1;
      ListIsExact(write, read, items[..n]);
      var xs, x := ReadAll(read, items[..n]).value, read(items[n]).value;
      assert (xs + [x])[..|xs|] == xs;
      assert items == items[..n] + [items[n]];
    }
  }

  lemma ChargesRoundTrip(xs: seq<Charge>)
    requires forall x | x in xs :: ValidCharge(x)
    ensures ReadAll(ReadCharge, WriteAll(WriteCharge, xs)) == Some(xs)
  {
    forall x | x in xs
      ensures ReadCharge(WriteCharge(x)) == Some(x)
    {
      ChargeRoundTrip(x);
    }
    ListRoundTrip(WriteCharge, ReadCharge, xs);
  }

  lemma TransfersRoundTrip(ts: seq<Transfer>)
    requires forall t | t in ts :: ValidTransfer(t)
    ensures ReadAll(ReadTransfer, WriteAll(WriteTransfer, ts)) == Some(ts)
  {
    forall t | t in ts
      ensures ReadTransfer(WriteTransfer(t)) == Some(t)
    {
      TransferRoundTrip(t);
    }
    ListRoundTrip(WriteTransfer, ReadTransfer, ts);
  }

  lemma ManifestFields(l: Ledger)
    ensures Manifest(l).Keys == LEDGER_KEYS && LedgerTypes(Manifest(l))
    ensures Manifest(l)[Charges].items == WriteAll(WriteCharge, l.charges)
    ensures Manifest(l)[Reallocations].items == WriteAll(WriteTransfer, l.transfers)
    ensures Manifest(l)[ScientificIterations].num == l.iterations
    ensures Manifest(l)[MaxTrainingLaunches].num == l.maxLaunches
    ensures Manifest(l)[MaxScientificIterations].num == l.maxIterations
  {
  }

  lemma ManifestIsInjective(l: Ledger, raw: map<Name, Json>)
    requires raw.Keys == LEDGER_KEYS && LedgerTypes(raw)
    requires raw[Charges].items == WriteAll(WriteCharge, l.charges)
    requires raw[Reallocations].items == WriteAll(WriteTransfer, l.transfers)
    requires raw[ScientificIterations].num == l.iterations && raw[MaxTrainingLaunches].num == l.maxLaunches
    requires raw[MaxScientificIterations].num == l.maxIterations
    ensures Manifest(l) == raw
  {
    ManifestFields(l);
  }

  lemma AssembleExactly(l: Ledger)
    requires ValidLedger(l)
    ensures Assemble(l.charges, l.transfers, l.iterations, l.maxLaunches, l.maxIterations)
         == if Qualified(l.charges) then Success(l)
            else Failure("restored campaign must lead with six qualification launches")
  {
  }

  lemma ReadParts(raw: map<Name, Json>, l: Ledger)
    requires raw.Keys == LEDGER_KEYS && LedgerTypes(raw)
    requires ReadAll(ReadCharge, raw[Charges].items) == Some(l.charges)
    requires ReadAll(ReadTransfer, raw[Reallocations].items) == Some(l.transfers)
    requires raw[ScientificIterations].num == l.iterations && raw[MaxTrainingLaunches].num == l.maxLaunches
    requires raw[MaxScientificIterations].num == l.maxIterations
    ensures ReadManifest(raw) == Assemble(l.charges, l.transfers, l.iterations, l.maxLaunches, l.maxIterations)
  {
  }

  lemma ReadWritten(l: Ledger)
    requires (forall x | x in l.charges :: ValidCharge(x)) && forall t | t in l.transfers :: ValidTransfer(t)
    ensures ReadManifest(Manifest(l)) == Assemble(l.charges, l.transfers, l.iterations, l.maxLaunches, l.maxIterations)
  {
    ChargesRoundTrip(l.charges);
    TransfersRoundTrip(l.transfers);
    ManifestFields(l);
    ReadParts(Manifest(l), l);
  }

  /** Reading a written ledger gives it back exactly when its six qualification charges lead. */
  lemma ManifestRoundTrip(l: Ledger)
    requires ValidLedger(l)
    ensures ReadManifest(Manifest(l)).Success? <==> Qualified(l.charges)
    ensures Qualified(l.charges) ==> ReadManifest(Manifest(l)) == Success(l)
  {
    ReadWritten(l);
    AssembleExactly(l);
  }

  lemma ReadChargeIsExact(item: Json)
    requires ReadCharge(item).Some?
    ensures item == Object(ChargeFields(ReadCharge(item).value))
  {
    assert item.fields == ChargeFields(ReadCharge(item).value);
  }

  lemma ReadTransferIsExact(item: Json)
    requires ReadTransfer(item).Some?
    ensures item == Object(TransferFields(ReadTransfer(item).value))
  {
    assert item.fields == TransferFields(ReadTransfer(item).value);
  }

  lemma ReadChargesIsExact(items: seq<Json>)
    requires ReadAll(ReadCharge, items).Some?
    ensures WriteAll(WriteCharge, ReadAll(ReadCharge, items).value) == items
  {
    forall item: Json | ReadCharge(item).Some?
      ensures WriteCharge(ReadCharge(item).value) == item
    {
      ReadChargeIsExact(item);
    }
    ListIsExact(WriteCharge, ReadCharge, items);
  }

  lemma ReadTransfersIsExact(items: seq<Json>)
    requires ReadAll(ReadTransfer, items).Some?
    ensures WriteAll(WriteTransfer, ReadAll(ReadTransfer, items).value) == items
  {
    forall item: Json | ReadTransfer(item).Some?
      ensures WriteTransfer(ReadTransfer(item).value) == item
    {
      ReadTransferIsExact(item);
    }
    ListIsExact(WriteTransfer, ReadTransfer, items);
  }

  /** A manifest is accepted only if writing the ledger it denotes gives it back: no field is ignored. */
  lemma ReadManifestIsExact(raw: map<Name, Json>)
    requires ReadManifest(raw).Success?
    ensures Manifest(ReadManifest(raw).value) == raw
    ensures ValidLedger(ReadManifest(raw).value) && Qualified(ReadManifest(raw).value.charges)
  {
    ReadChargesIsExact(raw[Charges].items);
    ReadTransfersIsExact(raw[Reallocations].items);
    ManifestIsInjective(ReadManifest(raw).value, raw);
  }

  /** Exactly the manifests of valid ledgers led by the six qualification charges are accepted. */
  lemma AcceptedExactly(raw: map<Name, Json>)
    ensures ReadManifest(raw).Success? <==>
            exists l: Ledger :: ValidLedger(l) && Qualified(l.charges) && raw == Manifest(l)
  {
    if ReadManifest(raw).Success? {
      ReadManifestIsExact(raw);
    }
    if l: Ledger :| ValidLedger(l) && Qualified(l.charges) && raw == Manifest(l) {
      ManifestRoundTrip(l);
    }
  }

  /** What stands under each name of a manifest: the two lists have one entry for each charge and transfer, in
      order. */
  lemma ManifestExactly(l: Ledger)
    ensures var m := Manifest(l);
            && m.Keys == {MaxTrainingLaunches, MaxScientificIterations, ScientificIterations, Charges, Reallocations}
            && m[MaxTrainingLaunches] == Int(l.maxLaunches) && m[MaxScientificIterations] == Int(l.maxIterations)
            && m[ScientificIterations] == Int(l.iterations) && m[Charges].List? && m[Reallocations].List?
            && |m[Charges].items| == |l.charges| && |m[Reallocations].items| == |l.transfers|
            && (forall i | 0 <= i < |l.charges| :: m[Charges].items[i] == WriteCharge(l.charges[i]))
            && (forall i | 0 <= i < |l.transfers| :: m[Reallocations].items[i] == WriteTransfer(l.transfers[i]))
  {
    hide WriteCharge, WriteTransfer;
    ManifestFields(l);
    forall i | 0 <= i < |l.charges|
      ensures Manifest(l)[Charges].items[i] == WriteCharge(l.charges[i])
    {
      WrittenAt(WriteCharge, l.charges, i);
    }
    forall i | 0 <= i < |l.transfers|
      ensures Manifest(l)[Reallocations].items[i] == WriteTransfer(l.transfers[i])
    {
      WrittenAt(WriteTransfer, l.transfers, i);
    }
  }

  /** What stands under each name of an entry. */
  lemma EntriesExactly(x: Charge, t: Transfer)
    ensures WriteCharge(x).Object? && WriteTransfer(t).Object?
    ensures var entry := WriteCharge(x).fields;
            && entry.Keys == {LaunchNumber, ExecutionId, FamilyName, ChargedCategory, OriginalCategory, RepairChild,
                              ImportedFromQualification}
            && entry[LaunchNumber] == Int(x.number) && entry[ExecutionId] == Str(x.execution)
            && entry[FamilyName] == Str(x.family) && entry[ChargedCategory] == Str(CategoryName(x.category))
            && entry[OriginalCategory] == Str(CategoryName(x.original)) && entry[RepairChild] == Bool(x.repairChild)
            && entry[ImportedFromQualification] == Bool(x.imported)
    ensures var entry := WriteTransfer(t).fields;
            && entry.Keys == {Source, Target, Amount, ReasonText}
            && entry[Source] == Str(CategoryName(t.source)) && entry[Target] == Str(CategoryName(t.target))
            && entry[Amount] == Int(t.amount) && entry[ReasonText] == Str(t.reason)
  {
  }

  lemma {:induction false} WrittenAt<T>(write: T -> Json, xs: seq<T>, i: nat)
    requires i < |xs|
    ensures WriteAll(write, xs)[i] == write(xs[i])
  {
    if i < |xs| - 1 {
      WrittenAt(write, xs[..|xs|-1], i);
    }
  }

  /** The names under which the categories are stored. */
  lemma CategoriesByName()
    ensures ParseCategory("baseline_qualification_replay") == Some(BaselineQualificationReplay)
    ensures ParseCategory("diverse_inner_screen") == Some(DiverseInnerScreen)
    ensures ParseCategory("temporal_fold_confirmation") == Some(TemporalFoldConfirmation)
    ensures ParseCategory("distinct_outer_promotion") == Some(DistinctOuterPromotion)
    ensures ParseCategory("matched_seed_confirmation") == Some(MatchedSeedConfirmation)
    ensures ParseCategory("blend_fusion") == Some(BlendFusion)
    ensures ParseCategory("final_training_replay") == Some(FinalTrainingReplay)
    ensures ParseCategory("recovery_reserve") == Some(RecoveryReserve)
    ensures forall s: string | ParseCategory(s).Some? :: CategoryName(ParseCategory(s).value) == s
  {
    CategoryRoundTrip(BaselineQualificationReplay);
    CategoryRoundTrip(DiverseInnerScreen);
    CategoryRoundTrip(TemporalFoldConfirmation);
    CategoryRoundTrip(DistinctOuterPromotion);
    CategoryRoundTrip(MatchedSeedConfirmation);
    CategoryRoundTrip(BlendFusion);
    CategoryRoundTrip(FinalTrainingReplay);
    CategoryRoundTrip(RecoveryReserve);
  }

  /** Every ledger that a campaign can reach survives being written and read. */
  lemma ReachableLedgersRoundTrip(maxLaunches: int, maxIterations: int, ops: seq<Operation>)
    requires AfterQualification(maxLaunches, maxIterations).Success? && forall op | op in ops :: WellFormed(op)
    ensures var l := Play(AfterQualification(maxLaunches, maxIterations).value, ops);
            ReadManifest(Manifest(l)) == Success(l)
  {
    var l0 := AfterQualification(maxLaunches, maxIterations).value;
    LedgerStaysValid(l0, ops);
    ManifestRoundTrip(Play(l0, ops));
  }
}
