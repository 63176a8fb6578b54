/** `reconstruct_budget_ledger` of src/kuairand_agent/campaign/candidate_journal.py. */
module LedgerRebuild {
  import opened Results
  import opened Budgets
  import opened CampaignDatabase

  /** The text of a launch id. */
  function LaunchText(lid: LaunchId): string {
    match lid
    case Qualification(n) => "qualification-0" + (if 1 <= n <= 6 then ["123456"[n - 1]] else "")
    case CandidateLaunch(id) => id + "-launch"
  }

  predicate OrdinaryLaunch(lid: LaunchId) { lid.Qualification? ==> 1 <= lid.number <= 6 }

  lemma LastCharacter(lid: LaunchId)
    requires OrdinaryLaunch(lid)
    ensures var s := LaunchText(lid);
            |s| > 0 && s[|s|-1] == if lid.Qualification? then "123456"[lid.number - 1] else 'h'
  {
  }

  lemma LaunchTextInjective(a: LaunchId, b: LaunchId)
    requires OrdinaryLaunch(a) && OrdinaryLaunch(b)
    ensures LaunchText(a) == LaunchText(b) ==> a == b
  {
    LastCharacter(a);
    LastCharacter(b);
    var s, t := LaunchText(a), LaunchText(b);
    if a.CandidateLaunch? && b.CandidateLaunch? {
      assert s[..|s|-7] == a.execution && t[..|t|-7] == b.execution;
    }
  }

  /** `_category` */
  function CategoryOf(stored: StoredCategory): Category {
    match stored
    case QualificationImport => BaselineQualificationReplay
    case Of(c) => c
  }

  /** A repair child remembers where it came from; any other launch kept its category. */
  predicate Attributed(l: Launch) {
    if CategoryOf(l.category) == RecoveryReserve then CategoryOf(l.original) != RecoveryReserve
    else CategoryOf(l.original) == CategoryOf(l.category)
  }

  function ChargeOf(n: int, lid: LaunchId, l: Launch): Charge {
    Charge(n, LaunchText(lid), l.terms.purpose, CategoryOf(l.category), CategoryOf(l.original),
           CategoryOf(l.category) == RecoveryReserve, l.category == QualificationImport)
  }

  predicate Known(launches: map<LaunchId, Launch>, order: seq<LaunchId>) { forall lid | lid in order :: lid in launches }

  /** The charged launches in launch order, renumbered from one. */
  function ChargesOf(launches: map<LaunchId, Launch>, order: seq<LaunchId>): (charges: seq<Charge>)
    requires Known(launches, order)
  {
    if order == [] then []
    else
      var lid := order[|order|-1];
      var front := ChargesOf(launches, order[..|order|-1]);
      if launches[lid].charged then front + [ChargeOf(|front| + 1, lid, launches[lid])] else front
  }

  predicate AllAttributed(launches: map<LaunchId, Launch>, order: seq<LaunchId>)
    requires Known(launches, order)
  {
    forall lid | lid in order :: launches[lid].charged ==> Attributed(launches[lid])
  }

  /** The positions of the imported charges are exactly one to six. */
  predicate SixImported(charges: seq<Charge>) {
    |charges| >= QUALIFICATION_LAUNCHES && forall i | 0 <= i < |charges| :: charges[i].imported <==> i < 6
  }

  /** The ledger that the store denotes, or the integrity error that it shows. */
  function Rebuild(db: Database): Result<Ledger, string>
    requires Known(db.launches, db.launchOrder)
  {
    if !AllAttributed(db.launches, db.launchOrder) then Failure("stored launch changed its original category")
    else
      var charges := ChargesOf(db.launches, db.launchOrder);
      if !SixImported(charges) then Failure("qualification charges do not lead")
      else Checked(Ledger(charges, db.iterations, db.transfers, db.maxLaunches, MAX_SCIENTIFIC_ITERATIONS))
  }

  /** `reconstruct_budget_ledger`: the loop over the charged records. */
  method Reconstruct(db: Database) returns (r: Result<Ledger, string>)
    requires Known(db.launches, db.launchOrder)
    ensures r == Rebuild(db)
  {
    var charges: seq<Charge> := [];
    var order := db.launchOrder;
    for k := 0 to |order|
      invariant charges == ChargesOf(db.launches, order[..k])
      invariant AllAttributed(db.launches, order[..k])
    {
      assert order[..k+1][..k] == order[..k];
      var lid := order[k];
      var l := db.launches[lid];
      if l.charged {
        if !Attributed(l) {
          return Failure("stored launch changed its original category");
        }
        charges := charges + [ChargeOf(|charges| + 1, lid, l)];
      }
    }
    assert order[..|order|] == order;
    if !SixImported(charges) {
      return Failure("qualification charges do not lead");
    }
    return Checked(Ledger(charges, db.iterations, db.transfers, db.maxLaunches, MAX_SCIENTIFIC_ITERATIONS));
  }

  // ---------------------------------------------------------------- how writes change the charges

  /** What billing reads of a launch. */
  predicate SameBill(a: Launch, b: Launch) {
    a.charged == b.charged && a.category == b.category && a.original == b.original && a.terms == b.terms
  }

  lemma {:induction false} ChargesFrame(old_: map<LaunchId, Launch>, new_: map<LaunchId, Launch>, order: seq<LaunchId>)
    requires Known(old_, order) && Known(new_, order)
    requires forall lid | lid in order :: SameBill(old_[lid], new_[lid])
    ensures ChargesOf(old_, order) == ChargesOf(new_, order)
  {
    if order != [] {
      assert order[|order|-1] in order;
      ChargesFrame(old_, new_, order[..|order|-1]);
    }
  }

  /** Releasing one charge never raises any count. */
  lemma {:induction false} ChargesShrink(old_: map<LaunchId, Launch>, new_: map<LaunchId, Launch>, order: seq<LaunchId>,
                                         c: Category)
    requires Known(old_, order) && Known(new_, order)
    requires forall lid | lid in order :: SameBill(old_[lid], new_[lid]) || !new_[lid].charged
    ensures |ChargesOf(new_, order)| <= |ChargesOf(old_, order)|
    ensures Used(ChargesOf(new_, order), c) <= Used(ChargesOf(old_, order), c)
  {
    if order != [] {
      var n := |order| - 1;
      var lid := order[n];
      assert lid in order;
      ChargesShrink(old_, new_, order[..n], c);
      var front, front' := ChargesOf(old_, order[..n]), ChargesOf(new_, order[..n]);
      UsedSnoc(front, ChargeOf(|front| + 1, lid, old_[lid]), c);
      UsedSnoc(front', ChargeOf(|front'| + 1, lid, new_[lid]), c);
    }
  }

  lemma ChargesSnoc(launches: map<LaunchId, Launch>, order: seq<LaunchId>, lid: LaunchId)
    requires Known(launches, order + [lid])
    ensures Known(launches, order)
    ensures ChargesOf(launches, order + [lid])
         == var front := ChargesOf(launches, order);
            if launches[lid].charged then front + [ChargeOf(|front| + 1, lid, launches[lid])] else front
  {
    assert (order + [lid])[..|order|] == order;
    assert forall x | x in order :: x in order + [lid];
  }

  // ---------------------------------------------------------------- what the charges look like

  lemma {:induction false} ChargesNumbered(launches: map<LaunchId, Launch>, order: seq<LaunchId>)
    requires Known(launches, order)
    ensures Numbered(ChargesOf(launches, order)) && |ChargesOf(launches, order)| <= |order|
  {
    if order != [] {
      ChargesNumbered(launches, order[..|order|-1]);
    }
  }

  /** Every charge names a charged launch, in the order of launching. */
  lemma {:induction false} ChargeOwner(launches: map<LaunchId, Launch>, order: seq<LaunchId>, i: nat) returns (k: nat)
    requires Known(launches, order) && i < |ChargesOf(launches, order)|
    ensures k < |order| && launches[order[k]].charged && i <= k
    ensures ChargesOf(launches, order)[i] == ChargeOf(i + 1, order[k], launches[order[k]])
    ensures |ChargesOf(launches, order[..k])| == i
  {
    var n := |order| - 1;
    var front := ChargesOf(launches, order[..n]);
    if i < |front| {
      k := ChargeOwner(launches, order[..n], i);
      assert order[..n][..k] == order[..k];
    } else {
      k := n;
      ChargesNumbered(launches, order[..n]);
    }
  }

  /** A rebuilt ledger has the store's iterations, transfers and limit; its i-th charge names a charged launch that i
      charged launches precede, under the launch's purpose, categories and origin. */
  lemma RebuiltExactly(db: Database, i: nat) returns (k: nat)
    requires Known(db.launches, db.launchOrder) && Rebuild(db).Success? && i < |Rebuild(db).value.charges|
    ensures var l := Rebuild(db).value;
            l.iterations == db.iterations && l.transfers == db.transfers && l.maxLaunches == db.maxLaunches
            && l.maxIterations == 50
    ensures k < |db.launchOrder| && db.launches[db.launchOrder[k]].charged
    ensures |ChargesOf(db.launches, db.launchOrder[..k])| == i
    ensures var x, l := Rebuild(db).value.charges[i], db.launches[db.launchOrder[k]];
            && x.number == i + 1 && x.family == l.terms.purpose
            && x.category == (match l.category case QualificationImport => BaselineQualificationReplay case Of(c) => c)
            && x.original == (match l.original case QualificationImport => BaselineQualificationReplay case Of(c) => c)
            && x.repairChild == (l.category == Of(RecoveryReserve)) && x.imported == (l.category == QualificationImport)
            && (db.launchOrder[k].CandidateLaunch? ==> x.execution == db.launchOrder[k].execution + "-launch")
  {
    k := ChargeOwner(db.launches, db.launchOrder, i);
  }

  /** When the rebuild succeeds: every charged launch kept its category, or is a repair that remembers where it came
      from; the imported charges are the first six; and the ledger is valid. */
  lemma RebuildsExactly(db: Database)
    requires Known(db.launches, db.launchOrder)
    ensures var charges := ChargesOf(db.launches, db.launchOrder);
            Rebuild(db).Success?
            <==> && (forall lid | lid in db.launchOrder && db.launches[lid].charged ::
                       var c, from := CategoryOf(db.launches[lid].category), CategoryOf(db.launches[lid].original);
                       if c == RecoveryReserve then from != RecoveryReserve else from == c)
                 && 6 <= |charges| && (forall i | 0 <= i < |charges| :: charges[i].imported <==> i < 6)
                 && ValidLedger(Ledger(charges, db.iterations, db.transfers, db.maxLaunches, 50))
  {
    hide ChargesOf, ValidLedger;
  }

  predicate NoRepeats(order: seq<LaunchId>) { forall i, j | 0 <= i < j < |order| :: order[i] != order[j] }

  lemma ChargesDistinct(launches: map<LaunchId, Launch>, order: seq<LaunchId>)
    requires Known(launches, order) && NoRepeats(order) && forall lid | lid in order :: OrdinaryLaunch(lid)
    ensures DistinctExecutions(ChargesOf(launches, order))
  {
    var charges := ChargesOf(launches, order);
    forall i, j | 0 <= i < j < |charges|
      ensures charges[i].execution != charges[j].execution
    {
      var ki := ChargeOwner(launches, order, i);
      var kj := ChargeOwner(launches, order, j);
      assert ki != kj;
      LaunchTextInjective(order[ki], order[kj]);
    }
  }

  /** Leading charged launches are the leading charges. */
  lemma {:induction false} LeadingCharges(launches: map<LaunchId, Launch>, order: seq<LaunchId>, m: nat)
    requires Known(launches, order) && m <= |order|
    requires forall k | 0 <= k < m :: launches[order[k]].charged
    ensures |ChargesOf(launches, order)| >= m
    ensures forall i | 0 <= i < m :: ChargesOf(launches, order)[i] == ChargeOf(i + 1, order[i], launches[order[i]])
    ensures |order| == m ==> |ChargesOf(launches, order)| == m
  {
    if order != [] {
      hide ChargeOf;
      var n := |order| - 1;
      var front, lead := order[..n], if m <= n then m else n;
      LeadingCharges(launches, front, lead);
      var before := ChargesOf(launches, front);
      forall i | 0 <= i < m
        ensures i < |ChargesOf(launches, order)|
        ensures ChargesOf(launches, order)[i] == ChargeOf(i + 1, order[i], launches[order[i]])
      {
        if i < lead {
          assert before[i] == ChargeOf(i + 1, front[i], launches[front[i]]);
        } else {
          assert i == n && |before| == n && launches[order[n]].charged;
        }
      }
    }
  }
}
