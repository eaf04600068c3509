/**
 * The administrative actions of convex/seedData.ts over the application's store: the
 * seeding-session record, removal of the sample records, clearing every table, and
 * seeding the sample catalogue. The store is a class whose tables are updated in place,
 * one insert, patch or delete at a time. A query or mutation that throws is modelled by
 * a fault parameter naming what fails; the surrounding `try` then skips the rest of
 * that block, as in the source.
 */
module SeedData {
  import opened Wrappers
  import opened Seqs
  import opened Text
  import opened Records
  import opened SeedCatalog

  /** The eight record tables (the seeding-session table is kept apart). */
  datatype Table =
    | SalesTable | ExpensesTable | LiabilitiesTable | SalariesTable | BankPdcTable
    | FutureNeedsTable | BusinessInHandTable | CashflowTable

  /** A stored record of any module. */
  datatype Record =
    | SaleRecord(sale: Sale)
    | ExpenseRecord(expense: Expense)
    | LiabilityRecord(liability: Liability)
    | SalaryRecord(salary: Salary)
    | BankPdcRecord(pdc: BankPdc)
    | FutureNeedRecord(need: FutureNeed)
    | BusinessRecord(business: BusinessInHandRecord)
    | CashflowRecord(entry: CashflowEntry)

  /** A document: its `_id`, its `_creationTime` and its fields. */
  datatype Doc = Doc(id: Id, creationTime: int, record: Record)

  /** A `seedingSessions` document. */
  datatype Session = Session(id: Id, creationTime: int, startTime: int, active: bool)

  // ---------------------------------------------------------------- ids

  function IdOf(d: Doc): Id { d.id }

  function IdsOf(docs: seq<Doc>): seq<Id> { Map(docs, IdOf) }

  function IdSet(ids: seq<Id>): set<Id> { set x | x in ids }

  predicate Distinct(ids: seq<Id>) {
    forall i, j :: 0 <= i < j < |ids| ==> ids[i] != ids[j]
  }

  /** No two documents of a table share an id. */
  predicate UniqueIds(docs: seq<Doc>) {
    forall i, j :: 0 <= i < j < |docs| ==> docs[i].id != docs[j].id
  }

  /** The table after deleting every document whose id is in `gone`, order kept. */
  function WithoutIds(docs: seq<Doc>, gone: set<Id>): (r: seq<Doc>)
    ensures |r| <= |docs|
    ensures forall d :: d in r <==> d in docs && d.id !in gone
    decreases |docs|
  {
    if docs == [] then []
    else (if docs[0].id in gone then [] else [docs[0]]) + WithoutIds(docs[1..], gone)
  }

  /** Deleting works piece by piece, so the documents that stay keep their order. */
  lemma {:induction false} WithoutIdsAppend(a: seq<Doc>, b: seq<Doc>, gone: set<Id>)
    ensures WithoutIds(a + b, gone) == WithoutIds(a, gone) + WithoutIds(b, gone)
    decreases |a|
  {
    if a == [] {
      assert a + b == b;
    } else {
      assert (a + b)[0] == a[0];
      assert (a + b)[1..] == a[1..] + b;
      WithoutIdsAppend(a[1..], b, gone);
    }
  }

  /** Deleting in two rounds is deleting the union. */
  lemma {:induction false} WithoutIdsTwice(docs: seq<Doc>, a: set<Id>, b: set<Id>)
    ensures WithoutIds(WithoutIds(docs, a), b) == WithoutIds(docs, a + b)
    decreases |docs|
  {
    if docs != [] {
      var d0, tail := docs[0], docs[1..];
      WithoutIdsTwice(tail, a, b);
      var rest := WithoutIds(tail, a);
      if d0.id in a {
        assert WithoutIds(docs, a) == rest;
        assert WithoutIds(docs, a + b) == WithoutIds(tail, a + b);
      } else {
        assert WithoutIds(docs, a) == [d0] + rest;
        assert ([d0] + rest)[1..] == rest;
        assert WithoutIds([d0] + rest, b) == (if d0.id in b then [] else [d0]) + WithoutIds(rest, b);
        assert WithoutIds(docs, a + b) == (if d0.id in b then [] else [d0]) + WithoutIds(tail, a + b);
      }
    }
  }

  /** Deletion keeps ids unique. */
  lemma {:induction false} WithoutIdsUnique(docs: seq<Doc>, gone: set<Id>)
    requires UniqueIds(docs)
    ensures UniqueIds(WithoutIds(docs, gone))
    decreases |docs|
  {
    if docs != [] {
      WithoutIdsUnique(docs[1..], gone);
      var rest := WithoutIds(docs[1..], gone);
      forall j | 0 <= j < |rest| ensures rest[j].id != docs[0].id {
        assert rest[j] in docs[1..];
      }
    }
  }

  /** Deleting no id changes nothing. */
  lemma {:induction false} WithoutNoIds(docs: seq<Doc>)
    ensures WithoutIds(docs, {}) == docs
    decreases |docs|
  {
    if docs != [] {
      WithoutNoIds(docs[1..]);
      assert docs == [docs[0]] + docs[1..];
    }
  }

  /** Deleting an id nobody has changes nothing. */
  lemma {:induction false} WithoutAbsentId(docs: seq<Doc>, gone: set<Id>, id: Id)
    requires forall i :: 0 <= i < |docs| ==> docs[i].id != id
    ensures WithoutIds(docs, gone + {id}) == WithoutIds(docs, gone)
    decreases |docs|
  {
    if docs != [] {
      WithoutAbsentId(docs[1..], gone, id);
    }
  }

  /** Deleting one more id, that of the `k`-th document, removes exactly that document. */
  lemma {:induction false} WithoutOneMore(docs: seq<Doc>, gone: set<Id>, k: nat)
    requires UniqueIds(docs) && k < |docs| && docs[k].id !in gone
    ensures |WithoutIds(docs, gone + {docs[k].id})| == |WithoutIds(docs, gone)| - 1
    decreases |docs|
  {
    var id, d0, tail := docs[k].id, docs[0], docs[1..];
    assert WithoutIds(docs, gone) == (if d0.id in gone then [] else [d0]) + WithoutIds(tail, gone);
    assert WithoutIds(docs, gone + {id}) == (if d0.id in gone + {id} then [] else [d0]) + WithoutIds(tail, gone + {id});
    if k == 0 {
      forall i | 0 <= i < |tail| ensures tail[i].id != id {
        assert docs[i + 1] == tail[i];
      }
      WithoutAbsentId(tail, gone, id);
    } else {
      assert d0.id != id;
      assert tail[k - 1] == docs[k];
      assert UniqueIds(tail) by {
        forall i, j | 0 <= i < j < |tail| ensures tail[i].id != tail[j].id {
          assert tail[i] == docs[i + 1] && tail[j] == docs[j + 1];
        }
      }
      WithoutOneMore(tail, gone, k - 1);
    }
  }

  /** One more delete of the loop over `victims`: the next victim's document goes, and only it. */
  lemma DeleteStep(before: seq<Doc>, victims: seq<Id>, k: nat)
    requires UniqueIds(before) && Distinct(victims) && k < |victims| && victims[k] in IdsOf(before)
    ensures var cur := WithoutIds(before, IdSet(victims[..k]));
      && WithoutIds(cur, {victims[k]}) == WithoutIds(before, IdSet(victims[..k + 1]))
      && |WithoutIds(cur, {victims[k]})| == |cur| - 1
      && UniqueIds(WithoutIds(cur, {victims[k]}))
  {
    var id := victims[k];
    var gone := IdSet(victims[..k]);
    assert id !in gone;
    assert victims[..k + 1] == victims[..k] + [id];
    assert IdSet(victims[..k + 1]) == gone + {id};
    WithoutIdsTwice(before, gone, {id});
    var j :| 0 <= j < |before| && IdsOf(before)[j] == id;
    WithoutOneMore(before, gone, j);
    WithoutIdsUnique(before, gone);
    WithoutIdsUnique(WithoutIds(before, gone), {id});
  }

  // ---------------------------------------------------------------- selection

  /** The literals each filter of `removeSeededData` tests with `includes`. */
  datatype SamplePatterns = SamplePatterns(
    sales: seq<string>, expenses: seq<string>, liabilities: seq<string>, salaries: seq<string>,
    bankPdcDescriptions: seq<string>, bankPdcSuppliers: seq<string>, futureNeeds: seq<string>,
    businessInHand: seq<string>, cashflowWords: seq<string>)

  /** The literals as they stand in convex/seedData.ts. */
  const SourcePatterns := SamplePatterns(
    ["Enterprise Software License", "Mobile App Development", "E-commerce Platform",
     "Digital Marketing Campaign", "Cloud Infrastructure Setup"],
    ["MacBook Pro", "Adobe Creative Suite", "Google Ads Campaign", "office rent", "Electricity and Internet"],
    ["Business expansion loan", "Equipment financing"],
    ["John Smith", "Sarah Johnson", "Ahmed Al-Rashid", "Maria Rodriguez", "David Chen", "Lisa Wang"],
    ["Software development", "Office furniture"],
    ["Tech Solutions LLC", "Office Furniture Co"],
    ["New Server Hardware", "Office Expansion", "Monthly Cloud Hosting"],
    ["Enterprise CRM System", "Website Redesign", "Mobile App Contract"],
    ["Sale", "Expense", "Salary", "PDC", "Future Need", "Business in Hand"])

  function SaleInputDescription(s: SaleInput): string { s.description }
  function ExpenseDescription(e: Expense): string { e.description }
  function LiabilityInputDescription(l: LiabilityInput): string { l.description }
  function EmployeeName(s: Salary): string { s.employeeName }
  function PdcDescription(p: BankPdc): string { p.description }
  function NeedDescription(n: FutureNeed): string { n.description }
  function BusinessDescription(b: BusinessInHandRecord): string { b.description }

  /** The literals drawn from a catalogue itself, so that every record of it matches. */
  function PatternsOf(c: Catalog): SamplePatterns {
    SamplePatterns(
      Map(c.sales, SaleInputDescription), Map(c.expenses, ExpenseDescription),
      Map(c.liabilities, LiabilityInputDescription), Map(c.salaries, EmployeeName),
      Map(c.bankPdc, PdcDescription), SourcePatterns.bankPdcSuppliers,
      Map(c.futureNeeds, NeedDescription), Map(c.businessInHand, BusinessDescription),
      SourcePatterns.cashflowWords)
  }

  /** The patterns drawn from the sample catalogue. */
  const CatalogPatterns := PatternsOf(Samples)

  /** The kind of record table `t` stores. */
  predicate Stores(t: Table, r: Record) {
    match t
    case SalesTable => r.SaleRecord?
    case ExpensesTable => r.ExpenseRecord?
    case LiabilitiesTable => r.LiabilityRecord?
    case SalariesTable => r.SalaryRecord?
    case BankPdcTable => r.BankPdcRecord?
    case FutureNeedsTable => r.FutureNeedRecord?
    case BusinessInHandTable => r.BusinessRecord?
    case CashflowTable => r.CashflowRecord?
  }

  /**
   * The filter one of the seven description-matching blocks applies to a record of its table.
   * Only a record of the table's own kind can match, the cash-flow block has a filter of its
   * own, and a liability needs a present, non-empty description.
   */
  predicate IsSampleRecord(p: SamplePatterns, t: Table, r: Record)
    ensures IsSampleRecord(p, t, r) ==> Stores(t, r) && t != CashflowTable
    ensures IsSampleRecord(p, t, r) && r.LiabilityRecord? ==> Truthy(r.liability.description)
  {
    match (t, r)
    case (SalesTable, SaleRecord(s)) => ContainsAny(s.description, p.sales)
    case (ExpensesTable, ExpenseRecord(e)) => ContainsAny(e.description, p.expenses)
    case (LiabilitiesTable, LiabilityRecord(l)) =>
      Truthy(l.description) && ContainsAny(l.description.value, p.liabilities)
    case (SalariesTable, SalaryRecord(s)) => ContainsAny(s.employeeName, p.salaries)
    case (BankPdcTable, BankPdcRecord(x)) =>
      ContainsAny(x.description, p.bankPdcDescriptions) || ContainsAny(x.supplier, p.bankPdcSuppliers)
    case (FutureNeedsTable, FutureNeedRecord(n)) => ContainsAny(n.description, p.futureNeeds)
    case (BusinessInHandTable, BusinessRecord(b)) => ContainsAny(b.description, p.businessInHand)
    case _ => false
  }

  /**
   * The cashflow filter: inside the active session's window `[startTime, now]` when there
   * is one, else by the six words or a category other than "manual".
   */
  predicate IsSampleCashflow(p: SamplePatterns, d: Doc, session: Option<Session>, now: int) {
    match d.record
    case CashflowRecord(c) =>
      if session.Some? then session.value.startTime <= d.creationTime <= now
      else ContainsAny(c.description, p.cashflowWords) || c.category != "manual"
    case _ => false
  }

  /**
   * Both branches of the cash-flow block: with an active session, exactly the entries created
   * inside its window, whatever their text; without one, exactly the entries outside category
   * "manual" or whose description has one of the six words at some position.
   */
  lemma CashflowSelection(p: SamplePatterns, d: Doc, session: Option<Session>, now: int)
    requires d.record.CashflowRecord?
    ensures session.Some? ==> (IsSampleCashflow(p, d, session, now) <==> session.value.startTime <= d.creationTime <= now)
    ensures session.None? ==> (IsSampleCashflow(p, d, session, now) <==>
      d.record.entry.category != "manual" ||
      exists k, i :: 0 <= k < |p.cashflowWords| && OccursAt(d.record.entry.description, p.cashflowWords[k], i))
  {
    var text := d.record.entry.description;
    ContainsAnyIff(text, p.cashflowWords);
    forall k | 0 <= k < |p.cashflowWords| {
      ContainsIff(text, p.cashflowWords[k]);
    }
  }

  /** Whether removal selects document `d` of table `t`. */
  predicate IsSample(p: SamplePatterns, t: Table, d: Doc, session: Option<Session>, now: int) {
    if t == CashflowTable then IsSampleCashflow(p, d, session, now) else IsSampleRecord(p, t, d.record)
  }

  function RecordTest(p: SamplePatterns, t: Table): Doc -> bool {
    (d: Doc) => IsSampleRecord(p, t, d.record)
  }

  function CashflowTest(p: SamplePatterns, session: Option<Session>, now: int): Doc -> bool {
    (d: Doc) => IsSampleCashflow(p, d, session, now)
  }

  /** Every document of `after` was in `before`, and every one of `before` that is not a sample is kept. */
  predicate Thinned(before: seq<Doc>, after: seq<Doc>, isSample: Doc -> bool) {
    (forall d :: d in after ==> d in before) && (forall d :: d in before && !isSample(d) ==> d in after)
  }

  /** No sample is left. */
  predicate Purged(docs: seq<Doc>, isSample: Doc -> bool) {
    forall d :: d in docs ==> !isSample(d)
  }

  /** A liability without a (non-empty) description is never selected. */
  lemma UndescribedLiabilitiesKept(p: SamplePatterns, l: Liability)
    requires !Truthy(l.description)
    ensures !IsSampleRecord(p, LiabilitiesTable, LiabilityRecord(l))
  {
  }

  /** With the literals as written, the seeded sale "AI Chatbot System" is not selected. */
  lemma SourcePatternsMissSeededSale(s: Sale)
    requires s.description == SalesCatalog[5].description
    ensures !IsSampleRecord(SourcePatterns, SalesTable, SaleRecord(s))
  {
    assert s.description == "AI Chatbot System";
    assert |s.description| == 17;
  }

  /**
   * With a catalogue's own descriptions as the patterns, every record created from it is
   * selected (a liability when its description is not empty, since the filter skips those).
   */
  lemma CatalogPatternsCoverSeeds(c: Catalog)
    ensures forall i, s: Sale :: 0 <= i < |c.sales| && s.description == c.sales[i].description ==>
              IsSampleRecord(PatternsOf(c), SalesTable, SaleRecord(s))
    ensures forall i :: 0 <= i < |c.expenses| ==>
              IsSampleRecord(PatternsOf(c), ExpensesTable, ExpenseRecord(c.expenses[i]))
    ensures forall i, l: Liability ::
              0 <= i < |c.liabilities| && c.liabilities[i].description != "" && l.description == Some(c.liabilities[i].description)
              ==> IsSampleRecord(PatternsOf(c), LiabilitiesTable, LiabilityRecord(l))
    ensures forall i :: 0 <= i < |c.salaries| ==>
              IsSampleRecord(PatternsOf(c), SalariesTable, SalaryRecord(c.salaries[i]))
    ensures forall i :: 0 <= i < |c.bankPdc| ==>
              IsSampleRecord(PatternsOf(c), BankPdcTable, BankPdcRecord(c.bankPdc[i]))
    ensures forall i :: 0 <= i < |c.futureNeeds| ==>
              IsSampleRecord(PatternsOf(c), FutureNeedsTable, FutureNeedRecord(c.futureNeeds[i]))
    ensures forall i :: 0 <= i < |c.businessInHand| ==>
              IsSampleRecord(PatternsOf(c), BusinessInHandTable, BusinessRecord(c.businessInHand[i]))
  {
    forall i, s: Sale | 0 <= i < |c.sales| && s.description == c.sales[i].description
      ensures IsSampleRecord(PatternsOf(c), SalesTable, SaleRecord(s))
    {
      ListedIsContained(s.description, PatternsOf(c).sales);
    }
    forall i | 0 <= i < |c.expenses|
      ensures IsSampleRecord(PatternsOf(c), ExpensesTable, ExpenseRecord(c.expenses[i]))
    {
      ListedIsContained(c.expenses[i].description, PatternsOf(c).expenses);
    }
    forall i, l: Liability | 0 <= i < |c.liabilities| && c.liabilities[i].description != ""
                               && l.description == Some(c.liabilities[i].description)
      ensures IsSampleRecord(PatternsOf(c), LiabilitiesTable, LiabilityRecord(l))
    {
      ListedIsContained(l.description.value, PatternsOf(c).liabilities);
    }
    forall i | 0 <= i < |c.salaries|
      ensures IsSampleRecord(PatternsOf(c), SalariesTable, SalaryRecord(c.salaries[i]))
    {
      ListedIsContained(c.salaries[i].employeeName, PatternsOf(c).salaries);
    }
    forall i | 0 <= i < |c.bankPdc|
      ensures IsSampleRecord(PatternsOf(c), BankPdcTable, BankPdcRecord(c.bankPdc[i]))
    {
      ListedIsContained(c.bankPdc[i].description, PatternsOf(c).bankPdcDescriptions);
    }
    forall i | 0 <= i < |c.futureNeeds|
      ensures IsSampleRecord(PatternsOf(c), FutureNeedsTable, FutureNeedRecord(c.futureNeeds[i]))
    {
      ListedIsContained(c.futureNeeds[i].description, PatternsOf(c).futureNeeds);
    }
    forall i | 0 <= i < |c.businessInHand|
      ensures IsSampleRecord(PatternsOf(c), BusinessInHandTable, BusinessRecord(c.businessInHand[i]))
    {
      ListedIsContained(c.businessInHand[i].description, PatternsOf(c).businessInHand);
    }
  }
  /** Every sample liability has a description, so all of them are selected by the catalogue patterns. */
  lemma SampleLiabilitiesDescribed()
    ensures forall i :: 0 <= i < |Samples.liabilities| ==> Samples.liabilities[i].description != ""
  {
    forall i | 0 <= i < |Samples.liabilities| ensures Samples.liabilities[i].description != "" {
      assert Samples.liabilities[i] in LiabilitiesCatalog;
    }
  }

  /**
   * Every record seeding creates from a catalogue is selected by that catalogue's patterns,
   * given create mutations that store the description they are handed and a catalogue
   * whose liabilities all have one. With `RemoveSeededData`'s per-block contract, a block
   * that runs to its end then leaves no seeded record of its table behind.
   */
  lemma SeededRecordsAreSelected(c: Catalog, completeSale: SaleInput -> Sale,
                                 completeLiability: LiabilityInput -> Liability, t: Table)
    requires forall x :: completeSale(x).description == x.description
    requires forall x :: completeLiability(x).description == Some(x.description)
    requires forall i :: 0 <= i < |c.liabilities| ==> c.liabilities[i].description != ""
    ensures forall r :: r in SeedRecords(t, c, completeSale, completeLiability) ==> IsSampleRecord(PatternsOf(c), t, r)
  {
    CatalogPatternsCoverSeeds(c);
    var rs := SeedRecords(t, c, completeSale, completeLiability);
    forall r | r in rs ensures IsSampleRecord(PatternsOf(c), t, r) {
      var i :| 0 <= i < |rs| && rs[i] == r;
      if t == SalesTable {
        assert completeSale(c.sales[i]).description == c.sales[i].description;
      } else if t == LiabilitiesTable {
        assert completeLiability(c.liabilities[i]).description == Some(c.liabilities[i].description);
      }
    }
  }

  // ---------------------------------------------------------------- sessions

  /** The index `.filter(active).first()` finds: the earliest active session. */
  function FirstActive(s: seq<Session>): (r: Option<nat>)
    ensures r.Some? ==> r.value < |s| && s[r.value].active && forall j :: 0 <= j < r.value ==> !s[j].active
    ensures r.None? ==> forall j :: 0 <= j < |s| ==> !s[j].active
    decreases |s|
  {
    if s == [] then None
    else if s[0].active then Some(0)
    else match FirstActive(s[1..])
      case None => None
      case Some(k) => Some(k + 1)
  }

  /** `getActiveSeedingSession`: the earliest active session, if any. */
  function ActiveSession(s: seq<Session>): (r: Option<Session>)
    ensures r.Some? ==> r.value in s && r.value.active
    ensures r.None? <==> forall j :: 0 <= j < |s| ==> !s[j].active
  {
    match FirstActive(s)
    case None => None
    case Some(i) => Some(s[i])
  }

  predicate AtMostOneActive(s: seq<Session>) {
    forall i, j :: 0 <= i < |s| && 0 <= j < |s| && s[i].active && s[j].active ==> i == j
  }

  predicate UniqueSessionIds(s: seq<Session>) {
    forall i, j :: 0 <= i < j < |s| ==> s[i].id != s[j].id
  }

  /**
   * The sessions after `markSeedingSession(startTime)`: the earliest active one is given
   * the new start time and stays active; failing one, a new active session is inserted.
   */
  function MarkedSessions(s: seq<Session>, startTime: int, newId: Id, now: int): (r: seq<Session>)
    ensures FirstActive(s).Some? ==>
      |r| == |s| && forall j :: 0 <= j < |s| && j != FirstActive(s).value ==> r[j] == s[j]
    ensures FirstActive(s).Some? ==> var i := FirstActive(s).value;
      r[i].id == s[i].id && r[i].creationTime == s[i].creationTime && r[i].startTime == startTime && r[i].active
    ensures FirstActive(s).None? ==> |r| == |s| + 1 && r[..|s|] == s && r[|s|] == Session(newId, now, startTime, true)
  {
    match FirstActive(s)
    case Some(i) => s[i := s[i].(startTime := startTime, active := true)]
    case None => s + [Session(newId, now, startTime, true)]
  }

  /** After marking, the active session is the one carrying the new start time. */
  lemma MarkedSessionIsActive(s: seq<Session>, startTime: int, newId: Id, now: int)
    ensures var a := ActiveSession(MarkedSessions(s, startTime, newId, now));
      a.Some? && a.value.startTime == startTime
  {
    var r := MarkedSessions(s, startTime, newId, now);
    match FirstActive(s)
    case Some(i) =>
      assert r[i].active && forall j :: 0 <= j < i ==> !r[j].active;
      var k := FirstActive(r).value;
      assert k == i;
    case None =>
      assert r[|s|].active && forall j :: 0 <= j < |s| ==> !r[j].active;
      var k := FirstActive(r).value;
      assert k == |s|;
  }

  /** Marking keeps at most one session active. */
  lemma MarkedSessionsKeepOneActive(s: seq<Session>, startTime: int, newId: Id, now: int)
    requires AtMostOneActive(s)
    ensures AtMostOneActive(MarkedSessions(s, startTime, newId, now))
  {
  }

  /** `markSeedingSessionInactive(id)` on the session list: the sessions with that id are no longer active. */
  function Deactivated(s: seq<Session>, id: Id): (r: seq<Session>)
    ensures |r| == |s|
    ensures forall j :: 0 <= j < |s| && s[j].id != id ==> r[j] == s[j]
    ensures forall j :: 0 <= j < |s| && s[j].id == id ==> r[j] == s[j].(active := false)
  {
    seq(|s|, j requires 0 <= j < |s| => if s[j].id == id then s[j].(active := false) else s[j])
  }

  /** With unique ids, deactivating a session changes that session and no other. */
  lemma DeactivatedChangesOne(s: seq<Session>, k: nat)
    requires UniqueSessionIds(s) && k < |s|
    ensures var r := Deactivated(s, s[k].id);
      r[k] == s[k].(active := false) && forall j :: 0 <= j < |s| && j != k ==> r[j] == s[j]
  {
    var r := Deactivated(s, s[k].id);
    forall j | 0 <= j < |s| && j != k ensures r[j] == s[j] {
      assert s[j].id != s[k].id;
    }
  }

  /** Deactivating the active session, when it is the only one, leaves none active. */
  lemma DeactivatingTheActiveSession(s: seq<Session>)
    requires AtMostOneActive(s) && ActiveSession(s).Some?
    ensures ActiveSession(Deactivated(s, ActiveSession(s).value.id)).None?
  {
    var i := FirstActive(s).value;
    var r := Deactivated(s, s[i].id);
    forall j | 0 <= j < |r| ensures !r[j].active {
      if s[j].active { assert j == i; }
    }
  }

  // ---------------------------------------------------------------- seeding

  /** The records of the catalogue that were inserted, in order: those whose insert did not fail. */
  function Inserted<T>(records: seq<T>, fails: set<nat>): (r: seq<T>)
    decreases |records|
  {
    if records == [] then []
    else Inserted(records[..|records| - 1], fails)
         + (if |records| - 1 in fails then [] else [records[|records| - 1]])
  }

  /** At most the whole list is inserted, and all of it exactly when no insert fails. */
  lemma {:induction false} InsertedCount<T>(records: seq<T>, fails: set<nat>)
    ensures |Inserted(records, fails)| <= |records|
    ensures |Inserted(records, fails)| == |records| <==> forall i :: 0 <= i < |records| ==> i !in fails
    decreases |records|
  {
    if records != [] {
      var n := |records| - 1;
      InsertedCount(records[..n], fails);
      assert forall i :: 0 <= i < n ==> records[..n][i] == records[i];
    }
  }

  function CompletedSale(complete: SaleInput -> Sale): SaleInput -> Record {
    (s: SaleInput) => SaleRecord(complete(s))
  }

  function CompletedLiability(complete: LiabilityInput -> Liability): LiabilityInput -> Record {
    (l: LiabilityInput) => LiabilityRecord(complete(l))
  }

  function AsExpense(e: Expense): Record { ExpenseRecord(e) }
  function AsSalary(s: Salary): Record { SalaryRecord(s) }
  function AsBankPdc(p: BankPdc): Record { BankPdcRecord(p) }
  function AsFutureNeed(n: FutureNeed): Record { FutureNeedRecord(n) }
  function AsBusiness(b: BusinessInHandRecord): Record { BusinessRecord(b) }

  /** The `recordsAdded` object: one success counter per module. */
  datatype RecordsAdded = RecordsAdded(
    sales: nat, expenses: nat, liabilities: nat, salaries: nat, bankPdc: nat, futureNeeds: nat,
    businessInHand: nat)

  datatype SeedResult = SeedResult(message: string, recordsAdded: RecordsAdded)

  function Total(a: RecordsAdded): nat {
    a.sales + a.expenses + a.liabilities + a.salaries + a.bankPdc + a.futureNeeds + a.businessInHand
  }

  const MessageHead := "Successfully added "
  const MessageTail := " records across all modules!"

  /** The message `seedDatabase` returns for a total. */
  function SeedMessage(total: nat): (r: string)
    ensures |r| > |MessageHead| + |MessageTail|
    ensures r[..|MessageHead|] == MessageHead && r[|r| - |MessageTail|..] == MessageTail
    ensures forall i :: |MessageHead| <= i < |r| - |MessageTail| ==> IsDigit(r[i])
    ensures Decimal(r[|MessageHead|..|r| - |MessageTail|]) == total
  {
    var digits := NatToString(total);
    var r := MessageHead + digits + MessageTail;
    assert r[|MessageHead|..|r| - |MessageTail|] == digits;
    NatToStringRoundTrip(total);
    r
  }

  /** The message spells the total in decimal between its fixed head and tail, so it determines the total. */
  lemma SeedMessageNamesTotal(a: nat, b: nat)
    ensures var m := SeedMessage(a);
      forall i :: |MessageHead| <= i < |m| - |MessageTail| ==> IsDigit(m[i])
    ensures SeedMessage(a) == SeedMessage(b) ==> a == b
  {
    var m := SeedMessage(a);
    assert m[|MessageHead|..|m| - |MessageTail|] == NatToString(a);
    if SeedMessage(a) == SeedMessage(b) {
      assert SeedMessage(b)[|MessageHead|..|m| - |MessageTail|] == NatToString(b);
      NatToStringRoundTrip(a);
      NatToStringRoundTrip(b);
    }
  }

  /** What makes a query or mutation of `removeSeededData` or `clearAllData` throw. */
  datatype Faults = Faults(readFails: set<Table>, deleteFails: set<Id>, sessionsFail: bool)

  predicate NoFaults(f: Faults) {
    f.readFails == {} && f.deleteFails == {} && !f.sessionsFail
  }

  /** What makes a mutation of `seedDatabase` throw: the session mark, or an insert given by table and list index. */
  datatype SeedFaults = SeedFaults(sessionFails: bool, insertFails: set<(Table, nat)>)

  function Failing(f: SeedFaults, t: Table): set<nat> {
    set p | p in f.insertFails && p.0 == t :: p.1
  }

  // ---------------------------------------------------------------- the store

  predicate HasAllTables(m: map<Table, seq<Doc>>) {
    forall t: Table :: t in m
  }

  lemma EveryTable(m: map<Table, seq<Doc>>)
    requires SalesTable in m && ExpensesTable in m && LiabilitiesTable in m && SalariesTable in m
    requires BankPdcTable in m && FutureNeedsTable in m && BusinessInHandTable in m && CashflowTable in m
    ensures HasAllTables(m)
  {
    forall t: Table ensures t in m {
      match t
      case SalesTable =>
      case ExpensesTable =>
      case LiabilitiesTable =>
      case SalariesTable =>
      case BankPdcTable =>
      case FutureNeedsTable =>
      case BusinessInHandTable =>
      case CashflowTable =>
    }
  }

  /** Every table holds documents with unique ids, all below `nextId`. */
  predicate TablesOk(m: map<Table, seq<Doc>>, nextId: Id) {
    && HasAllTables(m)
    && (forall t: Table :: UniqueIds(m[t]))
    && (forall t: Table, d :: d in m[t] ==> d.id < nextId)
  }

  /** Removing documents from one table keeps the tables well formed. */
  lemma TablesOkShrink(m: map<Table, seq<Doc>>, nextId: Id, t: Table, x: seq<Doc>)
    requires TablesOk(m, nextId) && UniqueIds(x) && forall d :: d in x ==> d in m[t]
    ensures TablesOk(m[t := x], nextId)
  {
    var m' := m[t := x];
    forall u: Table ensures u in m' && UniqueIds(m'[u]) && forall d: Doc :: d in m'[u] ==> d.id < nextId {
      assert u in m;
    }
  }

  /** Appending a document with a fresh id to one table keeps the tables well formed. */
  lemma TablesOkGrow(m: map<Table, seq<Doc>>, nextId: Id, t: Table, d: Doc)
    requires TablesOk(m, nextId) && d.id == nextId
    ensures TablesOk(m[t := m[t] + [d]], nextId + 1)
  {
    var m' := m[t := m[t] + [d]];
    forall u: Table ensures u in m' && UniqueIds(m'[u]) && forall e: Doc :: e in m'[u] ==> e.id < nextId + 1 {
      assert u in m;
      if u == t {
        forall i, j | 0 <= i < j < |m'[u]| ensures m'[u][i].id != m'[u][j].id {
          if j == |m[t]| { assert m'[u][i] in m[t]; }
        }
      }
    }
  }

  /** The number of documents in all eight tables. */
  function Size(m: map<Table, seq<Doc>>): nat
    requires HasAllTables(m)
  {
    |m[SalesTable]| + |m[ExpensesTable]| + |m[LiabilitiesTable]| + |m[SalariesTable]| + |m[BankPdcTable]|
    + |m[FutureNeedsTable]| + |m[BusinessInHandTable]| + |m[CashflowTable]|
  }

  /** Replacing one table changes the size by the difference. */
  lemma SizeUpdate(m: map<Table, seq<Doc>>, t: Table, x: seq<Doc>)
    requires HasAllTables(m)
    ensures HasAllTables(m[t := x]) && Size(m[t := x]) == Size(m) - |m[t]| + |x|
  {
    assert HasAllTables(m[t := x]);
  }

  function RecordOf(d: Doc): Record { d.record }

  /** `after` is `before` with documents holding exactly `added` appended. */
  predicate Grew(before: seq<Doc>, after: seq<Doc>, added: seq<Record>) {
    |before| <= |after| && after[..|before|] == before && Map(after[|before|..], RecordOf) == added
  }

  lemma GrewAppend(before: seq<Doc>, cur: seq<Doc>, added: seq<Record>, d: Doc)
    requires Grew(before, cur, added)
    ensures Grew(before, cur + [d], added + [d.record])
  {
    var after := cur + [d];
    assert after[..|before|] == cur[..|before|];
    assert after[|before|..] == cur[|before|..] + [d];
    var m := Map(after[|before|..], RecordOf);
    assert |m| == |added| + 1;
    forall i | 0 <= i < |m| ensures m[i] == (added + [d.record])[i] {
      if i < |added| {
        assert after[|before|..][i] == cur[|before|..][i];
      }
    }
  }

  /** Every value of `Table` is one of its eight constructors, so it is in any set naming all eight. */
  lemma AnyTable(t: Table)
    ensures t in {SalesTable, ExpensesTable, LiabilitiesTable, SalariesTable, BankPdcTable,
                  FutureNeedsTable, BusinessInHandTable, CashflowTable}
  {
    match t
    case SalesTable =>
    case ExpensesTable =>
    case LiabilitiesTable =>
    case SalariesTable =>
    case BankPdcTable =>
    case FutureNeedsTable =>
    case BusinessInHandTable =>
    case CashflowTable =>
  }

  /** A clearing block on `docs` runs to its end: its read succeeds and none of its deletes throws. */
  predicate ClearRuns(faults: Faults, t: Table, docs: seq<Doc>) {
    t !in faults.readFails && forall d :: d in docs ==> d.id !in faults.deleteFails
  }

  /**
   * What one block of `clearAllData` adds to the total: `totalCleared += all.length` follows
   * the loop, so a block adds its table's size when it runs to its end and nothing otherwise.
   */
  function BlockCleared(faults: Faults, t: Table, docs: seq<Doc>): nat {
    if ClearRuns(faults, t, docs) then |docs| else 0
  }

  /** The total `clearAllData` reports: the sizes of the tables whose block ran to its end. */
  function ClearedTotal(faults: Faults, m: map<Table, seq<Doc>>): (r: nat)
    requires HasAllTables(m)
    ensures r <= Size(m)
    ensures (forall t: Table :: ClearRuns(faults, t, m[t])) ==> r == Size(m)
  {
    BlockCleared(faults, SalesTable, m[SalesTable]) + BlockCleared(faults, ExpensesTable, m[ExpensesTable])
    + BlockCleared(faults, LiabilitiesTable, m[LiabilitiesTable]) + BlockCleared(faults, SalariesTable, m[SalariesTable])
    + BlockCleared(faults, BankPdcTable, m[BankPdcTable]) + BlockCleared(faults, FutureNeedsTable, m[FutureNeedsTable])
    + BlockCleared(faults, BusinessInHandTable, m[BusinessInHandTable])
    + BlockCleared(faults, CashflowTable, m[CashflowTable])
  }

  /**
   * Once every block has had its turn, the reported total is at most what went away, and every
   * table whose block ran to its end is empty.
   */
  lemma ClearedTotalBound(faults: Faults, start: map<Table, seq<Doc>>, cur: map<Table, seq<Doc>>)
    requires Cleared(start, cur, 8, faults)
    ensures ClearedTotal(faults, start) <= Size(start) - Size(cur)
    ensures forall t: Table :: ClearRuns(faults, t, start[t]) ==> cur[t] == []
  {
    forall t: Table ensures BlockCleared(faults, t, start[t]) <= |start[t]| - |cur[t]| {
      assert ClearStep(t) < 8;
    }
  }

  /** The position of table `t`'s block among the eight blocks of `clearAllData`. */
  function ClearStep(t: Table): (r: nat)
    ensures r < 8
  {
    match t
    case SalesTable => 0
    case ExpensesTable => 1
    case LiabilitiesTable => 2
    case SalariesTable => 3
    case BankPdcTable => 4
    case FutureNeedsTable => 5
    case BusinessInHandTable => 6
    case CashflowTable => 7
  }

  /**
   * Clearing so far, from `start` to `cur`, once the first `k` blocks have had their turn:
   * documents only went away, every table of those blocks whose block ran to its end is
   * empty, and the tables not yet reached are as they were.
   */
  ghost predicate Cleared(start: map<Table, seq<Doc>>, cur: map<Table, seq<Doc>>, k: nat, faults: Faults) {
    && HasAllTables(start) && HasAllTables(cur)
    && (forall t: Table, d :: d in cur[t] ==> d in start[t])
    && (forall t: Table :: |cur[t]| <= |start[t]|)
    && (forall t :: ClearStep(t) < k && ClearRuns(faults, t, start[t]) ==> cur[t] == [])
    && (forall t :: k <= ClearStep(t) ==> cur[t] == start[t])
  }

  /** The seven modules in the order `seedDatabase` fills them. */
  const SeedOrder: seq<Table> := [SalesTable, ExpensesTable, LiabilitiesTable, SalariesTable, BankPdcTable,
                                  FutureNeedsTable, BusinessInHandTable]

  /** A table's place in the seeding order; the cashflow table, which is not seeded, comes last. */
  function Position(t: Table): nat {
    match t
    case SalesTable => 0
    case ExpensesTable => 1
    case LiabilitiesTable => 2
    case SalariesTable => 3
    case BankPdcTable => 4
    case FutureNeedsTable => 5
    case BusinessInHandTable => 6
    case CashflowTable => 7
  }

  lemma PositionInOrder(k: nat)
    requires k < |SeedOrder|
    ensures Position(SeedOrder[k]) == k
  {
    if k == 0 {} else if k == 1 {} else if k == 2 {} else if k == 3 {} else if k == 4 {} else if k == 5 {} else {}
  }

  /** Seeding so far, from `start` to `cur`: the first `k` modules grew by their inserted records, the others are as they were. */
  ghost predicate Seeded(start: map<Table, seq<Doc>>, cur: map<Table, seq<Doc>>, k: nat,
                         c: Catalog, completeSale: SaleInput -> Sale, completeLiability: LiabilityInput -> Liability, f: SeedFaults)
  {
    && HasAllTables(start) && HasAllTables(cur)
    && forall u: Table :: SeededTable(start, cur, k, c, completeSale, completeLiability, f, u)
  }

  ghost predicate SeededTable(start: map<Table, seq<Doc>>, cur: map<Table, seq<Doc>>, k: nat,
                              c: Catalog, completeSale: SaleInput -> Sale, completeLiability: LiabilityInput -> Liability,
                              f: SeedFaults, u: Table)
    requires HasAllTables(start) && HasAllTables(cur)
  {
    if Position(u) < k then Grew(start[u], cur[u], Inserted(SeedRecords(u, c, completeSale, completeLiability), Failing(f, u)))
    else cur[u] == start[u]
  }

  /** How many records the `j`-th module in the seeding order inserts. */
  function ModuleCount(j: nat, c: Catalog, completeSale: SaleInput -> Sale, completeLiability: LiabilityInput -> Liability,
                       f: SeedFaults): nat
    requires j < |SeedOrder|
  {
    |Inserted(SeedRecords(SeedOrder[j], c, completeSale, completeLiability), Failing(f, SeedOrder[j]))|
  }

  /** The per-module counters, in seeding order, are the counts of records inserted. */
  lemma CountsInOrder(counts: seq<nat>, c: Catalog, completeSale: SaleInput -> Sale, completeLiability: LiabilityInput -> Liability,
                      f: SeedFaults)
    requires |counts| == |SeedOrder|
    requires forall j :: 0 <= j < |SeedOrder| ==> counts[j] == ModuleCount(j, c, completeSale, completeLiability, f)
    ensures RecordsAdded(counts[0], counts[1], counts[2], counts[3], counts[4], counts[5], counts[6])
         == Counts(c, completeSale, completeLiability, f)
  {
    assert counts[0] == ModuleCount(0, c, completeSale, completeLiability, f);
    assert counts[6] == ModuleCount(6, c, completeSale, completeLiability, f);
  }

  /** When the seven modules are done, the progress facts are the seeding's contract. */
  lemma SeededDone(start: map<Table, seq<Doc>>, cur: map<Table, seq<Doc>>,
                   c: Catalog, completeSale: SaleInput -> Sale, completeLiability: LiabilityInput -> Liability, f: SeedFaults)
    requires Seeded(start, cur, |SeedOrder|, c, completeSale, completeLiability, f)
    ensures forall t: Table :: t != CashflowTable ==>
              Grew(start[t], cur[t], Inserted(SeedRecords(t, c, completeSale, completeLiability), Failing(f, t)))
    ensures cur[CashflowTable] == start[CashflowTable]
  {
    forall t: Table | t != CashflowTable
      ensures Grew(start[t], cur[t], Inserted(SeedRecords(t, c, completeSale, completeLiability), Failing(f, t)))
    {
      assert SeededTable(start, cur, |SeedOrder|, c, completeSale, completeLiability, f, t);
    }
    assert SeededTable(start, cur, |SeedOrder|, c, completeSale, completeLiability, f, CashflowTable);
  }

  /** The records `seedDatabase` creates in table `t` from catalogue `c`, in list order. */
  function SeedRecords(t: Table, c: Catalog, completeSale: SaleInput -> Sale, completeLiability: LiabilityInput -> Liability): (r: seq<Record>)
    ensures t == SalesTable ==> |r| == |c.sales| && forall i :: 0 <= i < |r| ==> r[i] == SaleRecord(completeSale(c.sales[i]))
    ensures t == ExpensesTable ==> |r| == |c.expenses| && forall i :: 0 <= i < |r| ==> r[i] == ExpenseRecord(c.expenses[i])
    ensures t == LiabilitiesTable ==>
      |r| == |c.liabilities| && forall i :: 0 <= i < |r| ==> r[i] == LiabilityRecord(completeLiability(c.liabilities[i]))
    ensures t == SalariesTable ==> |r| == |c.salaries| && forall i :: 0 <= i < |r| ==> r[i] == SalaryRecord(c.salaries[i])
    ensures t == BankPdcTable ==> |r| == |c.bankPdc| && forall i :: 0 <= i < |r| ==> r[i] == BankPdcRecord(c.bankPdc[i])
    ensures t == FutureNeedsTable ==>
      |r| == |c.futureNeeds| && forall i :: 0 <= i < |r| ==> r[i] == FutureNeedRecord(c.futureNeeds[i])
    ensures t == BusinessInHandTable ==>
      |r| == |c.businessInHand| && forall i :: 0 <= i < |r| ==> r[i] == BusinessRecord(c.businessInHand[i])
    ensures t == CashflowTable ==> r == []
  {
    match t
    case SalesTable => Map(c.sales, CompletedSale(completeSale))
    case ExpensesTable => Map(c.expenses, AsExpense)
    case LiabilitiesTable => Map(c.liabilities, CompletedLiability(completeLiability))
    case SalariesTable => Map(c.salaries, AsSalary)
    case BankPdcTable => Map(c.bankPdc, AsBankPdc)
    case FutureNeedsTable => Map(c.futureNeeds, AsFutureNeed)
    case BusinessInHandTable => Map(c.businessInHand, AsBusiness)
    case CashflowTable => []
  }

  /** The counters `seedDatabase` reports: how many records of each list were created. */
  function Counts(c: Catalog, completeSale: SaleInput -> Sale, completeLiability: LiabilityInput -> Liability, f: SeedFaults): (r: RecordsAdded)
    ensures r.sales <= |c.sales| && r.expenses <= |c.expenses| && r.liabilities <= |c.liabilities|
    ensures r.salaries <= |c.salaries| && r.bankPdc <= |c.bankPdc| && r.futureNeeds <= |c.futureNeeds|
    ensures r.businessInHand <= |c.businessInHand|
    ensures f.insertFails == {} ==>
      r == RecordsAdded(|c.sales|, |c.expenses|, |c.liabilities|, |c.salaries|, |c.bankPdc|, |c.futureNeeds|,
                        |c.businessInHand|)
  {
    var sales := SeedRecords(SalesTable, c, completeSale, completeLiability);
    var expenses := SeedRecords(ExpensesTable, c, completeSale, completeLiability);
    var liabilities := SeedRecords(LiabilitiesTable, c, completeSale, completeLiability);
    var salaries := SeedRecords(SalariesTable, c, completeSale, completeLiability);
    var pdcs := SeedRecords(BankPdcTable, c, completeSale, completeLiability);
    var needs := SeedRecords(FutureNeedsTable, c, completeSale, completeLiability);
    var business := SeedRecords(BusinessInHandTable, c, completeSale, completeLiability);
    InsertedCount(sales, Failing(f, SalesTable));
    InsertedCount(expenses, Failing(f, ExpensesTable));
    InsertedCount(liabilities, Failing(f, LiabilitiesTable));
    InsertedCount(salaries, Failing(f, SalariesTable));
    InsertedCount(pdcs, Failing(f, BankPdcTable));
    InsertedCount(needs, Failing(f, FutureNeedsTable));
    InsertedCount(business, Failing(f, BusinessInHandTable));
    RecordsAdded(
      |Inserted(sales, Failing(f, SalesTable))|, |Inserted(expenses, Failing(f, ExpensesTable))|,
      |Inserted(liabilities, Failing(f, LiabilitiesTable))|, |Inserted(salaries, Failing(f, SalariesTable))|,
      |Inserted(pdcs, Failing(f, BankPdcTable))|, |Inserted(needs, Failing(f, FutureNeedsTable))|,
      |Inserted(business, Failing(f, BusinessInHandTable))|)
  }

  /** With the sample catalogue: at most 14, 13, 5, 6, 5, 6 and 6 records, and all 55 when no insert fails. */
  lemma SampleCounts(completeSale: SaleInput -> Sale, completeLiability: LiabilityInput -> Liability, f: SeedFaults)
    ensures var r := Counts(Samples, completeSale, completeLiability, f);
      && r.sales <= 14 && r.expenses <= 13 && r.liabilities <= 5 && r.salaries <= 6
      && r.bankPdc <= 5 && r.futureNeeds <= 6 && r.businessInHand <= 6
      && (f.insertFails == {} ==> r == RecordsAdded(14, 13, 5, 6, 5, 6, 6) && Total(r) == 55)
  {
    assert |Samples.sales| == 14 && |Samples.expenses| == 13 && |Samples.liabilities| == 5;
  }

  class Database {
    var tables: map<Table, seq<Doc>>
    var sessions: seq<Session>
    /** The next id the store hands out; every id in use is below it. */
    var nextId: Id

    predicate Valid()
      reads this
    {
      && TablesOk(tables, nextId)
      && UniqueSessionIds(sessions)
      && (forall s :: s in sessions ==> s.id < nextId)
    }

    /** An empty store. */
    constructor ()
      ensures Valid() && sessions == [] && forall t: Table :: tables[t] == []
    {
      var empty := map[SalesTable := [], ExpensesTable := [], LiabilitiesTable := [], SalariesTable := [],
                       BankPdcTable := [], FutureNeedsTable := [], BusinessInHandTable := [], CashflowTable := []];
      EveryTable(empty);
      tables := empty;
      sessions := [];
      nextId := 0;
    }

    /** `markSeedingSession(startTime)`, run at time `now`. */
    method MarkSeedingSession(startTime: int, now: int)
      requires Valid()
      modifies this
      ensures Valid() && tables == old(tables)
      ensures sessions == MarkedSessions(old(sessions), startTime, old(nextId), now)
      ensures nextId == old(nextId) + (if FirstActive(old(sessions)).None? then 1 else 0)
    {
      match FirstActive(sessions)
      case Some(i) =>
        sessions := sessions[i := sessions[i].(startTime := startTime, active := true)];
      case None =>
        sessions := sessions + [Session(nextId, now, startTime, true)];
        nextId := nextId + 1;
    }

    /** `markSeedingSessionInactive(sessionId)`. */
    method MarkSeedingSessionInactive(sessionId: Id)
      requires Valid()
      modifies this
      ensures Valid() && tables == old(tables) && nextId == old(nextId)
      ensures sessions == Deactivated(old(sessions), sessionId)
    {
      sessions := Deactivated(sessions, sessionId);
    }

    /** `getActiveSeedingSession()`. */
    function GetActiveSeedingSession(): (r: Option<Session>)
      reads this
      ensures r == ActiveSession(sessions)
      ensures r.Some? ==> r.value in sessions && r.value.active
    {
      ActiveSession(sessions)
    }

    /**
     * `for (const x of victims) { await delete(x); count++ }` on table `t`: the deletes run
     * in order until one throws, and the count is the number that succeeded.
     */
    method DeleteEach(t: Table, victims: seq<Id>, deleteFails: set<Id>) returns (removed: nat)
      requires Valid() && Distinct(victims)
      requires forall i :: 0 <= i < |victims| ==> victims[i] in IdsOf(tables[t])
      modifies this
      ensures Valid() && sessions == old(sessions) && nextId == old(nextId)
      ensures removed <= |victims| && (forall i :: 0 <= i < removed ==> victims[i] !in deleteFails)
      ensures removed < |victims| ==> victims[removed] in deleteFails
      ensures tables == old(tables)[t := WithoutIds(old(tables[t]), IdSet(victims[..removed]))]
      ensures |tables[t]| == |old(tables[t])| - removed
    {
      ghost var before := tables[t];
      WithoutNoIds(before);
      assert IdSet(victims[..0]) == {};
      assert tables == old(tables)[t := before];
      removed := 0;
      while removed < |victims| && victims[removed] !in deleteFails
        invariant 0 <= removed <= |victims|
        invariant Valid() && sessions == old(sessions) && nextId == old(nextId)
        invariant forall i :: 0 <= i < removed ==> victims[i] !in deleteFails
        invariant tables == old(tables)[t := tables[t]]
        invariant tables[t] == WithoutIds(before, IdSet(victims[..removed]))
        invariant |tables[t]| == |before| - removed
      {
        DeleteStep(before, victims, removed);
        DeleteDoc(t, victims[removed]);
        removed := removed + 1;
      }
    }

    /** `ctx.db.delete(id)` on a document of table `t` whose deletion keeps its ids unique. */
    method DeleteDoc(t: Table, id: Id)
      requires Valid() && UniqueIds(WithoutIds(tables[t], {id}))
      modifies this
      ensures Valid() && sessions == old(sessions) && nextId == old(nextId)
      ensures tables == old(tables)[t := WithoutIds(old(tables[t]), {id})]
    {
      TablesOkShrink(tables, nextId, t, WithoutIds(tables[t], {id}));
      tables := tables[t := WithoutIds(tables[t], {id})];
    }

    /**
     * One block of `removeSeededData` on table `t`: read the table, keep the samples, and
     * delete them one by one; a failing read or delete ends the block.
     */
    method RemoveWhere(t: Table, isSample: Doc -> bool, faults: Faults) returns (removed: nat)
      requires Valid()
      modifies this
      ensures Valid() && sessions == old(sessions) && nextId == old(nextId)
      ensures tables == old(tables)[t := tables[t]]
      ensures Thinned(old(tables[t]), tables[t], isSample)
      ensures RemovalRuns(faults, t, old(tables[t]), isSample) ==> Purged(tables[t], isSample)
      ensures t in faults.readFails ==> tables == old(tables)
      ensures removed == |old(tables[t])| - |tables[t]|
    {
      if t in faults.readFails {
        return 0;
      }
      var docs := tables[t];
      var samples := Filter(docs, isSample);
      var victims := IdsOf(samples);
      SamplesKeepIds(docs, isSample);
      removed := DeleteEach(t, victims, faults.deleteFails);
      NonSamplesSurvive(docs, isSample, removed);
      if RemovalRuns(faults, t, docs, isSample) {
        SamplesAllDeleted(docs, isSample, faults.deleteFails, removed);
      }
    }

    /** One module's block of `removeSeededData`, advancing the removal's progress by table `t`. */
    method RemoveModule(t: Table, isSample: Doc -> bool, faults: Faults, ghost start: map<Table, seq<Doc>>,
                        ghost p: SamplePatterns, ghost window: Option<Session>, ghost now: int,
                        ghost done: set<Table>) returns (removed: nat)
      requires Valid() && Progress(start, tables, p, window, now, done, faults)
      requires isSample == SampleTestFor(p, t, window, now)
      requires t == CashflowTable ==> !faults.sessionsFail
      modifies this
      ensures Valid() && sessions == old(sessions) && nextId == old(nextId)
      ensures Progress(start, tables, p, window, now, done + {t}, faults)
      ensures removed == Size(old(tables)) - Size(tables)
    {
      ghost var mid := tables;
      BlockRunsShrink(p, t, start[t], tables[t], window, now, faults);
      BlockRunsRemoval(p, t, tables[t], window, now, faults);
      removed := RemoveWhere(t, isSample, faults);
      ProgressStep(start, mid, tables, t, p, window, now, done, faults);
      SizeUpdate(mid, t, tables[t]);
    }

    /**
     * One block of `clearAllData` on table `t`: read it, delete every document, and only
     * when the whole loop went through add the number read to the total.
     */
    method ClearTable(t: Table, faults: Faults) returns (cleared: nat)
      requires Valid()
      modifies this
      ensures Valid() && sessions == old(sessions) && nextId == old(nextId)
      ensures tables == old(tables)[t := tables[t]]
      ensures forall d :: d in tables[t] ==> d in old(tables[t])
      ensures cleared <= |old(tables[t])| - |tables[t]|
      ensures ClearRuns(faults, t, old(tables[t])) ==> tables[t] == []
      ensures cleared == BlockCleared(faults, t, old(tables[t]))
    {
      if t in faults.readFails {
        return 0;
      }
      var docs := tables[t];
      var victims := IdsOf(docs);
      assert Distinct(victims);
      var removed := DeleteEach(t, victims, faults.deleteFails);
      if ClearRuns(faults, t, docs) {
        forall i | 0 <= i < |victims| ensures victims[i] !in faults.deleteFails {
          assert docs[i] in docs;
        }
      }
      if removed < |victims| {
        // A delete threw: the rest of the block, including the addition, is skipped.
        assert docs[removed] in docs;
        cleared := 0;
      } else {
        assert victims[..removed] == victims;
        forall d | d in docs ensures d.id !in faults.deleteFails {
          var i :| 0 <= i < |docs| && docs[i] == d;
          assert victims[i] == d.id;
        }
        cleared := |docs|;
      }
    }

    /** One block of `clearAllData`, advancing the clearing's progress by table `t`. */
    method ClearModule(t: Table, faults: Faults, ghost start: map<Table, seq<Doc>>, ghost k: nat)
        returns (cleared: nat)
      requires Valid() && k == ClearStep(t) && Cleared(start, tables, k, faults)
      modifies this
      ensures Valid() && sessions == old(sessions) && nextId == old(nextId)
      ensures Cleared(start, tables, k + 1, faults)
      ensures cleared == BlockCleared(faults, t, start[t])
    {
      ghost var mid := tables;
      cleared := ClearTable(t, faults);
      forall u: Table, d | d in tables[u] ensures d in start[u] {
        if u != t { assert tables[u] == mid[u]; }
      }
      forall u: Table ensures |tables[u]| <= |start[u]| {
        if u != t { assert tables[u] == mid[u]; }
      }
      assert ClearRuns(faults, t, start[t]) ==> ClearRuns(faults, t, mid[t]);
      forall u | ClearStep(u) < ClearStep(t) + 1 && ClearRuns(faults, u, start[u]) ensures tables[u] == [] {
        if u != t { assert tables[u] == mid[u]; }
      }
      forall u | ClearStep(t) + 1 <= ClearStep(u) ensures tables[u] == start[u] {
        assert tables[u] == mid[u];
      }
    }

    /** `clearAllData()`. */
    method ClearAllData(faults: Faults) returns (totalCleared: nat)
      requires Valid()
      modifies this
      ensures Valid() && sessions == old(sessions) && nextId == old(nextId)
      ensures forall t: Table, d :: d in tables[t] ==> d in old(tables[t])
      ensures totalCleared <= Size(old(tables)) - Size(tables)
      ensures totalCleared == ClearedTotal(faults, old(tables))
      ensures forall t: Table :: ClearRuns(faults, t, old(tables[t])) ==> tables[t] == []
      ensures faults.readFails == {} && faults.deleteFails == {} ==>
                (forall t: Table :: tables[t] == []) && totalCleared == Size(old(tables))
    {
      assert ClearStep(SalesTable) == 0 && ClearStep(ExpensesTable) == 1 && ClearStep(LiabilitiesTable) == 2;
      assert ClearStep(SalariesTable) == 3 && ClearStep(BankPdcTable) == 4 && ClearStep(FutureNeedsTable) == 5;
      assert ClearStep(BusinessInHandTable) == 6 && ClearStep(CashflowTable) == 7;
      totalCleared := 0;
      var n;
      n := ClearModule(SalesTable, faults, old(tables), 0);
      totalCleared := totalCleared + n;
      n := ClearModule(ExpensesTable, faults, old(tables), 1);
      totalCleared := totalCleared + n;
      n := ClearModule(LiabilitiesTable, faults, old(tables), 2);
      totalCleared := totalCleared + n;
      n := ClearModule(SalariesTable, faults, old(tables), 3);
      totalCleared := totalCleared + n;
      n := ClearModule(BankPdcTable, faults, old(tables), 4);
      totalCleared := totalCleared + n;
      n := ClearModule(FutureNeedsTable, faults, old(tables), 5);
      totalCleared := totalCleared + n;
      n := ClearModule(BusinessInHandTable, faults, old(tables), 6);
      totalCleared := totalCleared + n;
      n := ClearModule(CashflowTable, faults, old(tables), 7);
      totalCleared := totalCleared + n;
      ClearedTotalBound(faults, old(tables), tables);
      if faults.readFails == {} && faults.deleteFails == {} {
        forall t: Table ensures ClearRuns(faults, t, old(tables[t])) {
        }
      }
    }

    /** Inserting one record into table `t` through its create mutation, at time `clock`. */
    method Insert(t: Table, r: Record, clock: int)
      requires Valid()
      modifies this
      ensures Valid() && sessions == old(sessions) && nextId == old(nextId) + 1
      ensures tables == old(tables)[t := old(tables[t]) + [Doc(old(nextId), clock, r)]]
    {
      TablesOkGrow(tables, nextId, t, Doc(nextId, clock, r));
      tables := tables[t := tables[t] + [Doc(nextId, clock, r)]];
      nextId := nextId + 1;
    }

    /**
     * `for (const x of list) { try { await create(x); count++ } catch {} }` on table `t`:
     * the inserts whose index is in `fails` throw and are skipped, the others are stored in order.
     */
    method InsertEach(t: Table, records: seq<Record>, fails: set<nat>, clock: int) returns (count: nat)
      requires Valid()
      modifies this
      ensures Valid() && sessions == old(sessions) && nextId >= old(nextId)
      ensures tables == old(tables)[t := tables[t]]
      ensures Grew(old(tables[t]), tables[t], Inserted(records, fails))
      ensures count == |Inserted(records, fails)|
    {
      ghost var before := tables[t];
      count := 0;
      for i := 0 to |records|
        invariant Valid() && sessions == old(sessions) && nextId >= old(nextId)
        invariant tables == old(tables)[t := tables[t]]
        invariant Grew(before, tables[t], Inserted(records[..i], fails))
        invariant count == |Inserted(records[..i], fails)|
      {
        assert records[..i + 1][..i] == records[..i];
        ghost var cur := tables[t];
        if i !in fails {
          Insert(t, records[i], clock);
          GrewAppend(before, cur, Inserted(records[..i], fails), Doc(nextId - 1, clock, records[i]));
          count := count + 1;
        }
      }
      assert records[..|records|] == records;
    }

    /**
     * `seedDatabase()`, run at time `clock`. The create mutations of sales and liabilities
     * derive fields this model does not see, so they are given as the functions
     * `completeSale` and `completeLiability`.
     */
    method SeedDatabase(clock: int, completeSale: SaleInput -> Sale, completeLiability: LiabilityInput -> Liability,
                        faults: SeedFaults) returns (result: SeedResult)
      requires Valid()
      modifies this
      ensures Valid()
      ensures sessions == if faults.sessionFails then old(sessions) else MarkedSessions(old(sessions), clock, old(nextId), clock)
      ensures forall t: Table :: t != CashflowTable ==>
                Grew(old(tables[t]), tables[t], Inserted(SeedRecords(t, Samples, completeSale, completeLiability), Failing(faults, t)))
      ensures tables[CashflowTable] == old(tables[CashflowTable])
      ensures result.recordsAdded == Counts(Samples, completeSale, completeLiability, faults)
      ensures result.message == SeedMessage(Total(result.recordsAdded))
    {
      if !faults.sessionFails {
        MarkSeedingSession(clock, clock);
      }
      ghost var s0 := tables;
      var counts := SeedModules(clock, Samples, completeSale, completeLiability, faults);
      var added := RecordsAdded(counts[0], counts[1], counts[2], counts[3], counts[4], counts[5], counts[6]);
      CountsInOrder(counts, Samples, completeSale, completeLiability, faults);
      result := SeedResult(SeedMessage(Total(added)), added);
      SeededDone(s0, tables, Samples, completeSale, completeLiability, faults);
    }

    /** The seven blocks of `seedDatabase`, one per module in seeding order, each with its own list and counter. */
    method SeedModules(clock: int, c: Catalog, completeSale: SaleInput -> Sale, completeLiability: LiabilityInput -> Liability,
                       faults: SeedFaults) returns (counts: seq<nat>)
      requires Valid()
      modifies this
      ensures Valid() && sessions == old(sessions)
      ensures Seeded(old(tables), tables, |SeedOrder|, c, completeSale, completeLiability, faults)
      ensures |counts| == |SeedOrder|
      ensures forall j :: 0 <= j < |SeedOrder| ==> counts[j] == ModuleCount(j, c, completeSale, completeLiability, faults)
    {
      ghost var s0 := tables;
      forall u: Table ensures SeededTable(s0, tables, 0, c, completeSale, completeLiability, faults, u) {}
      counts := [];
      for k := 0 to |SeedOrder|
        invariant Valid() && sessions == old(sessions)
        invariant Seeded(s0, tables, k, c, completeSale, completeLiability, faults)
        invariant |counts| == k
        invariant forall j :: 0 <= j < k ==> counts[j] == ModuleCount(j, c, completeSale, completeLiability, faults)
      {
        PositionInOrder(k);
        var n := SeedModule(SeedOrder[k], clock, c, completeSale, completeLiability, faults, s0, k);
        assert n == ModuleCount(k, c, completeSale, completeLiability, faults);
        ghost var before := counts;
        counts := counts + [n];
        assert counts[..k] == before && counts[k] == n;
      }
    }

    /** One module's loop of `seedDatabase`, the `k`-th in the seeding order. */
    method SeedModule(t: Table, clock: int, c: Catalog, completeSale: SaleInput -> Sale, completeLiability: LiabilityInput -> Liability,
                      faults: SeedFaults, ghost start: map<Table, seq<Doc>>, ghost k: nat) returns (count: nat)
      requires Valid() && Seeded(start, tables, k, c, completeSale, completeLiability, faults) && Position(t) == k
      modifies this
      ensures Valid() && sessions == old(sessions)
      ensures Seeded(start, tables, k + 1, c, completeSale, completeLiability, faults)
      ensures count == |Inserted(SeedRecords(t, c, completeSale, completeLiability), Failing(faults, t))|
    {
      ghost var mid := tables;
      count := InsertEach(t, SeedRecords(t, c, completeSale, completeLiability), Failing(faults, t), clock);
      ghost var cur, next := tables, k + 1;
      forall u: Table ensures u in cur { assert u in mid; }
      forall u: Table ensures SeededTable(start, cur, next, c, completeSale, completeLiability, faults, u) {
        assert SeededTable(start, mid, k, c, completeSale, completeLiability, faults, u);
        if u != t {
          assert cur[u] == mid[u];
        }
      }
    }

    /** `removeSeededData()`, with `now` the clock reading the cashflow window ends at. */
    method RemoveSeededData(patterns: SamplePatterns, now: int, faults: Faults) returns (totalRemoved: nat)
      requires Valid()
      modifies this
      ensures Valid() && nextId == old(nextId)
      ensures forall t: Table, d :: d in tables[t] ==> d in old(tables[t])
      ensures forall t: Table, d :: d in old(tables[t]) && !IsSample(patterns, t, d, ActiveSession(old(sessions)), now)
                ==> d in tables[t]
      ensures forall t: Table :: BlockRuns(patterns, t, old(tables[t]), ActiveSession(old(sessions)), now, faults) ==>
                forall d :: d in tables[t] ==> !IsSample(patterns, t, d, ActiveSession(old(sessions)), now)
      ensures NoFaults(faults) ==>
                forall t: Table, d :: d in tables[t] ==> !IsSample(patterns, t, d, ActiveSession(old(sessions)), now)
      ensures totalRemoved == Size(old(tables)) - Size(tables)
      ensures sessions == if !faults.sessionsFail && ActiveSession(old(sessions)).Some?
                          then Deactivated(old(sessions), ActiveSession(old(sessions)).value.id)
                          else old(sessions)
    {
      ghost var window := ActiveSession(sessions);
      ghost var done: set<Table> := {};
      ProgressStart(tables, patterns, window, now, faults);
      totalRemoved := 0;
      var n;
      n := RemoveModule(SalesTable, RecordTest(patterns, SalesTable), faults, old(tables), patterns, window, now, done);
      totalRemoved, done := totalRemoved + n, done + {SalesTable};
      n := RemoveModule(ExpensesTable, RecordTest(patterns, ExpensesTable), faults, old(tables), patterns, window, now, done);
      totalRemoved, done := totalRemoved + n, done + {ExpensesTable};
      n := RemoveModule(LiabilitiesTable, RecordTest(patterns, LiabilitiesTable), faults, old(tables), patterns, window, now, done);
      totalRemoved, done := totalRemoved + n, done + {LiabilitiesTable};
      n := RemoveModule(SalariesTable, RecordTest(patterns, SalariesTable), faults, old(tables), patterns, window, now, done);
      totalRemoved, done := totalRemoved + n, done + {SalariesTable};
      n := RemoveModule(BankPdcTable, RecordTest(patterns, BankPdcTable), faults, old(tables), patterns, window, now, done);
      totalRemoved, done := totalRemoved + n, done + {BankPdcTable};
      n := RemoveModule(FutureNeedsTable, RecordTest(patterns, FutureNeedsTable), faults, old(tables), patterns, window, now, done);
      totalRemoved, done := totalRemoved + n, done + {FutureNeedsTable};
      n := RemoveModule(BusinessInHandTable, RecordTest(patterns, BusinessInHandTable), faults, old(tables), patterns, window, now, done);
      totalRemoved, done := totalRemoved + n, done + {BusinessInHandTable};
      // The cashflow block reads the table, then the active session; either may throw.
      if !faults.sessionsFail {
        var active := GetActiveSeedingSession();
        n := RemoveModule(CashflowTable, CashflowTest(patterns, active, now), faults, old(tables), patterns, window, now, done);
        totalRemoved := totalRemoved + n;
      } else {
        ProgressSkip(old(tables), tables, patterns, window, now, done, faults, CashflowTable);
      }
      done := done + {CashflowTable};
      ProgressDone(old(tables), tables, patterns, window, now, done, faults);
      if !faults.sessionsFail {
        var active := GetActiveSeedingSession();
        if active.Some? {
          MarkSeedingSessionInactive(active.value.id);
        }
      }
    }
  }

  function SampleTestFor(p: SamplePatterns, t: Table, session: Option<Session>, now: int): Doc -> bool {
    if t == CashflowTable then CashflowTest(p, session, now) else RecordTest(p, t)
  }

  /**
   * A removal block on `docs` runs to its end: its read succeeds and none of the deletes it
   * issues, one per selected document, throws.
   */
  predicate RemovalRuns(faults: Faults, t: Table, docs: seq<Doc>, isSample: Doc -> bool) {
    t !in faults.readFails && forall d :: d in docs && isSample(d) ==> d.id !in faults.deleteFails
  }

  /**
   * The block of `removeSeededData` for table `t` runs to its end, whatever the other blocks
   * did: its reads (for cash flow also the session query) succeed and none of its deletes throws.
   */
  predicate BlockRuns(p: SamplePatterns, t: Table, docs: seq<Doc>, session: Option<Session>, now: int, faults: Faults) {
    && t !in faults.readFails && (t == CashflowTable ==> !faults.sessionsFail)
    && forall d :: d in docs && IsSample(p, t, d, session, now) ==> d.id !in faults.deleteFails
  }

  lemma BlockRunsRemoval(p: SamplePatterns, t: Table, docs: seq<Doc>, session: Option<Session>, now: int, faults: Faults)
    ensures BlockRuns(p, t, docs, session, now, faults) ==> RemovalRuns(faults, t, docs, SampleTestFor(p, t, session, now))
  {
    if BlockRuns(p, t, docs, session, now, faults) {
      forall d | d in docs && SampleTestFor(p, t, session, now)(d) ensures d.id !in faults.deleteFails {
        assert IsSample(p, t, d, session, now);
      }
    }
  }

  /** A block that runs to its end on a table still runs on any part of that table. */
  lemma BlockRunsShrink(p: SamplePatterns, t: Table, docs: seq<Doc>, part: seq<Doc>, session: Option<Session>, now: int,
                        faults: Faults)
    requires forall d :: d in part ==> d in docs
    ensures BlockRuns(p, t, docs, session, now, faults) ==> BlockRuns(p, t, part, session, now, faults)
  {
  }

  /**
   * Removal so far, from `start` to `cur`: every table lost only samples, and every table
   * in `done` whose block ran to its end kept none.
   */
  ghost predicate Progress(start: map<Table, seq<Doc>>, cur: map<Table, seq<Doc>>, p: SamplePatterns,
                           session: Option<Session>, now: int, done: set<Table>, faults: Faults)
  {
    && HasAllTables(start) && HasAllTables(cur)
    && (forall t: Table :: Thinned(start[t], cur[t], SampleTestFor(p, t, session, now)))
    && (forall t :: t in done && BlockRuns(p, t, start[t], session, now, faults) ==>
          Purged(cur[t], SampleTestFor(p, t, session, now)))
  }

  lemma ProgressStart(start: map<Table, seq<Doc>>, p: SamplePatterns, session: Option<Session>, now: int, faults: Faults)
    requires HasAllTables(start)
    ensures Progress(start, start, p, session, now, {}, faults)
  {
  }

  lemma ProgressStep(start: map<Table, seq<Doc>>, mid: map<Table, seq<Doc>>, after: map<Table, seq<Doc>>,
                     t: Table, p: SamplePatterns, session: Option<Session>, now: int, done: set<Table>, faults: Faults)
    requires Progress(start, mid, p, session, now, done, faults)
    requires HasAllTables(mid) && HasAllTables(after) && after == mid[t := after[t]]
    requires Thinned(mid[t], after[t], SampleTestFor(p, t, session, now))
    requires BlockRuns(p, t, start[t], session, now, faults) ==> Purged(after[t], SampleTestFor(p, t, session, now))
    ensures Progress(start, after, p, session, now, done + {t}, faults)
  {
    forall u: Table ensures Thinned(start[u], after[u], SampleTestFor(p, u, session, now)) {
      if u != t {
        assert after[u] == mid[u];
      }
    }
    forall u | u in done + {t} && BlockRuns(p, u, start[u], session, now, faults)
      ensures Purged(after[u], SampleTestFor(p, u, session, now))
    {
      if u != t {
        assert after[u] == mid[u];
      }
    }
  }

  /** A block that does not run at all leaves its table as it was, and counts as done. */
  lemma ProgressSkip(start: map<Table, seq<Doc>>, cur: map<Table, seq<Doc>>, p: SamplePatterns,
                     session: Option<Session>, now: int, done: set<Table>, faults: Faults, t: Table)
    requires Progress(start, cur, p, session, now, done, faults)
    requires !BlockRuns(p, t, start[t], session, now, faults)
    ensures Progress(start, cur, p, session, now, done + {t}, faults)
  {
  }

  /** When every table is done, the progress facts are the removal's contract. */
  lemma ProgressDone(start: map<Table, seq<Doc>>, cur: map<Table, seq<Doc>>, p: SamplePatterns,
                     session: Option<Session>, now: int, done: set<Table>, faults: Faults)
    requires Progress(start, cur, p, session, now, done, faults)
    requires SalesTable in done && ExpensesTable in done && LiabilitiesTable in done && SalariesTable in done
    requires BankPdcTable in done && FutureNeedsTable in done && BusinessInHandTable in done && CashflowTable in done
    ensures forall t: Table, d :: d in cur[t] ==> d in start[t]
    ensures forall t: Table, d :: d in start[t] && !IsSample(p, t, d, session, now) ==> d in cur[t]
    ensures forall t: Table :: BlockRuns(p, t, start[t], session, now, faults) ==>
              forall d :: d in cur[t] ==> !IsSample(p, t, d, session, now)
    ensures NoFaults(faults) ==> forall t: Table, d :: d in cur[t] ==> !IsSample(p, t, d, session, now)
  {
    forall t: Table, d | d in start[t] && !IsSample(p, t, d, session, now) ensures d in cur[t] {
      assert !SampleTestFor(p, t, session, now)(d);
    }
    forall t: Table | BlockRuns(p, t, start[t], session, now, faults)
      ensures forall d :: d in cur[t] ==> !IsSample(p, t, d, session, now)
    {
      assert t in done by { AnyTable(t); }
      forall d | d in cur[t] ensures !IsSample(p, t, d, session, now) {
        assert !SampleTestFor(p, t, session, now)(d);
      }
    }
    if NoFaults(faults) {
      forall t: Table ensures BlockRuns(p, t, start[t], session, now, faults) {
      }
    }
  }

  /** The sample ids taken from a table with unique ids are distinct ids of that table. */
  lemma SamplesKeepIds(docs: seq<Doc>, isSample: Doc -> bool)
    requires UniqueIds(docs)
    ensures var v := IdsOf(Filter(docs, isSample));
      Distinct(v) && forall i :: 0 <= i < |v| ==> v[i] in IdsOf(docs)
  {
    FilterUnique(docs, isSample);
    var f := Filter(docs, isSample);
    forall i | 0 <= i < |f| ensures f[i].id in IdsOf(docs) {
      assert f[i] in f;
      var j :| 0 <= j < |docs| && docs[j] == f[i];
      assert IdsOf(docs)[j] == f[i].id;
    }
  }

  lemma {:induction false} FilterUnique(docs: seq<Doc>, isSample: Doc -> bool)
    requires UniqueIds(docs)
    ensures UniqueIds(Filter(docs, isSample))
    decreases |docs|
  {
    if docs != [] {
      FilterUnique(docs[1..], isSample);
      var rest := Filter(docs[1..], isSample);
      forall j | 0 <= j < |rest| ensures rest[j].id != docs[0].id {
        assert rest[j] in docs[1..];
      }
    }
  }

  /** In a table with unique ids, a document is identified by its id. */
  /** Deleting a prefix of the samples' ids never removes a non-sample. */
  lemma NonSamplesSurvive(docs: seq<Doc>, isSample: Doc -> bool, removed: nat)
    requires UniqueIds(docs) && removed <= |Filter(docs, isSample)|
    ensures var gone := IdSet(IdsOf(Filter(docs, isSample))[..removed]);
      forall d :: d in docs && !isSample(d) ==> d in WithoutIds(docs, gone)
  {
    var samples := Filter(docs, isSample);
    var victims := IdsOf(samples);
    var gone := IdSet(victims[..removed]);
    forall d | d in docs && !isSample(d) ensures d.id !in gone {
      if d.id in gone {
        var k :| 0 <= k < removed && victims[k] == d.id;
        assert samples[k] in docs && isSample(samples[k]);
        SameIdSameDoc(docs, d, samples[k]);
      }
    }
  }

  /**
   * When no sample's delete throws, the loop over the samples' ids stops only at their end,
   * and all of them are deleted.
   */
  lemma SamplesAllDeleted(docs: seq<Doc>, isSample: Doc -> bool, deleteFails: set<Id>, removed: nat)
    requires forall d :: d in docs && isSample(d) ==> d.id !in deleteFails
    requires removed <= |Filter(docs, isSample)|
    requires removed < |Filter(docs, isSample)| ==> IdsOf(Filter(docs, isSample))[removed] in deleteFails
    ensures removed == |Filter(docs, isSample)|
    ensures IdsOf(Filter(docs, isSample))[..removed] == IdsOf(Filter(docs, isSample))
  {
    var samples := Filter(docs, isSample);
    forall i | 0 <= i < |samples| ensures IdsOf(samples)[i] !in deleteFails {
      assert samples[i] in docs && isSample(samples[i]);
    }
  }

  lemma SameIdSameDoc(docs: seq<Doc>, a: Doc, b: Doc)
    requires UniqueIds(docs) && a in docs && b in docs && a.id == b.id
    ensures a == b
  {
    var i :| 0 <= i < |docs| && docs[i] == a;
    var j :| 0 <= j < |docs| && docs[j] == b;
    assert i == j;
  }
}
