/** The append-only log of coverage projections: one head and numbered revisions per beneficiary. */
module CoverageStore {
  import opened Outcomes
  import opened Ordering
  import opened Text
  import opened Coverage

  datatype UnavailableReason = NeedsReconciliation | ConflictingEvidence

  function ReasonText(r: UnavailableReason): string {
    match r
    case NeedsReconciliation => "needs_reconciliation"
    case ConflictingEvidence => "conflicting_evidence"
  }

  function ParseReason(s: string): Option<UnavailableReason> {
    if s == "needs_reconciliation" then Some(NeedsReconciliation)
    else if s == "conflicting_evidence" then Some(ConflictingEvidence)
    else None
  }

  datatype Projection =
    | Complete(paidIntervals: seq<Fact>)
    | Unavailable(reason: UnavailableReason)

  datatype PublicationOutcome = Applied | AlreadyApplied

  datatype PublicationReceipt = PublicationReceipt(revision: Int64, outcome: PublicationOutcome)

  datatype StoreError =
    | Database
    | EmptyBeneficiary
    | EmptyOperationId
    | EmptyEvidenceReference
    | InvalidExpectedRevision
    | InvalidCoverage(why: InvalidCoverage)
    | RevisionOverflow
    | ProjectionMissing
    | ProjectionUnavailable(reason: UnavailableReason)
    | OperationConflict
    | RevisionConflict(expected: Option<Int64>, actual: Option<Int64>)
    | CorruptProjection

  datatype CanonicalProjection = CanonicalProjection(
    status: string, unavailableReason: Option<UnavailableReason>, paidIntervals: seq<Fact>)

  datatype StoredOperation = StoredOperation(
    revision: Int64,
    expectedRevision: Option<Int64>,
    evidenceReference: string,
    projection: CanonicalProjection)

  // ---------- tables ----------

  datatype RevisionRow = RevisionRow(
    operationId: string,
    expectedRevision: Option<Int64>,
    evidenceReference: string,
    status: string,
    unavailableReason: Option<string>,
    factCount: int)

  /** `facts` holds the rows of one revision in the order they were inserted. */
  datatype Tables = Tables(
    heads: map<string, Option<Int64>>,
    revisions: map<(string, Int64), RevisionRow>,
    facts: map<(string, Int64), seq<Fact>>)

  function FactsAt(t: Tables, b: string, r: Int64): seq<Fact> {
    if (b, r) in t.facts then t.facts[(b, r)] else []
  }

  predicate CoverageIdLe(l: Fact, r: Fact) { StrLe(l.coverageId, r.coverageId) }

  ghost predicate Publishes(
    revisions: map<(string, Int64), RevisionRow>, b: string, op: string, r: Int64)
  {
    (b, r) in revisions && revisions[(b, r)].operationId == op
  }

  /** The table's unique keys, and facts belonging to revisions. */
  ghost predicate Schema(t: Tables) {
    && (forall b, op, r: Int64, q: Int64 ::
          Publishes(t.revisions, b, op, r) && Publishes(t.revisions, b, op, q) ==> r == q)
    && (forall k :: k in t.facts ==> k in t.revisions)
  }

  ghost function FindOperation(
    revisions: map<(string, Int64), RevisionRow>, b: string, op: string): (r: Option<Int64>)
    ensures r.Some? ==> Publishes(revisions, b, op, r.value)
    ensures r.None? ==> forall q: Int64 :: !Publishes(revisions, b, op, q)
  {
    if exists q: Int64 :: Publishes(revisions, b, op, q)
    then var q: Int64 :| Publishes(revisions, b, op, q); Some(q)
    else None
  }

  // ---------- reading ----------

  function CanonicalOf(b: string, p: Projection): Result<CanonicalProjection, StoreError> {
    match p
    case Complete(facts) =>
      (match Normalise(b, facts)
       case Ok(normal) => Ok(CanonicalProjection("complete", None, normal))
       case Err(e) => Err(InvalidCoverage(e)))
    case Unavailable(reason) => Ok(CanonicalProjection("unavailable", Some(reason), []))
  }

  function ProjectionMetadata(status: string, reason: Option<string>, factCount: int)
    : Result<CanonicalProjection, StoreError>
  {
    var parsed := if reason.Some? then ParseReason(reason.value) else None;
    if factCount < 0 then Err(CorruptProjection)
    else if status == "complete" && parsed.None? then Ok(CanonicalProjection("complete", None, []))
    else if status == "unavailable" && parsed.Some? && factCount == 0
      then Ok(CanonicalProjection("unavailable", parsed, []))
    else Err(CorruptProjection)
  }

  function LoadOperation(t: Tables, b: string, r: Int64): Result<StoredOperation, StoreError>
    requires (b, r) in t.revisions
  {
    var row := t.revisions[(b, r)];
    var paid := SortBy(CoverageIdLe, FactsAt(t, b, r));
    match ProjectionMetadata(row.status, row.unavailableReason, row.factCount)
    case Err(e) => Err(e)
    case Ok(p) =>
      if row.factCount != |paid| then Err(CorruptProjection)
      else Ok(StoredOperation(r, row.expectedRevision, row.evidenceReference, p.(paidIntervals := paid)))
  }

  function CurrentRevision(t: Tables, b: string): Result<Option<Int64>, StoreError> {
    if Blank(b) then Err(StoreError.EmptyBeneficiary)
    else if b !in t.heads then Ok(None)
    else if t.heads[b].None? then Err(CorruptProjection)
    else Ok(t.heads[b])
  }

  datatype LoadedCoverage = LoadedCoverage(revision: Int64, coverage: PersonCoverage)

  function Load(t: Tables, b: string): Result<LoadedCoverage, StoreError> {
    if Blank(b) then Err(StoreError.EmptyBeneficiary)
    else if b !in t.heads then Err(ProjectionMissing)
    else if t.heads[b].None? then Err(CorruptProjection)
    else
      var r := t.heads[b].value;
      if (b, r) !in t.revisions then Err(CorruptProjection)
      else
        var row := t.revisions[(b, r)];
        match ProjectionMetadata(row.status, row.unavailableReason, row.factCount)
        case Err(e) => Err(e)
        case Ok(p) =>
          if row.expectedRevision.Some? && row.expectedRevision.value <= 0 then Err(CorruptProjection)
          else if Blank(row.evidenceReference) then Err(CorruptProjection)
          else
            var paid := SortBy(CoverageIdLe, FactsAt(t, b, r));
            if row.factCount != |paid| then Err(CorruptProjection)
            else if Normalise(b, paid) != Ok(paid) then Err(CorruptProjection)
            else if p.unavailableReason.Some? then Err(ProjectionUnavailable(p.unavailableReason.value))
            else Ok(LoadedCoverage(r, PersonCoverage(b, paid)))
  }

  // ---------- publishing ----------

  datatype Request = Request(
    beneficiaryId: string,
    expectedRevision: Option<Int64>,
    operationId: string,
    evidenceReference: string,
    projection: Projection)

  /** The row a first publication writes. */
  function RowOf(q: Request, c: CanonicalProjection): RevisionRow {
    RevisionRow(
      q.operationId,
      q.expectedRevision,
      q.evidenceReference,
      c.status,
      if c.unavailableReason.Some? then Some(ReasonText(c.unavailableReason.value)) else None,
      |c.paidIntervals|)
  }

  /** The tables with one more revision at the head. */
  function Appended(t: Tables, q: Request, c: CanonicalProjection, r: Int64): Tables {
    var key := (q.beneficiaryId, r);
    Tables(
      t.heads[q.beneficiaryId := Some(r)],
      t.revisions[key := RowOf(q, c)],
      if c.paidIntervals == [] then t.facts
      else t.facts[key := FactsAt(t, q.beneficiaryId, r) + c.paidIntervals])
  }

  /** One publication as a transaction: the new tables, or an error after which the caller rolls
      back. */
  ghost function Publish(t: Tables, q: Request): Result<(Tables, PublicationReceipt), StoreError> {
    var b := q.beneficiaryId;
    if Blank(b) then Err(StoreError.EmptyBeneficiary)
    else if Blank(q.operationId) then Err(EmptyOperationId)
    else if Blank(q.evidenceReference) then Err(EmptyEvidenceReference)
    else if q.expectedRevision.Some? && q.expectedRevision.value <= 0 then Err(InvalidExpectedRevision)
    else
      match CanonicalOf(b, q.projection)
      case Err(e) => Err(e)
      case Ok(canonical) => PublishCanonical(t, q, canonical)
  }

  /** The answer when the operation is already in the log at revision `r`. */
  function Replayed(t: Tables, q: Request, canonical: CanonicalProjection, r: Int64)
    : Result<PublicationReceipt, StoreError>
    requires (q.beneficiaryId, r) in t.revisions
  {
    match LoadOperation(t, q.beneficiaryId, r)
    case Err(e) => Err(e)
    case Ok(stored) =>
      if stored.expectedRevision == q.expectedRevision
         && stored.evidenceReference == q.evidenceReference
         && stored.projection == canonical
      then Ok(PublicationReceipt(r, AlreadyApplied))
      else Err(OperationConflict)
  }

  ghost function PublishCanonical(t: Tables, q: Request, canonical: CanonicalProjection)
    : Result<(Tables, PublicationReceipt), StoreError>
  {
    var b := q.beneficiaryId;
    var headed := if b in t.heads then t else t.(heads := t.heads[b := None]);
    var current := headed.heads[b];
    if current.None? && b in t.heads then Err(CorruptProjection)
    else
      match FindOperation(t.revisions, b, q.operationId)
      case Some(r) =>
        (match Replayed(t, q, canonical, r)
         case Err(e) => Err(e)
         case Ok(receipt) => Ok((headed, receipt)))
      case None =>
        if current != q.expectedRevision then Err(RevisionConflict(q.expectedRevision, current))
        else
          match CheckedAdd(if current.Some? then current.value else 0, 1)
          case None => Err(RevisionOverflow)
          case Some(r) =>
            if (b, r) in t.revisions then Err(Database)
            else Ok((Appended(t, q, canonical, r), PublicationReceipt(r, Applied)))
  }

  lemma SameRowsReplayAlike(t: Tables, u: Tables, q: Request, c: CanonicalProjection, r: Int64)
    requires t.revisions == u.revisions && t.facts == u.facts && (q.beneficiaryId, r) in t.revisions
    ensures Replayed(t, q, c, r) == Replayed(u, q, c, r)
  {
  }

  method CanonicalProjectionOf(b: string, p: Projection)
    returns (r: Result<CanonicalProjection, StoreError>)
    ensures r == CanonicalOf(b, p)
  {
    match p {
      case Complete(paid) =>
        var normal := NormaliseConfirmedIntervals(PersonCoverage(b, paid));
        if normal.Err? {
          return Err(InvalidCoverage(normal.error));
        }
        r := Ok(CanonicalProjection("complete", None, normal.value));
      case Unavailable(reason) =>
        r := Ok(CanonicalProjection("unavailable", Some(reason), []));
    }
  }

  /** The store as the program holds it. */
  class Store {
    var heads: map<string, Option<Int64>>
    var revisions: map<(string, Int64), RevisionRow>
    var facts: map<(string, Int64), seq<Fact>>

    ghost function View(): Tables
      reads this
    {
      Tables(heads, revisions, facts)
    }

    constructor ()
      ensures View() == Tables(map[], map[], map[])
    {
      heads, revisions, facts := map[], map[], map[];
    }

    method ReadRevision(b: string) returns (r: Result<Option<Int64>, StoreError>)
      ensures r == CurrentRevision(View(), b)
    {
      if Blank(b) {
        return Err(StoreError.EmptyBeneficiary);
      }
      if b !in heads {
        return Ok(None);
      }
      if heads[b].None? {
        return Err(CorruptProjection);
      }
      r := Ok(heads[b]);
    }

    /** On an error the caller must roll back; the tables may have been touched. */
    method PublishProjection(q: Request) returns (r: Result<PublicationReceipt, StoreError>)
      requires Schema(View())
      modifies this
      ensures Publish(old(View()), q).Ok? <==> r.Ok?
      ensures r.Err? ==> r.error == Publish(old(View()), q).error
      ensures r.Ok? ==> (View(), r.value) == Publish(old(View()), q).value
    {
      var b := q.beneficiaryId;
      if Blank(b) {
        return Err(StoreError.EmptyBeneficiary);
      }
      if Blank(q.operationId) {
        return Err(EmptyOperationId);
      }
      if Blank(q.evidenceReference) {
        return Err(EmptyEvidenceReference);
      }
      if q.expectedRevision.Some? && q.expectedRevision.value <= 0 {
        return Err(InvalidExpectedRevision);
      }
      var canon := CanonicalProjectionOf(b, q.projection);
      if canon.Err? {
        return Err(canon.error);
      }
      r := PublishCanonicalProjection(q, canon.value);
    }

    method PublishCanonicalProjection(q: Request, canonical: CanonicalProjection)
      returns (r: Result<PublicationReceipt, StoreError>)
      requires Schema(View())
      modifies this
      ensures PublishCanonical(old(View()), q, canonical).Ok? <==> r.Ok?
      ensures r.Err? ==> r.error == PublishCanonical(old(View()), q, canonical).error
      ensures r.Ok? ==> (View(), r.value) == PublishCanonical(old(View()), q, canonical).value
    {
      var b := q.beneficiaryId;
      var headInserted := b !in heads;
      if headInserted {
        heads := heads[b := None];
      }
      var current := heads[b];
      if current.None? && !headInserted {
        return Err(CorruptProjection);
      }
      var existing := SelectOperation(b, q.operationId);
      if existing.Some? {
        SameRowsReplayAlike(View(), old(View()), q, canonical, existing.value);
        r := Replayed(Tables(heads, revisions, facts), q, canonical, existing.value);
        return;
      }
      if current != q.expectedRevision {
        if headInserted {
          heads := heads - {b};
        }
        return Err(RevisionConflict(q.expectedRevision, current));
      }
      var next := CheckedAdd(if current.Some? then current.value else 0, 1);
      if next.None? {
        return Err(RevisionOverflow);
      }
      var revision := next.value;
      if (b, revision) in revisions {
        return Err(Database);
      }
      InsertRevision(q, canonical, revision);
      assert heads == old(heads)[b := Some(revision)];
      r := Ok(PublicationReceipt(revision, Applied));
    }

    /** Insert the revision, then its facts one by one, then move the head. */
    method InsertRevision(q: Request, canonical: CanonicalProjection, revision: Int64)
      modifies this
      ensures View() == Appended(old(View()), q, canonical, revision)
    {
      var b := q.beneficiaryId;
      revisions := revisions[(b, revision) := RowOf(q, canonical)];
      ghost var inserted := FactsAt(old(View()), b, revision);
      for k := 0 to |canonical.paidIntervals|
        invariant heads == old(heads)
        invariant revisions == old(revisions)[(b, revision) := RowOf(q, canonical)]
        invariant facts == if k == 0 then old(facts)
                           else old(facts)[(b, revision) := inserted + canonical.paidIntervals[..k]]
      {
        var sofar := if (b, revision) in facts then facts[(b, revision)] else [];
        facts := facts[(b, revision) := sofar + [canonical.paidIntervals[k]]];
        assert sofar == inserted + canonical.paidIntervals[..k];
        assert sofar + [canonical.paidIntervals[k]] == inserted + canonical.paidIntervals[..k + 1];
      }
      assert canonical.paidIntervals[..|canonical.paidIntervals|] == canonical.paidIntervals;
      heads := heads[b := Some(revision)];
    }

    /** Look an operation up by its unique key. */
    method SelectOperation(b: string, op: string) returns (r: Option<Int64>)
      requires forall r: Int64, q: Int64 ::
                 Publishes(revisions, b, op, r) && Publishes(revisions, b, op, q) ==> r == q
      ensures r == FindOperation(revisions, b, op)
    {
      var pending := revisions.Keys;
      while pending != {}
        invariant pending <= revisions.Keys
        invariant forall q: Int64 :: Publishes(revisions, b, op, q) ==> (b, q) in pending
        decreases pending
      {
        var k :| k in pending;
        if k.0 == b && revisions[k].operationId == op {
          assert Publishes(revisions, b, op, k.1);
          return Some(k.1);
        }
        pending := pending - {k};
      }
      r := None;
    }
  }

  // ---------- the log invariant ----------

  /** The revisions of one beneficiary are exactly 1..head. */
  ghost predicate Numbered(t: Tables, b: string) {
    if b in t.heads
    then
      && t.heads[b].Some?
      && 1 <= t.heads[b].value
      && forall r: Int64 :: (b, r) in t.revisions <==> 1 <= r <= t.heads[b].value
    else forall r: Int64 :: (b, r) !in t.revisions
  }

  /** What a stored revision says, as a canonical projection. */
  ghost predicate Records(t: Tables, b: string, r: Int64, c: CanonicalProjection)
    requires (b, r) in t.revisions
  {
    var row := t.revisions[(b, r)];
    && row.status == c.status
    && row.unavailableReason ==
         (if c.unavailableReason.Some? then Some(ReasonText(c.unavailableReason.value)) else None)
    && row.factCount == |c.paidIntervals|
    && FactsAt(t, b, r) == c.paidIntervals
  }

  ghost predicate ValidProjection(b: string, c: CanonicalProjection) {
    || (&& c.status == "complete" && c.unavailableReason.None?
        && !Blank(b) && Admissible(c.paidIntervals) && Ascending(FactKey, c.paidIntervals))
    || (c.status == "unavailable" && c.unavailableReason.Some? && c.paidIntervals == [])
  }

  ghost predicate SoundRevision(t: Tables, b: string, r: Int64)
    requires (b, r) in t.revisions
  {
    var row := t.revisions[(b, r)];
    && !Blank(b)
    && row.expectedRevision == (if r == 1 then None else Some(r - 1))
    && !Blank(row.operationId)
    && !Blank(row.evidenceReference)
    && exists c :: Records(t, b, r, c) && ValidProjection(b, c)
  }

  ghost predicate LogInv(t: Tables) {
    && Schema(t)
    && (forall b :: Numbered(t, b))
    && (forall b, r: Int64 :: (b, r) in t.revisions ==> 1 <= r && SoundRevision(t, b, r))
  }

  /** Everything `t` recorded, `u` still records. */
  ghost predicate Extends(t: Tables, u: Tables) {
    && (forall b :: b in t.heads ==>
          && b in u.heads
          && (t.heads[b].Some? ==> u.heads[b].Some? && t.heads[b].value <= u.heads[b].value))
    && (forall k :: k in t.revisions ==> k in u.revisions && u.revisions[k] == t.revisions[k])
    && (forall b, r: Int64 :: (b, r) in t.revisions ==> FactsAt(u, b, r) == FactsAt(t, b, r))
  }

  lemma ExtendsTransitive(t: Tables, u: Tables, v: Tables)
    requires Extends(t, u) && Extends(u, v)
    ensures Extends(t, v)
  {
  }

  lemma EmptyLog()
    ensures LogInv(Tables(map[], map[], map[]))
  {
  }

  lemma CoverageIdLeOrder()
    ensures TotalPreorder(CoverageIdLe)
  {
    StrLeOrder();
  }

  /** Reading stored facts back by coverage id changes nothing: they were stored in that order. */
  lemma AscendingIsSorted(facts: seq<Fact>)
    requires Ascending(FactKey, facts)
    ensures SortBy(CoverageIdLe, facts) == facts
  {
    CoverageIdLeOrder();
    StrLeOrder();
    SortDistinctAscending(CoverageIdLe, FactKey, facts);
    AscendingUnique(FactKey, SortBy(CoverageIdLe, facts), facts);
  }

  lemma CanonicalIsValid(b: string, p: Projection)
    requires !Blank(b) && CanonicalOf(b, p).Ok?
    ensures ValidProjection(b, CanonicalOf(b, p).value)
  {
    if p.Complete? {
      NormaliseAdmits(b, p.paidIntervals);
      NormaliseIdempotent(b, p.paidIntervals);
    }
  }

  /** A recorded revision loads as exactly what was recorded. */
  lemma RecordedLoads(t: Tables, b: string, r: Int64, c: CanonicalProjection)
    requires (b, r) in t.revisions && Records(t, b, r, c) && ValidProjection(b, c)
    ensures LoadOperation(t, b, r) ==
            Ok(StoredOperation(r, t.revisions[(b, r)].expectedRevision,
                               t.revisions[(b, r)].evidenceReference, c))
  {
    AscendingIsSorted(c.paidIntervals);
  }

  lemma RecordsUnique(t: Tables, b: string, r: Int64, c: CanonicalProjection, d: CanonicalProjection)
    requires (b, r) in t.revisions
    requires Records(t, b, r, c) && Records(t, b, r, d)
    ensures c == d
  {
  }

  // ---------- what publishing keeps ----------

  ghost function HeadOf(t: Tables, b: string): Option<Int64> {
    if b in t.heads then t.heads[b] else None
  }

  ghost predicate Unpublished(t: Tables, b: string, op: string) {
    forall r: Int64 :: !Publishes(t.revisions, b, op, r)
  }

  ghost predicate GoodRequest(q: Request) {
    && !Blank(q.beneficiaryId)
    && !Blank(q.operationId)
    && !Blank(q.evidenceReference)
    && CanonicalOf(q.beneficiaryId, q.projection).Ok?
  }

  /** A first publication: revision `r` follows the head the request expected. */
  ghost predicate AppendStep(t: Tables, q: Request, r: Int64, u: Tables) {
    && GoodRequest(q)
    && HeadOf(t, q.beneficiaryId) == q.expectedRevision
    && q.expectedRevision == (if r == 1 then None else Some(r - 1))
    && 1 <= r
    && Unpublished(t, q.beneficiaryId, q.operationId)
    && u == Appended(t, q, CanonicalOf(q.beneficiaryId, q.projection).value, r)
  }

  /** A replay: the operation is in the log with the content now asked for. */
  ghost predicate ReplayStep(t: Tables, q: Request, r: Int64) {
    && GoodRequest(q)
    && Publishes(t.revisions, q.beneficiaryId, q.operationId, r)
    && LoadOperation(t, q.beneficiaryId, r) ==
         Ok(StoredOperation(r, q.expectedRevision, q.evidenceReference,
                            CanonicalOf(q.beneficiaryId, q.projection).value))
  }

  lemma PublishCases(t: Tables, q: Request)
    requires LogInv(t) && Publish(t, q).Ok?
    ensures var (u, receipt) := Publish(t, q).value;
            match receipt.outcome
            case Applied => AppendStep(t, q, receipt.revision, u)
            case AlreadyApplied => u == t && ReplayStep(t, q, receipt.revision)
  {
    assert Numbered(t, q.beneficiaryId);
  }

  lemma PublishReplays(t: Tables, q: Request, r: Int64)
    requires LogInv(t) && ReplayStep(t, q, r)
    requires q.expectedRevision.Some? ==> q.expectedRevision.value > 0
    ensures Publish(t, q) == Ok((t, PublicationReceipt(r, AlreadyApplied)))
  {
    assert Numbered(t, q.beneficiaryId);
    assert FindOperation(t.revisions, q.beneficiaryId, q.operationId) == Some(r);
  }

  /** A publication that has not happened yet succeeds exactly when it expects the head, and the
      head can still be counted past. */
  lemma PublishFresh(t: Tables, q: Request)
    requires LogInv(t) && GoodRequest(q) && Unpublished(t, q.beneficiaryId, q.operationId)
    ensures var head := HeadOf(t, q.beneficiaryId);
            if q.expectedRevision == head && (head.Some? ==> head.value < I64_MAX)
            then
              && Publish(t, q).Ok?
              && Publish(t, q).value.1 ==
                   PublicationReceipt(if head.Some? then head.value + 1 else 1, Applied)
            else
              Publish(t, q) ==
              Err(if q.expectedRevision == head then RevisionOverflow
                  else if q.expectedRevision.Some? && q.expectedRevision.value <= 0
                    then InvalidExpectedRevision
                  else RevisionConflict(q.expectedRevision, head))
  {
    assert Numbered(t, q.beneficiaryId);
  }

  lemma AppendedRow(t: Tables, q: Request, r: Int64, u: Tables)
    requires LogInv(t) && AppendStep(t, q, r, u)
    ensures var c := CanonicalOf(q.beneficiaryId, q.projection).value;
            && (q.beneficiaryId, r) !in t.revisions
            && (q.beneficiaryId, r) !in t.facts
            && u.revisions == t.revisions[(q.beneficiaryId, r) := RowOf(q, c)]
            && u.heads == t.heads[q.beneficiaryId := Some(r)]
            && Records(u, q.beneficiaryId, r, c)
            && ValidProjection(q.beneficiaryId, c)
            && Publishes(u.revisions, q.beneficiaryId, q.operationId, r)
    ensures forall b, p: Int64 :: (b, p) in t.revisions ==> FactsAt(u, b, p) == FactsAt(t, b, p)
  {
    assert Numbered(t, q.beneficiaryId);
    CanonicalIsValid(q.beneficiaryId, q.projection);
  }

  lemma AppendedNumbered(t: Tables, q: Request, r: Int64, u: Tables, b: string)
    requires LogInv(t) && AppendStep(t, q, r, u)
    ensures Numbered(u, b)
  {
    AppendedRow(t, q, r, u);
    assert Numbered(t, b);
  }

  lemma AppendedExtends(t: Tables, q: Request, r: Int64, u: Tables)
    requires LogInv(t) && AppendStep(t, q, r, u)
    ensures Extends(t, u)
  {
    AppendedRow(t, q, r, u);
  }

  lemma AppendedSchema(t: Tables, q: Request, r: Int64, u: Tables)
    requires LogInv(t) && AppendStep(t, q, r, u)
    ensures Schema(u)
  {
    AppendedRow(t, q, r, u);
    forall b, op, x: Int64, y: Int64
      | Publishes(u.revisions, b, op, x) && Publishes(u.revisions, b, op, y)
      ensures x == y
    {
      assert (b, x) in t.revisions ==> Publishes(t.revisions, b, op, x);
      assert (b, y) in t.revisions ==> Publishes(t.revisions, b, op, y);
    }
  }

  lemma ExtendsKeepsSound(t: Tables, u: Tables, b: string, r: Int64)
    requires Extends(t, u) && (b, r) in t.revisions && SoundRevision(t, b, r)
    ensures SoundRevision(u, b, r)
  {
  }

  lemma AppendedKeepsLog(t: Tables, q: Request, r: Int64, u: Tables)
    requires LogInv(t) && AppendStep(t, q, r, u)
    ensures LogInv(u)
  {
    AppendedRow(t, q, r, u);
    AppendedSchema(t, q, r, u);
    AppendedExtends(t, q, r, u);
    forall b ensures Numbered(u, b) {
      AppendedNumbered(t, q, r, u, b);
    }
    forall b, p: Int64 | (b, p) in u.revisions ensures 1 <= p && SoundRevision(u, b, p) {
      if (b, p) in t.revisions {
        ExtendsKeepsSound(t, u, b, p);
      }
    }
  }

  /** Revisions stay exactly 1..head, each expecting its predecessor, with one per operation, and
      nothing published earlier ever changes. */
  lemma PublishKeepsLog(t: Tables, q: Request)
    requires LogInv(t) && Publish(t, q).Ok?
    ensures LogInv(Publish(t, q).value.0)
    ensures Extends(t, Publish(t, q).value.0)
  {
    PublishCases(t, q);
    var (u, receipt) := Publish(t, q).value;
    if receipt.outcome == Applied {
      AppendedKeepsLog(t, q, receipt.revision, u);
      AppendedExtends(t, q, receipt.revision, u);
    }
  }

  /** Two requests ask for the same thing: everything equal, the facts up to order and repetition. */
  ghost predicate SameRequest(q: Request, p: Request) {
    && q.(projection := p.projection) == p
    && SameProjection(q.projection, p.projection)
  }

  ghost predicate SameProjection(p: Projection, q: Projection) {
    match p
    case Complete(facts) =>
      q.Complete? && forall f :: f in facts <==> f in q.paidIntervals
    case Unavailable(_) => p == q
  }

  lemma SameCanonical(b: string, p: Projection, q: Projection)
    requires SameProjection(p, q) && CanonicalOf(b, p).Ok?
    ensures CanonicalOf(b, q) == CanonicalOf(b, p)
  {
    if p.Complete? {
      NormaliseIgnoresOrder(b, p.paidIntervals, q.paidIntervals);
    }
  }

  /** What a successful publication leaves in the log, first or replayed. */
  lemma PublishedReplays(t: Tables, q: Request)
    requires LogInv(t) && Publish(t, q).Ok?
    ensures ReplayStep(Publish(t, q).value.0, q, Publish(t, q).value.1.revision)
    ensures q.expectedRevision.Some? ==> q.expectedRevision.value > 0
  {
    PublishCases(t, q);
    var (u, receipt) := Publish(t, q).value;
    if receipt.outcome == Applied {
      AppendedRow(t, q, receipt.revision, u);
      RecordedLoads(u, q.beneficiaryId, receipt.revision,
                    CanonicalOf(q.beneficiaryId, q.projection).value);
    }
  }

  lemma ReplayPersists(t: Tables, q: Request, r: Int64, later: Tables, again: Request)
    requires LogInv(t) && ReplayStep(t, q, r) && Extends(t, later)
    requires SameRequest(q, again)
    ensures ReplayStep(later, again, r)
  {
    SameCanonical(q.beneficiaryId, q.projection, again.projection);
    assert (q.beneficiaryId, r) in t.revisions;
  }

  /** Publishing again after any later history returns the first revision and changes nothing, even
      with the facts permuted or repeated. */
  lemma PublishReplay(t: Tables, q: Request, later: Tables, again: Request)
    requires LogInv(t) && Publish(t, q).Ok?
    requires LogInv(later) && Extends(Publish(t, q).value.0, later)
    requires SameRequest(q, again)
    ensures Publish(later, again) ==
            Ok((later, PublicationReceipt(Publish(t, q).value.1.revision, AlreadyApplied)))
  {
    PublishKeepsLog(t, q);
    PublishedReplays(t, q);
    var (u, receipt) := Publish(t, q).value;
    ReplayPersists(u, q, receipt.revision, later, again);
    PublishReplays(later, again, receipt.revision);
  }

  /** What a request must have to be looked at: the first thing missing is reported. */
  lemma PublishRefusesFirst(t: Tables, q: Request)
    ensures Blank(q.beneficiaryId) ==> Publish(t, q) == Err(StoreError.EmptyBeneficiary)
    ensures !Blank(q.beneficiaryId) && Blank(q.operationId) ==> Publish(t, q) == Err(EmptyOperationId)
    ensures !Blank(q.beneficiaryId) && !Blank(q.operationId) && Blank(q.evidenceReference) ==>
              Publish(t, q) == Err(EmptyEvidenceReference)
    ensures !Blank(q.beneficiaryId) && !Blank(q.operationId) && !Blank(q.evidenceReference) ==>
              if q.expectedRevision.Some? && q.expectedRevision.value <= 0 then
                Publish(t, q) == Err(InvalidExpectedRevision)
              else
                q.projection.Complete? && Normalise(q.beneficiaryId, q.projection.paidIntervals).Err? ==>
                  Publish(t, q) == Err(InvalidCoverage(Normalise(q.beneficiaryId, q.projection.paidIntervals).error))
  {
  }

  lemma RecordedReads(t: Tables, b: string, r: Int64, c: CanonicalProjection)
    requires (b, r) in t.revisions && Records(t, b, r, c) && ValidProjection(b, c)
    ensures LoadOperation(t, b, r) ==
            Ok(StoredOperation(r, t.revisions[(b, r)].expectedRevision, t.revisions[(b, r)].evidenceReference, c))
  {
    AscendingIsSorted(c.paidIntervals);
  }

  /** An operation already in the log is answered with its revision when it asks again for what is
      recorded there, on the same expectation and the same evidence; any difference is a conflict, and
      either way nothing changes. */
  lemma PublishRepeated(t: Tables, q: Request, r: Int64, c: CanonicalProjection)
    requires LogInv(t) && GoodRequest(q) && Publishes(t.revisions, q.beneficiaryId, q.operationId, r)
    requires q.expectedRevision.Some? ==> q.expectedRevision.value > 0
    requires Records(t, q.beneficiaryId, r, c)
    ensures var row := t.revisions[(q.beneficiaryId, r)];
            Publish(t, q) ==
            if row.expectedRevision == q.expectedRevision && row.evidenceReference == q.evidenceReference
               && CanonicalOf(q.beneficiaryId, q.projection) == Ok(c)
            then Ok((t, PublicationReceipt(r, AlreadyApplied)))
            else Err(OperationConflict)
  {
    hide LoadOperation, Records;
    var b := q.beneficiaryId;
    assert Numbered(t, b);
    assert FindOperation(t.revisions, b, q.operationId) == Some(r);
    assert SoundRevision(t, b, r);
    var d :| Records(t, b, r, d) && ValidProjection(b, d);
    RecordsUnique(t, b, r, c, d);
    RecordedReads(t, b, r, c);
  }

  // ---------- runs of any publishers ----------

  /** Any requests from anyone, in any order; a failed one is rolled back. */
  ghost function PublishAll(t: Tables, requests: seq<Request>): Tables {
    if requests == [] then t
    else
      var before := PublishAll(t, requests[..|requests| - 1]);
      match Publish(before, requests[|requests| - 1])
      case Ok((after, _)) => after
      case Err(_) => before
  }

  lemma {:induction false} PublishAllKeepsLog(t: Tables, requests: seq<Request>)
    requires LogInv(t)
    ensures LogInv(PublishAll(t, requests)) && Extends(t, PublishAll(t, requests))
  {
    if requests != [] {
      var init, last := requests[..|requests| - 1], requests[|requests| - 1];
      PublishAllKeepsLog(t, init);
      var before := PublishAll(t, init);
      if Publish(before, last).Ok? {
        PublishKeepsLog(before, last);
        ExtendsTransitive(t, before, Publish(before, last).value.0);
      }
    }
  }

  /** Any number of publishers: `Load` returns the head's facts or says why they are unavailable,
      and never finds corruption. */
  lemma LoadIsSound(t: Tables, b: string)
    requires LogInv(t) && !Blank(b)
    ensures b !in t.heads ==> Load(t, b) == Err(ProjectionMissing)
    ensures b in t.heads ==>
              && t.heads[b].Some? && (b, t.heads[b].value) in t.revisions
              && exists c ::
                   && Records(t, b, t.heads[b].value, c)
                   && ValidProjection(b, c)
                   && Load(t, b) ==
                        if c.unavailableReason.Some?
                        then Err(ProjectionUnavailable(c.unavailableReason.value))
                        else Ok(LoadedCoverage(t.heads[b].value, PersonCoverage(b, c.paidIntervals)))
  {
    assert Numbered(t, b);
    if b in t.heads {
      var r := t.heads[b].value;
      assert SoundRevision(t, b, r);
      var c :| Records(t, b, r, c) && ValidProjection(b, c);
      LoadRecorded(t, b, r, c);
    }
  }

  lemma LoadRecorded(t: Tables, b: string, r: Int64, c: CanonicalProjection)
    requires !Blank(b) && b in t.heads && t.heads[b] == Some(r) && 1 <= r
    requires (b, r) in t.revisions && SoundRevision(t, b, r)
    requires Records(t, b, r, c) && ValidProjection(b, c)
    ensures Load(t, b) ==
            if c.unavailableReason.Some?
            then Err(ProjectionUnavailable(c.unavailableReason.value))
            else Ok(LoadedCoverage(r, PersonCoverage(b, c.paidIntervals)))
  {
    hide Normalise, SortBy;
    AscendingIsSorted(c.paidIntervals);
    if c.status == "complete" {
      NormaliseFixedPoint(b, c.paidIntervals);
    } else {
      NormaliseFixedPoint(b, []);
    }
  }
}
