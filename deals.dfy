/** apps/api/src/routes/deals.ts: the deal schemas, the list endpoint with its
    stage buckets, and the deal store behind get, create, patch and delete.
    Every route sits behind `Middleware.ResourceGate`, and create and patch
    behind `Validation.Validate` with the schemas below. */
module Deals {
  import opened Wrappers
  import opened Json
  import opened Seqs
  import opened Enums
  import opened Schema
  import opened Errors
  import opened Middleware
  import opened Listing

  /** A stored deal. Dates are instants (milliseconds since the epoch). */
  datatype Deal = Deal(
    id: string,
    leadId: string,
    title: string,
    amount: real,
    stage: Stage,
    expectedCloseDate: Option<int>,
    createdAt: int)

  function DealId(d: Deal): string { d.id }

  /** `createDealSchema`'s output. */
  datatype DealCreate = DealCreate(
    leadId: string,
    title: string,
    amount: real,
    stage: Stage,
    expectedCloseDate: Option<string>)

  /** `updateDealSchema = createDealSchema.partial()`: every field may be absent,
      and an absent `stage` stays absent (no default under `.partial()`). */
  datatype DealUpdate = DealUpdate(
    leadId: Option<string>,
    title: Option<string>,
    amount: Option<real>,
    stage: Option<Stage>,
    expectedCloseDate: Option<string>)

  predicate IsStageName(m: map<string, Json>, key: string)
  {
    IsText(m, key) && Text(m, key) in StageNames
  }

  /** `z.enum(['PROSPECTING', 'PROPOSAL', 'NEGOTIATION', 'WON', 'LOST'])`. */
  function StageAt(m: map<string, Json>, key: string): (r: Field<Option<Stage>>)
    ensures r.Accept? <==> key !in m || IsStageName(m, key)
    ensures r.Accept? && key in m ==> r.value == Some(ParseStage(Text(m, key)).value)
    ensures r.Accept? && key !in m ==> r.value == None
    ensures r.Reject? ==> r.issues != []
  {
    EnumAt(m, key, StageNames, ParseStage)
  }

  /** The field constraints of `createDealSchema`, one per key. */
  predicate LeadIdOk(f: Formats, m: map<string, Json>) { IsText(m, "leadId") && f.isUuid(Text(m, "leadId")) }
  predicate TitleOk(m: map<string, Json>) { TextBetween(m, "title", 1, 255) }
  predicate AmountOk(m: map<string, Json>) { IsNumber(m, "amount") && Number(m, "amount") > 0.0 }
  predicate CloseDateOk(f: Formats, m: map<string, Json>) { OptionalText(m, "expectedCloseDate", s => IsDatetime(f, s)) }

  /** `createDealSchema`: a uuid lead, a title of 1-255 UTF-16 code units, a positive
      amount, a stage from the five names defaulting to PROSPECTING, and an
      optional ISO datetime. */
  function ParseDealCreate(f: Formats, body: Json): (r: Parsed<DealCreate>)
    ensures r.Valid? <==>
      && body.JObject?
      && LeadIdOk(f, body.fields) && TitleOk(body.fields) && AmountOk(body.fields)
      && ("stage" !in body.fields || IsStageName(body.fields, "stage"))
      && CloseDateOk(f, body.fields)
    ensures r.Valid? ==> var m := body.fields;
      r.value == DealCreate(
        Text(m, "leadId"), Text(m, "title"), Number(m, "amount"),
        if "stage" in m then ParseStage(Text(m, "stage")).value else Prospecting,
        TextOrNone(m, "expectedCloseDate"))
    ensures r.Invalid? ==> r.issues != []
  {
    match AsObject(body)
    case Reject(issues) => Invalid(issues)
    case Accept(m) =>
      var leadId := Required("leadId", UuidAt(f, m, "leadId"));
      var title := Required("title", ShortTextAt(m, "title"));
      var amount := Required("amount", PositiveAt(m, "amount"));
      var stage := WithDefault(StageAt(m, "stage"), Prospecting);
      var closeDate := DatetimeAt(f, m, "expectedCloseDate");
      if leadId.Accept? && title.Accept? && amount.Accept? && stage.Accept? && closeDate.Accept? then
        Valid(DealCreate(leadId.value, title.value, amount.value, stage.value, closeDate.value))
      else
        Invalid(leadId.Issues() + title.Issues() + amount.Issues() + stage.Issues() + closeDate.Issues())
  }

  /** `updateDealSchema`: the same constraints on whichever fields are present. */
  function ParseDealUpdate(f: Formats, body: Json): (r: Parsed<DealUpdate>)
    ensures r.Valid? <==>
      && body.JObject?
      && ("leadId" !in body.fields || LeadIdOk(f, body.fields))
      && ("title" !in body.fields || TitleOk(body.fields))
      && ("amount" !in body.fields || AmountOk(body.fields))
      && ("stage" !in body.fields || IsStageName(body.fields, "stage"))
      && CloseDateOk(f, body.fields)
    ensures r.Valid? ==> var m := body.fields;
      && r.value.leadId == TextOrNone(m, "leadId")
      && r.value.title == TextOrNone(m, "title")
      && r.value.amount == (if "amount" in m then Some(Number(m, "amount")) else None)
      && r.value.stage == (if "stage" in m then Some(ParseStage(Text(m, "stage")).value) else None)
      && r.value.expectedCloseDate == TextOrNone(m, "expectedCloseDate")
    ensures r.Invalid? ==> r.issues != []
  {
    match AsObject(body)
    case Reject(issues) => Invalid(issues)
    case Accept(m) =>
      var leadId := UuidAt(f, m, "leadId");
      var title := ShortTextAt(m, "title");
      var amount := PositiveAt(m, "amount");
      var stage := StageAt(m, "stage");
      var closeDate := DatetimeAt(f, m, "expectedCloseDate");
      if leadId.Accept? && title.Accept? && amount.Accept? && stage.Accept? && closeDate.Accept? then
        Valid(DealUpdate(leadId.value, title.value, amount.value, stage.value, closeDate.value))
      else
        Invalid(leadId.Issues() + title.Issues() + amount.Issues() + stage.Issues() + closeDate.Issues())
  }

  /** The row `prisma.deal.create` stores: the validated fields, the
      expected close date converted only when given (a datetime is never
      empty, so "given" and "truthy" agree on validated input), a fresh id
      and the creation time. */
  function NewDeal(input: DealCreate, id: string, now: int, f: Formats): (d: Deal)
    ensures d.id == id && d.createdAt == now
    ensures d.leadId == input.leadId && d.title == input.title && d.amount == input.amount && d.stage == input.stage
    ensures !Truthy(input.expectedCloseDate) ==> d.expectedCloseDate.None?
    ensures Truthy(input.expectedCloseDate) ==> d.expectedCloseDate == Some(f.instant(input.expectedCloseDate.value))
  {
    var close := if Truthy(input.expectedCloseDate) then Some(f.instant(input.expectedCloseDate.value)) else None;
    Deal(id, input.leadId, input.title, input.amount, input.stage, close, now)
  }

  /** `prisma.deal.update({ data: { ...data } })`: exactly the fields present in
      the validated body are written, the close date converted when given. */
  function ApplyUpdate(d: Deal, u: DealUpdate, f: Formats): (r: Deal)
    ensures r.id == d.id && r.createdAt == d.createdAt
    ensures u.leadId.None? ==> r.leadId == d.leadId
    ensures u.leadId.Some? ==> r.leadId == u.leadId.value
    ensures u.title.None? ==> r.title == d.title
    ensures u.title.Some? ==> r.title == u.title.value
    ensures u.amount.None? ==> r.amount == d.amount
    ensures u.amount.Some? ==> r.amount == u.amount.value
    ensures u.stage.None? ==> r.stage == d.stage
    ensures u.stage.Some? ==> r.stage == u.stage.value
    ensures u.expectedCloseDate.None? ==> r.expectedCloseDate == d.expectedCloseDate
    ensures Truthy(u.expectedCloseDate) ==> r.expectedCloseDate == Some(f.instant(u.expectedCloseDate.value))
  {
    Deal(
      d.id,
      if u.leadId.Some? then u.leadId.value else d.leadId,
      if u.title.Some? then u.title.value else d.title,
      if u.amount.Some? then u.amount.value else d.amount,
      if u.stage.Some? then u.stage.value else d.stage,
      if Truthy(u.expectedCloseDate) then Some(f.instant(u.expectedCloseDate.value)) else d.expectedCloseDate,
      d.createdAt)
  }

  /** A body with only `stage`. */
  function StageOnly(s: Stage): DealUpdate
  {
    DealUpdate(None, None, None, Some(s), None)
  }

  /** There is no transition table: any stage replaces any stage, and nothing
      else about the deal changes. */
  lemma AnyStageReplacesAny(d: Deal, s: Stage, f: Formats)
    ensures ApplyUpdate(d, StageOnly(s), f) == d.(stage := s)
  {
  }

  /** Applying the same update twice leaves what applying it once does
      (PATCHing a deal to its current stage again changes nothing). */
  lemma UpdateIdempotent(d: Deal, u: DealUpdate, f: Formats)
    ensures ApplyUpdate(ApplyUpdate(d, u, f), u, f) == ApplyUpdate(d, u, f)
  {
  }

  /** The deals of `items` with stage `name`, in page order. */
  function StageBucket(items: seq<Deal>, name: string): seq<Deal>
  {
    Filter(items, (d: Deal) => StageName(d.stage) == name)
  }

  /** `dealsByStage`: one bucket per stage name, holding the page items of
      that stage; every item is in the bucket of its own stage. */
  function GroupByStage(items: seq<Deal>): (r: map<string, seq<Deal>>)
    ensures forall name :: name in r <==> name in StageNames
    ensures forall name, j :: name in r && 0 <= j < |r[name]| ==> r[name][j] in items && StageName(r[name][j].stage) == name
    ensures forall i :: 0 <= i < |items| ==> StageName(items[i].stage) in r && items[i] in r[StageName(items[i].stage)]
  {
    var r := map name | name in StageNames :: StageBucket(items, name);
    forall i | 0 <= i < |items| ensures StageName(items[i].stage) in r && items[i] in r[StageName(items[i].stage)] {
      StageRoundTrip(items[i].stage);
    }
    r
  }

  /** Each bucket keeps the page order. */
  lemma BucketsKeepOrder(items: seq<Deal>, name: string)
    requires name in GroupByStage(items)
    ensures SubsequenceOf(GroupByStage(items)[name], items)
  {
    FilterIsSubsequence(items, (d: Deal) => StageName(d.stage) == name);
  }

  lemma BucketCons(items: seq<Deal>, name: string)
    requires items != []
    ensures StageBucket(items, name)
      == (if StageName(items[0].stage) == name then [items[0]] else []) + StageBucket(items[1..], name)
  {
  }

  /** The five buckets partition the page: their sizes add up to the page size. */
  lemma {:induction false} BucketsPartition(items: seq<Deal>)
    ensures
      |StageBucket(items, "PROSPECTING")| + |StageBucket(items, "PROPOSAL")| + |StageBucket(items, "NEGOTIATION")|
      + |StageBucket(items, "WON")| + |StageBucket(items, "LOST")| == |items|
    decreases |items|
  {
    if items != [] {
      BucketsPartition(items[1..]);
      BucketCons(items, "PROSPECTING");
      BucketCons(items, "PROPOSAL");
      BucketCons(items, "NEGOTIATION");
      BucketCons(items, "WON");
      BucketCons(items, "LOST");
    }
  }

  /** The list query: `stage` and `leadId` are `None` when absent. */
  datatype DealQuery = DealQuery(paging: PageQuery, stage: Option<string>, leadId: Option<string>)

  /** A truthy `stage` that names no stage: the database rejects the `where`. */
  predicate BadStageFilter(q: DealQuery)
  {
    Truthy(q.stage) && q.stage.value !in StageNames
  }

  /** The `where` the route builds: each truthy parameter is an exact match. */
  predicate DealMatches(q: DealQuery, d: Deal)
  {
    && (Truthy(q.stage) ==> StageName(d.stage) == q.stage.value)
    && (Truthy(q.leadId) ==> d.leadId == q.leadId.value)
  }

  /** `orderBy: { createdAt: 'desc' }`. */
  function NewestFirstKey(d: Deal): seq<int> { [-d.createdAt] }

  ghost predicate NewestFirst(s: seq<Deal>)
  {
    forall i, j :: 0 <= i < j < |s| ==> s[i].createdAt >= s[j].createdAt
  }

  lemma SortedIsNewestFirst(s: seq<Deal>)
    requires SortedBy(s, NewestFirstKey)
    ensures NewestFirst(s)
  {
    forall i, j | 0 <= i < j < |s| ensures s[i].createdAt >= s[j].createdAt {
      assert KeyLe(NewestFirstKey(s[i]), NewestFirstKey(s[j]));
    }
  }

  /** A page of rows drawn from `rows` that match the query keeps them newest first. */
  lemma MatchingPage(rows: seq<Deal>, matching: seq<Deal>, q: DealQuery)
    requires WellFormed(q.paging)
    requires forall i :: 0 <= i < |matching| ==> matching[i] in rows && DealMatches(q, matching[i])
    ensures var p := ListPage(matching, NewestFirstKey, q.paging, 50);
      && p.total == |matching|
      && p.page == OrDefault(q.paging.page, 1)
      && p.pageSize == OrDefault(q.paging.pageSize, 50)
      && |p.items| <= p.pageSize
      && p.totalPages * p.pageSize >= p.total
      && (p.totalPages == 0 || (p.totalPages - 1) * p.pageSize < p.total)
      && (forall i :: 0 <= i < |p.items| ==> p.items[i] in rows && DealMatches(q, p.items[i]))
      && NewestFirst(p.items)
  {
    var p := ListPage(matching, NewestFirstKey, q.paging, 50);
    assert forall i :: 0 <= i < |p.items| ==> p.items[i] in matching;
    forall i | 0 <= i < |p.items| ensures p.items[i] in rows && DealMatches(q, p.items[i]) {
      var k :| 0 <= k < |matching| && matching[k] == p.items[i];
      assert matching[k] in rows && DealMatches(q, matching[k]);
    }
    SortedIsNewestFirst(p.items);
  }

  /** The list reply: the page plus its stage buckets. */
  datatype DealPage = DealPage(page: Page<Deal>, dealsByStage: map<string, seq<Deal>>)

  const DealNotFound: ErrorReply := ErrorResponse("NOT_FOUND", "Deal not found", 404)
  const DealDeleted: string := "Deal deleted successfully"

  /** The deal table. */
  class DealStore {
    var rows: seq<Deal>

    ghost predicate Valid()
      reads this
    {
      UniqueIds(rows, DealId)
    }

    constructor ()
      ensures rows == [] && Valid()
    {
      rows := [];
    }

    /** `GET /deals/:id`. */
    function Get(id: string): (r: Outcome<Deal>)
      reads this
      ensures r.Done? <==> exists i :: 0 <= i < |rows| && rows[i].id == id
      ensures r.Done? ==> r.status == 200 && r.value in rows && r.value.id == id
      ensures r.Failed? ==> r.error == DealNotFound
    {
      match IndexOf(rows, DealId, id)
      case None => Failed(DealNotFound)
      case Some(k) => Done(200, rows[k])
    }

    /** The rows the list's `where` selects, in table order. */
    function Matching(q: DealQuery): (r: seq<Deal>)
      reads this
      ensures forall i :: 0 <= i < |r| ==> r[i] in rows && DealMatches(q, r[i])
      ensures forall i :: 0 <= i < |rows| && DealMatches(q, rows[i]) ==> rows[i] in r
    {
      Filter(rows, d => DealMatches(q, d))
    }

    /** `GET /deals`: default page size 50, newest first, then the buckets. */
    function List(q: DealQuery, db: Db): (r: Outcome<DealPage>)
      reads this
      requires WellFormed(q.paging)
      ensures BadStageFilter(q) ==> r == Failed(HandleError(db.badEnumFilter))
      ensures !BadStageFilter(q) ==> r.Done? && r.status == 200
      ensures r.Done? ==>
        var p := r.value.page;
        && p.total == |Matching(q)|
        && p.page == OrDefault(q.paging.page, 1)
        && p.pageSize == OrDefault(q.paging.pageSize, 50)
        && |p.items| <= p.pageSize
        && p.totalPages * p.pageSize >= p.total
        && (p.totalPages == 0 || (p.totalPages - 1) * p.pageSize < p.total)
        && (forall i :: 0 <= i < |p.items| ==> p.items[i] in rows && DealMatches(q, p.items[i]))
        && NewestFirst(p.items)
        && r.value.dealsByStage == GroupByStage(p.items)
      // The page is the `skip`/`take` window of the matching rows, newest first.
      ensures r.Done? ==> r.value.page == ListPage(Matching(q), NewestFirstKey, q.paging, 50)
    {
      if BadStageFilter(q) then Failed(HandleError(db.badEnumFilter))
      else
        var matching := Matching(q);
        MatchingPage(rows, matching, q);
        var p := ListPage(matching, NewestFirstKey, q.paging, 50);
        Done(200, DealPage(p, GroupByStage(p.items)))
    }

    /** `POST /deals` after validation; `id` and `now` are what the database
        assigns. */
    method Create(input: DealCreate, id: string, now: int, f: Formats) returns (r: Outcome<Deal>)
      requires Valid()
      requires forall i :: 0 <= i < |rows| ==> rows[i].id != id
      modifies this
      ensures Valid()
      ensures r == Done(201, NewDeal(input, id, now, f))
      ensures rows == old(rows) + [NewDeal(input, id, now, f)]
    {
      var d := NewDeal(input, id, now, f);
      rows := rows + [d];
      r := Done(201, d);
    }

    /** `PATCH /deals/:id` after validation. An unknown id makes `update`
        throw, answered by `handleError`. */
    method Patch(id: string, u: DealUpdate, f: Formats, db: Db) returns (r: Outcome<Deal>)
      requires Valid()
      modifies this
      ensures Valid()
      ensures IndexOf(old(rows), DealId, id).None? ==> rows == old(rows) && r == Failed(HandleError(db.updateMissing))
      ensures IndexOf(old(rows), DealId, id).Some? ==>
        var k := IndexOf(old(rows), DealId, id).value;
        && rows == old(rows)[k := ApplyUpdate(old(rows)[k], u, f)]
        && r == Done(200, rows[k])
    {
      match IndexOf(rows, DealId, id)
      case None =>
        r := Failed(HandleError(db.updateMissing));
      case Some(k) =>
        rows := rows[k := ApplyUpdate(rows[k], u, f)];
        r := Done(200, rows[k]);
    }

    /** `DELETE /deals/:id`. */
    method Delete(id: string, db: Db) returns (r: Outcome<MessageBody>)
      requires Valid()
      modifies this
      ensures Valid()
      ensures IndexOf(old(rows), DealId, id).None? ==> rows == old(rows) && r == Failed(HandleError(db.deleteMissing))
      ensures IndexOf(old(rows), DealId, id).Some? ==>
        var k := IndexOf(old(rows), DealId, id).value;
        && rows == RemoveAt(old(rows), k)
        && r == Done(200, MessageBody(DealDeleted))
      ensures forall i :: 0 <= i < |rows| ==> rows[i].id != id
    {
      match IndexOf(rows, DealId, id)
      case None =>
        r := Failed(HandleError(db.deleteMissing));
      case Some(k) =>
        RemoveKeepsUnique(rows, DealId, k);
        rows := RemoveAt(rows, k);
        r := Done(200, MessageBody(DealDeleted));
    }
  }
}
