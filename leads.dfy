/** apps/api/src/routes/leads.ts: the lead schemas, the searchable list
    endpoint and the lead store behind get, create, patch and delete. */
module Leads {
  import opened Wrappers
  import opened Json
  import opened Seqs
  import opened Enums
  import opened Schema
  import opened Errors
  import opened Middleware
  import opened Listing

  /** A stored lead; `email` and `phone` are nullable columns. */
  datatype Lead = Lead(
    id: string,
    companyId: string,
    contactName: string,
    email: Option<string>,
    phone: Option<string>,
    source: LeadSource,
    status: LeadStatus,
    score: int,
    createdAt: int)

  function LeadId(l: Lead): string { l.id }

  /** `createLeadSchema`'s output. */
  datatype LeadCreate = LeadCreate(
    companyId: string,
    contactName: string,
    email: Option<string>,
    phone: Option<string>,
    source: LeadSource,
    status: LeadStatus,
    score: int)

  /** `updateLeadSchema = createLeadSchema.partial()`. */
  datatype LeadUpdate = LeadUpdate(
    companyId: Option<string>,
    contactName: Option<string>,
    email: Option<string>,
    phone: Option<string>,
    source: Option<LeadSource>,
    status: Option<LeadStatus>,
    score: Option<int>)

  predicate IsSourceName(m: map<string, Json>, key: string) { IsText(m, key) && Text(m, key) in LeadSourceNames }
  predicate IsStatusName(m: map<string, Json>, key: string) { IsText(m, key) && Text(m, key) in LeadStatusNames }
  predicate ScoreOk(m: map<string, Json>) { IsNumber(m, "score") && IsScore(Number(m, "score")) }

  /** `z.enum(['WEB', 'REFERRAL', 'EVENT', 'OTHER'])`. */
  function SourceAt(m: map<string, Json>, key: string): (r: Field<Option<LeadSource>>)
    ensures r.Accept? <==> key !in m || IsSourceName(m, key)
    ensures r.Accept? && key in m ==> r.value == Some(ParseLeadSource(Text(m, key)).value)
    ensures r.Accept? && key !in m ==> r.value == None
    ensures r.Reject? ==> r.issues != []
  {
    EnumAt(m, key, LeadSourceNames, ParseLeadSource)
  }

  /** `z.enum(['NEW', 'QUALIFIED', 'LOST'])`. */
  function StatusAt(m: map<string, Json>, key: string): (r: Field<Option<LeadStatus>>)
    ensures r.Accept? <==> key !in m || IsStatusName(m, key)
    ensures r.Accept? && key in m ==> r.value == Some(ParseLeadStatus(Text(m, key)).value)
    ensures r.Accept? && key !in m ==> r.value == None
    ensures r.Reject? ==> r.issues != []
  {
    EnumAt(m, key, LeadStatusNames, ParseLeadStatus)
  }

  /** A validated score as the integer it is. */
  function WholeScore(f: Field<Option<real>>): Field<Option<int>>
  {
    match f
    case Reject(issues) => Reject(issues)
    case Accept(None) => Accept(None)
    case Accept(Some(n)) => Accept(Some(n.Floor))
  }

  /** `createLeadSchema`: a uuid company, a contact name of 1-255 UTF-16 code units, an
      optional email and phone, a required source, a status defaulting to NEW
      and a whole score from 0 to 100 defaulting to 0 (rejected, not clamped,
      outside that range). */
  function ParseLeadCreate(f: Formats, body: Json): (r: Parsed<LeadCreate>)
    ensures r.Valid? <==>
      && body.JObject?
      && IsText(body.fields, "companyId") && f.isUuid(Text(body.fields, "companyId"))
      && TextBetween(body.fields, "contactName", 1, 255)
      && OptionalText(body.fields, "email", f.isEmail)
      && OptionalText(body.fields, "phone", _ => true)
      && IsSourceName(body.fields, "source")
      && ("status" !in body.fields || IsStatusName(body.fields, "status"))
      && ("score" !in body.fields || ScoreOk(body.fields))
    ensures r.Valid? ==> var m := body.fields;
      r.value == LeadCreate(
        Text(m, "companyId"), Text(m, "contactName"), TextOrNone(m, "email"), TextOrNone(m, "phone"),
        ParseLeadSource(Text(m, "source")).value,
        if "status" in m then ParseLeadStatus(Text(m, "status")).value else New,
        if "score" in m then Number(m, "score").Floor else 0)
    ensures r.Valid? ==> 0 <= r.value.score <= 100
    ensures r.Invalid? ==> r.issues != []
  {
    match AsObject(body)
    case Reject(issues) => Invalid(issues)
    case Accept(m) =>
      var companyId := Required("companyId", UuidAt(f, m, "companyId"));
      var contactName := Required("contactName", ShortTextAt(m, "contactName"));
      var email := EmailAt(f, m, "email");
      var phone := PlainTextAt(m, "phone");
      var source := Required("source", SourceAt(m, "source"));
      var status := WithDefault(StatusAt(m, "status"), New);
      var score := WithDefault(WholeScore(ScoreAt(m, "score")), 0);
      assert contactName.Accept? <==> TextBetween(m, "contactName", 1, 255);
      if companyId.Accept? && contactName.Accept? && email.Accept? && phone.Accept?
         && source.Accept? && status.Accept? && score.Accept? then
        Valid(LeadCreate(companyId.value, contactName.value, email.value, phone.value,
                         source.value, status.value, score.value))
      else
        Invalid(companyId.Issues() + contactName.Issues() + email.Issues() + phone.Issues()
                + source.Issues() + status.Issues() + score.Issues())
  }

  /** `updateLeadSchema`: the same constraints on whichever fields are present. */
  function ParseLeadUpdate(f: Formats, body: Json): (r: Parsed<LeadUpdate>)
    ensures r.Valid? <==>
      && body.JObject?
      && ("companyId" !in body.fields || (IsText(body.fields, "companyId") && f.isUuid(Text(body.fields, "companyId"))))
      && ("contactName" !in body.fields || TextBetween(body.fields, "contactName", 1, 255))
      && OptionalText(body.fields, "email", f.isEmail)
      && OptionalText(body.fields, "phone", _ => true)
      && ("source" !in body.fields || IsSourceName(body.fields, "source"))
      && ("status" !in body.fields || IsStatusName(body.fields, "status"))
      && ("score" !in body.fields || ScoreOk(body.fields))
    ensures r.Valid? ==> var m := body.fields;
      && r.value.companyId == TextOrNone(m, "companyId")
      && r.value.contactName == TextOrNone(m, "contactName")
      && r.value.email == TextOrNone(m, "email")
      && r.value.phone == TextOrNone(m, "phone")
      && r.value.source == (if "source" in m then Some(ParseLeadSource(Text(m, "source")).value) else None)
      && r.value.status == (if "status" in m then Some(ParseLeadStatus(Text(m, "status")).value) else None)
      && r.value.score == (if "score" in m then Some(Number(m, "score").Floor) else None)
    ensures r.Invalid? ==> r.issues != []
  {
    match AsObject(body)
    case Reject(issues) => Invalid(issues)
    case Accept(m) =>
      var companyId := UuidAt(f, m, "companyId");
      var contactName := ShortTextAt(m, "contactName");
      var email := EmailAt(f, m, "email");
      var phone := PlainTextAt(m, "phone");
      var source := SourceAt(m, "source");
      var status := StatusAt(m, "status");
      var score := WholeScore(ScoreAt(m, "score"));
      if companyId.Accept? && contactName.Accept? && email.Accept? && phone.Accept?
         && source.Accept? && status.Accept? && score.Accept? then
        Valid(LeadUpdate(companyId.value, contactName.value, email.value, phone.value,
                         source.value, status.value, score.value))
      else
        Invalid(companyId.Issues() + contactName.Issues() + email.Issues() + phone.Issues()
                + source.Issues() + status.Issues() + score.Issues())
  }

  /** The row `prisma.lead.create({ data })` stores. */
  function NewLead(input: LeadCreate, id: string, now: int): (l: Lead)
    ensures l.id == id && l.createdAt == now
    ensures l.companyId == input.companyId && l.contactName == input.contactName
    ensures l.email == input.email && l.phone == input.phone
    ensures l.source == input.source && l.status == input.status && l.score == input.score
  {
    Lead(id, input.companyId, input.contactName, input.email, input.phone,
         input.source, input.status, input.score, now)
  }

  /** `prisma.lead.update({ data })`: exactly the present fields are written. */
  function ApplyUpdate(l: Lead, u: LeadUpdate): (r: Lead)
    ensures r.id == l.id && r.createdAt == l.createdAt
    ensures r.companyId == (if u.companyId.Some? then u.companyId.value else l.companyId)
    ensures r.contactName == (if u.contactName.Some? then u.contactName.value else l.contactName)
    ensures u.email.None? ==> r.email == l.email
    ensures u.email.Some? ==> r.email == u.email
    ensures u.phone.None? ==> r.phone == l.phone
    ensures u.phone.Some? ==> r.phone == u.phone
    ensures r.source == (if u.source.Some? then u.source.value else l.source)
    ensures r.status == (if u.status.Some? then u.status.value else l.status)
    ensures r.score == (if u.score.Some? then u.score.value else l.score)
  {
    Lead(
      l.id,
      if u.companyId.Some? then u.companyId.value else l.companyId,
      if u.contactName.Some? then u.contactName.value else l.contactName,
      if u.email.Some? then u.email else l.email,
      if u.phone.Some? then u.phone else l.phone,
      if u.source.Some? then u.source.value else l.source,
      if u.status.Some? then u.status.value else l.status,
      if u.score.Some? then u.score.value else l.score,
      l.createdAt)
  }

  /** An update with no fields changes nothing. */
  lemma EmptyUpdateKeepsLead(l: Lead)
    ensures ApplyUpdate(l, LeadUpdate(None, None, None, None, None, None, None)) == l
  {
  }

  /** The list query: each parameter is `None` when absent. */
  datatype LeadQuery = LeadQuery(paging: PageQuery, q: Option<string>, status: Option<string>, companyId: Option<string>)

  predicate BadStatusFilter(q: LeadQuery)
  {
    Truthy(q.status) && q.status.value !in LeadStatusNames
  }

  /** `{ contains: q }` on a nullable column: a null never matches. */
  predicate ColumnContains(db: Db, column: Option<string>, q: string)
  {
    column.Some? && db.contains(column.value, q)
  }

  /** The search: `q` in the contact name, the email or the phone. */
  predicate Mentions(db: Db, l: Lead, q: string)
  {
    db.contains(l.contactName, q) || ColumnContains(db, l.email, q) || ColumnContains(db, l.phone, q)
  }

  /** The `where` the route builds: truthy parameters only, conjunctively. */
  predicate LeadMatches(db: Db, q: LeadQuery, l: Lead)
  {
    && (Truthy(q.q) ==> Mentions(db, l, q.q.value))
    && (Truthy(q.status) ==> LeadStatusName(l.status) == q.status.value)
    && (Truthy(q.companyId) ==> l.companyId == q.companyId.value)
  }

  /** With no parameters every lead matches. */
  lemma NoParametersNoConstraint(db: Db, paging: PageQuery, l: Lead)
    ensures LeadMatches(db, LeadQuery(paging, None, None, None), l)
    ensures LeadMatches(db, LeadQuery(paging, Some(""), Some(""), Some("")), l)
  {
  }

  function NewestFirstKey(l: Lead): seq<int> { [-l.createdAt] }

  ghost predicate NewestFirst(s: seq<Lead>)
  {
    forall i, j :: 0 <= i < j < |s| ==> s[i].createdAt >= s[j].createdAt
  }

  lemma SortedIsNewestFirst(s: seq<Lead>)
    requires SortedBy(s, NewestFirstKey)
    ensures NewestFirst(s)
  {
    forall i, j | 0 <= i < j < |s| ensures s[i].createdAt >= s[j].createdAt {
      assert KeyLe(NewestFirstKey(s[i]), NewestFirstKey(s[j]));
    }
  }

  /** A page of rows drawn from `rows` that match the query keeps them newest first. */
  lemma MatchingPage(rows: seq<Lead>, matching: seq<Lead>, db: Db, q: LeadQuery)
    requires WellFormed(q.paging)
    requires forall i :: 0 <= i < |matching| ==> matching[i] in rows && LeadMatches(db, q, matching[i])
    ensures var p := ListPage(matching, NewestFirstKey, q.paging, 20);
      && p.total == |matching|
      && p.page == OrDefault(q.paging.page, 1)
      && p.pageSize == OrDefault(q.paging.pageSize, 20)
      && |p.items| <= p.pageSize
      && p.totalPages * p.pageSize >= p.total
      && (p.totalPages == 0 || (p.totalPages - 1) * p.pageSize < p.total)
      && (forall i :: 0 <= i < |p.items| ==> p.items[i] in rows && LeadMatches(db, q, p.items[i]))
      && NewestFirst(p.items)
  {
    var p := ListPage(matching, NewestFirstKey, q.paging, 20);
    assert forall i :: 0 <= i < |p.items| ==> p.items[i] in matching;
    forall i | 0 <= i < |p.items| ensures p.items[i] in rows && LeadMatches(db, q, p.items[i]) {
      var k :| 0 <= k < |matching| && matching[k] == p.items[i];
      assert matching[k] in rows && LeadMatches(db, q, matching[k]);
    }
    SortedIsNewestFirst(p.items);
  }

  const LeadNotFound: ErrorReply := ErrorResponse("NOT_FOUND", "Lead not found", 404)
  const LeadDeleted: string := "Lead deleted successfully"

  /** The lead table. */
  class LeadStore {
    var rows: seq<Lead>

    ghost predicate Valid()
      reads this
    {
      UniqueIds(rows, LeadId)
    }

    constructor ()
      ensures rows == [] && Valid()
    {
      rows := [];
    }

    /** `GET /leads/:id`. */
    function Get(id: string): (r: Outcome<Lead>)
      reads this
      ensures r.Done? <==> exists i :: 0 <= i < |rows| && rows[i].id == id
      ensures r.Done? ==> r.status == 200 && r.value in rows && r.value.id == id
      ensures r.Failed? ==> r.error == LeadNotFound
    {
      match IndexOf(rows, LeadId, id)
      case None => Failed(LeadNotFound)
      case Some(k) => Done(200, rows[k])
    }

    function Matching(db: Db, q: LeadQuery): (r: seq<Lead>)
      reads this
      ensures forall i :: 0 <= i < |r| ==> r[i] in rows && LeadMatches(db, q, r[i])
      ensures forall i :: 0 <= i < |rows| && LeadMatches(db, q, rows[i]) ==> rows[i] in r
    {
      Filter(rows, l => LeadMatches(db, q, l))
    }

    /** `GET /leads`: default page size 20, newest first. */
    function List(q: LeadQuery, db: Db): (r: Outcome<Page<Lead>>)
      reads this
      requires WellFormed(q.paging)
      ensures BadStatusFilter(q) ==> r == Failed(HandleError(db.badEnumFilter))
      ensures !BadStatusFilter(q) ==> r.Done? && r.status == 200
      ensures r.Done? ==>
        var p := r.value;
        && p.total == |Matching(db, q)|
        && p.page == OrDefault(q.paging.page, 1)
        && p.pageSize == OrDefault(q.paging.pageSize, 20)
        && |p.items| <= p.pageSize
        && p.totalPages * p.pageSize >= p.total
        && (p.totalPages == 0 || (p.totalPages - 1) * p.pageSize < p.total)
        && (forall i :: 0 <= i < |p.items| ==> p.items[i] in rows && LeadMatches(db, q, p.items[i]))
        && NewestFirst(p.items)
      // The page is the `skip`/`take` window of the matching rows, newest first.
      ensures r.Done? ==> r.value == ListPage(Matching(db, q), NewestFirstKey, q.paging, 20)
    {
      if BadStatusFilter(q) then Failed(HandleError(db.badEnumFilter))
      else
        var matching := Matching(db, q);
        MatchingPage(rows, matching, db, q);
        Done(200, ListPage(matching, NewestFirstKey, q.paging, 20))
    }

    /** `POST /leads` after validation. */
    method Create(input: LeadCreate, id: string, now: int) returns (r: Outcome<Lead>)
      requires Valid()
      requires forall i :: 0 <= i < |rows| ==> rows[i].id != id
      modifies this
      ensures Valid()
      ensures r == Done(201, NewLead(input, id, now))
      ensures rows == old(rows) + [NewLead(input, id, now)]
    {
      var l := NewLead(input, id, now);
      rows := rows + [l];
      r := Done(201, l);
    }

    /** `PATCH /leads/:id` after validation. */
    method Patch(id: string, u: LeadUpdate, db: Db) returns (r: Outcome<Lead>)
      requires Valid()
      modifies this
      ensures Valid()
      ensures IndexOf(old(rows), LeadId, id).None? ==> rows == old(rows) && r == Failed(HandleError(db.updateMissing))
      ensures IndexOf(old(rows), LeadId, id).Some? ==>
        var k := IndexOf(old(rows), LeadId, id).value;
        && rows == old(rows)[k := ApplyUpdate(old(rows)[k], u)]
        && r == Done(200, rows[k])
    {
      match IndexOf(rows, LeadId, id)
      case None =>
        r := Failed(HandleError(db.updateMissing));
      case Some(k) =>
        rows := rows[k := ApplyUpdate(rows[k], u)];
        r := Done(200, rows[k]);
    }

    /** `DELETE /leads/:id`. */
    method Delete(id: string, db: Db) returns (r: Outcome<MessageBody>)
      requires Valid()
      modifies this
      ensures Valid()
      ensures IndexOf(old(rows), LeadId, id).None? ==> rows == old(rows) && r == Failed(HandleError(db.deleteMissing))
      ensures IndexOf(old(rows), LeadId, id).Some? ==>
        var k := IndexOf(old(rows), LeadId, id).value;
        && rows == RemoveAt(old(rows), k)
        && r == Done(200, MessageBody(LeadDeleted))
      ensures forall i :: 0 <= i < |rows| ==> rows[i].id != id
    {
      match IndexOf(rows, LeadId, id)
      case None =>
        r := Failed(HandleError(db.deleteMissing));
      case Some(k) =>
        RemoveKeepsUnique(rows, LeadId, k);
        rows := RemoveAt(rows, k);
        r := Done(200, MessageBody(LeadDeleted));
    }
  }
}
