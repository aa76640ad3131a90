/** apps/api/src/routes/companies.ts: the company schemas, the unfiltered list
    with lead counts, and the company store. */
module Companies {
  import opened Wrappers
  import opened Json
  import opened Seqs
  import opened Schema
  import opened Errors
  import opened Listing
  import Leads

  /** A stored company; `domain` and `notes` are nullable columns. */
  datatype Company = Company(id: string, name: string, domain: Option<string>, notes: Option<string>, createdAt: int)

  function CompanyId(c: Company): string { c.id }

  /** `createCompanySchema`'s output. */
  datatype CompanyCreate = CompanyCreate(name: string, domain: Option<string>, notes: Option<string>)

  /** `updateCompanySchema = createCompanySchema.partial()`. */
  datatype CompanyUpdate = CompanyUpdate(name: Option<string>, domain: Option<string>, notes: Option<string>)

  /** `createCompanySchema`: a name of 1-255 UTF-16 code units and optional domain and notes. */
  function ParseCompanyCreate(body: Json): (r: Parsed<CompanyCreate>)
    ensures r.Valid? <==>
      && body.JObject?
      && TextBetween(body.fields, "name", 1, 255)
      && OptionalText(body.fields, "domain", _ => true)
      && OptionalText(body.fields, "notes", _ => true)
    ensures r.Valid? ==> var m := body.fields;
      r.value == CompanyCreate(Text(m, "name"), TextOrNone(m, "domain"), TextOrNone(m, "notes"))
    ensures r.Invalid? ==> r.issues != []
  {
    match AsObject(body)
    case Reject(issues) => Invalid(issues)
    case Accept(m) =>
      var name := Required("name", ShortTextAt(m, "name"));
      var domain := PlainTextAt(m, "domain");
      var notes := PlainTextAt(m, "notes");
      if name.Accept? && domain.Accept? && notes.Accept? then
        Valid(CompanyCreate(name.value, domain.value, notes.value))
      else
        Invalid(name.Issues() + domain.Issues() + notes.Issues())
  }

  /** `updateCompanySchema`: the same constraints on whichever fields are present. */
  function ParseCompanyUpdate(body: Json): (r: Parsed<CompanyUpdate>)
    ensures r.Valid? <==>
      && body.JObject?
      && ("name" !in body.fields || TextBetween(body.fields, "name", 1, 255))
      && OptionalText(body.fields, "domain", _ => true)
      && OptionalText(body.fields, "notes", _ => true)
    ensures r.Valid? ==> var m := body.fields;
      r.value == CompanyUpdate(TextOrNone(m, "name"), TextOrNone(m, "domain"), TextOrNone(m, "notes"))
    ensures r.Invalid? ==> r.issues != []
  {
    match AsObject(body)
    case Reject(issues) => Invalid(issues)
    case Accept(m) =>
      var name := ShortTextAt(m, "name");
      var domain := PlainTextAt(m, "domain");
      var notes := PlainTextAt(m, "notes");
      if name.Accept? && domain.Accept? && notes.Accept? then
        Valid(CompanyUpdate(name.value, domain.value, notes.value))
      else
        Invalid(name.Issues() + domain.Issues() + notes.Issues())
  }

  /** A body the create schema accepts is accepted by the update schema too,
      with every field present in the update. */
  lemma CreateBodyIsUpdateBody(body: Json)
    requires ParseCompanyCreate(body).Valid?
    ensures ParseCompanyUpdate(body).Valid?
    ensures ParseCompanyUpdate(body).value.name == Some(ParseCompanyCreate(body).value.name)
  {
  }

  /** The row `prisma.company.create({ data })` stores. */
  function NewCompany(input: CompanyCreate, id: string, now: int): (c: Company)
    ensures c.id == id && c.createdAt == now
    ensures c.name == input.name && c.domain == input.domain && c.notes == input.notes
  {
    Company(id, input.name, input.domain, input.notes, now)
  }

  /** `prisma.company.update({ data })`: exactly the present fields are written. */
  function ApplyUpdate(c: Company, u: CompanyUpdate): (r: Company)
    ensures r.id == c.id && r.createdAt == c.createdAt
    ensures r.name == (if u.name.Some? then u.name.value else c.name)
    ensures u.domain.None? ==> r.domain == c.domain
    ensures u.domain.Some? ==> r.domain == u.domain
    ensures u.notes.None? ==> r.notes == c.notes
    ensures u.notes.Some? ==> r.notes == u.notes
  {
    Company(
      c.id,
      if u.name.Some? then u.name.value else c.name,
      if u.domain.Some? then u.domain else c.domain,
      if u.notes.Some? then u.notes else c.notes,
      c.createdAt)
  }

  /** An update that writes every field makes the result independent of the old
      values except id and creation time. */
  lemma FullUpdateOverwrites(c1: Company, c2: Company, u: CompanyUpdate)
    requires u.name.Some? && u.domain.Some? && u.notes.Some?
    requires c1.id == c2.id && c1.createdAt == c2.createdAt
    ensures ApplyUpdate(c1, u) == ApplyUpdate(c2, u)
  {
  }

  /** A company with `_count: { leads }`. */
  datatype CompanyRow = CompanyRow(company: Company, leadCount: nat)

  /** The leads that reference company `id`. */
  function LeadsOf(leads: seq<Leads.Lead>, id: string): (r: seq<Leads.Lead>)
    ensures forall i :: 0 <= i < |r| ==> r[i] in leads && r[i].companyId == id
    ensures forall i :: 0 <= i < |leads| && leads[i].companyId == id ==> leads[i] in r
    ensures |r| <= |leads|
  {
    Filter(leads, (l: Leads.Lead) => l.companyId == id)
  }

  function WithCount(c: Company, leads: seq<Leads.Lead>): CompanyRow
  {
    CompanyRow(c, |LeadsOf(leads, c.id)|)
  }

  function CreatedDesc(c: Company): seq<int> { [-c.createdAt] }

  ghost predicate NewestFirst(s: seq<CompanyRow>)
  {
    forall i, j :: 0 <= i < j < |s| ==> s[i].company.createdAt >= s[j].company.createdAt
  }

  const CompanyNotFound: ErrorReply := ErrorResponse("NOT_FOUND", "Company not found", 404)
  const CompanyDeleted: string := "Company deleted successfully"

  /** The company table; the lead table is passed in where counts are needed. */
  class CompanyStore {
    var rows: seq<Company>

    ghost predicate Valid()
      reads this
    {
      UniqueIds(rows, CompanyId)
    }

    constructor ()
      ensures rows == [] && Valid()
    {
      rows := [];
    }

    /** `GET /companies/:id`, with its lead count. */
    function Get(id: string, leads: seq<Leads.Lead>): (r: Outcome<CompanyRow>)
      reads this
      ensures r.Done? <==> exists i :: 0 <= i < |rows| && rows[i].id == id
      ensures r.Done? ==> r.status == 200 && r.value.company in rows && r.value.company.id == id
      ensures r.Done? ==> r.value.leadCount == |LeadsOf(leads, id)| && r.value.leadCount <= |leads|
      ensures r.Failed? ==> r.error == CompanyNotFound
    {
      match IndexOf(rows, CompanyId, id)
      case None => Failed(CompanyNotFound)
      case Some(k) => Done(200, WithCount(rows[k], leads))
    }

    /** `GET /companies`: no filter, so `total` counts every company; default
        page size 20, newest first, each row with its lead count. */
    function List(q: PageQuery, leads: seq<Leads.Lead>): (r: Page<CompanyRow>)
      reads this
      requires WellFormed(q)
      ensures r.total == |rows|
      ensures r.page == OrDefault(q.page, 1) && r.pageSize == OrDefault(q.pageSize, 20)
      ensures |r.items| <= r.pageSize
      ensures r.totalPages * r.pageSize >= r.total
      ensures r.totalPages == 0 || (r.totalPages - 1) * r.pageSize < r.total
      ensures forall i :: 0 <= i < |r.items| ==>
        r.items[i].company in rows && r.items[i].leadCount == |LeadsOf(leads, r.items[i].company.id)|
      ensures NewestFirst(r.items)
      // The page is the `skip`/`take` window of all companies, newest first.
      ensures |r.items| == |ListPage(rows, CreatedDesc, q, 20).items|
      ensures forall i :: 0 <= i < |r.items| ==> r.items[i].company == ListPage(rows, CreatedDesc, q, 20).items[i]
    {
      var p := ListPage(rows, CreatedDesc, q, 20);
      var items := seq(|p.items|, i requires 0 <= i < |p.items| => WithCount(p.items[i], leads));
      assert NewestFirst(items) by {
        forall i, j | 0 <= i < j < |items| ensures items[i].company.createdAt >= items[j].company.createdAt {
          assert KeyLe(CreatedDesc(p.items[i]), CreatedDesc(p.items[j]));
        }
      }
      Page(items, p.total, p.page, p.pageSize, p.totalPages)
    }

    /** `POST /companies` after validation. */
    method Create(input: CompanyCreate, id: string, now: int) returns (r: Outcome<Company>)
      requires Valid()
      requires forall i :: 0 <= i < |rows| ==> rows[i].id != id
      modifies this
      ensures Valid()
      ensures r == Done(201, NewCompany(input, id, now))
      ensures rows == old(rows) + [NewCompany(input, id, now)]
    {
      var c := NewCompany(input, id, now);
      rows := rows + [c];
      r := Done(201, c);
    }

    /** `PATCH /companies/:id` after validation. */
    method Patch(id: string, u: CompanyUpdate, db: Db) returns (r: Outcome<Company>)
      requires Valid()
      modifies this
      ensures Valid()
      ensures IndexOf(old(rows), CompanyId, id).None? ==> rows == old(rows) && r == Failed(HandleError(db.updateMissing))
      ensures IndexOf(old(rows), CompanyId, id).Some? ==>
        var k := IndexOf(old(rows), CompanyId, id).value;
        && rows == old(rows)[k := ApplyUpdate(old(rows)[k], u)]
        && r == Done(200, rows[k])
    {
      match IndexOf(rows, CompanyId, id)
      case None =>
        r := Failed(HandleError(db.updateMissing));
      case Some(k) =>
        rows := rows[k := ApplyUpdate(rows[k], u)];
        r := Done(200, rows[k]);
    }

    /** `DELETE /companies/:id`. */
    method Delete(id: string, db: Db) returns (r: Outcome<MessageBody>)
      requires Valid()
      modifies this
      ensures Valid()
      ensures IndexOf(old(rows), CompanyId, id).None? ==> rows == old(rows) && r == Failed(HandleError(db.deleteMissing))
      ensures IndexOf(old(rows), CompanyId, id).Some? ==>
        var k := IndexOf(old(rows), CompanyId, id).value;
        && rows == RemoveAt(old(rows), k)
        && r == Done(200, MessageBody(CompanyDeleted))
      ensures forall i :: 0 <= i < |rows| ==> rows[i].id != id
    {
      match IndexOf(rows, CompanyId, id)
      case None =>
        r := Failed(HandleError(db.deleteMissing));
      case Some(k) =>
        RemoveKeepsUnique(rows, CompanyId, k);
        rows := RemoveAt(rows, k);
        r := Done(200, MessageBody(CompanyDeleted));
    }
  }
}
