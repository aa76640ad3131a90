/** apps/api/src/routes/activities.ts: the activity schemas, the filtered list
    with its three-key ordering, and the activity store. */
module Activities {
  import opened Wrappers
  import opened Json
  import opened Seqs
  import opened Enums
  import opened Schema
  import opened Errors
  import opened Middleware
  import opened Listing

  /** A stored activity; `dueDate` is a nullable instant. */
  datatype Activity = Activity(
    id: string,
    leadId: string,
    kind: ActivityType,
    content: string,
    dueDate: Option<int>,
    completed: bool,
    createdAt: int)

  function ActivityId(a: Activity): string { a.id }

  /** `createActivitySchema`'s output. */
  datatype ActivityCreate = ActivityCreate(
    leadId: string,
    kind: ActivityType,
    content: string,
    dueDate: Option<string>,
    completed: bool)

  /** `updateActivitySchema = createActivitySchema.partial()`. */
  datatype ActivityUpdate = ActivityUpdate(
    leadId: Option<string>,
    kind: Option<ActivityType>,
    content: Option<string>,
    dueDate: Option<string>,
    completed: Option<bool>)

  predicate IsTypeName(m: map<string, Json>, key: string) { IsText(m, key) && Text(m, key) in ActivityTypeNames }

  /** `z.enum(['NOTE', 'TASK', 'CALL', 'EMAIL'])`. */
  function TypeAt(m: map<string, Json>, key: string): (r: Field<Option<ActivityType>>)
    ensures r.Accept? <==> key !in m || IsTypeName(m, key)
    ensures r.Accept? && key in m ==> r.value == Some(ParseActivityType(Text(m, key)).value)
    ensures r.Accept? && key !in m ==> r.value == None
    ensures r.Reject? ==> r.issues != []
  {
    EnumAt(m, key, ActivityTypeNames, ParseActivityType)
  }

  /** `createActivitySchema`: a uuid lead, one of the four types, non-empty
      content, an optional ISO datetime and `completed` defaulting to false. */
  function ParseActivityCreate(f: Formats, body: Json): (r: Parsed<ActivityCreate>)
    ensures r.Valid? <==>
      && body.JObject?
      && IsText(body.fields, "leadId") && f.isUuid(Text(body.fields, "leadId"))
      && IsTypeName(body.fields, "type")
      && IsText(body.fields, "content") && |Text(body.fields, "content")| >= 1
      && OptionalText(body.fields, "dueDate", s => IsDatetime(f, s))
      && ("completed" !in body.fields || IsFlag(body.fields, "completed"))
    ensures r.Valid? ==> var m := body.fields;
      r.value == ActivityCreate(
        Text(m, "leadId"), ParseActivityType(Text(m, "type")).value, Text(m, "content"),
        TextOrNone(m, "dueDate"),
        "completed" in m && m["completed"].b)
    ensures r.Invalid? ==> r.issues != []
  {
    match AsObject(body)
    case Reject(issues) => Invalid(issues)
    case Accept(m) =>
      var leadId := Required("leadId", UuidAt(f, m, "leadId"));
      var kind := Required("type", TypeAt(m, "type"));
      var content := Required("content", NonEmptyTextAt(m, "content"));
      var dueDate := DatetimeAt(f, m, "dueDate");
      var completed := WithDefault(BoolAt(m, "completed"), false);
      if leadId.Accept? && kind.Accept? && content.Accept? && dueDate.Accept? && completed.Accept? then
        Valid(ActivityCreate(leadId.value, kind.value, content.value, dueDate.value, completed.value))
      else
        Invalid(leadId.Issues() + kind.Issues() + content.Issues() + dueDate.Issues() + completed.Issues())
  }

  /** `updateActivitySchema`: the same constraints on whichever fields are present. */
  function ParseActivityUpdate(f: Formats, body: Json): (r: Parsed<ActivityUpdate>)
    ensures r.Valid? <==>
      && body.JObject?
      && ("leadId" !in body.fields || (IsText(body.fields, "leadId") && f.isUuid(Text(body.fields, "leadId"))))
      && ("type" !in body.fields || IsTypeName(body.fields, "type"))
      && ("content" !in body.fields || (IsText(body.fields, "content") && |Text(body.fields, "content")| >= 1))
      && OptionalText(body.fields, "dueDate", s => IsDatetime(f, s))
      && ("completed" !in body.fields || IsFlag(body.fields, "completed"))
    ensures r.Valid? ==> var m := body.fields;
      && r.value.leadId == TextOrNone(m, "leadId")
      && r.value.kind == (if "type" in m then Some(ParseActivityType(Text(m, "type")).value) else None)
      && r.value.content == TextOrNone(m, "content")
      && r.value.dueDate == TextOrNone(m, "dueDate")
      && r.value.completed == (if "completed" in m then Some(m["completed"].b) else None)
    ensures r.Invalid? ==> r.issues != []
  {
    match AsObject(body)
    case Reject(issues) => Invalid(issues)
    case Accept(m) =>
      var leadId := UuidAt(f, m, "leadId");
      var kind := TypeAt(m, "type");
      var content := NonEmptyTextAt(m, "content");
      var dueDate := DatetimeAt(f, m, "dueDate");
      var completed := BoolAt(m, "completed");
      if leadId.Accept? && kind.Accept? && content.Accept? && dueDate.Accept? && completed.Accept? then
        Valid(ActivityUpdate(leadId.value, kind.value, content.value, dueDate.value, completed.value))
      else
        Invalid(leadId.Issues() + kind.Issues() + content.Issues() + dueDate.Issues() + completed.Issues())
  }

  /** The row `prisma.activity.create` stores: the due date converted only when given. */
  function NewActivity(input: ActivityCreate, id: string, now: int, f: Formats): (a: Activity)
    ensures a.id == id && a.createdAt == now
    ensures a.leadId == input.leadId && a.kind == input.kind && a.content == input.content
    ensures a.completed == input.completed
    ensures !Truthy(input.dueDate) ==> a.dueDate.None?
    ensures Truthy(input.dueDate) ==> a.dueDate == Some(f.instant(input.dueDate.value))
  {
    var due := if Truthy(input.dueDate) then Some(f.instant(input.dueDate.value)) else None;
    Activity(id, input.leadId, input.kind, input.content, due, input.completed, now)
  }

  /** `prisma.activity.update`: exactly the present fields are written, the due
      date converted when given. */
  function ApplyUpdate(a: Activity, u: ActivityUpdate, f: Formats): (r: Activity)
    ensures r.id == a.id && r.createdAt == a.createdAt
    ensures r.leadId == (if u.leadId.Some? then u.leadId.value else a.leadId)
    ensures r.kind == (if u.kind.Some? then u.kind.value else a.kind)
    ensures r.content == (if u.content.Some? then u.content.value else a.content)
    ensures u.dueDate.None? ==> r.dueDate == a.dueDate
    ensures Truthy(u.dueDate) ==> r.dueDate == Some(f.instant(u.dueDate.value))
    ensures r.completed == (if u.completed.Some? then u.completed.value else a.completed)
  {
    Activity(
      a.id,
      if u.leadId.Some? then u.leadId.value else a.leadId,
      if u.kind.Some? then u.kind.value else a.kind,
      if u.content.Some? then u.content.value else a.content,
      if Truthy(u.dueDate) then Some(f.instant(u.dueDate.value)) else a.dueDate,
      if u.completed.Some? then u.completed.value else a.completed,
      a.createdAt)
  }

  /** Marking an activity done twice is the same as marking it done once. */
  lemma CompleteIdempotent(a: Activity, f: Formats)
    ensures var done := ActivityUpdate(None, None, None, None, Some(true));
      ApplyUpdate(ApplyUpdate(a, done, f), done, f) == ApplyUpdate(a, done, f)
      && ApplyUpdate(a, done, f) == a.(completed := true)
  {
  }

  /** The list query: each parameter is `None` when absent. */
  datatype ActivityQuery = ActivityQuery(paging: PageQuery, leadId: Option<string>, completed: Option<string>, kind: Option<string>)

  predicate BadTypeFilter(q: ActivityQuery)
  {
    Truthy(q.kind) && q.kind.value !in ActivityTypeNames
  }

  /** The `where` the route builds. `completed` constrains whenever it is
      present at all, even empty: only the exact text "true" selects completed
      activities. */
  predicate ActivityMatches(q: ActivityQuery, a: Activity)
  {
    && (Truthy(q.leadId) ==> a.leadId == q.leadId.value)
    && (q.completed.Some? ==> a.completed == (q.completed.value == "true"))
    && (Truthy(q.kind) ==> ActivityTypeName(a.kind) == q.kind.value)
  }

  /** "1", "TRUE" and "" all select incomplete activities. */
  lemma OnlyTrueSelectsCompleted(paging: PageQuery, a: Activity, v: string)
    requires v != "true"
    ensures ActivityMatches(ActivityQuery(paging, None, Some(v), None), a) <==> !a.completed
  {
  }

  /** `orderBy: [{ completed: 'asc' }, { dueDate: 'asc' }, { createdAt: 'desc' }]`;
      rows without a due date go where the database puts nulls. */
  function OrderKey(db: Db): Activity -> seq<int>
  {
    (a: Activity) =>
      [ if a.completed then 1 else 0,
        if a.dueDate.Some? then 0 else if db.nullsFirst then -1 else 1,
        if a.dueDate.Some? then a.dueDate.value else 0,
        -a.createdAt ]
  }

  /** The order the list promises, pair by pair. */
  ghost predicate InListOrder(s: seq<Activity>)
  {
    forall i, j :: 0 <= i < j < |s| ==>
      && (s[i].completed ==> s[j].completed)
      && (s[i].completed == s[j].completed && s[i].dueDate.Some? && s[j].dueDate.Some? ==>
            s[i].dueDate.value <= s[j].dueDate.value)
      && (s[i].completed == s[j].completed && s[i].dueDate == s[j].dueDate ==>
            s[i].createdAt >= s[j].createdAt)
  }

  lemma {:induction false} SortedIsInListOrder(s: seq<Activity>, db: Db)
    requires SortedBy(s, OrderKey(db))
    ensures InListOrder(s)
  {
    forall i, j | 0 <= i < j < |s|
      ensures && (s[i].completed ==> s[j].completed)
              && (s[i].completed == s[j].completed && s[i].dueDate.Some? && s[j].dueDate.Some? ==>
                    s[i].dueDate.value <= s[j].dueDate.value)
              && (s[i].completed == s[j].completed && s[i].dueDate == s[j].dueDate ==>
                    s[i].createdAt >= s[j].createdAt)
    {
      var a, b := OrderKey(db)(s[i]), OrderKey(db)(s[j]);
      KeyLeHead(a, b);
      if a[0] == b[0] {
        KeyLeHead(a[1..], b[1..]);
        if a[1] == b[1] {
          KeyLeHead(a[1..][1..], b[1..][1..]);
          if a[2] == b[2] {
            KeyLeHead(a[1..][1..][1..], b[1..][1..][1..]);
          }
        }
      }
    }
  }

  const ActivityNotFound: ErrorReply := ErrorResponse("NOT_FOUND", "Activity not found", 404)
  const ActivityDeleted: string := "Activity deleted successfully"

  /** The activity table. */
  class ActivityStore {
    var rows: seq<Activity>

    ghost predicate Valid()
      reads this
    {
      UniqueIds(rows, ActivityId)
    }

    constructor ()
      ensures rows == [] && Valid()
    {
      rows := [];
    }

    /** `GET /activities/:id`. */
    function Get(id: string): (r: Outcome<Activity>)
      reads this
      ensures r.Done? <==> exists i :: 0 <= i < |rows| && rows[i].id == id
      ensures r.Done? ==> r.status == 200 && r.value in rows && r.value.id == id
      ensures r.Failed? ==> r.error == ActivityNotFound
    {
      match IndexOf(rows, ActivityId, id)
      case None => Failed(ActivityNotFound)
      case Some(k) => Done(200, rows[k])
    }

    function Matching(q: ActivityQuery): (r: seq<Activity>)
      reads this
      ensures forall i :: 0 <= i < |r| ==> r[i] in rows && ActivityMatches(q, r[i])
      ensures forall i :: 0 <= i < |rows| && ActivityMatches(q, rows[i]) ==> rows[i] in r
    {
      Filter(rows, a => ActivityMatches(q, a))
    }

    /** `GET /activities`: default page size 20, in list order. */
    function List(q: ActivityQuery, db: Db): (r: Outcome<Page<Activity>>)
      reads this
      requires WellFormed(q.paging)
      ensures BadTypeFilter(q) ==> r == Failed(HandleError(db.badEnumFilter))
      ensures !BadTypeFilter(q) ==> r.Done? && r.status == 200
      ensures r.Done? ==>
        var p := r.value;
        && p.total == |Matching(q)|
        && p.page == OrDefault(q.paging.page, 1)
        && p.pageSize == OrDefault(q.paging.pageSize, 20)
        && |p.items| <= p.pageSize
        && p.totalPages * p.pageSize >= p.total
        && (p.totalPages == 0 || (p.totalPages - 1) * p.pageSize < p.total)
        && (forall i :: 0 <= i < |p.items| ==> p.items[i] in rows && ActivityMatches(q, p.items[i]))
        && InListOrder(p.items)
      // The page is the `skip`/`take` window of the matching rows in list order.
      ensures r.Done? ==> r.value == ListPage(Matching(q), OrderKey(db), q.paging, 20)
    {
      if BadTypeFilter(q) then Failed(HandleError(db.badEnumFilter))
      else
        var p := ListPage(Matching(q), OrderKey(db), q.paging, 20);
        SortedIsInListOrder(p.items, db);
        Done(200, p)
    }

    /** `POST /activities` after validation. */
    method Create(input: ActivityCreate, id: string, now: int, f: Formats) returns (r: Outcome<Activity>)
      requires Valid()
      requires forall i :: 0 <= i < |rows| ==> rows[i].id != id
      modifies this
      ensures Valid()
      ensures r == Done(201, NewActivity(input, id, now, f))
      ensures rows == old(rows) + [NewActivity(input, id, now, f)]
    {
      var a := NewActivity(input, id, now, f);
      rows := rows + [a];
      r := Done(201, a);
    }

    /** `PATCH /activities/:id` after validation. */
    method Patch(id: string, u: ActivityUpdate, f: Formats, db: Db) returns (r: Outcome<Activity>)
      requires Valid()
      modifies this
      ensures Valid()
      ensures IndexOf(old(rows), ActivityId, id).None? ==> rows == old(rows) && r == Failed(HandleError(db.updateMissing))
      ensures IndexOf(old(rows), ActivityId, id).Some? ==>
        var k := IndexOf(old(rows), ActivityId, id).value;
        && rows == old(rows)[k := ApplyUpdate(old(rows)[k], u, f)]
        && r == Done(200, rows[k])
    {
      match IndexOf(rows, ActivityId, id)
      case None =>
        r := Failed(HandleError(db.updateMissing));
      case Some(k) =>
        rows := rows[k := ApplyUpdate(rows[k], u, f)];
        r := Done(200, rows[k]);
    }

    /** `DELETE /activities/:id`. */
    method Delete(id: string, db: Db) returns (r: Outcome<MessageBody>)
      requires Valid()
      modifies this
      ensures Valid()
      ensures IndexOf(old(rows), ActivityId, id).None? ==> rows == old(rows) && r == Failed(HandleError(db.deleteMissing))
      ensures IndexOf(old(rows), ActivityId, id).Some? ==>
        var k := IndexOf(old(rows), ActivityId, id).value;
        && rows == RemoveAt(old(rows), k)
        && r == Done(200, MessageBody(ActivityDeleted))
      ensures forall i :: 0 <= i < |rows| ==> rows[i].id != id
    {
      match IndexOf(rows, ActivityId, id)
      case None =>
        r := Failed(HandleError(db.deleteMissing));
      case Some(k) =>
        RemoveKeepsUnique(rows, ActivityId, k);
        rows := RemoveAt(rows, k);
        r := Done(200, MessageBody(ActivityDeleted));
    }
  }
}
