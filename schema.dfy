/** The part of zod (version 3) the schemas use: object shapes whose fields are
    strings, numbers, booleans or enumerations, each required, optional or
    defaulted, with per-field checks. Every failing check of every field is
    reported, fields in shape order and checks in the order they are chained. */
module Schema {
  import opened Wrappers
  import opened Json
  import opened Strings

  /** One zod issue: where (the key path) and what. */
  datatype Issue = Issue(path: seq<string>, message: string)

  /** The outcome for one field of an object shape. */
  datatype Field<+T> = Accept(value: T) | Reject(issues: seq<Issue>)
  {
    function Issues(): seq<Issue>
    {
      if Accept? then [] else issues
    }
  }

  /** `schema.safeParse(body)`: the typed value, or every issue found. */
  datatype Parsed<+T> = Valid(value: T) | Invalid(issues: seq<Issue>)

  /** zod's string-format recognisers and the ISO timestamp conversion
      (`new Date(s)`), which are library code outside this model. */
  datatype Formats = Formats(
    isEmail: string -> bool,
    isUuid: string -> bool,
    isDatetime: string -> bool,
    instant: string -> int)

  /** zod's datetime pattern demands digits, so it never accepts "". */
  predicate IsDatetime(f: Formats, s: string)
  {
    s != "" && f.isDatetime(s)
  }

  datatype StringCheck =
    | MinLength(min: nat, message: string)
    | MaxLength(max: nat, message: string)
    | Matches(accepts: string -> bool, message: string)

  predicate StringPasses(c: StringCheck, s: string)
  {
    match c
    case MinLength(n, _) => Utf16Length(s) >= n
    case MaxLength(n, _) => Utf16Length(s) <= n
    case Matches(accepts, _) => accepts(s)
  }

  /** `.min(1)` and `.max(255)` with zod's default messages. */
  const NonEmpty: StringCheck := MinLength(1, "String must contain at least 1 character(s)")
  const AtMost255: StringCheck := MaxLength(255, "String must contain at most 255 character(s)")

  function EmailCheck(f: Formats): StringCheck { Matches(f.isEmail, "Invalid email") }
  function UuidCheck(f: Formats): StringCheck { Matches(f.isUuid, "Invalid uuid") }
  function DatetimeCheck(f: Formats): StringCheck { Matches(s => IsDatetime(f, s), "Invalid datetime") }

  /** One issue per failing check, in check order. */
  function StringIssues(key: string, s: string, checks: seq<StringCheck>): (r: seq<Issue>)
    ensures |r| <= |checks|
    ensures r == [] <==> forall i :: 0 <= i < |checks| ==> StringPasses(checks[i], s)
    ensures forall i :: 0 <= i < |r| ==> r[i].path == [key]
    decreases |checks|
  {
    if checks == [] then []
    else
      (if StringPasses(checks[0], s) then [] else [Issue([key], checks[0].message)])
      + StringIssues(key, s, checks[1..])
  }

  datatype NumberCheck =
    | Integer(message: string)
    | AtLeast(min: int, message: string)
    | AtMost(max: int, message: string)
    | Positive(message: string)

  predicate NumberPasses(c: NumberCheck, n: real)
  {
    match c
    case Integer(_) => n.Floor as real == n
    case AtLeast(m, _) => n >= m as real
    case AtMost(m, _) => n <= m as real
    case Positive(_) => n > 0.0
  }

  /** `.positive()`, `.int()`, `.min(0)` and `.max(100)` on numbers, with zod's default messages. */
  const IsPositive: NumberCheck := Positive("Number must be greater than 0")
  const WholeNumber: NumberCheck := Integer("Expected integer, received float")
  const AtLeastZero: NumberCheck := AtLeast(0, "Number must be greater than or equal to 0")
  const AtMostHundred: NumberCheck := AtMost(100, "Number must be less than or equal to 100")

  function NumberIssues(key: string, n: real, checks: seq<NumberCheck>): (r: seq<Issue>)
    ensures |r| <= |checks|
    ensures r == [] <==> forall i :: 0 <= i < |checks| ==> NumberPasses(checks[i], n)
    ensures forall i :: 0 <= i < |r| ==> r[i].path == [key]
    decreases |checks|
  {
    if checks == [] then []
    else
      (if NumberPasses(checks[0], n) then [] else [Issue([key], checks[0].message)])
      + NumberIssues(key, n, checks[1..])
  }

  /** A type mismatch: zod's "Expected X, received Y". */
  function Mismatch(key: string, expected: string, got: Json): Issue
  {
    Issue([key], "Expected " + expected + ", received " + TypeName(got))
  }

  /** A string field; an absent key reads as `undefined`. */
  function StringAt(m: map<string, Json>, key: string, checks: seq<StringCheck>): (r: Field<Option<string>>)
    ensures key !in m ==> r == Accept(None)
    ensures key in m ==>
      (r.Accept? <==> m[key].JString? && forall i :: 0 <= i < |checks| ==> StringPasses(checks[i], m[key].s))
    ensures key in m && r.Accept? ==> r.value == Some(m[key].s)
    ensures r.Reject? ==> r.issues != []
  {
    if key !in m then Accept(None)
    else match m[key]
      case JString(s) =>
        var issues := StringIssues(key, s, checks);
        if issues == [] then Accept(Some(s)) else Reject(issues)
      case other => Reject([Mismatch(key, "string", other)])
  }

  /** A number field. */
  function NumberAt(m: map<string, Json>, key: string, checks: seq<NumberCheck>): (r: Field<Option<real>>)
    ensures key !in m ==> r == Accept(None)
    ensures key in m ==>
      (r.Accept? <==> m[key].JNumber? && forall i :: 0 <= i < |checks| ==> NumberPasses(checks[i], m[key].n))
    ensures key in m && r.Accept? ==> r.value == Some(m[key].n)
    ensures r.Reject? ==> r.issues != []
  {
    if key !in m then Accept(None)
    else match m[key]
      case JNumber(n) =>
        var issues := NumberIssues(key, n, checks);
        if issues == [] then Accept(Some(n)) else Reject(issues)
      case other => Reject([Mismatch(key, "number", other)])
  }

  /** A boolean field. */
  function BoolAt(m: map<string, Json>, key: string): (r: Field<Option<bool>>)
    ensures key !in m ==> r == Accept(None)
    ensures key in m ==> (r.Accept? <==> m[key].JBool?)
    ensures key in m && r.Accept? ==> r.value == Some(m[key].b)
    ensures r.Reject? ==> r.issues != []
  {
    if key !in m then Accept(None)
    else match m[key]
      case JBool(b) => Accept(Some(b))
      case other => Reject([Mismatch(key, "boolean", other)])
  }

  // The string and number chains the server schemas use, each with what it accepts.

  /** `z.string()`. */
  function PlainTextAt(m: map<string, Json>, key: string): (r: Field<Option<string>>)
    ensures r.Accept? <==> key !in m || IsText(m, key)
    ensures r.Accept? ==> r.value == TextOrNone(m, key)
    ensures r.Reject? ==> r.issues != []
  {
    StringAt(m, key, [])
  }

  /** `z.string().min(1)`. */
  function NonEmptyTextAt(m: map<string, Json>, key: string): (r: Field<Option<string>>)
    ensures r.Accept? <==> key !in m || (IsText(m, key) && |Text(m, key)| >= 1)
    ensures r.Accept? ==> r.value == TextOrNone(m, key)
    ensures r.Reject? ==> r.issues != []
  {
    StringAt(m, key, [NonEmpty])
  }

  /** `z.string().min(1).max(255)`. */
  function ShortTextAt(m: map<string, Json>, key: string): (r: Field<Option<string>>)
    ensures r.Accept? <==> key !in m || TextBetween(m, key, 1, 255)
    ensures r.Accept? ==> r.value == TextOrNone(m, key)
    ensures r.Reject? ==> r.issues != []
  {
    var checks := [NonEmpty, AtMost255];
    if key in m && m[key].JString? then
      assert (forall i :: 0 <= i < 2 ==> StringPasses(checks[i], m[key].s)) <==>
        StringPasses(checks[0], m[key].s) && StringPasses(checks[1], m[key].s);
      StringAt(m, key, checks)
    else
      StringAt(m, key, checks)
  }

  /** `z.string().uuid()`. */
  function UuidAt(f: Formats, m: map<string, Json>, key: string): (r: Field<Option<string>>)
    ensures r.Accept? <==> key !in m || (IsText(m, key) && f.isUuid(Text(m, key)))
    ensures r.Accept? ==> r.value == TextOrNone(m, key)
    ensures r.Reject? ==> r.issues != []
  {
    StringAt(m, key, [UuidCheck(f)])
  }

  /** `z.string().email()`. */
  function EmailAt(f: Formats, m: map<string, Json>, key: string): (r: Field<Option<string>>)
    ensures r.Accept? <==> key !in m || (IsText(m, key) && f.isEmail(Text(m, key)))
    ensures r.Accept? ==> r.value == TextOrNone(m, key)
    ensures r.Reject? ==> r.issues != []
  {
    StringAt(m, key, [EmailCheck(f)])
  }

  /** `z.string().datetime()`. */
  function DatetimeAt(f: Formats, m: map<string, Json>, key: string): (r: Field<Option<string>>)
    ensures r.Accept? <==> OptionalText(m, key, s => IsDatetime(f, s))
    ensures r.Accept? ==> r.value == TextOrNone(m, key)
    ensures r.Accept? && r.value.Some? ==> r.value.value != ""
    ensures r.Reject? ==> r.issues != []
  {
    StringAt(m, key, [DatetimeCheck(f)])
  }

  /** `z.number().positive()`. */
  function PositiveAt(m: map<string, Json>, key: string): (r: Field<Option<real>>)
    ensures r.Accept? <==> key !in m || (IsNumber(m, key) && Number(m, key) > 0.0)
    ensures r.Accept? ==> r.value == (if key in m then Some(Number(m, key)) else None)
    ensures r.Reject? ==> r.issues != []
  {
    NumberAt(m, key, [IsPositive])
  }

  /** A whole number from 0 to 100. */
  predicate IsScore(n: real)
  {
    n.Floor as real == n && 0.0 <= n <= 100.0
  }

  /** `z.number().int().min(0).max(100)`. */
  function ScoreAt(m: map<string, Json>, key: string): (r: Field<Option<real>>)
    ensures r.Accept? <==> key !in m || (IsNumber(m, key) && IsScore(Number(m, key)))
    ensures r.Accept? ==> r.value == (if key in m then Some(Number(m, key)) else None)
    ensures r.Reject? ==> r.issues != []
  {
    var checks := [WholeNumber, AtLeastZero, AtMostHundred];
    if key in m && m[key].JNumber? then
      assert (forall i :: 0 <= i < 3 ==> NumberPasses(checks[i], m[key].n)) <==>
        NumberPasses(checks[0], m[key].n) && NumberPasses(checks[1], m[key].n) && NumberPasses(checks[2], m[key].n);
      NumberAt(m, key, checks)
    else
      NumberAt(m, key, checks)
  }

  /** `'A' | 'B' | ...`, the way zod lists enumeration values. */
  function Alternatives(names: seq<string>): string
  {
    Join(seq(|names|, i requires 0 <= i < |names| => "'" + names[i] + "'"), " | ")
  }

  /** A `z.enum(names)` field; `decode` maps exactly the listed names to values. */
  function EnumAt<E>(m: map<string, Json>, key: string, names: seq<string>, decode: string -> Option<E>): (r: Field<Option<E>>)
    ensures key !in m ==> r == Accept(None)
    ensures key in m ==> (r.Accept? <==> m[key].JString? && decode(m[key].s).Some?)
    ensures key in m && r.Accept? ==> r.value == Some(decode(m[key].s).value)
    ensures r.Reject? ==> r.issues != []
  {
    if key !in m then Accept(None)
    else match m[key]
      case JString(s) =>
        (match decode(s)
         case Some(e) => Accept(Some(e))
         case None =>
           Reject([Issue([key], "Invalid enum value. Expected " + Alternatives(names) + ", received '" + s + "'")]))
      case other => Reject([Mismatch(key, Alternatives(names), other)])
  }

  /** A field without `.optional()` or `.default()`: `undefined` is the issue "Required". */
  function Required<T>(key: string, f: Field<Option<T>>): (r: Field<T>)
    ensures r.Accept? <==> f.Accept? && f.value.Some?
    ensures r.Accept? ==> r.value == f.value.value
    ensures f == Accept(None) ==> r == Reject([Issue([key], "Required")])
    ensures f.Reject? ==> r == Reject(f.issues)
  {
    match f
    case Reject(issues) => Reject(issues)
    case Accept(None) => Reject([Issue([key], "Required")])
    case Accept(Some(v)) => Accept(v)
  }

  /** `.default(d)`: `undefined` becomes `d`. */
  function WithDefault<T>(f: Field<Option<T>>, d: T): (r: Field<T>)
    ensures r.Accept? <==> f.Accept?
    ensures f == Accept(None) ==> r == Accept(d)
    ensures f.Accept? && f.value.Some? ==> r == Accept(f.value.value)
    ensures f.Reject? ==> r == Reject(f.issues)
  {
    match f
    case Reject(issues) => Reject(issues)
    case Accept(None) => Accept(d)
    case Accept(Some(v)) => Accept(v)
  }

  /** `z.object(...)` first requires an object; otherwise one issue at the root path. */
  function AsObject(body: Json): (r: Field<map<string, Json>>)
    ensures r.Accept? <==> body.JObject?
    ensures r.Accept? ==> r.value == body.fields
    ensures r.Reject? ==> r.issues == [Issue([], "Expected object, received " + TypeName(body))]
  {
    match body
    case JObject(m) => Accept(m)
    case other => Reject([Issue([], "Expected object, received " + TypeName(other))])
  }

  // Declarative readings of a body field, used to state what each schema accepts.

  predicate IsText(m: map<string, Json>, key: string)
  {
    key in m && m[key].JString?
  }

  function Text(m: map<string, Json>, key: string): string
    requires IsText(m, key)
  {
    m[key].s
  }

  predicate IsNumber(m: map<string, Json>, key: string)
  {
    key in m && m[key].JNumber?
  }

  function Number(m: map<string, Json>, key: string): real
    requires IsNumber(m, key)
  {
    m[key].n
  }

  predicate IsFlag(m: map<string, Json>, key: string)
  {
    key in m && m[key].JBool?
  }

  /** A present string whose `length` (in UTF-16 code units) is within bounds. */
  predicate TextBetween(m: map<string, Json>, key: string, lo: nat, hi: nat)
  {
    IsText(m, key) && lo <= Utf16Length(Text(m, key)) <= hi
  }

  /** An optional string field: absent, or a string satisfying `ok`. */
  predicate OptionalText(m: map<string, Json>, key: string, ok: string -> bool)
  {
    key !in m || (IsText(m, key) && ok(Text(m, key)))
  }

  function TextOrNone(m: map<string, Json>, key: string): Option<string>
  {
    if IsText(m, key) then Some(Text(m, key)) else None
  }
}
