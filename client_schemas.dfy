/** apps/web/lib/schemas.ts: the validators the web forms run before sending
    anything. They share zod with the server but not its rules: custom
    messages, a longer minimum password, no uuid checks and no defaults. */
module ClientSchemas {
  import opened Wrappers
  import opened Json
  import opened Enums
  import opened Schema
  import opened Strings
  import AuthRoutes
  import Companies

  /** `z.string().min(n, message)`. */
  function MinTextAt(m: map<string, Json>, key: string, n: nat, message: string): (r: Field<Option<string>>)
    ensures r.Accept? <==> key !in m || (IsText(m, key) && Utf16Length(Text(m, key)) >= n)
    ensures r.Accept? ==> r.value == TextOrNone(m, key)
    ensures key in m && m[key].JString? && Utf16Length(m[key].s) < n ==> r == Reject([Issue([key], message)])
    ensures r.Reject? ==> r.issues != []
  {
    StringAt(m, key, [MinLength(n, message)])
  }

  datatype LoginForm = LoginForm(email: string, password: string)

  const PasswordTooShort: string := "Password must be at least 6 characters"

  /** `loginSchema`: a well-formed email and a password at least six UTF-16 code units long. */
  function ParseLoginForm(f: Formats, body: Json): (r: Parsed<LoginForm>)
    ensures r.Valid? <==>
      && body.JObject?
      && IsText(body.fields, "email") && f.isEmail(Text(body.fields, "email"))
      && IsText(body.fields, "password") && Utf16Length(Text(body.fields, "password")) >= 6
    ensures r.Valid? ==> r.value == LoginForm(Text(body.fields, "email"), Text(body.fields, "password"))
    ensures r.Invalid? ==> r.issues != []
  {
    match AsObject(body)
    case Reject(issues) => Invalid(issues)
    case Accept(m) =>
      var email := Required("email", StringAt(m, "email", [Matches(f.isEmail, "Invalid email address")]));
      var password := Required("password", MinTextAt(m, "password", 6, PasswordTooShort));
      if email.Accept? && password.Accept? then Valid(LoginForm(email.value, password.value))
      else Invalid(email.Issues() + password.Issues())
  }

  /** The form is stricter than the server: whatever it lets through the
      server's login schema accepts, while a password of one to five
      UTF-16 code units passes the server and is stopped by the form. */
  lemma {:induction false} LoginFormStricter(f: Formats, body: Json)
    ensures ParseLoginForm(f, body).Valid? ==> AuthRoutes.ParseLogin(f, body).Valid?
    ensures AuthRoutes.ParseLogin(f, body).Valid? && Utf16Length(Text(body.fields, "password")) < 6 ==>
      ParseLoginForm(f, body) == Invalid([Issue(["password"], PasswordTooShort)])
  {
    if AuthRoutes.ParseLogin(f, body).Valid? && Utf16Length(Text(body.fields, "password")) < 6 {
      var m := body.fields;
      assert StringAt(m, "email", [Matches(f.isEmail, "Invalid email address")]).Accept?;
    }
  }

  /** Lengths are JavaScript's: three emoji are six code units, so they meet
      the form's six-character minimum for a password. */
  lemma {:induction false} AstralPasswordPasses(f: Formats, email: string)
    requires f.isEmail(email)
    ensures var pw := "\U{1F600}\U{1F600}\U{1F600}";
      ParseLoginForm(f, JObject(map["email" := JString(email), "password" := JString(pw)]))
        == Valid(LoginForm(email, pw))
  {
  }

  datatype CompanyForm = CompanyForm(name: string, domain: Option<string>, notes: Option<string>)

  /** `companySchema`: a non-empty name, with no upper bound here. */
  function ParseCompanyForm(body: Json): (r: Parsed<CompanyForm>)
    ensures r.Valid? <==>
      && body.JObject?
      && IsText(body.fields, "name") && Utf16Length(Text(body.fields, "name")) >= 1
      && OptionalText(body.fields, "domain", _ => true)
      && OptionalText(body.fields, "notes", _ => true)
    ensures r.Valid? ==> r.value == CompanyForm(Text(body.fields, "name"), TextOrNone(body.fields, "domain"), TextOrNone(body.fields, "notes"))
    ensures r.Invalid? ==> r.issues != []
  {
    match AsObject(body)
    case Reject(issues) => Invalid(issues)
    case Accept(m) =>
      var name := Required("name", MinTextAt(m, "name", 1, "Company name is required"));
      var domain := PlainTextAt(m, "domain");
      var notes := PlainTextAt(m, "notes");
      if name.Accept? && domain.Accept? && notes.Accept? then Valid(CompanyForm(name.value, domain.value, notes.value))
      else Invalid(name.Issues() + domain.Issues() + notes.Issues())
  }

  /** Every company body the server accepts, the form accepts; a name longer
      than 255 code units passes the form and is refused by the server. */
  lemma CompanyFormLooser(body: Json)
    ensures Companies.ParseCompanyCreate(body).Valid? ==> ParseCompanyForm(body).Valid?
    ensures ParseCompanyForm(body).Valid? && Utf16Length(Text(body.fields, "name")) > 255 ==>
      Companies.ParseCompanyCreate(body).Invalid?
  {
  }

  /** `z.string().email().optional().or(z.literal(''))`: absent, empty, or a
      well-formed email. A malformed non-empty string reports the email
      check; a value that is not a string at all fails both alternatives. */
  function EmailOrEmptyAt(f: Formats, m: map<string, Json>, key: string): (r: Field<Option<string>>)
    ensures r.Accept? <==> key !in m || (IsText(m, key) && (Text(m, key) == "" || f.isEmail(Text(m, key))))
    ensures r.Accept? ==> r.value == TextOrNone(m, key)
    ensures IsText(m, key) && Text(m, key) != "" && !f.isEmail(Text(m, key)) ==> r == Reject([Issue([key], "Invalid email")])
    ensures key in m && !m[key].JString? ==> r == Reject([Issue([key], "Invalid input")])
  {
    if key !in m then Accept(None)
    else match m[key]
      case JString(s) =>
        if f.isEmail(s) || s == "" then Accept(Some(s)) else Reject([Issue([key], "Invalid email")])
      case _ => Reject([Issue([key], "Invalid input")])
  }

  datatype LeadForm = LeadForm(
    companyId: string,
    contactName: string,
    email: Option<string>,
    phone: Option<string>,
    source: LeadSource,
    status: LeadStatus,
    score: int)

  predicate LeadFormOk(f: Formats, m: map<string, Json>)
  {
    && IsText(m, "companyId") && |Text(m, "companyId")| >= 1
    && IsText(m, "contactName") && |Text(m, "contactName")| >= 1
    && ("email" !in m || (IsText(m, "email") && (Text(m, "email") == "" || f.isEmail(Text(m, "email")))))
    && OptionalText(m, "phone", _ => true)
    && IsText(m, "source") && Text(m, "source") in LeadSourceNames
    && IsText(m, "status") && Text(m, "status") in LeadStatusNames
    && IsNumber(m, "score") && IsScore(Number(m, "score"))
  }

  /** `leadSchema`: source, status and score are all required here, the
      company only needs to be non-empty, and the email may be "". */
  function ParseLeadForm(f: Formats, body: Json): (r: Parsed<LeadForm>)
    ensures r.Valid? <==> body.JObject? && LeadFormOk(f, body.fields)
    ensures r.Valid? ==> var m := body.fields;
      r.value == LeadForm(
        Text(m, "companyId"), Text(m, "contactName"), TextOrNone(m, "email"), TextOrNone(m, "phone"),
        ParseLeadSource(Text(m, "source")).value, ParseLeadStatus(Text(m, "status")).value,
        Number(m, "score").Floor)
    ensures r.Valid? ==> 0 <= r.value.score <= 100
    ensures r.Invalid? ==> r.issues != []
  {
    match AsObject(body)
    case Reject(issues) => Invalid(issues)
    case Accept(m) =>
      var companyId := Required("companyId", MinTextAt(m, "companyId", 1, "Company is required"));
      var contactName := Required("contactName", MinTextAt(m, "contactName", 1, "Contact name is required"));
      var email := EmailOrEmptyAt(f, m, "email");
      var phone := PlainTextAt(m, "phone");
      var source := Required("source", EnumAt(m, "source", LeadSourceNames, ParseLeadSource));
      var status := Required("status", EnumAt(m, "status", LeadStatusNames, ParseLeadStatus));
      var score := Required("score", ScoreAt(m, "score"));
      if companyId.Accept? && contactName.Accept? && email.Accept? && phone.Accept?
         && source.Accept? && status.Accept? && score.Accept? then
        Valid(LeadForm(companyId.value, contactName.value, email.value, phone.value,
                       source.value, status.value, score.value.Floor))
      else
        Invalid(companyId.Issues() + contactName.Issues() + email.Issues() + phone.Issues()
                + source.Issues() + status.Issues() + score.Issues())
  }

  datatype DealForm = DealForm(leadId: string, title: string, amount: real, stage: Stage, expectedCloseDate: Option<string>)

  /** `dealSchema`: a positive amount and one of the five stages, both required. */
  function ParseDealForm(body: Json): (r: Parsed<DealForm>)
    ensures r.Valid? <==>
      && body.JObject?
      && IsText(body.fields, "leadId") && |Text(body.fields, "leadId")| >= 1
      && IsText(body.fields, "title") && |Text(body.fields, "title")| >= 1
      && IsNumber(body.fields, "amount") && Number(body.fields, "amount") > 0.0
      && IsText(body.fields, "stage") && Text(body.fields, "stage") in StageNames
      && OptionalText(body.fields, "expectedCloseDate", _ => true)
    ensures r.Valid? ==> var m := body.fields;
      r.value == DealForm(Text(m, "leadId"), Text(m, "title"), Number(m, "amount"),
                          ParseStage(Text(m, "stage")).value, TextOrNone(m, "expectedCloseDate"))
    ensures r.Invalid? ==> r.issues != []
  {
    match AsObject(body)
    case Reject(issues) => Invalid(issues)
    case Accept(m) =>
      var leadId := Required("leadId", MinTextAt(m, "leadId", 1, "Lead is required"));
      var title := Required("title", MinTextAt(m, "title", 1, "Title is required"));
      var amount := Required("amount", NumberAt(m, "amount", [Positive("Amount must be positive")]));
      var stage := Required("stage", EnumAt(m, "stage", StageNames, ParseStage));
      var closeDate := PlainTextAt(m, "expectedCloseDate");
      if leadId.Accept? && title.Accept? && amount.Accept? && stage.Accept? && closeDate.Accept? then
        Valid(DealForm(leadId.value, title.value, amount.value, stage.value, closeDate.value))
      else
        Invalid(leadId.Issues() + title.Issues() + amount.Issues() + stage.Issues() + closeDate.Issues())
  }

  datatype ActivityForm = ActivityForm(leadId: string, kind: ActivityType, content: string, dueDate: Option<string>, completed: bool)

  /** `activitySchema`: `completed` is a required boolean here. */
  function ParseActivityForm(body: Json): (r: Parsed<ActivityForm>)
    ensures r.Valid? <==>
      && body.JObject?
      && IsText(body.fields, "leadId") && |Text(body.fields, "leadId")| >= 1
      && IsText(body.fields, "type") && Text(body.fields, "type") in ActivityTypeNames
      && IsText(body.fields, "content") && |Text(body.fields, "content")| >= 1
      && OptionalText(body.fields, "dueDate", _ => true)
      && IsFlag(body.fields, "completed")
    ensures r.Valid? ==> var m := body.fields;
      r.value == ActivityForm(Text(m, "leadId"), ParseActivityType(Text(m, "type")).value, Text(m, "content"),
                              TextOrNone(m, "dueDate"), m["completed"].b)
    ensures r.Invalid? ==> r.issues != []
  {
    match AsObject(body)
    case Reject(issues) => Invalid(issues)
    case Accept(m) =>
      var leadId := Required("leadId", MinTextAt(m, "leadId", 1, "Lead is required"));
      var kind := Required("type", EnumAt(m, "type", ActivityTypeNames, ParseActivityType));
      var content := Required("content", MinTextAt(m, "content", 1, "Content is required"));
      var dueDate := PlainTextAt(m, "dueDate");
      var completed := Required("completed", BoolAt(m, "completed"));
      if leadId.Accept? && kind.Accept? && content.Accept? && dueDate.Accept? && completed.Accept? then
        Valid(ActivityForm(leadId.value, kind.value, content.value, dueDate.value, completed.value))
      else
        Invalid(leadId.Issues() + kind.Issues() + content.Issues() + dueDate.Issues() + completed.Issues())
  }

  /** A missing `completed` is refused by the form, while the server would
      default it to false. */
  lemma CompletedRequiredOnForm(body: Json)
    requires body.JObject? && "completed" !in body.fields
    ensures ParseActivityForm(body).Invalid?
  {
  }
}
