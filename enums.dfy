/** The closed enumerations of the data model and their wire names. Each
    `Parse...` is the inverse of its `...Name` on the names it accepts. */
module Enums {
  import opened Wrappers

  datatype Stage = Prospecting | Proposal | Negotiation | Won | Lost

  /** The five stages in the order the source lists them. */
  const Stages: seq<Stage> := [Prospecting, Proposal, Negotiation, Won, Stage.Lost]
  const StageNames: seq<string> := ["PROSPECTING", "PROPOSAL", "NEGOTIATION", "WON", "LOST"]

  function StageName(s: Stage): string
  {
    match s
    case Prospecting => "PROSPECTING"
    case Proposal => "PROPOSAL"
    case Negotiation => "NEGOTIATION"
    case Won => "WON"
    case Lost => "LOST"
  }

  function ParseStage(name: string): (r: Option<Stage>)
    ensures r.Some? <==> name in StageNames
    ensures r.Some? ==> StageName(r.value) == name
  {
    if name == "PROSPECTING" then Some(Prospecting)
    else if name == "PROPOSAL" then Some(Proposal)
    else if name == "NEGOTIATION" then Some(Negotiation)
    else if name == "WON" then Some(Won)
    else if name == "LOST" then Some(Stage.Lost)
    else None
  }

  lemma StageRoundTrip(s: Stage)
    ensures ParseStage(StageName(s)) == Some(s)
    ensures s in Stages && StageName(s) in StageNames
  {
  }

  datatype LeadStatus = New | Qualified | Lost

  const LeadStatusNames: seq<string> := ["NEW", "QUALIFIED", "LOST"]

  function LeadStatusName(s: LeadStatus): string
  {
    match s
    case New => "NEW"
    case Qualified => "QUALIFIED"
    case Lost => "LOST"
  }

  function ParseLeadStatus(name: string): (r: Option<LeadStatus>)
    ensures r.Some? <==> name in LeadStatusNames
    ensures r.Some? ==> LeadStatusName(r.value) == name
  {
    if name == "NEW" then Some(New)
    else if name == "QUALIFIED" then Some(Qualified)
    else if name == "LOST" then Some(LeadStatus.Lost)
    else None
  }

  lemma LeadStatusRoundTrip(s: LeadStatus)
    ensures ParseLeadStatus(LeadStatusName(s)) == Some(s)
  {
  }

  datatype LeadSource = Web | Referral | Event | Other

  const LeadSourceNames: seq<string> := ["WEB", "REFERRAL", "EVENT", "OTHER"]

  function LeadSourceName(s: LeadSource): string
  {
    match s
    case Web => "WEB"
    case Referral => "REFERRAL"
    case Event => "EVENT"
    case Other => "OTHER"
  }

  function ParseLeadSource(name: string): (r: Option<LeadSource>)
    ensures r.Some? <==> name in LeadSourceNames
    ensures r.Some? ==> LeadSourceName(r.value) == name
  {
    if name == "WEB" then Some(Web)
    else if name == "REFERRAL" then Some(Referral)
    else if name == "EVENT" then Some(Event)
    else if name == "OTHER" then Some(Other)
    else None
  }

  lemma LeadSourceRoundTrip(s: LeadSource)
    ensures ParseLeadSource(LeadSourceName(s)) == Some(s)
  {
  }

  datatype ActivityType = Note | Task | PhoneCall | Email

  const ActivityTypeNames: seq<string> := ["NOTE", "TASK", "CALL", "EMAIL"]

  function ActivityTypeName(t: ActivityType): string
  {
    match t
    case Note => "NOTE"
    case Task => "TASK"
    case PhoneCall => "CALL"
    case Email => "EMAIL"
  }

  function ParseActivityType(name: string): (r: Option<ActivityType>)
    ensures r.Some? <==> name in ActivityTypeNames
    ensures r.Some? ==> ActivityTypeName(r.value) == name
  {
    if name == "NOTE" then Some(Note)
    else if name == "TASK" then Some(Task)
    else if name == "CALL" then Some(PhoneCall)
    else if name == "EMAIL" then Some(Email)
    else None
  }

  lemma ActivityTypeRoundTrip(t: ActivityType)
    ensures ParseActivityType(ActivityTypeName(t)) == Some(t)
  {
  }
}
