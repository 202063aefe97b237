/**
 * The app's records and enumerations: `User`, `Incident`, `IncidentType`,
 * `IncidentStatus`, and the total parsing of the stored type and status
 * strings (`getTypeEnum` / `getStatusEnum`).
 */
module Domain {

  /** Kotlin's `Long`, the type of `Incident.date` (milliseconds since the epoch). */
  type Long = x: int | -0x8000_0000_0000_0000 <= x < 0x8000_0000_0000_0000

  /** `IncidentType`; labels, icons and colours are presentation only. */
  datatype IncidentType = Health | Security | Environment | LostFound | Tech

  /** `IncidentStatus`; labels and colours are presentation only. */
  datatype IncidentStatus = Open | InProgress | Resolved

  /** `IncidentType.name`: the constant's identifier as Kotlin spells it. */
  function TypeName(t: IncidentType): string {
    match t
    case Health => "HEALTH"
    case Security => "SECURITY"
    case Environment => "ENVIRONMENT"
    case LostFound => "LOST_FOUND"
    case Tech => "TECH"
  }

  /** `IncidentStatus.name`. */
  function StatusName(s: IncidentStatus): string {
    match s
    case Open => "OPEN"
    case InProgress => "IN_PROGRESS"
    case Resolved => "RESOLVED"
  }

  /**
   * `IncidentType.valueOf(name)` with the app's `catch` fallback: the exact,
   * case-sensitive name of a constant yields that constant; every other
   * string yields `Tech`.
   */
  function ParseType(name: string): (t: IncidentType)
    ensures forall u :: TypeName(u) == name ==> t == u
    ensures t == Tech || TypeName(t) == name
  {
    if name == "HEALTH" then Health
    else if name == "SECURITY" then Security
    else if name == "ENVIRONMENT" then Environment
    else if name == "LOST_FOUND" then LostFound
    else Tech
  }

  /** `IncidentStatus.valueOf(name)` with the fallback to `Open`. */
  function ParseStatus(name: string): (s: IncidentStatus)
    ensures forall u :: StatusName(u) == name ==> s == u
    ensures s == Open || StatusName(s) == name
  {
    if name == "IN_PROGRESS" then InProgress
    else if name == "RESOLVED" then Resolved
    else Open
  }

  /** Parsing a constant's own name gives back that constant. */
  lemma ParseTypeName(t: IncidentType)
    ensures ParseType(TypeName(t)) == t
  {
  }

  /** Parsing a constant's own name gives back that constant. */
  lemma ParseStatusName(s: IncidentStatus)
    ensures ParseStatus(StatusName(s)) == s
  {
  }

  /** A string that names no constant falls back to `Tech`. */
  lemma ParseTypeFallback(name: string)
    requires forall u :: TypeName(u) != name
    ensures ParseType(name) == Tech
  {
  }

  /** A string that names no constant falls back to `Open`. */
  lemma ParseStatusFallback(name: string)
    requires forall u :: StatusName(u) != name
    ensures ParseStatus(name) == Open
  {
  }

  /** Parsing is case-sensitive: a lower-case spelling is not a name and falls back. */
  lemma ParseIsCaseSensitive()
    ensures ParseType("health") == Tech && ParseType("Security") == Tech && ParseType("") == Tech
    ensures ParseStatus("resolved") == Open && ParseStatus("In_Progress") == Open
  {
  }

  const UserRole: string := "USER"
  const AdminRole: string := "ADMIN"
  /** Default of `Incident.locationName`. */
  const DefaultLocation: string := "Kampüs"

  /** The `User` data class; `role` is a free string, "USER" or "ADMIN" in practice. */
  datatype User = User(
    id: string,
    name: string,
    email: string,
    role: string,
    department: string,
    followedIncidents: seq<string>)

  /** The `Incident` data class: type and status are stored as strings. */
  datatype Incident = Incident(
    id: string,
    typeName: string,
    title: string,
    description: string,
    statusName: string,
    date: Long,
    authorId: string,
    locationName: string)

  /**
   * `Incident.getTypeEnum()`: the constant the stored name names, or `Tech`
   * when it names none.
   */
  function TypeOf(inc: Incident): (t: IncidentType)
    ensures TypeName(t) == inc.typeName || (t == Tech && forall u :: TypeName(u) != inc.typeName)
  {
    ParseType(inc.typeName)
  }

  /**
   * `Incident.getStatusEnum()`: the constant the stored name names, or `Open`
   * when it names none.
   */
  function StatusOf(inc: Incident): (s: IncidentStatus)
    ensures StatusName(s) == inc.statusName || (s == Open && forall u :: StatusName(u) != inc.statusName)
  {
    ParseStatus(inc.statusName)
  }

  /**
   * The record `addIncident` sends to the store: the id is left empty for the
   * store to assign, the type is stored by name, the status is always OPEN.
   */
  function NewIncident(t: IncidentType, title: string, description: string, now: Long, authorId: string): (inc: Incident)
    ensures inc.typeName == TypeName(t) && TypeOf(inc) == t
    ensures StatusOf(inc) == Open && inc.statusName == "OPEN"
    ensures inc.authorId == authorId && inc.date == now
    ensures inc.title == title && inc.description == description
    ensures inc.id == "" && inc.locationName == DefaultLocation
  {
    Incident("", TypeName(t), title, description, "OPEN", now, authorId, DefaultLocation)
  }
}
