/**
 * The stored records of the helpdesk (users, profiles, problem types,
 * tickets), the joined read-only projection, partial updates and the
 * store's error results.  Identifiers are strings; timestamps are
 * milliseconds since the epoch as `nat` (the source keeps ISO-8601 strings
 * and compares them through `Date.getTime`).
 */
module Records {
  import opened Wrappers

  /** A profile's role; `Requester` is the source's `'user'` role. */
  datatype Role = Requester | Technician | Admin

  datatype Status = Open | InProgress | Completed | Rejected

  /** The string the source stores for a status, matched by the status filter of the listing. */
  function StatusName(s: Status): string {
    match s
    case Open => "open"
    case InProgress => "in_progress"
    case Completed => "completed"
    case Rejected => "rejected"
  }

  datatype User = User(id: string, email: string, createdAt: nat)

  datatype Profile = Profile(id: string, name: string, email: string, role: Role, sector: Option<string>, createdAt: nat)

  datatype ProblemType = ProblemType(id: string, name: string, isActive: bool)

  datatype Ticket = Ticket(
    id: string,
    userId: string,
    title: string,
    description: string,
    sector: string,
    problemTypeId: string,
    status: Status,
    technicianId: Option<string>,
    diagnosis: Option<string>,
    rejectionReason: Option<string>,
    createdAt: nat,
    updatedAt: nat,
    completedAt: Option<nat>)

  /** A ticket joined with its creator's profile, its problem type and its technician's profile; a dangling reference is `None`. */
  datatype TicketView = TicketView(ticket: Ticket, profile: Option<Profile>, problemType: Option<ProblemType>, technician: Option<Profile>)

  /** What `createTicket` receives: every ticket field except id, status and the two timestamps. */
  datatype NewTicket = NewTicket(
    userId: string,
    title: string,
    description: string,
    sector: string,
    problemTypeId: string,
    technicianId: Option<string>,
    diagnosis: Option<string>,
    rejectionReason: Option<string>,
    completedAt: Option<nat>)

  /** One key of a partial record: absent, or present with a value (for an optional field the value may be `undefined`). */
  datatype Change<T> = Keep | Put(value: T)

  function Override<T>(current: T, c: Change<T>): T {
    if c.Put? then c.value else current
  }

  /** A `Partial<Ticket>`.  `updated_at` is left out: `updateTicket` overwrites it whatever the caller passes. */
  datatype TicketChanges = TicketChanges(
    id: Change<string>,
    userId: Change<string>,
    title: Change<string>,
    description: Change<string>,
    sector: Change<string>,
    problemTypeId: Change<string>,
    status: Change<Status>,
    technicianId: Change<Option<string>>,
    diagnosis: Change<Option<string>>,
    rejectionReason: Change<Option<string>>,
    createdAt: Change<nat>,
    completedAt: Change<Option<nat>>)

  const NoTicketChanges := TicketChanges(Keep, Keep, Keep, Keep, Keep, Keep, Keep, Keep, Keep, Keep, Keep, Keep)

  /** A `Partial<Profile>`. */
  datatype ProfileChanges = ProfileChanges(
    id: Change<string>,
    name: Change<string>,
    email: Change<string>,
    role: Change<Role>,
    sector: Change<Option<string>>,
    createdAt: Change<nat>)

  /** `{ ...t, ...c, updated_at: now }`: every key present in `c` overrides the stored one and the update time is stamped. */
  function ApplyTicketChanges(t: Ticket, c: TicketChanges, now: nat): (r: Ticket)
    ensures r.updatedAt == now
    ensures c == NoTicketChanges ==> r == t.(updatedAt := now)
    ensures (c.id.Keep? ==> r.id == t.id) && (c.id.Put? ==> r.id == c.id.value)
    ensures (c.userId.Keep? ==> r.userId == t.userId) && (c.userId.Put? ==> r.userId == c.userId.value)
    ensures (c.title.Keep? ==> r.title == t.title) && (c.title.Put? ==> r.title == c.title.value)
    ensures (c.description.Keep? ==> r.description == t.description) && (c.description.Put? ==> r.description == c.description.value)
    ensures (c.sector.Keep? ==> r.sector == t.sector) && (c.sector.Put? ==> r.sector == c.sector.value)
    ensures (c.problemTypeId.Keep? ==> r.problemTypeId == t.problemTypeId) && (c.problemTypeId.Put? ==> r.problemTypeId == c.problemTypeId.value)
    ensures (c.status.Keep? ==> r.status == t.status) && (c.status.Put? ==> r.status == c.status.value)
    ensures (c.technicianId.Keep? ==> r.technicianId == t.technicianId) && (c.technicianId.Put? ==> r.technicianId == c.technicianId.value)
    ensures (c.diagnosis.Keep? ==> r.diagnosis == t.diagnosis) && (c.diagnosis.Put? ==> r.diagnosis == c.diagnosis.value)
    ensures (c.rejectionReason.Keep? ==> r.rejectionReason == t.rejectionReason) && (c.rejectionReason.Put? ==> r.rejectionReason == c.rejectionReason.value)
    ensures (c.createdAt.Keep? ==> r.createdAt == t.createdAt) && (c.createdAt.Put? ==> r.createdAt == c.createdAt.value)
    ensures (c.completedAt.Keep? ==> r.completedAt == t.completedAt) && (c.completedAt.Put? ==> r.completedAt == c.completedAt.value)
  {
    Ticket(
      Override(t.id, c.id),
      Override(t.userId, c.userId),
      Override(t.title, c.title),
      Override(t.description, c.description),
      Override(t.sector, c.sector),
      Override(t.problemTypeId, c.problemTypeId),
      Override(t.status, c.status),
      Override(t.technicianId, c.technicianId),
      Override(t.diagnosis, c.diagnosis),
      Override(t.rejectionReason, c.rejectionReason),
      Override(t.createdAt, c.createdAt),
      now,
      Override(t.completedAt, c.completedAt))
  }

  /** `{ ...p, ...c }`: every key present in `c` overrides the stored one, every other is kept. */
  function ApplyProfileChanges(p: Profile, c: ProfileChanges): (r: Profile)
    ensures (c.id.Keep? ==> r.id == p.id) && (c.id.Put? ==> r.id == c.id.value)
    ensures (c.name.Keep? ==> r.name == p.name) && (c.name.Put? ==> r.name == c.name.value)
    ensures (c.email.Keep? ==> r.email == p.email) && (c.email.Put? ==> r.email == c.email.value)
    ensures (c.role.Keep? ==> r.role == p.role) && (c.role.Put? ==> r.role == c.role.value)
    ensures (c.sector.Keep? ==> r.sector == p.sector) && (c.sector.Put? ==> r.sector == c.sector.value)
    ensures (c.createdAt.Keep? ==> r.createdAt == p.createdAt) && (c.createdAt.Put? ==> r.createdAt == c.createdAt.value)
  {
    Profile(
      Override(p.id, c.id),
      Override(p.name, c.name),
      Override(p.email, c.email),
      Override(p.role, c.role),
      Override(p.sector, c.sector),
      Override(p.createdAt, c.createdAt))
  }

  /** JavaScript truthiness of an optional string: present and not the empty string. */
  predicate Present(o: Option<string>) {
    o.Some? && o.value != ""
  }

  /** The error messages the store returns in its `error` field. */
  datatype Error = UserExists | UserNotFound | ProfileNotFound | TicketNotFound {
    function Message(): string {
      match this
      case UserExists => "Usuário já existe"
      case UserNotFound => "Usuário não encontrado"
      case ProfileNotFound => "Perfil não encontrado"
      case TicketNotFound => "Chamado não encontrado"
    }
  }

  /** The store's `{ data, error }` pair: exactly one of the two is set. */
  datatype Result<+T> = Ok(value: T) | Err(error: Error)
}
