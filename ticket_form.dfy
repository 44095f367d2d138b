/**
 * The new-ticket form.  Its submit handler is the only place the
 * one-pending-ticket-per-request rule is enforced: it queries the store for
 * pending duplicates and creates the ticket only when there are none.
 */
module TicketForm {
  import opened Wrappers
  import opened Seqs
  import opened Records
  import opened Queries
  import opened LocalStorage
  import opened TicketDetails

  datatype FormData = FormData(title: string, sector: string, problemTypeId: string, description: string)

  const EmptyForm := FormData("", "", "", "")

  /** The four inputs `handleChange` can set. */
  datatype Field = Title | Sector | ProblemTypeId | Description

  /** How a submission ends: no signed-in profile, a pending duplicate, or a created ticket. */
  datatype SubmitOutcome = NoProfile | Duplicate | Created(view: TicketView)

  /** The `createTicket` argument built from the profile and the form: no technician, diagnosis, reason or completion time. */
  function Request(profileId: string, form: FormData): (r: NewTicket)
    ensures r.userId == profileId && r.title == form.title && r.description == form.description
    ensures r.sector == form.sector && r.problemTypeId == form.problemTypeId
    ensures r.technicianId.None? && r.diagnosis.None? && r.rejectionReason.None? && r.completedAt.None?
  {
    NewTicket(profileId, form.title, form.description, form.sector, form.problemTypeId, None, None, None, None)
  }

  /**
   * The check-then-create composition on plain sequences: appending a
   * ticket for a request whose duplicate query came back empty keeps the
   * duplicate policy.
   */
  lemma CheckedCreateKeepsPolicy(ts: seq<Ticket>, t: Ticket)
    requires NoActiveDuplicates(ts)
    requires Filter(ts, DuplicateOf(t.userId, t.sector, t.problemTypeId)) == []
    ensures NoActiveDuplicates(ts + [t])
  {
    AppendKeepsNoActiveDuplicates(ts, t);
  }

  /** Appending a fresh ticket keeps the lifecycle invariant of the collection. */
  lemma CreateKeepsLifecycle(ts: seq<Ticket>, t: Ticket)
    requires AllLifecycleOk(ts)
    requires t.status == Open && t.technicianId.None? && t.diagnosis.None? && t.rejectionReason.None? && t.completedAt.None?
    ensures AllLifecycleOk(ts + [t])
  {
    FreshTicketOk(t);
    assert forall k :: 0 <= k < |ts| ==> (ts + [t])[k] == ts[k];
  }

  class TicketFormState {
    var formData: FormData

    constructor ()
      ensures formData == EmptyForm
    {
      formData := EmptyForm;
    }

    /** `handleChange`: sets one input and keeps the others. */
    method HandleChange(field: Field, value: string)
      modifies this
      ensures formData == match field
                          case Title => old(formData).(title := value)
                          case Sector => old(formData).(sector := value)
                          case ProblemTypeId => old(formData).(problemTypeId := value)
                          case Description => old(formData).(description := value)
    {
      match field
      case Title => formData := formData.(title := value);
      case Sector => formData := formData.(sector := value);
      case ProblemTypeId => formData := formData.(problemTypeId := value);
      case Description => formData := formData.(description := value);
    }

    /**
     * `handleSubmit`: no profile aborts before any store call; a non-empty
     * duplicate query aborts with the form kept; otherwise one ticket is
     * created for the profile from the form, and the form is cleared.
     */
    method HandleSubmit(store: Store, profile: Option<Profile>, freshId: string, now: nat) returns (o: SubmitOutcome)
      requires store.Valid()
      modifies this, store
      ensures store.Valid()
      ensures profile.None? ==> o == NoProfile
      ensures profile.Some? && old(store.CheckDuplicateTickets(profile.value.id, formData.sector, formData.problemTypeId)) != [] ==> o == Duplicate
      ensures profile.Some? && old(store.CheckDuplicateTickets(profile.value.id, formData.sector, formData.problemTypeId)) == [] ==> o.Created?
      ensures !o.Created? ==> store.tickets == old(store.tickets) && formData == old(formData)
      ensures o.Created? ==>
                && profile.Some? && old(store.CheckDuplicateTickets(profile.value.id, formData.sector, formData.problemTypeId)) == []
                && store.tickets == Some(old(store.Tickets()) + [o.view.ticket])
                && o.view.ticket.id == freshId && o.view.ticket.status == Open
                && o.view.ticket.createdAt == now && o.view.ticket.updatedAt == now
                && o.view.ticket.userId == profile.value.id
                && o.view.ticket.title == old(formData).title && o.view.ticket.description == old(formData).description
                && o.view.ticket.sector == old(formData).sector && o.view.ticket.problemTypeId == old(formData).problemTypeId
                && o.view.ticket.technicianId.None? && o.view.ticket.diagnosis.None?
                && o.view.ticket.rejectionReason.None? && o.view.ticket.completedAt.None?
                && formData == EmptyForm
      ensures store.users == old(store.users) && store.profiles == old(store.profiles)
      ensures store.problemTypes == old(store.problemTypes) && store.currentUser == old(store.currentUser)
      ensures NoActiveDuplicates(old(store.Tickets())) ==> NoActiveDuplicates(store.Tickets())
      ensures AllLifecycleOk(old(store.Tickets())) ==> AllLifecycleOk(store.Tickets())
    {
      if profile.None? {
        return NoProfile;
      }
      var duplicates := store.CheckDuplicateTickets(profile.value.id, formData.sector, formData.problemTypeId);
      if |duplicates| > 0 {
        return Duplicate;
      }
      ghost var before := store.Tickets();
      var view := store.CreateTicket(Request(profile.value.id, formData), freshId, now);
      formData := EmptyForm;
      o := Created(view);
      if NoActiveDuplicates(before) {
        CheckedCreateKeepsPolicy(before, view.ticket);
      }
      if AllLifecycleOk(before) {
        CreateKeepsLifecycle(before, view.ticket);
      }
    }
  }
}
