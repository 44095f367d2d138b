/**
 * The ticket lifecycle of the details dialog.  The store's `updateTicket`
 * merges any partial record; the state machine open -> in_progress ->
 * completed and open -> rejected exists only in which buttons the dialog
 * renders and in the payload each button's handler sends.
 */
module TicketDetails {
  import opened Wrappers
  import opened Seqs
  import opened Text
  import opened Records
  import opened Queries
  import opened LocalStorage

  // ---- render-time guards

  /** `isTechnician`: a signed-in profile whose role is technician or admin. */
  predicate IsTechnician(actor: Option<Profile>) {
    actor.Some? && (actor.value.role == Technician || actor.value.role == Admin)
  }

  /** `canTakeAction`: a technician looking at a ticket that is still open or in progress. */
  predicate CanTakeAction(actor: Option<Profile>, t: Ticket) {
    IsTechnician(actor) && (t.status == Open || t.status == InProgress)
  }

  /** `profile?.id`. */
  function ActorId(actor: Option<Profile>): Option<string> {
    if actor.Some? then Some(actor.value.id) else None
  }

  datatype Action = Accept | Complete | Reject

  /**
   * Whether the dialog renders the button for `a`: accept and reject inside
   * the open-status block, complete inside the in-progress block shown only
   * to the assigned technician, all of them behind `canTakeAction`.
   */
  predicate Offered(a: Action, actor: Option<Profile>, t: Ticket) {
    && CanTakeAction(actor, t)
    && (match a
        case Accept => t.status == Open
        case Reject => t.status == Open
        case Complete => t.status == InProgress && t.technicianId == ActorId(actor))
  }

  // ---- payloads the handlers send to updateTicket

  /** `handleAcceptTicket`'s payload; without a profile the handler returns before writing. */
  function AcceptChanges(actor: Option<Profile>): (r: Option<TicketChanges>)
    ensures r.None? <==> actor.None?
    ensures r.Some? ==> r.value.status == Put(InProgress) && r.value.technicianId == Put(Some(actor.value.id))
    ensures r.Some? ==> r.value.(status := Keep, technicianId := Keep) == NoTicketChanges
  {
    if actor.None? then None
    else Some(NoTicketChanges.(status := Put(InProgress), technicianId := Put(Some(actor.value.id))))
  }

  /**
   * `handleCompleteTicket`'s payload: nothing when the diagnosis is blank,
   * otherwise status completed, the trimmed diagnosis and the completion
   * time.  `technician_id` is not in the payload.
   */
  function CompleteChanges(diagnosis: string, completedAt: nat): (r: Option<TicketChanges>)
    ensures r.None? <==> AllWhiteSpace(diagnosis)
    ensures r.Some? ==> && r.value.status == Put(Completed) && r.value.completedAt == Put(Some(completedAt))
                        && r.value.diagnosis == Put(Some(Trim(diagnosis))) && Trim(diagnosis) != ""
                        && r.value.technicianId.Keep?
    ensures r.Some? ==> r.value.(status := Keep, diagnosis := Keep, completedAt := Keep) == NoTicketChanges
  {
    TrimEmptyIff(diagnosis);
    var text := Trim(diagnosis);
    if text == "" then None
    else Some(NoTicketChanges.(status := Put(Completed), diagnosis := Put(Some(text)), completedAt := Put(Some(completedAt))))
  }

  /**
   * `handleRejectTicket`'s payload: nothing when the reason is blank,
   * otherwise status rejected, the trimmed reason and `profile?.id` as the
   * technician (an explicit `undefined` when there is no profile).
   */
  function RejectChanges(actor: Option<Profile>, reason: string): (r: Option<TicketChanges>)
    ensures r.None? <==> AllWhiteSpace(reason)
    ensures r.Some? ==> && r.value.status == Put(Rejected) && r.value.rejectionReason == Put(Some(Trim(reason)))
                        && Trim(reason) != "" && r.value.technicianId == Put(ActorId(actor))
    ensures r.Some? ==> r.value.(status := Keep, rejectionReason := Keep, technicianId := Keep) == NoTicketChanges
  {
    TrimEmptyIff(reason);
    var text := Trim(reason);
    if text == "" then None
    else Some(NoTicketChanges.(status := Put(Rejected), rejectionReason := Put(Some(text)), technicianId := Put(ActorId(actor))))
  }

  /** The payload of action `a`; `text` is the diagnosis or the rejection reason typed into the dialog. */
  function Payload(a: Action, actor: Option<Profile>, text: string, completedAt: nat): Option<TicketChanges> {
    match a
    case Accept => AcceptChanges(actor)
    case Complete => CompleteChanges(text, completedAt)
    case Reject => RejectChanges(actor, text)
  }

  // ---- the lifecycle invariant

  /**
   * What the guarded handlers keep true of every ticket: a diagnosis exactly
   * when completed, a rejection reason exactly when rejected, a completion
   * time exactly when completed, a technician exactly when no longer open.
   */
  predicate LifecycleOk(t: Ticket) {
    && (Present(t.diagnosis) <==> t.status == Completed)
    && (Present(t.rejectionReason) <==> t.status == Rejected)
    && (t.completedAt.Some? <==> t.status == Completed)
    && (t.technicianId.Some? <==> t.status != Open)
  }

  predicate AllLifecycleOk(ts: seq<Ticket>) {
    forall k :: 0 <= k < |ts| ==> LifecycleOk(ts[k])
  }

  /** The edges of the state machine. */
  predicate Transition(from: Status, to: Status) {
    || (from == Open && to == InProgress)
    || (from == InProgress && to == Completed)
    || (from == Open && to == Rejected)
  }

  predicate Terminal(s: Status) {
    s == Completed || s == Rejected
  }

  /** Completed and rejected tickets are terminal: the dialog offers no action on them. */
  lemma TerminalOffersNothing(a: Action, actor: Option<Profile>, t: Ticket)
    requires Terminal(t.status)
    ensures !Offered(a, actor, t)
  {
  }

  /** Only a technician or admin is ever offered an action. */
  lemma OnlyTechniciansAct(a: Action, actor: Option<Profile>, t: Ticket)
    requires Offered(a, actor, t)
    ensures actor.Some? && actor.value.role != Requester
  {
  }

  /** A newly created ticket, with no technician, diagnosis, reason or completion time, starts the lifecycle. */
  lemma FreshTicketOk(t: Ticket)
    requires t.status == Open && t.technicianId.None? && t.diagnosis.None? && t.rejectionReason.None? && t.completedAt.None?
    ensures LifecycleOk(t)
  {
  }

  /**
   * One offered action whose payload is sent: the merged ticket keeps the
   * invariant, moves along an edge of the state machine, keeps its id and
   * its (user, sector, problem type) triple, and is pending only if the
   * ticket before was.
   */
  lemma ActionStep(t: Ticket, a: Action, actor: Option<Profile>, text: string, completedAt: nat, now: nat)
    requires LifecycleOk(t)
    requires Offered(a, actor, t)
    requires Payload(a, actor, text, completedAt).Some?
    ensures var t' := ApplyTicketChanges(t, Payload(a, actor, text, completedAt).value, now);
            && LifecycleOk(t') && Transition(t.status, t'.status)
            && t'.id == t.id && SameRequest(t, t')
            && (IsActive(t'.status) ==> IsActive(t.status) && t'.status == InProgress)
  {
    var c := Payload(a, actor, text, completedAt).value;
    assert c.id.Keep? && c.userId.Keep? && c.sector.Keep? && c.problemTypeId.Keep?;
  }

  /**
   * Sending an offered action's payload for the ticket the dialog shows
   * (the first stored ticket with its id) writes that ticket and keeps both
   * the lifecycle invariant and the duplicate policy over the collection.
   */
  lemma ActionKeepsInvariants(ts: seq<Ticket>, t: Ticket, a: Action, actor: Option<Profile>, text: string, completedAt: nat, now: nat)
    requires AllLifecycleOk(ts) && NoActiveDuplicates(ts)
    requires Find(ts, TicketWithId(t.id)) == Some(t)
    requires Offered(a, actor, t)
    requires Payload(a, actor, text, completedAt).Some?
    ensures var after := ReplaceFirst(ts, TicketWithId(t.id), TicketUpdater(Payload(a, actor, text, completedAt).value, now));
            after.Some? && AllLifecycleOk(after.value) && NoActiveDuplicates(after.value)
  {
    var c := Payload(a, actor, text, completedAt).value;
    var p := TicketWithId(t.id);
    var i := FindIndex(ts, p);
    var t' := ApplyTicketChanges(t, c, now);
    var after := ReplaceFirst(ts, p, TicketUpdater(c, now));
    ActionStep(t, a, actor, text, completedAt, now);
    assert ts[i] == t;
    forall k | 0 <= k < |ts| ensures after.value[k] == ts[i := t'][k] {
      assert IsFirst(ts, p, k) <==> k == i;
    }
    assert after.value == ts[i := t'];
    UpdateKeepsNoActiveDuplicates(ts, i, t');
  }

  /** `updateTicket` itself enforces nothing: a completed ticket can be merged back to open. */
  lemma UnguardedUpdateBreaksLifecycle(t: Ticket, now: nat)
    requires LifecycleOk(t) && t.status == Completed
    ensures !LifecycleOk(ApplyTicketChanges(t, NoTicketChanges.(status := Put(Open)), now))
  {
  }

  // ---- the handlers

  /** What a handler ends with: returned silently, refused with a message, failed with the store's error, or updated. */
  datatype Outcome = Ignored | Refused(message: string) | Failed(message: string) | Done(view: TicketView)

  const DiagnosisRequired := "O diagnóstico técnico é obrigatório para finalizar o chamado"
  const ReasonRequired := "O motivo da recusa é obrigatório"

  /**
   * The store after `db.updateTicket(id, c)` with the handler's outcome: a
   * missing id writes nothing and surfaces the store's message; otherwise
   * the first ticket with that id is merged and the merged view returned.
   */
  ghost predicate Sent(before: Option<seq<Ticket>>, after: Option<seq<Ticket>>, id: string, c: TicketChanges, now: nat, o: Outcome) {
    var r := ReplaceFirst(OrEmpty(before), TicketWithId(id), TicketUpdater(c, now));
    if r.None? then after == before && o == Failed(TicketNotFound.Message())
    else after == Some(r.value) && o.Done?
         && o.view.ticket == ApplyTicketChanges(Find(OrEmpty(before), TicketWithId(id)).value, c, now)
  }

  /** Sends a non-empty payload through the store and turns the store's result into the handler's outcome. */
  method Send(store: Store, id: string, c: TicketChanges, now: nat) returns (o: Outcome)
    requires store.Valid()
    modifies store
    ensures store.Valid()
    ensures Sent(old(store.tickets), store.tickets, id, c, now, o)
    ensures store.users == old(store.users) && store.profiles == old(store.profiles)
    ensures store.problemTypes == old(store.problemTypes) && store.currentUser == old(store.currentUser)
  {
    var r := store.UpdateTicket(id, c, now);
    if r.Err? {
      o := Failed(r.error.Message());
    } else {
      o := Done(r.value);
    }
  }

  /** `handleAcceptTicket` on the ticket `shown` in the dialog. */
  method HandleAcceptTicket(store: Store, shown: Ticket, actor: Option<Profile>, now: nat) returns (o: Outcome)
    requires store.Valid()
    modifies store
    ensures store.Valid()
    ensures actor.None? ==> o == Ignored && store.tickets == old(store.tickets)
    ensures actor.Some? ==> Sent(old(store.tickets), store.tickets, shown.id, AcceptChanges(actor).value, now, o)
    ensures store.users == old(store.users) && store.profiles == old(store.profiles)
    ensures store.problemTypes == old(store.problemTypes) && store.currentUser == old(store.currentUser)
    ensures && Offered(Accept, actor, shown) && Find(old(store.Tickets()), TicketWithId(shown.id)) == Some(shown)
            && AllLifecycleOk(old(store.Tickets())) && NoActiveDuplicates(old(store.Tickets()))
            ==> AllLifecycleOk(store.Tickets()) && NoActiveDuplicates(store.Tickets())
  {
    var c := AcceptChanges(actor);
    if c.None? {
      return Ignored;
    }
    ghost var before := store.Tickets();
    o := Send(store, shown.id, c.value, now);
    if Offered(Accept, actor, shown) && Find(before, TicketWithId(shown.id)) == Some(shown)
       && AllLifecycleOk(before) && NoActiveDuplicates(before) {
      ActionKeepsInvariants(before, shown, Accept, actor, "", 0, now);
    }
  }

  /** `handleCompleteTicket`: `completedAt` is the handler's clock reading, `now` the store's. */
  method HandleCompleteTicket(store: Store, shown: Ticket, actor: Option<Profile>, diagnosis: string, completedAt: nat, now: nat)
    returns (o: Outcome)
    requires store.Valid()
    modifies store
    ensures store.Valid()
    ensures AllWhiteSpace(diagnosis) ==> o == Refused(DiagnosisRequired) && store.tickets == old(store.tickets)
    ensures !AllWhiteSpace(diagnosis) ==> Sent(old(store.tickets), store.tickets, shown.id, CompleteChanges(diagnosis, completedAt).value, now, o)
    ensures store.users == old(store.users) && store.profiles == old(store.profiles)
    ensures store.problemTypes == old(store.problemTypes) && store.currentUser == old(store.currentUser)
    ensures && Offered(Complete, actor, shown) && Find(old(store.Tickets()), TicketWithId(shown.id)) == Some(shown)
            && AllLifecycleOk(old(store.Tickets())) && NoActiveDuplicates(old(store.Tickets()))
            ==> AllLifecycleOk(store.Tickets()) && NoActiveDuplicates(store.Tickets())
  {
    var c := CompleteChanges(diagnosis, completedAt);
    if c.None? {
      return Refused(DiagnosisRequired);
    }
    ghost var before := store.Tickets();
    o := Send(store, shown.id, c.value, now);
    if Offered(Complete, actor, shown) && Find(before, TicketWithId(shown.id)) == Some(shown)
       && AllLifecycleOk(before) && NoActiveDuplicates(before) {
      ActionKeepsInvariants(before, shown, Complete, actor, diagnosis, completedAt, now);
    }
  }

  /** `handleRejectTicket` on the ticket `shown` in the dialog. */
  method HandleRejectTicket(store: Store, shown: Ticket, actor: Option<Profile>, reason: string, now: nat) returns (o: Outcome)
    requires store.Valid()
    modifies store
    ensures store.Valid()
    ensures AllWhiteSpace(reason) ==> o == Refused(ReasonRequired) && store.tickets == old(store.tickets)
    ensures !AllWhiteSpace(reason) ==> Sent(old(store.tickets), store.tickets, shown.id, RejectChanges(actor, reason).value, now, o)
    ensures store.users == old(store.users) && store.profiles == old(store.profiles)
    ensures store.problemTypes == old(store.problemTypes) && store.currentUser == old(store.currentUser)
    ensures && Offered(Reject, actor, shown) && Find(old(store.Tickets()), TicketWithId(shown.id)) == Some(shown)
            && AllLifecycleOk(old(store.Tickets())) && NoActiveDuplicates(old(store.Tickets()))
            ==> AllLifecycleOk(store.Tickets()) && NoActiveDuplicates(store.Tickets())
  {
    var c := RejectChanges(actor, reason);
    if c.None? {
      return Refused(ReasonRequired);
    }
    ghost var before := store.Tickets();
    o := Send(store, shown.id, c.value, now);
    if Offered(Reject, actor, shown) && Find(before, TicketWithId(shown.id)) == Some(shown)
       && AllLifecycleOk(before) && NoActiveDuplicates(before) {
      ActionKeepsInvariants(before, shown, Reject, actor, reason, 0, now);
    }
  }
}
