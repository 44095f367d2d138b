/**
 * Two end-to-end runs of the store: the ticket lifecycle from creation to
 * completion with the duplicate rule in between, and the account sign-up as
 * the auth context composes it, which stores two profiles under one id.
 */
module Scenarios {
  import opened Wrappers
  import opened Seqs
  import opened Text
  import opened Records
  import opened Queries
  import opened LocalStorage
  import opened TicketDetails
  import opened TicketForm

  /** Types the same request into the form: title, sector "TI", problem type "2", description. */
  method FillForm(form: TicketFormState)
    modifies form
    ensures form.formData == FormData("Sem rede", "TI", "2", "O cabo parece solto")
  {
    form.HandleChange(Title, "Sem rede");
    form.HandleChange(Sector, "TI");
    form.HandleChange(ProblemTypeId, "2");
    form.HandleChange(Description, "O cabo parece solto");
  }

  /** A signed-up requester and a signed-up technician; no ticket yet. */
  method Setup() returns (store: Store, requester: Profile, technician: Option<Profile>)
    ensures fresh(store) && store.Valid() && store.Tickets() == []
    ensures requester.id == "u1" && technician == Some(Profile("a", "A", "a@empresa.com", Technician, Some("TI"), 2))
  {
    store := new Store();
    store.InitializeData();
    var u := store.SignUp("u1@empresa.com", "segredo", "U1", Some(Requester), Some("TI"), "u1", 1);
    var a := store.SignUp("a@empresa.com", "segredo", "A", Some(Technician), Some("TI"), "a", 2);
    requester := Profile("u1", "U1", "u1@empresa.com", Requester, Some("TI"), 1);
    technician := Some(Profile("a", "A", "a@empresa.com", Technician, Some("TI"), 2));
  }

  /** The technician accepts the only ticket. */
  method AcceptOnly(store: Store, t: Ticket, technician: Option<Profile>) returns (t': Ticket)
    requires store.Valid() && store.Tickets() == [t] && t.status == Open
    requires technician == Some(Profile("a", "A", "a@empresa.com", Technician, Some("TI"), 2))
    modifies store
    ensures store.Valid() && store.Tickets() == [t']
    ensures t'.status == InProgress && t'.technicianId == Some("a") && t'.id == t.id && SameRequest(t, t')
  {
    var o := HandleAcceptTicket(store, t, technician, 12);
    t' := ApplyTicketChanges(t, AcceptChanges(technician).value, 12);
    assert store.Tickets() == [t'];
  }

  /** The assigned technician completes the only ticket with a diagnosis. */
  method CompleteOnly(store: Store, t: Ticket, technician: Option<Profile>) returns (t': Ticket)
    requires store.Valid() && store.Tickets() == [t] && t.status == InProgress
    modifies store
    ensures store.Valid() && store.Tickets() == [t']
    ensures t'.status == Completed && t'.completedAt == Some(13) && t'.technicianId == t.technicianId
    ensures t'.diagnosis == Some("Cabo substituído") && t'.id == t.id && SameRequest(t, t')
  {
    var diagnosis := "Cabo substituído";
    assert !IsWhiteSpace(diagnosis[0]);
    assert Trim(diagnosis) == diagnosis by {
      assert TrimStart(diagnosis) == diagnosis;
      assert !IsWhiteSpace(diagnosis[|diagnosis| - 1]);
      assert TrimEnd(diagnosis) == diagnosis;
    }
    var o := HandleCompleteTicket(store, t, technician, diagnosis, 13, 13);
    t' := ApplyTicketChanges(t, CompleteChanges(diagnosis, 13).value, 13);
    assert store.Tickets() == [t'];
  }

  /** The requester's first submission opens a ticket; the same request typed again is refused. */
  method OpenThenRefuse(store: Store, form: TicketFormState, requester: Profile) returns (t: Ticket, second: SubmitOutcome)
    requires store.Valid() && store.Tickets() == [] && requester.id == "u1"
    modifies store, form
    ensures store.Valid() && store.Tickets() == [t]
    ensures t.status == Open && t.id == "t1" && t.userId == "u1" && t.sector == "TI" && t.problemTypeId == "2"
    ensures second == Duplicate
  {
    FillForm(form);
    var first := form.HandleSubmit(store, Some(requester), "t1", 10);
    t := first.view.ticket;
    FillForm(form);
    assert DuplicateOf("u1", "TI", "2")(t);
    assert store.CheckDuplicateTickets("u1", "TI", "2") != [];
    second := form.HandleSubmit(store, Some(requester), "t-refused", 11);
  }

  /** Once the only ticket for the request is closed, the same request goes through. */
  method ReopenAfterClose(store: Store, form: TicketFormState, requester: Profile, t: Ticket) returns (third: SubmitOutcome)
    requires store.Valid() && store.Tickets() == [t] && !IsActive(t.status) && requester.id == "u1"
    modifies store, form
    ensures third.Created? && third.view.ticket.id == "t2" && third.view.ticket.status == Open
  {
    FillForm(form);
    assert !DuplicateOf("u1", "TI", "2")(t);
    third := form.HandleSubmit(store, Some(requester), "t2", 14);
  }

  /**
   * A requester opens a ticket; a second identical request is refused while
   * the first is pending; a technician accepts and completes it; the same
   * request then goes through.
   */
  method LifecycleScenario() returns (second: SubmitOutcome, third: SubmitOutcome)
    ensures second == Duplicate
    ensures third.Created? && third.view.ticket.id == "t2" && third.view.ticket.status == Open
  {
    var store, requester, technician := Setup();
    var form := new TicketFormState();
    var t1;
    t1, second := OpenThenRefuse(store, form, requester);
    var t1' := AcceptOnly(store, t1, technician);
    var t1'' := CompleteOnly(store, t1', technician);
    third := ReopenAfterClose(store, form, requester, t1'');
  }

  /**
   * Create then read back: with an id no stored ticket has, `getTicket`
   * finds the ticket `createTicket` just stored.  Only the ticket is
   * compared: `createTicket` returns no technician, `getTicket` joins one.
   */
  method CreateThenGet(store: Store, input: NewTicket, freshId: string, now: nat) returns (v: TicketView)
    requires store.Valid()
    requires forall k :: 0 <= k < |store.Tickets()| ==> store.Tickets()[k].id != freshId
    modifies store
    ensures store.GetTicket(freshId).Ok? && store.GetTicket(freshId).value.ticket == v.ticket
  {
    ghost var before := store.Tickets();
    v := store.CreateTicket(input, freshId, now);
    assert IsFirst(store.Tickets(), TicketWithId(freshId), |before|);
  }

  /**
   * Ids are not checked for uniqueness: when `freshId` is already taken,
   * `getTicket` keeps answering with the older ticket, not the new one.
   */
  method CreateWithTakenId(store: Store, input: NewTicket, freshId: string, now: nat) returns (v: TicketView)
    requires store.Valid()
    requires exists k :: 0 <= k < |store.Tickets()| && store.Tickets()[k].id == freshId
    modifies store
    ensures |store.Tickets()| == |old(store.Tickets())| + 1
    ensures old(store.GetTicket(freshId)).Ok?
    ensures store.GetTicket(freshId).Ok? && store.GetTicket(freshId).value.ticket == old(store.GetTicket(freshId)).value.ticket
  {
    ghost var before := store.Tickets();
    ghost var i := FindIndex(before, TicketWithId(freshId));
    assert IsFirst(before, TicketWithId(freshId), i);
    v := store.CreateTicket(input, freshId, now);
    ghost var after := store.Tickets();
    assert after == before + [v.ticket];
    assert forall k :: 0 <= k < |before| ==> after[k] == before[k];
    assert IsFirst(after, TicketWithId(freshId), i);
  }

  /**
   * Two `createTicket` calls for one request, with distinct fresh ids and no
   * duplicate query in between, leave two pending tickets for one triple.
   */
  method UncheckedCreates(store: Store, input: NewTicket, id1: string, id2: string, now: nat) returns (v1: TicketView, v2: TicketView)
    requires store.Valid() && NoActiveDuplicates(store.Tickets()) && id1 != id2
    modifies store
    ensures store.Tickets() == old(store.Tickets()) + [v1.ticket, v2.ticket]
    ensures v1.ticket.id == id1 && v2.ticket.id == id2 && SameRequest(v1.ticket, v2.ticket)
    ensures !NoActiveDuplicates(store.Tickets())
  {
    ghost var before := store.Tickets();
    v1 := store.CreateTicket(input, id1, now);
    v2 := store.CreateTicket(input, id2, now);
    assert before + [v1.ticket] + [v2.ticket] == before + [v1.ticket, v2.ticket];
    UncheckedCreateBreaksPolicy(before, v1.ticket, v2.ticket);
  }

  /**
   * The auth context's sign-up: `auth.signUp` already appends a profile, and
   * the follow-up `createProfile` appends a second one with the same id;
   * `getProfile` keeps answering with the first.
   */
  method DoubleProfileScenario() returns (profiles: seq<Profile>, found: Result<Profile>)
    ensures |profiles| == 2 && profiles[0].id == profiles[1].id == "u1"
    ensures found == Ok(profiles[0])
  {
    var store := new Store();
    var u := store.SignUp("u1@empresa.com", "segredo", "U1", Some(Requester), Some("TI"), "u1", 1);
    assert u.Ok?;
    var p := store.CreateProfile("u1", "U1", "u1@empresa.com", Requester, Some("TI"), 2);
    profiles := store.Profiles();
    found := store.GetProfile("u1");
    assert IsFirst(profiles, ProfileWithId("u1"), 0);
  }
}
