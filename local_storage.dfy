/**
 * The browser-storage record store of `src/lib/localStorage.ts`: four
 * collections and a session pointer, each under its own key.  Every
 * operation reads a whole collection, scans it, changes it and writes it
 * back whole; a key that was never written reads as the empty collection.
 * `generateId` and `getCurrentTimestamp` are the parameters `freshId` and
 * `now`.
 */
module LocalStorage {
  import opened Wrappers
  import opened Seqs
  import opened Records
  import opened Queries

  /** The nine problem types seeded when their key is absent. */
  const DefaultProblemTypes: seq<ProblemType> := [
    ProblemType("1", "Problemas com Internet / Conexão de Rede", true),
    ProblemType("2", "Impressora com Defeito", true),
    ProblemType("3", "Problemas no Computador (sistema lento, travamentos, etc.)", true),
    ProblemType("4", "Manutenção de Hardware", true),
    ProblemType("5", "Instalação de Software", true),
    ProblemType("6", "Acesso a Sistemas (login, senha, permissões)", true),
    ProblemType("7", "Atualização de Software / Sistema Operacional", true),
    ProblemType("8", "Configuração de E-mail ou Conta", true),
    ProblemType("9", "Outros", true)
  ]

  /** `JSON.parse(localStorage.getItem(key) || '[]')`. */
  function OrEmpty<T>(key: Option<seq<T>>): (r: seq<T>)
    ensures key.None? ==> r == []
    ensures key.Some? ==> r == key.value
  {
    if key.Some? then key.value else []
  }

  /** A key after `initializeData`: written with `initial` only when it was absent. */
  function Seeded<T>(key: Option<seq<T>>, initial: seq<T>): (r: Option<seq<T>>)
    ensures r.Some?
    ensures key.Some? ==> r == key
    ensures key.None? ==> r.value == initial
  {
    if key.None? then Some(initial) else key
  }

  /** Seeding twice is seeding once, and an existing collection is never touched. */
  lemma SeededIdempotent<T>(key: Option<seq<T>>, initial: seq<T>)
    ensures Seeded(Seeded(key, initial), initial) == Seeded(key, initial)
    ensures key.Some? ==> Seeded(key, initial) == key
    ensures OrEmpty(Seeded(key, [])) == OrEmpty(key)
  {
  }

  /** The seed: ids "1" to "9", in that order, all active. */
  lemma DefaultProblemTypesShape()
    ensures |DefaultProblemTypes| == 9
    ensures forall k :: 0 <= k < 9 ==> DefaultProblemTypes[k].id == ["1", "2", "3", "4", "5", "6", "7", "8", "9"][k]
    ensures forall k :: 0 <= k < 9 ==> DefaultProblemTypes[k].isActive
  {
  }

  /** Every default problem type is active, so the active filter keeps the whole seed. */
  lemma DefaultsAllActive()
    ensures Filter(DefaultProblemTypes, IsActiveType) == DefaultProblemTypes
  {
    DefaultProblemTypesShape();
    FilterAll(DefaultProblemTypes, IsActiveType);
  }

  class Store {
    var users: Option<seq<User>>
    var profiles: Option<seq<Profile>>
    var problemTypes: Option<seq<ProblemType>>
    var tickets: Option<seq<Ticket>>
    var currentUser: Option<User>

    /** The session always names a registered user. */
    ghost predicate Valid()
      reads this
    {
      currentUser.Some? ==> currentUser.value in Users()
    }

    function Users(): seq<User> reads this { OrEmpty(users) }
    function Profiles(): seq<Profile> reads this { OrEmpty(profiles) }
    function ProblemTypes(): seq<ProblemType> reads this { OrEmpty(problemTypes) }
    function Tickets(): seq<Ticket> reads this { OrEmpty(tickets) }

    /** An empty browser storage: no key is set. */
    constructor ()
      ensures Valid()
      ensures users == None && profiles == None && problemTypes == None && tickets == None && currentUser == None
    {
      users, profiles, problemTypes, tickets, currentUser := None, None, None, None, None;
    }

    /** `initializeData`: writes each absent key (problem types with the seed, the others empty) and nothing else. */
    method InitializeData()
      requires Valid()
      modifies this
      ensures Valid()
      ensures problemTypes == Seeded(old(problemTypes), DefaultProblemTypes)
      ensures users == Seeded(old(users), [])
      ensures profiles == Seeded(old(profiles), [])
      ensures tickets == Seeded(old(tickets), [])
      ensures currentUser == old(currentUser)
      ensures Users() == old(Users()) && Profiles() == old(Profiles()) && Tickets() == old(Tickets())
    {
      if problemTypes.None? {
        problemTypes := Some(DefaultProblemTypes);
      }
      if users.None? {
        users := Some([]);
      }
      if profiles.None? {
        profiles := Some([]);
      }
      if tickets.None? {
        tickets := Some([]);
      }
    }

    /**
     * `auth.signUp`: after seeding, an email already registered (exact,
     * case-sensitive match) is refused; otherwise one user and one profile
     * sharing `freshId` are appended and the session points at the new user.
     * The password is neither stored nor checked.
     */
    method SignUp(email: string, password: string, name: string, role: Option<Role>, sector: Option<string>, freshId: string, now: nat)
      returns (r: Result<User>)
      requires Valid()
      modifies this
      ensures Valid()
      ensures problemTypes == Seeded(old(problemTypes), DefaultProblemTypes)
      ensures tickets == Seeded(old(tickets), [])
      ensures r.Err? <==> Find(old(Users()), UserWithEmail(email)).Some?
      ensures r.Err? ==> r.error == UserExists
      ensures r.Err? ==>
                && users == Seeded(old(users), []) && profiles == Seeded(old(profiles), [])
                && Users() == old(Users()) && Profiles() == old(Profiles())
                && currentUser == old(currentUser)
      ensures r.Ok? ==>
                && r.value == User(freshId, email, now)
                && users == Some(old(Users()) + [r.value])
                && profiles == Some(old(Profiles()) + [Profile(freshId, name, email, if role.Some? then role.value else Requester, sector, now)])
                && currentUser == Some(r.value)
    {
      InitializeData();
      var us := Users();
      var ps := Profiles();
      if Find(us, UserWithEmail(email)).Some? {
        return Err(UserExists);
      }
      var newUser := User(freshId, email, now);
      var newProfile := Profile(freshId, name, email, if role.Some? then role.value else Requester, sector, now);
      us := us + [newUser];
      ps := ps + [newProfile];
      users := Some(us);
      profiles := Some(ps);
      currentUser := Some(newUser);
      r := Ok(newUser);
    }

    /**
     * `auth.signIn`: after seeding, the session points at the first user
     * with that email, or an error is returned and the session is kept.
     * The password is never consulted.
     */
    method SignIn(email: string, password: string) returns (r: Result<User>)
      requires Valid()
      modifies this
      ensures Valid()
      ensures problemTypes == Seeded(old(problemTypes), DefaultProblemTypes)
      ensures users == Seeded(old(users), []) && profiles == Seeded(old(profiles), []) && tickets == Seeded(old(tickets), [])
      ensures var found := Find(old(Users()), UserWithEmail(email));
              && (found.None? ==> r == Err(UserNotFound) && currentUser == old(currentUser))
              && (found.Some? ==> r == Ok(found.value) && currentUser == Some(found.value) && found.value.email == email)
    {
      InitializeData();
      var found := Find(Users(), UserWithEmail(email));
      if found.None? {
        return Err(UserNotFound);
      }
      currentUser := found;
      r := Ok(found.value);
    }

    /** `auth.signOut`: removes the session key, whatever it held. */
    method SignOut()
      requires Valid()
      modifies this
      ensures Valid()
      ensures currentUser == None
      ensures users == old(users) && profiles == old(profiles) && problemTypes == old(problemTypes) && tickets == old(tickets)
    {
      currentUser := None;
    }

    /** `auth.getCurrentUser`: the session's user, always a registered one, or null. */
    function GetCurrentUser(): (r: Option<User>)
      reads this
      requires Valid()
      ensures r.Some? ==> r.value in Users()
    {
      currentUser
    }

    /** `db.createProfile`: appends the profile stamped with `now`, with no check for an existing id. */
    method CreateProfile(id: string, name: string, email: string, role: Role, sector: Option<string>, now: nat)
      returns (p: Profile)
      requires Valid()
      modifies this
      ensures Valid()
      ensures p == Profile(id, name, email, role, sector, now)
      ensures profiles == Some(old(Profiles()) + [p])
      ensures users == old(users) && problemTypes == old(problemTypes) && tickets == old(tickets) && currentUser == old(currentUser)
    {
      p := Profile(id, name, email, role, sector, now);
      profiles := Some(Profiles() + [p]);
    }

    /** `db.getProfile`: the first profile with that id, or not found. */
    function GetProfile(userId: string): (r: Result<Profile>)
      reads this
      ensures r.Err? <==> forall k :: 0 <= k < |Profiles()| ==> Profiles()[k].id != userId
      ensures r.Err? ==> r.error == ProfileNotFound
      ensures r.Ok? ==> exists k :: 0 <= k < |Profiles()| && IsFirst(Profiles(), ProfileWithId(userId), k) && r.value == Profiles()[k]
    {
      var found := Find(Profiles(), ProfileWithId(userId));
      if found.None? then Err(ProfileNotFound)
      else
        assert IsFirst(Profiles(), ProfileWithId(userId), FindIndex(Profiles(), ProfileWithId(userId)));
        Ok(found.value)
    }

    /**
     * `db.updateProfile`: nothing is written when no profile has that id;
     * otherwise only the first such profile changes, to its fields
     * overridden by `changes`.
     */
    method UpdateProfile(userId: string, changes: ProfileChanges) returns (r: Result<Profile>)
      requires Valid()
      modifies this
      ensures Valid()
      ensures var after := ReplaceFirst(old(Profiles()), ProfileWithId(userId), ProfileUpdater(changes));
              && (after.None? ==> r == Err(ProfileNotFound) && profiles == old(profiles))
              && (after.Some? ==> profiles == Some(after.value) && r.Ok?)
      ensures r.Ok? ==> old(GetProfile(userId)).Ok? && r.value == ApplyProfileChanges(old(GetProfile(userId)).value, changes)
      ensures users == old(users) && problemTypes == old(problemTypes) && tickets == old(tickets) && currentUser == old(currentUser)
    {
      var ps := Profiles();
      var i := FindIndex(ps, ProfileWithId(userId));
      if i == -1 {
        return Err(ProfileNotFound);
      }
      ps := ps[i := ApplyProfileChanges(ps[i], changes)];
      profiles := Some(ps);
      r := Ok(ps[i]);
    }

    /** `db.getProblemTypes`: seeds, then returns the active problem types in stored order. */
    method GetProblemTypes() returns (r: seq<ProblemType>)
      requires Valid()
      modifies this
      ensures Valid()
      ensures problemTypes == Seeded(old(problemTypes), DefaultProblemTypes)
      ensures users == Seeded(old(users), []) && profiles == Seeded(old(profiles), []) && tickets == Seeded(old(tickets), [])
      ensures currentUser == old(currentUser)
      ensures r == Filter(ProblemTypes(), IsActiveType)
      ensures old(problemTypes).None? ==> r == DefaultProblemTypes
    {
      InitializeData();
      r := Filter(ProblemTypes(), IsActiveType);
      if old(problemTypes).None? {
        DefaultsAllActive();
      }
    }

    /**
     * `db.createTicket`: appends one ticket with the caller's fields, a fresh
     * id, status open and both timestamps `now`, with no duplicate check;
     * returns it joined with its creator and problem type.
     */
    method CreateTicket(input: NewTicket, freshId: string, now: nat) returns (v: TicketView)
      requires Valid()
      modifies this
      ensures Valid()
      ensures v.ticket.id == freshId && v.ticket.status == Open && v.ticket.createdAt == now && v.ticket.updatedAt == now
      ensures && v.ticket.userId == input.userId && v.ticket.title == input.title && v.ticket.description == input.description
              && v.ticket.sector == input.sector && v.ticket.problemTypeId == input.problemTypeId
              && v.ticket.technicianId == input.technicianId && v.ticket.diagnosis == input.diagnosis
              && v.ticket.rejectionReason == input.rejectionReason && v.ticket.completedAt == input.completedAt
      ensures tickets == Some(old(Tickets()) + [v.ticket])
      ensures v.profile == Find(Profiles(), ProfileWithId(input.userId))
      ensures v.problemType == Find(ProblemTypes(), ProblemTypeWithId(input.problemTypeId))
      ensures v.technician == None
      ensures users == old(users) && profiles == old(profiles) && problemTypes == old(problemTypes) && currentUser == old(currentUser)
    {
      var ts := Tickets();
      var t := Ticket(freshId, input.userId, input.title, input.description, input.sector, input.problemTypeId,
                      Open, input.technicianId, input.diagnosis, input.rejectionReason, now, now, input.completedAt);
      ts := ts + [t];
      tickets := Some(ts);
      v := TicketView(t, Find(Profiles(), ProfileWithId(t.userId)), Find(ProblemTypes(), ProblemTypeWithId(t.problemTypeId)), None);
    }

    /**
     * `db.getTickets`: applies the owner, status, sector and problem-type
     * filters one after another, joins, and sorts newest first in place.
     */
    method GetTickets(f: Filters) returns (r: seq<TicketView>)
      ensures r == Listing(Tickets(), Profiles(), ProblemTypes(), f)
      ensures NewestFirst(r)
      ensures forall k :: 0 <= k < |r| ==> r[k].ticket in Tickets() && Matches(r[k].ticket, f)
      ensures forall k :: 0 <= k < |Tickets()| && Matches(Tickets()[k], f) ==> Join(Tickets()[k], Profiles(), ProblemTypes()) in r
    {
      var filtered := ApplyFilters(Tickets(), f);
      var views := JoinAll(filtered, Profiles(), ProblemTypes());
      var a := new TicketView[|views|](k requires 0 <= k < |views| => views[k]);
      assert forall k :: 0 <= k < a.Length ==> a[k] == views[k];
      assert a[..] == views;
      SortNewestFirstInPlace(a);
      r := a[..];
      ListingOrder(Tickets(), Profiles(), ProblemTypes(), f, 0);
      ListingSound(Tickets(), Profiles(), ProblemTypes(), f);
      ListingComplete(Tickets(), Profiles(), ProblemTypes(), f);
    }

    /** `db.getTicket`: the first ticket with that id, joined, or not found. */
    function GetTicket(ticketId: string): (r: Result<TicketView>)
      reads this
      ensures r.Err? <==> forall k :: 0 <= k < |Tickets()| ==> Tickets()[k].id != ticketId
      ensures r.Err? ==> r.error == TicketNotFound
      ensures r.Ok? ==> exists k :: 0 <= k < |Tickets()| && IsFirst(Tickets(), TicketWithId(ticketId), k) && r.value.ticket == Tickets()[k]
      ensures r.Ok? ==> r.value == Join(r.value.ticket, Profiles(), ProblemTypes())
      ensures r.Ok? ==> Find(Tickets(), TicketWithId(ticketId)) == Some(r.value.ticket)
    {
      var found := Find(Tickets(), TicketWithId(ticketId));
      if found.None? then Err(TicketNotFound)
      else
        assert IsFirst(Tickets(), TicketWithId(ticketId), FindIndex(Tickets(), TicketWithId(ticketId)));
        Ok(Join(found.value, Profiles(), ProblemTypes()))
    }

    /**
     * `db.updateTicket`: nothing is written when no ticket has that id;
     * otherwise only the first such ticket changes, to its fields overridden
     * by `changes` with `updated_at` set to `now`.  No lifecycle rule is
     * checked here.
     */
    method UpdateTicket(ticketId: string, changes: TicketChanges, now: nat) returns (r: Result<TicketView>)
      requires Valid()
      modifies this
      ensures Valid()
      ensures var after := ReplaceFirst(old(Tickets()), TicketWithId(ticketId), TicketUpdater(changes, now));
              && (after.None? ==> r == Err(TicketNotFound) && tickets == old(tickets))
              && (after.Some? ==> tickets == Some(after.value) && r.Ok?)
      ensures r.Ok? ==> old(GetTicket(ticketId)).Ok?
                        && r.value.ticket == ApplyTicketChanges(old(GetTicket(ticketId)).value.ticket, changes, now)
                        && r.value == Join(r.value.ticket, Profiles(), ProblemTypes())
      ensures users == old(users) && profiles == old(profiles) && problemTypes == old(problemTypes) && currentUser == old(currentUser)
    {
      var ts := Tickets();
      var i := FindIndex(ts, TicketWithId(ticketId));
      if i == -1 {
        return Err(TicketNotFound);
      }
      ts := ts[i := ApplyTicketChanges(ts[i], changes, now)];
      tickets := Some(ts);
      r := Ok(Join(ts[i], Profiles(), ProblemTypes()));
    }

    /** `db.checkDuplicateTickets`: the pending tickets of that (user, sector, problem type), in stored order. */
    function CheckDuplicateTickets(userId: string, sector: string, problemTypeId: string): (r: seq<Ticket>)
      reads this
      ensures forall k :: 0 <= k < |r| ==>
                && r[k] in Tickets() && IsActive(r[k].status)
                && r[k].userId == userId && r[k].sector == sector && r[k].problemTypeId == problemTypeId
      ensures forall k :: 0 <= k < |Tickets()| && DuplicateOf(userId, sector, problemTypeId)(Tickets()[k]) ==> Tickets()[k] in r
      ensures r == [] <==> forall k :: 0 <= k < |Tickets()| ==> !DuplicateOf(userId, sector, problemTypeId)(Tickets()[k])
      ensures multiset(r) <= multiset(Tickets())
      ensures r == Filter(Tickets(), DuplicateOf(userId, sector, problemTypeId))
    {
      FilterSubMultiset(Tickets(), DuplicateOf(userId, sector, problemTypeId));
      Filter(Tickets(), DuplicateOf(userId, sector, problemTypeId))
    }
  }

  /**
   * The filter steps of `getTickets`, each reassigning `filteredTickets`:
   * owner (only for a non-technician), status, sector, problem type.
   */
  method ApplyFilters(all: seq<Ticket>, f: Filters) returns (filtered: seq<Ticket>)
    ensures filtered == Filter(all, Stage(f, 4))
  {
    filtered := all;
    assert filtered == Filter(all, Stage(f, 0)) by {
      FilterAll(all, Stage(f, 0));
    }
    if OwnerFilterOn(f) {
      filtered := Filter(filtered, OwnedBy(f.userId.value));
    }
    assert filtered == Filter(all, Stage(f, 1)) by {
      if OwnerFilterOn(f) { NarrowStage(all, f, 1, OwnedBy(f.userId.value)); } else { SkipStage(all, f, 1); }
    }
    if Present(f.status) {
      filtered := Filter(filtered, WithStatusName(f.status.value));
    }
    assert filtered == Filter(all, Stage(f, 2)) by {
      if Present(f.status) { NarrowStage(all, f, 2, WithStatusName(f.status.value)); } else { SkipStage(all, f, 2); }
    }
    if Present(f.sector) {
      filtered := Filter(filtered, InSector(f.sector.value));
    }
    assert filtered == Filter(all, Stage(f, 3)) by {
      if Present(f.sector) { NarrowStage(all, f, 3, InSector(f.sector.value)); } else { SkipStage(all, f, 3); }
    }
    if Present(f.problemTypeId) {
      filtered := Filter(filtered, OfProblemType(f.problemTypeId.value));
    }
    assert filtered == Filter(all, Stage(f, 4)) by {
      if Present(f.problemTypeId) { NarrowStage(all, f, 4, OfProblemType(f.problemTypeId.value)); } else { SkipStage(all, f, 4); }
    }
  }

  /** The in-place `sort` of `getTickets`: a stable insertion sort, newest first. */
  method SortNewestFirstInPlace(a: array<TicketView>)
    modifies a
    ensures a[..] == SortNewestFirst(old(a[..]))
  {
    ghost var s := a[..];
    var i := 0;
    while i < a.Length
      invariant 0 <= i <= a.Length
      invariant a[..i] == SortNewestFirst(s[..i])
      invariant a[i..] == s[i..]
    {
      InsertInPlace(a, i);
      assert s[..i + 1][..i] == s[..i];
      i := i + 1;
    }
    assert s[..a.Length] == s;
  }

  /** Moves `a[i]` left past every older element of the prefix `a[..i]`. */
  method InsertInPlace(a: array<TicketView>, i: nat)
    requires i < a.Length
    modifies a
    ensures a[..i + 1] == Insert(old(a[..i]), old(a[i]))
    ensures a[i + 1..] == old(a[i + 1..])
  {
    var v := a[i];
    ghost var sorted := a[..i];
    var j := i;
    while j > 0 && Key(a[j - 1]) < Key(v)
      invariant 0 <= j <= i
      invariant forall k :: 0 <= k < j ==> a[k] == sorted[k]
      invariant forall k :: j < k <= i ==> a[k] == sorted[k - 1]
      invariant forall k :: i < k < a.Length ==> a[k] == old(a[k])
      invariant forall k :: j <= k < i ==> Key(sorted[k]) < Key(v)
    {
      a[j] := a[j - 1];
      j := j - 1;
    }
    a[j] := v;
    InsertAt(sorted, v, j);
    SplicedAt(a[..i + 1], sorted, v, j);
    assert a[i + 1..] == old(a[i + 1..]);
  }

  /** A sequence that agrees with `s` before `j`, holds `v` at `j` and `s` shifted by one after it is `s` with `v` spliced in at `j`. */
  lemma SplicedAt(x: seq<TicketView>, s: seq<TicketView>, v: TicketView, j: nat)
    requires j <= |s| && |x| == |s| + 1
    requires forall k :: 0 <= k < j ==> x[k] == s[k]
    requires x[j] == v
    requires forall k :: j < k < |x| ==> x[k] == s[k - 1]
    ensures x == s[..j] + [v] + s[j..]
  {
  }
}
