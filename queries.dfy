/**
 * The read-side logic of the ticket repository, on plain sequences: record
 * lookups, the joined projection, the duplicate test, the listing filters,
 * the newest-first stable sort, and the duplicate policy as an invariant.
 */
module Queries {
  import opened Wrappers
  import opened Seqs
  import opened Records

  // ---- lookup predicates (the arrow functions handed to find/findIndex/filter)

  function UserWithEmail(email: string): User -> bool { (u: User) => u.email == email }
  function ProfileWithId(id: string): Profile -> bool { (p: Profile) => p.id == id }
  function ProblemTypeWithId(id: string): ProblemType -> bool { (pt: ProblemType) => pt.id == id }
  function TicketWithId(id: string): Ticket -> bool { (t: Ticket) => t.id == id }
  function IsActiveType(pt: ProblemType): bool { pt.isActive }

  /** The merges `updateTicket` and `updateProfile` write at the found index. */
  function TicketUpdater(c: TicketChanges, now: nat): Ticket -> Ticket { (t: Ticket) => ApplyTicketChanges(t, c, now) }
  function ProfileUpdater(c: ProfileChanges): Profile -> Profile { (p: Profile) => ApplyProfileChanges(p, c) }

  /** The projection every ticket read returns: creator, problem type, and the technician when `technician_id` is truthy. */
  function Join(t: Ticket, profiles: seq<Profile>, types: seq<ProblemType>): (r: TicketView)
    ensures r.ticket == t
    ensures r.profile.None? <==> forall k :: 0 <= k < |profiles| ==> profiles[k].id != t.userId
    ensures r.profile.Some? ==> r.profile.value in profiles && r.profile.value.id == t.userId
    ensures r.problemType.None? <==> forall k :: 0 <= k < |types| ==> types[k].id != t.problemTypeId
    ensures r.problemType.Some? ==> r.problemType.value in types && r.problemType.value.id == t.problemTypeId
    ensures r.technician.None? <==> !Present(t.technicianId) || forall k :: 0 <= k < |profiles| ==> profiles[k].id != t.technicianId.value
    ensures r.technician.Some? ==> r.technician.value in profiles && r.technician.value.id == t.technicianId.value
    ensures r.profile.Some? ==> exists k :: 0 <= k < |profiles| && IsFirst(profiles, ProfileWithId(t.userId), k) && r.profile.value == profiles[k]
    ensures r.problemType.Some? ==> exists k :: 0 <= k < |types| && IsFirst(types, ProblemTypeWithId(t.problemTypeId), k) && r.problemType.value == types[k]
    ensures r.technician.Some? ==> exists k :: 0 <= k < |profiles| && IsFirst(profiles, ProfileWithId(t.technicianId.value), k) && r.technician.value == profiles[k]
  {
    var creator := Find(profiles, ProfileWithId(t.userId));
    assert creator.Some? ==> IsFirst(profiles, ProfileWithId(t.userId), FindIndex(profiles, ProfileWithId(t.userId)));
    var kind := Find(types, ProblemTypeWithId(t.problemTypeId));
    assert kind.Some? ==> IsFirst(types, ProblemTypeWithId(t.problemTypeId), FindIndex(types, ProblemTypeWithId(t.problemTypeId)));
    var technician := if Present(t.technicianId) then Find(profiles, ProfileWithId(t.technicianId.value)) else None;
    assert technician.Some? ==> IsFirst(profiles, ProfileWithId(t.technicianId.value), FindIndex(profiles, ProfileWithId(t.technicianId.value)));
    TicketView(t, creator, kind, technician)
  }

  /** `filteredTickets.map(ticket => ...)`. */
  function JoinAll(ts: seq<Ticket>, profiles: seq<Profile>, types: seq<ProblemType>): (r: seq<TicketView>)
    ensures |r| == |ts|
    ensures forall k :: 0 <= k < |ts| ==> r[k] == Join(ts[k], profiles, types)
  {
    seq(|ts|, k requires 0 <= k < |ts| => Join(ts[k], profiles, types))
  }

  // ---- duplicate policy

  /** The statuses `checkDuplicateTickets` treats as still pending. */
  predicate IsActive(s: Status) {
    s == Open || s == InProgress
  }

  /** Same (user, sector, problem type) triple. */
  predicate SameRequest(a: Ticket, b: Ticket) {
    a.userId == b.userId && a.sector == b.sector && a.problemTypeId == b.problemTypeId
  }

  /** The `filter` callback of `checkDuplicateTickets`. */
  function DuplicateOf(userId: string, sector: string, problemTypeId: string): Ticket -> bool {
    (t: Ticket) => t.userId == userId && t.sector == sector && t.problemTypeId == problemTypeId && IsActive(t.status)
  }

  /** The duplicate policy: no two pending tickets share a (user, sector, problem type) triple. */
  ghost predicate NoActiveDuplicates(ts: seq<Ticket>) {
    forall i, j :: 0 <= i < j < |ts| && IsActive(ts[i].status) && IsActive(ts[j].status) ==> !SameRequest(ts[i], ts[j])
  }

  /** Appending a ticket that collides with no pending ticket keeps the policy. */
  lemma AppendKeepsNoActiveDuplicates(ts: seq<Ticket>, t: Ticket)
    requires NoActiveDuplicates(ts)
    requires forall k :: 0 <= k < |ts| ==> !DuplicateOf(t.userId, t.sector, t.problemTypeId)(ts[k])
    ensures NoActiveDuplicates(ts + [t])
  {
    var ts' := ts + [t];
    forall i, j | 0 <= i < j < |ts'| && IsActive(ts'[i].status) && IsActive(ts'[j].status)
      ensures !SameRequest(ts'[i], ts'[j])
    {
      if j == |ts| {
        assert !DuplicateOf(t.userId, t.sector, t.problemTypeId)(ts[i]);
      }
    }
  }

  /** Rewriting one ticket keeps the policy when it ends no longer pending, or stays pending on the same triple. */
  lemma UpdateKeepsNoActiveDuplicates(ts: seq<Ticket>, i: nat, t: Ticket)
    requires NoActiveDuplicates(ts)
    requires i < |ts|
    requires !IsActive(t.status) || (IsActive(ts[i].status) && SameRequest(ts[i], t))
    ensures NoActiveDuplicates(ts[i := t])
  {
    var ts' := ts[i := t];
    forall a, b | 0 <= a < b < |ts'| && IsActive(ts'[a].status) && IsActive(ts'[b].status)
      ensures !SameRequest(ts'[a], ts'[b])
    {
      assert IsActive(ts[a].status) && IsActive(ts[b].status);
      assert !SameRequest(ts[a], ts[b]);
    }
  }

  /**
   * `createTicket` alone does not enforce the policy: from any collection that
   * keeps it, appending two pending tickets with distinct ids for one triple
   * breaks it.
   */
  lemma UncheckedCreateBreaksPolicy(ts: seq<Ticket>, t1: Ticket, t2: Ticket)
    requires NoActiveDuplicates(ts)
    requires t1.id != t2.id && SameRequest(t1, t2) && IsActive(t1.status) && IsActive(t2.status)
    ensures !NoActiveDuplicates(ts + [t1, t2])
  {
    var ts' := ts + [t1, t2];
    assert ts'[|ts|] == t1 && ts'[|ts| + 1] == t2;
  }

  // ---- listing filters of getTickets

  /** The filters of `getTickets`; an absent or empty string disables a filter, as does a missing `filters` argument. */
  datatype Filters = Filters(userId: Option<string>, status: Option<string>, sector: Option<string>, problemTypeId: Option<string>, isTechnician: bool)

  const NoFilters := Filters(None, None, None, None, false)

  /** The owner filter applies only when a user id is given and the caller is not a technician. */
  predicate OwnerFilterOn(f: Filters) {
    Present(f.userId) && !f.isTechnician
  }

  /** The first `n` filters of `getTickets`, in the order the source applies them, all pass. */
  predicate PassesFirst(t: Ticket, f: Filters, n: nat) {
    && (n >= 1 && OwnerFilterOn(f) ==> t.userId == f.userId.value)
    && (n >= 2 && Present(f.status) ==> StatusName(t.status) == f.status.value)
    && (n >= 3 && Present(f.sector) ==> t.sector == f.sector.value)
    && (n >= 4 && Present(f.problemTypeId) ==> t.problemTypeId == f.problemTypeId.value)
  }

  /** A ticket passes every filter that is switched on. */
  predicate Matches(t: Ticket, f: Filters) {
    PassesFirst(t, f, 4)
  }

  function Stage(f: Filters, n: nat): Ticket -> bool { (t: Ticket) => PassesFirst(t, f, n) }

  function OwnedBy(userId: string): Ticket -> bool { (t: Ticket) => t.userId == userId }
  function WithStatusName(name: string): Ticket -> bool { (t: Ticket) => StatusName(t.status) == name }
  function InSector(sector: string): Ticket -> bool { (t: Ticket) => t.sector == sector }
  function OfProblemType(id: string): Ticket -> bool { (t: Ticket) => t.problemTypeId == id }

  /** Applying the `n`-th filter to the survivors of the first `n - 1`. */
  lemma NarrowStage(s: seq<Ticket>, f: Filters, n: nat, test: Ticket -> bool)
    requires 1 <= n
    requires forall t :: PassesFirst(t, f, n) == (PassesFirst(t, f, n - 1) && test(t))
    ensures Filter(Filter(s, Stage(f, n - 1)), test) == Filter(s, Stage(f, n))
  {
    FilterTwice(s, Stage(f, n - 1), test, Stage(f, n));
  }

  /** Skipping the `n`-th filter when it is switched off. */
  lemma SkipStage(s: seq<Ticket>, f: Filters, n: nat)
    requires 1 <= n
    requires forall t :: PassesFirst(t, f, n) == PassesFirst(t, f, n - 1)
    ensures Filter(s, Stage(f, n - 1)) == Filter(s, Stage(f, n))
  {
    FilterSame(s, Stage(f, n - 1), Stage(f, n));
  }

  // ---- newest-first stable sort

  function Key(v: TicketView): nat { v.ticket.createdAt }

  /** Sorted by creation time, newest first. */
  predicate NewestFirst(vs: seq<TicketView>) {
    forall i, j :: 0 <= i < j < |vs| ==> Key(vs[i]) >= Key(vs[j])
  }

  function CreatedAt(k: nat): TicketView -> bool { (v: TicketView) => Key(v) == k }

  /** One step of a stable newest-first insertion sort: `v` goes after every element at least as new. */
  function Insert(s: seq<TicketView>, v: TicketView): (r: seq<TicketView>)
    ensures |r| == |s| + 1
    decreases |s|
  {
    if s == [] || Key(s[|s| - 1]) >= Key(v) then s + [v]
    else Insert(s[..|s| - 1], v) + [s[|s| - 1]]
  }

  /** The order `Array.prototype.sort` (stable) gives with the comparator `b.created_at - a.created_at`. */
  function SortNewestFirst(s: seq<TicketView>): (r: seq<TicketView>)
    ensures |r| == |s|
  {
    if s == [] then [] else Insert(SortNewestFirst(s[..|s| - 1]), s[|s| - 1])
  }

  /** Where `Insert` puts `v`: right after the last element at least as new, when all later ones are older. */
  lemma {:induction false} InsertAt(s: seq<TicketView>, v: TicketView, j: nat)
    requires j <= |s|
    requires forall k :: j <= k < |s| ==> Key(s[k]) < Key(v)
    requires j == 0 || Key(s[j - 1]) >= Key(v)
    ensures Insert(s, v) == s[..j] + [v] + s[j..]
    decreases |s|
  {
    if j < |s| {
      var s' := s[..|s| - 1];
      InsertAt(s', v, j);
      assert s'[..j] == s[..j];
      assert s'[j..] + [s[|s| - 1]] == s[j..];
    }
  }

  lemma {:induction false} InsertPermutes(s: seq<TicketView>, v: TicketView)
    ensures multiset(Insert(s, v)) == multiset(s) + multiset{v}
    decreases |s|
  {
    if !(s == [] || Key(s[|s| - 1]) >= Key(v)) {
      InsertPermutes(s[..|s| - 1], v);
      assert s == s[..|s| - 1] + [s[|s| - 1]];
    }
  }

  lemma {:induction false} InsertSorted(s: seq<TicketView>, v: TicketView)
    requires NewestFirst(s)
    ensures NewestFirst(Insert(s, v))
    decreases |s|
  {
    if !(s == [] || Key(s[|s| - 1]) >= Key(v)) {
      var s' := s[..|s| - 1];
      var last := s[|s| - 1];
      InsertSorted(s', v);
      InsertPermutes(s', v);
      var r := Insert(s', v);
      forall k | 0 <= k < |r| ensures Key(r[k]) >= Key(last) {
        assert r[k] in multiset(r);
        if r[k] != v {
          assert r[k] in multiset(s');
          var m :| 0 <= m < |s'| && s'[m] == r[k];
        }
      }
    }
  }

  lemma {:induction false} InsertStable(s: seq<TicketView>, v: TicketView, k: nat)
    ensures Filter(Insert(s, v), CreatedAt(k)) == Filter(s, CreatedAt(k)) + Filter([v], CreatedAt(k))
    decreases |s|
  {
    if s == [] || Key(s[|s| - 1]) >= Key(v) {
      FilterAppend(s, [v], CreatedAt(k));
    } else {
      var s', w := s[..|s| - 1], s[|s| - 1];
      var p := CreatedAt(k);
      calc {
        Filter(Insert(s, v), p);
        Filter(Insert(s', v) + [w], p);
        { InsertStable(s', v, k); InsertStableStep(s', w, v, k); }
        Filter(s' + [w], p) + Filter([v], p);
        { assert s' + [w] == s; }
        Filter(s, p) + Filter([v], p);
      }
    }
  }

  lemma InsertStableStep(s: seq<TicketView>, w: TicketView, v: TicketView, k: nat)
    requires Key(w) < Key(v)
    requires Filter(Insert(s, v), CreatedAt(k)) == Filter(s, CreatedAt(k)) + Filter([v], CreatedAt(k))
    ensures Filter(Insert(s, v) + [w], CreatedAt(k)) == Filter(s + [w], CreatedAt(k)) + Filter([v], CreatedAt(k))
  {
    var p := CreatedAt(k);
    FilterAppend(Insert(s, v), [w], p);
    FilterAppend(s, [w], p);
    NotBothNewAndOld(v, w, k);
  }

  /** Two elements with different timestamps cannot both pass `CreatedAt(k)`. */
  lemma NotBothNewAndOld(v: TicketView, w: TicketView, k: nat)
    requires Key(w) < Key(v)
    ensures Filter([w], CreatedAt(k)) == [] || Filter([v], CreatedAt(k)) == []
  {
    if Key(v) == k {
      assert Filter([w], CreatedAt(k)) == Filter([w][1..], CreatedAt(k));
    }
  }

  /** The listing order is a permutation of its input. */
  lemma {:induction false} SortPermutes(s: seq<TicketView>)
    ensures multiset(SortNewestFirst(s)) == multiset(s)
  {
    if s != [] {
      SortPermutes(s[..|s| - 1]);
      InsertPermutes(SortNewestFirst(s[..|s| - 1]), s[|s| - 1]);
      assert s == s[..|s| - 1] + [s[|s| - 1]];
    }
  }

  /** The listing order is newest first. */
  lemma {:induction false} SortSorted(s: seq<TicketView>)
    ensures NewestFirst(SortNewestFirst(s))
  {
    if s != [] {
      SortSorted(s[..|s| - 1]);
      InsertSorted(SortNewestFirst(s[..|s| - 1]), s[|s| - 1]);
    }
  }

  /** The sort is stable: tickets created at the same instant keep their stored order. */
  lemma {:induction false} SortStable(s: seq<TicketView>, k: nat)
    ensures Filter(SortNewestFirst(s), CreatedAt(k)) == Filter(s, CreatedAt(k))
  {
    if s != [] {
      var p := CreatedAt(k);
      var s' := s[..|s| - 1];
      var last := s[|s| - 1];
      calc {
        Filter(SortNewestFirst(s), p);
        Filter(Insert(SortNewestFirst(s'), last), p);
        { InsertStable(SortNewestFirst(s'), last, k); }
        Filter(SortNewestFirst(s'), p) + Filter([last], p);
        { SortStable(s', k); }
        Filter(s', p) + Filter([last], p);
        { FilterAppend(s', [last], p); assert s' + [last] == s; }
        Filter(s, p);
      }
    }
  }

  // ---- the listing as a whole

  /** What `getTickets` returns: the stored tickets passing every filter, joined, newest first. */
  function Listing(ts: seq<Ticket>, profiles: seq<Profile>, types: seq<ProblemType>, f: Filters): seq<TicketView> {
    SortNewestFirst(JoinAll(Filter(ts, Stage(f, 4)), profiles, types))
  }

  /** Every listed entry is the joined view of a stored ticket that passes every filter. */
  lemma ListingSound(ts: seq<Ticket>, profiles: seq<Profile>, types: seq<ProblemType>, f: Filters)
    ensures forall k :: 0 <= k < |Listing(ts, profiles, types, f)| ==>
              var v := Listing(ts, profiles, types, f)[k];
              v.ticket in ts && Matches(v.ticket, f) && v == Join(v.ticket, profiles, types)
  {
    var sel := Filter(ts, Stage(f, 4));
    var views := JoinAll(sel, profiles, types);
    var r := Listing(ts, profiles, types, f);
    SortPermutes(views);
    forall k | 0 <= k < |r|
      ensures r[k].ticket in ts && Matches(r[k].ticket, f) && r[k] == Join(r[k].ticket, profiles, types)
    {
      assert r[k] in multiset(views);
      var m :| 0 <= m < |views| && views[m] == r[k];
      assert Stage(f, 4)(sel[m]);
    }
  }

  /** Every stored ticket passing every filter is listed. */
  lemma ListingComplete(ts: seq<Ticket>, profiles: seq<Profile>, types: seq<ProblemType>, f: Filters)
    ensures forall k :: 0 <= k < |ts| && Matches(ts[k], f) ==> Join(ts[k], profiles, types) in Listing(ts, profiles, types, f)
  {
    var sel := Filter(ts, Stage(f, 4));
    var views := JoinAll(sel, profiles, types);
    SortPermutes(views);
    forall k | 0 <= k < |ts| && Matches(ts[k], f)
      ensures Join(ts[k], profiles, types) in Listing(ts, profiles, types, f)
    {
      assert Stage(f, 4)(ts[k]);
      var m :| 0 <= m < |sel| && sel[m] == ts[k];
      assert views[m] in multiset(views);
    }
  }

  /** The listing is a permutation of the joined filtered subset, newest first, with ties in stored order. */
  lemma ListingOrder(ts: seq<Ticket>, profiles: seq<Profile>, types: seq<ProblemType>, f: Filters, c: nat)
    ensures var views := JoinAll(Filter(ts, Stage(f, 4)), profiles, types);
            && multiset(Listing(ts, profiles, types, f)) == multiset(views)
            && NewestFirst(Listing(ts, profiles, types, f))
            && Filter(Listing(ts, profiles, types, f), CreatedAt(c)) == Filter(views, CreatedAt(c))
  {
    var views := JoinAll(Filter(ts, Stage(f, 4)), profiles, types);
    SortPermutes(views);
    SortSorted(views);
    SortStable(views, c);
  }

  /** `getTickets()` without filters lists every stored ticket, joined and sorted newest first. */
  lemma NoFiltersListsAll(ts: seq<Ticket>, profiles: seq<Profile>, types: seq<ProblemType>)
    ensures Listing(ts, profiles, types, NoFilters) == SortNewestFirst(JoinAll(ts, profiles, types))
  {
    FilterAll(ts, Stage(NoFilters, 4));
  }

  /** A technician's listing ignores the user id: with no other filter every stored ticket is listed. */
  lemma TechnicianSeesAll(ts: seq<Ticket>, profiles: seq<Profile>, types: seq<ProblemType>, userId: Option<string>)
    ensures var r := Listing(ts, profiles, types, Filters(userId, None, None, None, true));
            && |r| == |ts|
            && forall k :: 0 <= k < |ts| ==> Join(ts[k], profiles, types) in r
  {
    var f := Filters(userId, None, None, None, true);
    FilterAll(ts, Stage(f, 4));
    var views := JoinAll(ts, profiles, types);
    SortPermutes(views);
    assert |multiset(Listing(ts, profiles, types, f))| == |multiset(views)|;
    ListingComplete(ts, profiles, types, f);
  }

  /** A requester's listing (not a technician, non-empty user id) holds only that user's tickets. */
  lemma RequesterSeesOwn(ts: seq<Ticket>, profiles: seq<Profile>, types: seq<ProblemType>, userId: string)
    requires userId != ""
    ensures var r := Listing(ts, profiles, types, Filters(Some(userId), None, None, None, false));
            forall k :: 0 <= k < |r| ==> r[k].ticket.userId == userId
  {
    ListingSound(ts, profiles, types, Filters(Some(userId), None, None, None, false));
  }
}
