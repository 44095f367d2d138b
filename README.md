# Helpdesk ticket store and lifecycle, modelled in Dafny

This project models the core of a small IT-helpdesk web app. The core has three parts:

- **The record store** (`src/lib/localStorage.ts`). It keeps four collections under fixed browser-storage keys: users, profiles, problem types and tickets. A fifth key holds the current session's user. Every operation reads a whole collection, scans it with `find`/`findIndex`/`filter`, changes it with `push` or an index assignment, and writes it back whole.
- **The ticket lifecycle** (`src/components/tickets/TicketDetails.tsx`). The store's `updateTicket` merges any partial record. The state machine open → in_progress → completed, plus open → rejected, exists only in which buttons the ticket dialog renders and in the payload each button's handler sends.
- **Duplicate-guarded creation** (`src/components/tickets/TicketForm.tsx`). The rule "at most one pending ticket per (user, sector, problem type)" exists only because the form's submit handler queries `checkDuplicateTickets` before it calls `createTicket`.

Layout, one module per file:

- `wrappers.dfy` defines `Option`.
- `seqs.dfy` (`Seqs`) models JavaScript's `findIndex`, `find`, `filter` and the find-and-replace-at-index step. Each is stated against its inputs.
- `text.dfy` (`Text`) models `String.prototype.trim` over the ECMAScript white-space and line-terminator characters.
- `records.dfy` (`Records`) holds the records. A `Partial<T>` is modelled as a record of `Keep | Put(v)` keys, and `ApplyTicketChanges` models the spread merge `{...t, ...c, updated_at}`. It also holds the store's error messages.
- `queries.dfy` (`Queries`) covers the read side on plain sequences: the joined projection, the duplicate test, the four listing filters, and the stable newest-first sort used as a specification. It also holds the duplicate policy `NoActiveDuplicates` with the lemmas that preserve it.
- `local_storage.dfy` (`LocalStorage`) holds the `Store` class with one method per repository operation. It also holds the in-place insertion sort and the sequential filter steps of `getTickets`.
- `ticket_details.dfy` (`TicketDetails`) holds the render guards, the three handler payloads, the lifecycle invariant `LifecycleOk`, and the three handlers over a `Store`.
- `ticket_form.dfy` (`TicketForm`) holds the form state class with `handleChange` and `handleSubmit`.
- `scenarios.dfy` (`Scenarios`) holds end-to-end runs:
  - create, duplicate refused, accept, complete, then the same request accepted again;
  - `createTicket` then `getTicket`, with a fresh id and with a taken one;
  - two unchecked `createTicket` calls for one request, which break the duplicate policy;
  - sign-up as the auth context composes it, which stores two profiles under one id.

How the model stands in for the source:

- **Nondeterminism.** `generateId` and `getCurrentTimestamp` become parameters: a fresh id `freshId: string` and a timestamp `now: nat`. Timestamps are milliseconds as `nat`, which is what the sort compares through `Date.getTime`.
- **Storage keys.** A key that was never written is `None`. Reading a key with `|| '[]'` is `OrEmpty`.
- **Truthiness.** A non-empty optional string is `Present`. This is the truthiness test the source applies to filter values and to `technician_id`.

Where the code's behaviour differs from what the app's intended behaviour would suggest, the model follows the code:

- **Duplicate check.** One would expect ticket creation itself to refuse a pending duplicate. In the code, `createTicket` never checks, and only the form's `handleSubmit` does.
- **Guard violations.** One would expect a guard violation to be reported as an error. In the code:
  - the role, status and ownership guards only decide which buttons are rendered;
  - the handlers themselves do not check them;
  - accepting without a profile returns silently;
  - a blank diagnosis or reason is refused with a toast message, not an error result.
- **Error kinds.** The store's error kinds are its message strings (`Usuário já existe`, `Usuário não encontrado`, `Perfil não encontrado`, `Chamado não encontrado`). There are no named error kinds such as `DuplicateAccount`; the model's `Error` values are the four messages.

## Model

| member | source | states |
|---|---|---|
| Seqs.FindIndex | src/lib/localStorage.ts:368 | the index of the first ticket matching the predicate, or -1 exactly when none matches |
| Seqs.Find | src/lib/localStorage.ts:339 | `None` exactly when nothing matches, otherwise the element at the first matching index |
| Seqs.Filter | src/lib/localStorage.ts:405-410 | keeps only matching elements, keeps every matching one, is empty exactly when nothing matches |
| Seqs.FilterSubMultiset | src/lib/localStorage.ts:405-410 | the result of `filter` is a sub-multiset of its input: nothing is repeated |
| Seqs.FilterCount | src/lib/localStorage.ts:405-410 | `filter` keeps each matching element exactly as often as the input holds it, and none of the others |
| Seqs.FilterTwice | src/lib/localStorage.ts:296-307 | filtering by one predicate and then another equals filtering once by their conjunction |
| Seqs.FilterAll | src/lib/localStorage.ts:293 | a predicate true of every element filters nothing out |
| Seqs.FilterAppend | src/lib/localStorage.ts:325 | filtering distributes over appending, which is how the stable sort is followed one insertion at a time |
| Seqs.FilterSame | src/lib/localStorage.ts:295-308 | predicates that agree everywhere filter alike |
| Seqs.ReplaceFirst | src/lib/localStorage.ts:368-377 | `None` exactly when no element matches; otherwise same length, only the first match is rewritten, every other element kept |
| Text.TrimStart | src/components/tickets/TicketDetails.tsx:105 | a suffix of the input; what it drops is all white space; it does not start with white space |
| Text.TrimEnd | src/components/tickets/TicketDetails.tsx:105 | a prefix of the input; what it drops is all white space; it does not end with white space |
| Text.Trim | src/components/tickets/TicketDetails.tsx:105 | the trimmed text neither starts nor ends with white space |
| Text.TrimIsSlice | src/components/tickets/TicketDetails.tsx:105 | the trimmed text is the contiguous slice of the input that starts where the leading white space ends |
| Text.TrimEmptyIff | src/components/tickets/TicketDetails.tsx:92 | `!text.trim()` holds exactly when every character of the text is white space |
| Records.ApplyTicketChanges | src/lib/localStorage.ts:373-377 | the merged ticket has `updated_at` = now; for each of the twelve other keys, a key present in the update gives its value and an absent one keeps the stored value; an empty update changes only `updated_at` |
| Records.ApplyProfileChanges | src/lib/localStorage.ts:226 | for each of the six keys, a key present in the update gives its value and an absent one keeps the stored value |
| Queries.Join | src/lib/localStorage.ts:311-322 | the view carries the ticket itself; its creator and problem type are the first stored records with the ticket's ids, absent exactly when none is stored; the technician is absent exactly when `technician_id` is falsy or no stored profile has that id, and otherwise is the first stored profile with that id |
| Queries.JoinAll | src/lib/localStorage.ts:311-322 | one joined view per filtered ticket, in order |
| Queries.DuplicateOf | src/lib/localStorage.ts:405-410 | a ticket is a duplicate when it has the given user, sector and problem type and is open or in progress |
| Queries.AppendKeepsNoActiveDuplicates | src/lib/localStorage.ts:262 | appending a ticket that no pending ticket duplicates keeps the duplicate policy |
| Queries.UpdateKeepsNoActiveDuplicates | src/lib/localStorage.ts:373-377 | rewriting one ticket keeps the policy when it ends no longer pending, or stays pending on the same request triple |
| Queries.UncheckedCreateBreaksPolicy | src/lib/localStorage.ts:247-263 | from any collection keeping the policy, appending two pending tickets with distinct ids for one request triple breaks it |
| Queries.NarrowStage | src/lib/localStorage.ts:296-307 | applying the n-th listing filter to the survivors of the first n-1 yields the survivors of the first n |
| Queries.SkipStage | src/lib/localStorage.ts:295-308 | a switched-off filter leaves the survivors unchanged |
| Queries.Insert | src/lib/localStorage.ts:325 | one insertion step of the stable sort adds exactly one element; where it goes is stated by the lemmas below |
| Queries.SortNewestFirst | src/lib/localStorage.ts:325 | the reference sort keeps the length; permutation, order and stability are the lemmas below |
| Queries.InsertAt | src/lib/localStorage.ts:325 | an insertion step puts the new view right after the last one at least as new |
| Queries.InsertPermutes | src/lib/localStorage.ts:325 | an insertion step is a permutation plus the new view |
| Queries.InsertSorted | src/lib/localStorage.ts:325 | an insertion step keeps newest-first order |
| Queries.InsertStable | src/lib/localStorage.ts:325 | an insertion step keeps the relative order of views with equal creation time |
| Queries.SortPermutes | src/lib/localStorage.ts:325 | the sort is a permutation of its input |
| Queries.SortSorted | src/lib/localStorage.ts:325 | the sort's output is newest first by `created_at` |
| Queries.SortStable | src/lib/localStorage.ts:325 | the sort is stable: views with the same creation time keep their stored order |
| Queries.Listing | src/lib/localStorage.ts:293-325 | the specification of `getTickets`: the stored tickets passing every enabled filter, in stored order, joined, then stably sorted newest first; its properties are the rows below |
| Queries.ListingSound | src/lib/localStorage.ts:293-325 | every listed entry is the joined view of a stored ticket that passes every enabled filter |
| Queries.ListingComplete | src/lib/localStorage.ts:293-325 | every stored ticket passing every enabled filter is listed |
| Queries.ListingOrder | src/lib/localStorage.ts:311-325 | the listing is a permutation of the joined filtered subset, newest first, with ties in stored order |
| Queries.NoFiltersListsAll | src/lib/localStorage.ts:281-325 | without a `filters` argument every stored ticket is listed, joined and sorted newest first |
| Queries.TechnicianSeesAll | src/lib/localStorage.ts:296 | with `isTechnician` set, the user-id filter is ignored and every stored ticket is listed |
| Queries.RequesterSeesOwn | src/lib/localStorage.ts:296-298 | a non-technician listing with a user id holds only that user's tickets |
| LocalStorage.OrEmpty | src/lib/localStorage.ts:95 | an absent key reads as the empty collection, a present one as what it holds |
| LocalStorage.Seeded | src/lib/localStorage.ts:56-83 | after seeding the key is always present; a present key keeps its value and an absent one gets the initial value |
| LocalStorage.SeededIdempotent | src/lib/localStorage.ts:56-83 | seeding twice equals seeding once, and a key already present is never changed |
| LocalStorage.DefaultProblemTypesShape | src/lib/localStorage.ts:59-69 | the seed has exactly 9 problem types, ids "1" to "9" in order, all active |
| LocalStorage.DefaultsAllActive | src/lib/localStorage.ts:240 | the active filter keeps the whole seed |
| LocalStorage.Store.constructor | src/lib/localStorage.ts:46-53 | empty browser storage: no key set, no session |
| LocalStorage.Store.InitializeData | src/lib/localStorage.ts:56-83 | each absent key is written (the problem types with the seed, the rest empty); present keys and the session are untouched |
| LocalStorage.Store.SignUp | src/lib/localStorage.ts:91-132 | fails with `Usuário já existe` exactly when that exact email is registered, and then changes nothing but seeding; otherwise appends one user and one profile sharing the fresh id and email, with role defaulting to requester, and makes the user the session |
| LocalStorage.Store.SignIn | src/lib/localStorage.ts:134-150 | not found leaves the session; otherwise the session becomes the first user with that email; the password is never used |
| LocalStorage.Store.SignOut | src/lib/localStorage.ts:152-155 | the session is cleared whatever it held; every collection is untouched |
| LocalStorage.Store.GetCurrentUser | src/lib/localStorage.ts:157-161 | the session user, which is always a registered user, or none |
| LocalStorage.Store.CreateProfile | src/lib/localStorage.ts:185-200 | appends exactly the given profile stamped with now, with no check for an existing id |
| LocalStorage.Store.GetProfile | src/lib/localStorage.ts:202-215 | not found exactly when no profile has the id; otherwise the first profile with it |
| LocalStorage.Store.UpdateProfile | src/lib/localStorage.ts:217-233 | not found writes nothing and fails with `Perfil não encontrado`; otherwise the call succeeds, only the first profile with the id becomes its old fields overridden by the update, and that merged profile is returned |
| LocalStorage.Store.GetProblemTypes | src/lib/localStorage.ts:236-244 | seeds, then returns the active problem types in stored order; on a fresh store these are exactly the 9 seeded types |
| LocalStorage.Store.CreateTicket | src/lib/localStorage.ts:247-279 | appends exactly one ticket with the caller's fields, the fresh id, status open and `created_at` = `updated_at` = now; earlier tickets are unchanged; no duplicate check |
| LocalStorage.Store.GetTickets | src/lib/localStorage.ts:281-331 | the result is the specified listing: sound, complete and newest first |
| LocalStorage.Store.GetTicket | src/lib/localStorage.ts:333-360 | not found exactly when no ticket has the id; otherwise the first ticket with it, joined with its creator, type and technician |
| LocalStorage.Store.UpdateTicket | src/lib/localStorage.ts:362-398 | not found writes nothing; otherwise only the first ticket with the id is replaced by its merge with the update and `updated_at` = now; the length and every other ticket are unchanged |
| LocalStorage.Store.CheckDuplicateTickets | src/lib/localStorage.ts:401-416 | the result is the reference `filter` of the stored tickets by the duplicate test, which keeps stored order and each duplicate's multiplicity: every returned ticket is a stored pending duplicate, every one is returned, none more often than stored; empty exactly when there is none |
| LocalStorage.ApplyFilters | src/lib/localStorage.ts:293-308 | the four sequential reassignments of `filteredTickets` equal one filter by every enabled condition |
| LocalStorage.SortNewestFirstInPlace | src/lib/localStorage.ts:325 | the array ends as the stable newest-first sort of its old contents |
| LocalStorage.InsertInPlace | src/lib/localStorage.ts:325 | one insertion step in place: the prefix becomes the step's result and the rest of the array is untouched |
| TicketDetails.IsTechnician | src/components/tickets/TicketDetails.tsx:55 | the actor is signed in with the technician or admin role |
| TicketDetails.CanTakeAction | src/components/tickets/TicketDetails.tsx:56 | a technician looking at an open or in-progress ticket |
| TicketDetails.Offered | src/components/tickets/TicketDetails.tsx:257-295 | accept and reject are rendered for an open ticket, complete for an in-progress ticket assigned to the actor, all only when the actor can take action |
| TicketDetails.AcceptChanges | src/components/tickets/TicketDetails.tsx:59-67 | no write exactly when there is no profile; otherwise exactly the keys status (in_progress) and technician (the actor), every other key left out |
| TicketDetails.CompleteChanges | src/components/tickets/TicketDetails.tsx:91-107 | no write exactly when the diagnosis is all white space; otherwise exactly the keys status (completed), the non-empty trimmed diagnosis and the completion time, every other key (`technician_id` included) left out |
| TicketDetails.RejectChanges | src/components/tickets/TicketDetails.tsx:131-147 | no write exactly when the reason is all white space; otherwise exactly the keys status (rejected), the non-empty trimmed reason and `profile?.id` as technician, every other key left out |
| TicketDetails.TerminalOffersNothing | src/components/tickets/TicketDetails.tsx:56 | completed and rejected tickets are offered no action |
| TicketDetails.OnlyTechniciansAct | src/components/tickets/TicketDetails.tsx:55-56 | an offered action always has a technician or admin actor |
| TicketDetails.FreshTicketOk | src/components/tickets/TicketForm.tsx:110-116 | a ticket created by the form satisfies the lifecycle invariant |
| TicketDetails.ActionStep | src/components/tickets/TicketDetails.tsx:59-295 | an offered action with a payload, done through the store's merge, keeps the lifecycle invariant, follows an edge of the state machine, and keeps the id and the request triple |
| TicketDetails.ActionKeepsInvariants | src/components/tickets/TicketDetails.tsx:59-295 | sending an offered action for the ticket shown keeps the lifecycle invariant and the duplicate policy over the whole collection |
| TicketDetails.UnguardedUpdateBreaksLifecycle | src/lib/localStorage.ts:373-377 | the store accepts a merge that moves a completed ticket back to open, which breaks the lifecycle invariant |
| TicketDetails.Send | src/components/tickets/TicketDetails.tsx:64-71 | the store write and its outcome: a missing id writes nothing and surfaces the store's message; otherwise the merge is written and returned |
| TicketDetails.HandleAcceptTicket | src/components/tickets/TicketDetails.tsx:59-89 | no profile means no write; otherwise sends the accept payload; when accept is offered on the current ticket, both invariants are preserved |
| TicketDetails.HandleCompleteTicket | src/components/tickets/TicketDetails.tsx:91-129 | a blank diagnosis is refused with its message and no write; otherwise sends the complete payload; when complete is offered, both invariants are preserved |
| TicketDetails.HandleRejectTicket | src/components/tickets/TicketDetails.tsx:131-169 | a blank reason is refused with its message and no write; otherwise sends the reject payload; when reject is offered, both invariants are preserved |
| TicketForm.Request | src/components/tickets/TicketForm.tsx:110-116 | the create request carries the profile id and the form's title, sector, problem type and description, and nothing else |
| TicketForm.CheckedCreateKeepsPolicy | src/components/tickets/TicketForm.tsx:89-116 | appending after an empty duplicate query keeps the duplicate policy |
| TicketForm.CreateKeepsLifecycle | src/components/tickets/TicketForm.tsx:110-116 | appending a fresh open ticket keeps the lifecycle invariant |
| TicketForm.TicketFormState.constructor | src/components/tickets/TicketForm.tsx:30-35 | the form starts with every field empty |
| TicketForm.TicketFormState.HandleChange | src/components/tickets/TicketForm.tsx:66-71 | sets one field and keeps the others |
| TicketForm.TicketFormState.HandleSubmit | src/components/tickets/TicketForm.tsx:73-146 | no profile aborts with no store call; a non-empty duplicate query aborts with tickets and form unchanged; an empty one creates exactly one open ticket for the profile from the form and clears the form; both invariants are preserved across calls |
| Scenarios.LifecycleScenario | src/components/tickets/TicketForm.tsx:99-116 | an identical second request is refused while the first is pending; after a technician accepts and completes it, the request goes through |
| Scenarios.CreateThenGet | src/lib/localStorage.ts:247-360 | with an id no stored ticket has, `getTicket` after `createTicket` succeeds and returns the ticket just stored |
| Scenarios.CreateWithTakenId | src/lib/localStorage.ts:247-360 | with an id already stored, `createTicket` still appends, and `getTicket` keeps returning the older ticket |
| Scenarios.UncheckedCreates | src/lib/localStorage.ts:247-279 | two `createTicket` calls with distinct fresh ids for one request, from a store keeping the policy, leave it broken |
| Scenarios.DoubleProfileScenario | src/lib/localStorage.ts:122 | sign-up followed by `createProfile` stores two profiles with one id; `getProfile` returns the first |

## Left out

- JSON parsing and serialising, and the browser `localStorage` API: the store is in-memory sequences, and a key is either absent (`None`) or holds a sequence. Every `catch` branch (`Erro ao ...` messages) is left out, because the in-memory model has no storage failure.
- `onAuthStateChange`: it is a timer-driven one-shot callback with a no-op unsubscribe.
- `generateId` randomness and ISO-8601 timestamps: these are replaced by the parameters `freshId` and `now`. Id uniqueness is not assumed; every lookup takes the first match, as the source does (`Scenarios.CreateWithTakenId`).
- Role strings outside `'user' | 'technician' | 'admin'`: `Role` has exactly the three values. A falsy sign-up role is `None`.
- Keys of a `Partial` update that set a required field to `undefined`: the model's `Put` always carries a value.
- `updated_at` as an update key: `updateTicket` always overwrites it, so it is not part of `TicketChanges`.
- The `ticket_history: []` field that `getTicket` adds to its result: it is a constant with no behaviour.
- The component state of the dialog and the form (loading flags, toast titles, `onUpdate`/`onClose` callbacks): it is rendering only. Each ticket-dialog handler's outcome carries the toast text of its refusal or failure. The form's toast texts are left out: the outcome kind (no profile, duplicate, created) already determines which one is shown.
- The form's problem-type loading (`loadProblemTypes`): rendering glue around `getProblemTypes`, which is modelled.
- TicketDetails.HandleAcceptTicket, HandleCompleteTicket, HandleRejectTicket: invariant preservation is stated for the case where the ticket shown is the current first stored ticket with its id. A stale snapshot is left out, because the sequential model has no second writer.
- Concurrency: the check-then-create race and the double-accept race only exist under interleaving.
- The Supabase back end, `src/types/database.ts`, the auth context, the register and auth pages and the dashboard are not part of this model. They are library glue, type declarations or rendering. The only part of the auth context modelled is its sign-up composition, in `Scenarios.DoubleProfileScenario`.
