/** The web approval handlers: the pending list, approve and reject, the decision history, the
    detail page and the team-wide listing. Redirects with a flash message are modelled as
    refusals that leave the store as it was. */
module Approvals {
  import opened Wrappers
  import opened Models
  import opened Authorization
  import opened Lifecycle
  import Listing

  datatype DecideOutcome =
    | NotFound          // `get_or_404`
    | Forbidden         // `can_approve_expense` refused
    | AlreadyProcessed  // the expense is not pending
    | MissingReason     // a rejection without comments
    | Decided

  /** The form checks of `approve` (`d == Approve`) and `reject` (`d == Reject`), in their
      order: existence, permission, pending status, and for a rejection a non-empty reason. */
  function DecideCheck(store: Store, actor: Actor, id: nat, d: Decision, comments: string): DecideOutcome {
    if id !in store.expenses then NotFound
    else if !CanApproveExpense(store, actor, store.expenses[id]) then Forbidden
    else if store.expenses[id].status != Pending then AlreadyProcessed
    else if d == Reject && comments == "" then MissingReason
    else Decided
  }

  /** `approve` / `reject`: on success the decision is recorded with the form's comments
      ('' when absent); on any refusal nothing changes. */
  function Decide(store: Store, actor: Actor, id: nat, d: Decision, comments: string, now: Time): (r: (Store, DecideOutcome))
    ensures r.1 == NotFound <==> id !in store.expenses
    ensures r.1 == Forbidden <==> id in store.expenses && !CanApproveExpense(store, actor, store.expenses[id])
    ensures r.1 == AlreadyProcessed <==>
      id in store.expenses && CanApproveExpense(store, actor, store.expenses[id]) && store.expenses[id].status != Pending
    ensures r.1 == MissingReason <==>
      id in store.expenses && CanApproveExpense(store, actor, store.expenses[id]) && store.expenses[id].status == Pending &&
      d == Reject && comments == ""
    ensures r.1 == Decided ==> Recorded(store, r.0, id, actor.id, d, Some(comments), now)
    ensures r.1 == Decided ==> actor.id != store.expenses[id].userId
    ensures r.1 != Decided ==> r.0 == store
  {
    var outcome := DecideCheck(store, actor, id, d, comments);
    if outcome == Decided then (ApplyDecision(store, id, actor.id, d, Some(comments), now), Decided)
    else (store, outcome)
  }

  /** A decided expense cannot be decided again, by anyone, either way: the second attempt
      reports it as processed (or forbidden) and changes nothing. */
  lemma {:induction false} SecondDecisionRefused(store: Store, actor: Actor, id: nat, d: Decision, comments: string, now: Time,
                                                 other: Actor, d2: Decision, comments2: string, later: Time)
    requires Decide(store, actor, id, d, comments, now).1 == Decided
    ensures var s1 := Decide(store, actor, id, d, comments, now).0;
      var r := Decide(s1, other, id, d2, comments2, later);
      r.1 in {AlreadyProcessed, Forbidden} && r.0 == s1
  {
    var s1 := Decide(store, actor, id, d, comments, now).0;
    assert s1.expenses[id].status == DecisionStatus(d);
    assert s1.expenses[id].status != Pending;
  }

  /** An admin decides any pending expense of somebody else; a rejection also needs a reason. */
  lemma AdminDecides(store: Store, actor: Actor, id: nat, d: Decision, comments: string, now: Time)
    requires IsAdmin(actor) && id in store.expenses && store.expenses[id].status == Pending
    requires store.expenses[id].userId != actor.id
    ensures Decide(store, actor, id, d, comments, now).1 == Decided <==> (d == Approve || comments != "")
  {
  }

  /** `pending`: refused (`None`) unless the caller is a supervisor or an admin; otherwise the
      pending expenses of the team scope the caller may approve, newest first. */
  method PendingList(store: Store, actor: Actor) returns (listed: Option<seq<nat>>)
    ensures listed.None? <==> !IsSupervisorOrAdmin(actor)
    ensures listed.Some? ==> Listing.Enumerates(listed.value, set id | id in TeamScope(store, actor) &&
      store.expenses[id].status == Pending && CanApproveExpense(store, actor, store.expenses[id]))
    ensures listed.Some? ==> forall i :: 0 <= i < |listed.value| ==> listed.value[i] in store.expenses
    ensures listed.Some? ==> Listing.NonIncreasing(listed.value, CreationKeys(store.expenses))
  {
    if !IsSupervisorOrAdmin(actor) {
      return None;
    }
    var scope := TeamScope(store, actor);
    var ids := set id | id in scope && store.expenses[id].status == Pending && CanApproveExpense(store, actor, store.expenses[id]);
    var s := Listing.Descending(ids, CreationKeys(store.expenses));
    listed := Some(s);
  }

  /** For a supervisor the approvability filter only drops their own expenses: every pending
      expense of a direct report who is not the supervisor is listed. */
  lemma PendingFilterForSupervisor(store: Store, actor: Actor, id: nat)
    requires IsSupervisor(actor) && id in TeamScope(store, actor) && store.expenses[id].status == Pending
    ensures CanApproveExpense(store, actor, store.expenses[id]) <==> store.expenses[id].userId != actor.id
  {
  }

  /** The sort key of `order_by(Approval.created_at.desc())`, by position in the audit trail. */
  function DecisionKeys(approvals: seq<Approval>): (key: map<nat, int>)
    ensures forall i: nat :: i in key <==> i < |approvals|
    ensures forall i :: 0 <= i < |approvals| ==> key[i] == approvals[i].createdAt
  {
    map i | 0 <= i < |approvals| :: approvals[i].createdAt as int
  }

  /** `history`: refused unless supervisor or admin; otherwise the positions of the decisions
      the caller took, newest first. */
  method History(store: Store, actor: Actor) returns (listed: Option<seq<nat>>)
    ensures listed.None? <==> !IsSupervisorOrAdmin(actor)
    ensures listed.Some? ==> Listing.Enumerates(listed.value,
      set i | 0 <= i < |store.approvals| && store.approvals[i].approverId == actor.id)
    ensures listed.Some? ==> forall k :: 0 <= k < |listed.value| ==>
      listed.value[k] < |store.approvals| && store.approvals[listed.value[k]].approverId == actor.id
    ensures listed.Some? ==> forall k, l :: 0 <= k < l < |listed.value| ==>
      store.approvals[listed.value[k]].createdAt >= store.approvals[listed.value[l]].createdAt
  {
    if !IsSupervisorOrAdmin(actor) {
      return None;
    }
    var ids := set i | 0 <= i < |store.approvals| && store.approvals[i].approverId == actor.id;
    var s := Listing.Descending(ids, DecisionKeys(store.approvals));
    listed := Some(s);
  }

  /** `all_expenses`: refused unless supervisor or admin; otherwise the team scope, narrowed to
      one status unless the filter is 'all', newest first. */
  method AllExpenses(store: Store, actor: Actor, statusFilter: string) returns (listed: Option<seq<nat>>)
    ensures listed.None? <==> !IsSupervisorOrAdmin(actor)
    ensures listed.Some? ==> Listing.Enumerates(listed.value, set id | id in TeamScope(store, actor) &&
      (statusFilter == "all" || StatusName(store.expenses[id].status) == statusFilter))
    ensures listed.Some? ==> forall i :: 0 <= i < |listed.value| ==> listed.value[i] in store.expenses
    ensures listed.Some? ==> Listing.NonIncreasing(listed.value, CreationKeys(store.expenses))
  {
    if !IsSupervisorOrAdmin(actor) {
      return None;
    }
    var scope := TeamScope(store, actor);
    var ids := set id | id in scope && (statusFilter == "all" || StatusName(store.expenses[id].status) == statusFilter);
    var s := Listing.Descending(ids, CreationKeys(store.expenses));
    listed := Some(s);
  }

  /** A filter naming no status lists nothing. */
  lemma UnknownFilterListsNothing(store: Store, actor: Actor, statusFilter: string)
    requires statusFilter !in {"all", "pending", "approved", "rejected", "reimbursed"}
    ensures (set id | id in TeamScope(store, actor) &&
      (statusFilter == "all" || StatusName(store.expenses[id].status) == statusFilter)) == {}
  {
  }

  datatype DetailOutcome = DetailNotFound | DetailDenied | Shown(expense: Expense)

  /** `detail`: 404 for an unknown id; shown to whoever may approve the expense and to its
      owner; refused to everybody else. */
  function Detail(store: Store, actor: Actor, id: nat): (r: DetailOutcome)
    ensures r == DetailNotFound <==> id !in store.expenses
    ensures r.Shown? <==> (id in store.expenses &&
      (actor.id == store.expenses[id].userId || CanApproveExpense(store, actor, store.expenses[id])))
    ensures r.Shown? ==> r.expense == store.expenses[id]
  {
    if id !in store.expenses then DetailNotFound
    else if !CanApproveExpense(store, actor, store.expenses[id]) && actor.id != store.expenses[id].userId then DetailDenied
    else Shown(store.expenses[id])
  }
}
