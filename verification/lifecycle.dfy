/** The expense decision step shared by the web and API approval handlers: the expense takes
    the decided status and a fresh modification time, and one approval row is appended. */
module Lifecycle {
  import opened Wrappers
  import opened Models

  /** `after` is `before` with the decision on expense `id` recorded, and nothing else changed:
      no other expense, no user, client, area or category, and no earlier approval row. */
  ghost predicate Recorded(before: Store, after: Store, id: nat, approver: nat, d: Decision,
                           comments: Option<string>, now: Time) {
    && id in before.expenses && id in after.expenses
    && after.expenses[id] == before.expenses[id].(status := DecisionStatus(d), updatedAt := now)
    && after.expenses.Keys == before.expenses.Keys
    && (forall j :: j in before.expenses && j != id ==> after.expenses[j] == before.expenses[j])
    && after.approvals == before.approvals + [Approval(id, approver, d, comments, now)]
    && after.users == before.users && after.areas == before.areas
    && after.companies == before.companies && after.categories == before.categories
  }

  /** The update both handler families commit after their checks pass. */
  function ApplyDecision(store: Store, id: nat, approver: nat, d: Decision, comments: Option<string>, now: Time): (after: Store)
    requires id in store.expenses
    ensures Recorded(store, after, id, approver, d, comments, now)
    ensures |after.approvals| == |store.approvals| + 1
    ensures after.expenses[id].status != Pending
  {
    var e := store.expenses[id];
    store.(expenses := store.expenses[id := e.(status := DecisionStatus(d), updatedAt := now)],
           approvals := store.approvals + [Approval(id, approver, d, comments, now)])
  }
}
