/** The admin area: every route first refuses non-admins; then client approval, client
    rejection with its cascade onto pending expenses, the list of clients awaiting review, and
    user creation. */
module Admin {
  import opened Wrappers
  import opened Strings
  import opened Models
  import opened Authorization

  datatype AdminOutcome<+T> = Denied | NotFound | Done(value: T)

  /** `require_admin`, run before every admin route. */
  predicate RequireAdmin(actor: Actor) { actor.role == ROLE_ADMIN }

  /** The expenses of a client that are pending. */
  function PendingOfClient(store: Store, cid: nat): (ids: set<nat>)
    ensures ids <= store.expenses.Keys
    ensures forall id :: id in ids <==> id in store.expenses && store.expenses[id].clientId == cid && store.expenses[id].status == Pending
  {
    set id | id in store.expenses && store.expenses[id].clientId == cid && store.expenses[id].status == Pending
  }

  /** All the expenses of a client, whatever their status. */
  function ExpensesOfClient(store: Store, cid: nat): (ids: set<nat>)
    ensures forall id :: id in ids <==> id in store.expenses && store.expenses[id].clientId == cid
  {
    set id | id in store.expenses && store.expenses[id].clientId == cid
  }

  /** `clients_approve`: the client becomes active and enabled whatever its status was; no
      expense changes; the reported number is how many of its expenses are pending. */
  function ClientsApprove(store: Store, actor: Actor, cid: nat): (r: (Store, AdminOutcome<nat>))
    ensures r.1 == Denied <==> !RequireAdmin(actor)
    ensures r.1 == NotFound <==> RequireAdmin(actor) && cid !in store.companies
    ensures !r.1.Done? ==> r.0 == store
    ensures r.1.Done? ==>
      && cid in store.companies
      && r.0 == store.(companies := store.companies[cid := store.companies[cid].(status := ClientActive, isActive := true)])
      && r.1.value == |PendingOfClient(store, cid)|
  {
    if !RequireAdmin(actor) then (store, Denied)
    else if cid !in store.companies then (store, NotFound)
    else
      var c := store.companies[cid];
      (store.(companies := store.companies[cid := c.(status := ClientActive, isActive := true)]),
       Done(|PendingOfClient(store, cid)|))
  }

  /** What rejecting a client does to the expenses: each pending expense of the client becomes
      rejected, with its modification time refreshed; every other expense stays as it was. */
  ghost predicate Cascaded(before: map<nat, Expense>, after: map<nat, Expense>, cid: nat, now: Time) {
    && after.Keys == before.Keys
    && (forall id :: id in before ==>
          after[id] == if before[id].clientId == cid && before[id].status == Pending
                       then before[id].(status := Rejected, updatedAt := now)
                       else before[id])
  }

  /** `clients_reject`: the client becomes rejected and disabled whatever its status was, its
      pending expenses are rejected one by one, and the number rejected is reported. No
      approval row is written for them. */
  method ClientsReject(store: Store, actor: Actor, cid: nat, now: Time) returns (after: Store, r: AdminOutcome<nat>)
    ensures r == Denied <==> !RequireAdmin(actor)
    ensures r == NotFound <==> RequireAdmin(actor) && cid !in store.companies
    ensures !r.Done? ==> after == store
    ensures r.Done? ==>
      && cid in store.companies
      && after == store.(companies := store.companies[cid := store.companies[cid].(status := ClientRejected, isActive := false)],
                         expenses := after.expenses)
      && Cascaded(store.expenses, after.expenses, cid, now)
      && PendingOfClient(after, cid) == {}
      && r.value == |PendingOfClient(store, cid)|
  {
    if !RequireAdmin(actor) {
      return store, Denied;
    }
    if cid !in store.companies {
      return store, NotFound;
    }
    var pendingIds := PendingOfClient(store, cid);
    var c := store.companies[cid];
    var expenses := store.expenses;
    var rejectedCount := 0;
    var todo := pendingIds;
    while todo != {}
      invariant todo <= pendingIds
      invariant expenses.Keys == store.expenses.Keys
      invariant forall id :: id in store.expenses ==>
        expenses[id] == if id in pendingIds && id !in todo
                        then store.expenses[id].(status := Rejected, updatedAt := now)
                        else store.expenses[id]
      invariant rejectedCount + |todo| == |pendingIds|
      decreases |todo|
    {
      var id :| id in todo;
      expenses := expenses[id := expenses[id].(status := Rejected, updatedAt := now)];
      rejectedCount := rejectedCount + 1;
      todo := todo - {id};
    }
    after := store.(companies := store.companies[cid := c.(status := ClientRejected, isActive := false)], expenses := expenses);
    r := Done(rejectedCount);
  }

  /** `clients_approvals`: each pending client with the number of its expenses of any status. */
  function ClientsApprovals(store: Store, actor: Actor): (r: AdminOutcome<map<nat, nat>>)
    ensures r == Denied <==> !RequireAdmin(actor)
    ensures r.Done? ==> forall cid :: cid in r.value <==> cid in store.companies && store.companies[cid].status == ClientPending
    ensures r.Done? ==> forall cid :: cid in r.value ==> r.value[cid] == |ExpensesOfClient(store, cid)|
    ensures r != NotFound
  {
    if !RequireAdmin(actor) then Denied
    else Done(map cid | cid in store.companies && store.companies[cid].status == ClientPending :: |ExpensesOfClient(store, cid)|)
  }

  /** The approval page after a decision on client `cid`: `cid` is gone, and every other
      pending client is still listed with the same expense count. */
  ghost predicate LeftApprovals(before: map<nat, nat>, after: map<nat, nat>, cid: nat) {
    && after.Keys == before.Keys - {cid}
    && forall c :: c in after ==> after[c] == before[c]
  }

  /** A decision on client `cid` that changes no other client and moves no expense to another
      client takes `cid` off the approval page and changes nothing else there. */
  lemma DecisionLeavesApprovals(store: Store, after: Store, actor: Actor, cid: nat)
    requires RequireAdmin(actor)
    requires after.companies.Keys == store.companies.Keys && cid in after.companies
    requires after.companies[cid].status != ClientPending
    requires forall c :: c in store.companies && c != cid ==> after.companies[c] == store.companies[c]
    requires after.expenses.Keys == store.expenses.Keys
    requires forall id :: id in store.expenses ==> after.expenses[id].clientId == store.expenses[id].clientId
    ensures ClientsApprovals(store, actor).Done? && ClientsApprovals(after, actor).Done?
    ensures LeftApprovals(ClientsApprovals(store, actor).value, ClientsApprovals(after, actor).value, cid)
  {
    var before := ClientsApprovals(store, actor).value;
    var later := ClientsApprovals(after, actor).value;
    forall c ensures c in later <==> c in before - {cid} {
    }
    forall c | c in later ensures later[c] == before[c] {
      SameOwners(store, after, c);
    }
  }

  /** A change that moves no expense to another client keeps each client's expenses. */
  lemma SameOwners(store: Store, after: Store, c: nat)
    requires after.expenses.Keys == store.expenses.Keys
    requires forall id :: id in store.expenses ==> after.expenses[id].clientId == store.expenses[id].clientId
    ensures ExpensesOfClient(after, c) == ExpensesOfClient(store, c)
  {
  }

  /** Approving a client takes it off the approval page and changes nothing else there. */
  lemma ApprovedClientLeavesApprovals(store: Store, actor: Actor, cid: nat)
    requires RequireAdmin(actor) && cid in store.companies
    ensures ClientsApprovals(store, actor).Done?
    ensures var after := ClientsApprove(store, actor, cid).0;
      ClientsApprovals(after, actor).Done? &&
      LeftApprovals(ClientsApprovals(store, actor).value, ClientsApprovals(after, actor).value, cid)
  {
    DecisionLeavesApprovals(store, ClientsApprove(store, actor, cid).0, actor, cid);
  }

  /** Rejecting a client takes it off the approval page; the other clients keep their counts,
      because the cascade changes statuses but not which client an expense belongs to. */
  method RejectedClientLeavesApprovals(store: Store, actor: Actor, cid: nat, now: Time) returns (after: Store)
    requires RequireAdmin(actor) && cid in store.companies
    ensures ClientsApprovals(store, actor).Done? && ClientsApprovals(after, actor).Done?
    ensures LeftApprovals(ClientsApprovals(store, actor).value, ClientsApprovals(after, actor).value, cid)
  {
    var r;
    after, r := ClientsReject(store, actor, cid, now);
    DecisionLeavesApprovals(store, after, actor, cid);
  }

  /** A client can be approved again after a rejection; its expenses rejected by the cascade
      stay rejected. */
  method RejectThenApprove(store: Store, actor: Actor, cid: nat, now: Time) returns (after: Store)
    requires RequireAdmin(actor) && cid in store.companies
    ensures cid in after.companies && after.companies[cid].status == ClientActive && after.companies[cid].isActive
    ensures after.expenses.Keys == store.expenses.Keys
    ensures forall id :: id in PendingOfClient(store, cid) ==> after.expenses[id].status == Rejected
  {
    var rejected, _ := ClientsReject(store, actor, cid, now);
    after := ClientsApprove(rejected, actor, cid).0;
  }

  datatype NewUserOutcome = UserDenied | EmailTaken | Incomplete | UserCreated(id: nat)

  /** Whether a user with this e-mail is stored (`filter_by(email=...)`; no stored row has a
      missing e-mail, so a missing one matches nothing). */
  predicate EmailTakenBy(users: map<nat, User>, email: Option<string>) {
    email.Some? && exists u :: u in users && users[u].email == email.value
  }

  /** `users_new` on POST: refuse a registered e-mail; otherwise build the user with the form's
      role and area, hash the password and store it. A missing e-mail or name violates a NOT
      NULL column and a missing password makes hashing fail: nothing is stored either way. */
  function UsersNew(store: Store, actor: Actor, email: Option<string>, firstName: Option<string>,
                    lastName: Option<string>, role: Option<string>, areaId: Option<nat>,
                    password: Option<string>, now: Time): (r: (Store, NewUserOutcome))
    ensures r.1 == UserDenied <==> !RequireAdmin(actor)
    ensures r.1 == EmailTaken <==> RequireAdmin(actor) && EmailTakenBy(store.users, email)
    ensures r.1 == Incomplete <==>
      RequireAdmin(actor) && !EmailTakenBy(store.users, email) &&
      (email.None? || firstName.None? || lastName.None? || password.None?)
    ensures r.1.UserCreated? <==>
      RequireAdmin(actor) && !EmailTakenBy(store.users, email) &&
      email.Some? && firstName.Some? && lastName.Some? && password.Some?
    ensures !r.1.UserCreated? ==> r.0 == store
    ensures r.1.UserCreated? ==>
      && r.1.id !in store.users
      && r.0 == store.(users := r.0.users)
      && r.0.users.Keys == store.users.Keys + {r.1.id}
      && (forall u :: u in store.users ==> r.0.users[u] == store.users[u])
      && var user := r.0.users[r.1.id];
      && user.email == email.value && user.firstName == firstName.value && user.lastName == lastName.value
      && user.role == (if role.Some? then role.value else ROLE_USER)
      && user.areaId == areaId && user.supervisorId.None?
      && user.CheckPassword(password.value) && (forall q :: user.CheckPassword(q) ==> q == password.value)
      && user.isActive && user.createdAt == now && user.lastLogin.None?
  {
    if !RequireAdmin(actor) then (store, UserDenied)
    else if EmailTakenBy(store.users, email) then (store, EmailTaken)
    else if email.None? || firstName.None? || lastName.None? || password.None? then (store, Incomplete)
    else
      var user := NewUser(email.value, firstName.value, lastName.value, role, areaId, None, now).SetPassword(password.value);
      var id := FreshId(store.users);
      (store.(users := store.users[id := user]), UserCreated(id))
  }

  /** User creation keeps e-mails unique. */
  lemma UsersNewKeepsEmailsUnique(store: Store, actor: Actor, email: Option<string>, firstName: Option<string>,
                                  lastName: Option<string>, role: Option<string>, areaId: Option<nat>,
                                  password: Option<string>, now: Time)
    requires EmailsUnique(store.users)
    ensures EmailsUnique(UsersNew(store, actor, email, firstName, lastName, role, areaId, password, now).0.users)
  {
  }
}
