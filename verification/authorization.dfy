/** Who may see and act on which expense: the approval predicate, the owner/admin guards and
    the three role-scoped expense sets the handlers build. */
module Authorization {
  import opened Wrappers
  import opened Models

  /** The logged-in user as the handlers see it. */
  datatype Actor = Actor(id: nat, role: string)

  predicate IsAdmin(a: Actor) { a.role == ROLE_ADMIN }

  predicate IsSupervisor(a: Actor) { a.role == ROLE_SUPERVISOR }

  predicate IsSupervisorOrAdmin(a: Actor) { IsSupervisor(a) || IsAdmin(a) }

  /** The users whose supervisor is `sid` (`filter_by(supervisor_id=sid)`): direct reports only. */
  function Subordinates(store: Store, sid: nat): (subs: set<nat>)
    ensures forall u :: u in subs <==> u in store.users && store.users[u].supervisorId == Some(sid)
  {
    set u | u in store.users && store.users[u].supervisorId == Some(sid)
  }

  /** The expenses whose owner is in `owners` (`Expense.user_id.in_(owners)`). */
  function ExpensesOf(store: Store, owners: set<nat>): (ids: set<nat>)
    ensures ids <= store.expenses.Keys
    ensures forall id :: id in ids <==> id in store.expenses && store.expenses[id].userId in owners
  {
    set id | id in store.expenses && store.expenses[id].userId in owners
  }

  /** `can_approve_expense`: never one's own expense; an admin any other; a supervisor those
      of a direct report; nobody else anything. */
  function CanApproveExpense(store: Store, actor: Actor, e: Expense): (ok: bool)
    ensures ok ==> actor.id != e.userId
    ensures ok <==> actor.id != e.userId && (IsAdmin(actor) || (IsSupervisor(actor) && e.userId in Subordinates(store, actor.id)))
    ensures !IsSupervisorOrAdmin(actor) ==> !ok
  {
    if actor.id == e.userId then false
    else if actor.role == ROLE_ADMIN then true
    else if actor.role == ROLE_SUPERVISOR then
      e.userId in store.users && store.users[e.userId].supervisorId == Some(actor.id)
    else false
  }

  /** The expenses the API lists and counts (`get_expenses`, `get_stats_summary`): everything
      for an admin, a supervisor's own plus direct reports', and otherwise one's own. */
  function ApiScope(store: Store, actor: Actor): (ids: set<nat>)
    ensures ids <= store.expenses.Keys
    ensures IsAdmin(actor) ==> ids == store.expenses.Keys
    ensures IsSupervisor(actor) ==> ids == ExpensesOf(store, Subordinates(store, actor.id) + {actor.id})
    ensures !IsSupervisorOrAdmin(actor) ==> ids == ExpensesOf(store, {actor.id})
  {
    if actor.role == ROLE_ADMIN then store.expenses.Keys
    else if actor.role == ROLE_SUPERVISOR then ExpensesOf(store, Subordinates(store, actor.id) + {actor.id})
    else ExpensesOf(store, {actor.id})
  }

  /** The expenses the approval lists and the reports work on: everything for an admin,
      otherwise only direct reports' expenses. */
  function TeamScope(store: Store, actor: Actor): (ids: set<nat>)
    ensures ids <= store.expenses.Keys
    ensures IsAdmin(actor) ==> ids == store.expenses.Keys
    ensures !IsAdmin(actor) ==> ids == ExpensesOf(store, Subordinates(store, actor.id))
  {
    if actor.role == ROLE_ADMIN then store.expenses.Keys
    else ExpensesOf(store, Subordinates(store, actor.id))
  }

  /** The two supervisor scopes differ by exactly the supervisor's own expenses. */
  lemma ApiScopeIsTeamPlusOwn(store: Store, actor: Actor)
    requires IsSupervisor(actor)
    ensures ApiScope(store, actor) == TeamScope(store, actor) + ExpensesOf(store, {actor.id})
  {
  }

  /** The team scope leaves out a supervisor's own expenses, unless the supervisor is recorded
      as their own supervisor (nothing forbids that cycle). */
  lemma TeamScopeExcludesOwn(store: Store, actor: Actor, id: nat)
    requires IsSupervisor(actor) && id in store.expenses && store.expenses[id].userId == actor.id
    ensures id in TeamScope(store, actor) <==>
      actor.id in store.users && store.users[actor.id].supervisorId == Some(actor.id)
  {
  }

  /** A concrete store showing the mismatch: the supervisor's own expense is listed by the API
      but absent from the team scope. */
  lemma OwnExpenseOnlyInApiScope()
    ensures var e := Expense(1, 0, 5, Date(2024, 1, 1), "Transporte", "taxi", "r.png", None, None, None, Pending, 0, 0, None);
      var store := Store(map[1 := User("s@x.cl", None, "S", "V", ROLE_SUPERVISOR, None, None, true, 0, None)],
                         map[], map[], map[], map[7 := e], []);
      var actor := Actor(1, ROLE_SUPERVISOR);
      7 in ApiScope(store, actor) && 7 !in TeamScope(store, actor)
  {
  }

  /** Every expense the team scope holds for a supervisor is one the supervisor may approve,
      unless it is their own. */
  lemma TeamScopeApprovable(store: Store, actor: Actor, id: nat)
    requires IsSupervisor(actor) && id in TeamScope(store, actor)
    ensures CanApproveExpense(store, actor, store.expenses[id]) <==> store.expenses[id].userId != actor.id
  {
  }

  /** The owner/admin guard of the API update and delete handlers. */
  predicate CanModify(actor: Actor, e: Expense) {
    e.userId == actor.id || IsAdmin(actor)
  }

  /** The read guard of `get_expense`: only the role 'user' is kept to its own expenses. */
  predicate CanRead(actor: Actor, e: Expense) {
    !(actor.role == ROLE_USER && e.userId != actor.id)
  }

  /** The guard of the approval detail page: an approver or the owner. */
  predicate CanViewDetail(store: Store, actor: Actor, e: Expense) {
    CanApproveExpense(store, actor, e) || actor.id == e.userId
  }

  /** Whoever may see the detail page may also read the expense through the API, and so may a
      supervisor outside the team (the API does not look at the team). */
  lemma DetailImpliesRead(store: Store, actor: Actor, e: Expense)
    requires CanViewDetail(store, actor, e)
    ensures CanRead(actor, e)
  {
  }

  /** A supervisor may read, through the API, an expense they could neither approve nor see
      in the detail page. */
  lemma ReadBeyondTeam()
    ensures var e := Expense(2, 0, 5, Date(2024, 1, 1), "Transporte", "taxi", "r.png", None, None, None, Pending, 0, 0, None);
      var store := Store(map[], map[], map[], map[], map[], []);
      var actor := Actor(1, ROLE_SUPERVISOR);
      CanRead(actor, e) && !CanViewDetail(store, actor, e)
  {
  }
}
