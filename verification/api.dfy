/** The JSON API handlers: the response envelope, scoped listing and statistics, single-expense
    reads and writes, the API approval endpoints, and user reads and creation. */
module Api {
  import opened Wrappers
  import opened Strings
  import opened Models
  import opened Authorization
  import opened Lifecycle
  import opened Aggregates
  import Listing

  /** The JSON object `api_response` builds, with the HTTP status beside it. */
  datatype Envelope<+D> = Envelope(data: Option<D>, message: Option<string>, error: Option<string>, success: bool, status: nat)

  /** `api_response`: 'data' when data is not None, 'message' and 'error' only when truthy,
      and `success` false exactly when an error was given. */
  function ApiResponse<D>(data: Option<D>, message: Option<string>, status: nat, error: Option<string>): (env: Envelope<D>)
    ensures env.success <==> !Truthy(error)
    ensures env.data == data && env.status == status
    ensures env.message.Some? <==> Truthy(message)
    ensures env.message.Some? ==> env.message == message
    ensures env.error.Some? <==> Truthy(error)
    ensures env.error.Some? ==> env.error == error
  {
    Envelope(data, if Truthy(message) then message else None, if Truthy(error) then error else None, !Truthy(error), status)
  }

  /** Whatever the arguments, an envelope reports success exactly when it carries no error
      text, so a client may test either key. */
  lemma SuccessIffNoError<D>(data: Option<D>, message: Option<string>, status: nat, error: Option<string>)
    ensures var env := ApiResponse(data, message, status, error);
      env.success <==> env.error.None?
  {
  }

  /** An error reply: no data, and failure as long as the text is not empty. */
  function Refuse<D>(status: nat, error: string): (env: Envelope<D>)
    ensures env.status == status && env.data.None?
    ensures error != "" ==> !env.success && env.error == Some(error)
  {
    ApiResponse(None, None, status, Some(error))
  }

  /** The payloads the handlers put under 'data' (serialisation is left abstract). */
  datatype Payload =
    | ExpenseData(id: nat, expense: Expense)
    | ExpenseList(ids: seq<nat>, total: nat)
    | UserData(uid: nat, user: User)
    | Summary(totalExpenses: nat, pending: nat, approved: nat, rejected: nat, totalAmount: int)

  /** A reply, or an exception the handler does not catch (the application-wide handler
      then answers). */
  datatype Reply = Reply(env: Envelope<Payload>) | Unhandled

  // ---------------------------------------------------------------- listing and statistics

  /** The rows `get_expenses` selects: the caller's scope narrowed by each truthy filter; the
      user filter only for admins and supervisors. */
  function ListedIds(store: Store, actor: Actor, status: Option<string>, category: Option<string>, userId: Option<int>): (ids: set<nat>)
    ensures ids <= ApiScope(store, actor)
    ensures forall id :: id in ids <==>
      && id in ApiScope(store, actor)
      && (Truthy(status) ==> StatusName(store.expenses[id].status) == status.value)
      && (Truthy(category) ==> store.expenses[id].category == category.value)
      && (userId.Some? && userId.value != 0 && IsSupervisorOrAdmin(actor) ==> store.expenses[id].userId == userId.value)
  {
    set id | id in ApiScope(store, actor)
      && (Truthy(status) ==> StatusName(store.expenses[id].status) == status.value)
      && (Truthy(category) ==> store.expenses[id].category == category.value)
      && (userId.Some? && userId.value != 0 && IsSupervisorOrAdmin(actor) ==> store.expenses[id].userId == userId.value)
  }

  /** A plain user's `user_id` filter is ignored: they still get exactly their own rows. */
  lemma UserFilterIgnoredForUsers(store: Store, actor: Actor, userId: Option<int>)
    requires !IsSupervisorOrAdmin(actor)
    ensures ListedIds(store, actor, None, None, userId) == ExpensesOf(store, {actor.id})
  {
  }

  /** `get_expenses`: the selected rows newest first with their count, always a success. */
  method GetExpenses(store: Store, actor: Actor, status: Option<string>, category: Option<string>, userId: Option<int>)
    returns (env: Envelope<Payload>)
    ensures env.success && env.status == 200 && env.data.Some? && env.data.value.ExpenseList?
    ensures Listing.Enumerates(env.data.value.ids, ListedIds(store, actor, status, category, userId))
    ensures forall i :: 0 <= i < |env.data.value.ids| ==> env.data.value.ids[i] in store.expenses
    ensures Listing.NonIncreasing(env.data.value.ids, CreationKeys(store.expenses))
    ensures env.data.value.total == |ListedIds(store, actor, status, category, userId)|
  {
    var ids := ListedIds(store, actor, status, category, userId);
    var listed := Listing.Descending(ids, CreationKeys(store.expenses));
    env := ApiResponse(Some(ExpenseList(listed, |ids|)), None, 200, None);
  }

  /** `get_stats_summary`: counts by status and the amount total over the API scope. */
  method GetStatsSummary(store: Store, actor: Actor) returns (env: Envelope<Payload>)
    ensures env.success && env.status == 200 && env.data.Some? && env.data.value.Summary?
    ensures var s := env.data.value; var scope := ApiScope(store, actor);
      && s.totalExpenses == |scope|
      && s.pending == |WithStatus(store.expenses, scope, Pending)|
      && s.approved == |WithStatus(store.expenses, scope, Approved)|
      && s.rejected == |WithStatus(store.expenses, scope, Rejected)|
      && s.totalAmount == Total(store.expenses, scope)
      && s.pending + s.approved + s.rejected <= s.totalExpenses
  {
    var scope := ApiScope(store, actor);
    var amount := SumAmounts(store.expenses, scope);
    StatusCountsBounded(store.expenses, scope);
    env := ApiResponse(Some(Summary(|scope|, |WithStatus(store.expenses, scope, Pending)|,
                                    |WithStatus(store.expenses, scope, Approved)|,
                                    |WithStatus(store.expenses, scope, Rejected)|, amount)), None, 200, None);
  }

  // ---------------------------------------------------------------- single expenses

  /** A key of a JSON body: absent, present with the value null, or present with a value. */
  datatype Field<+T> = Absent | Null | Given(value: T)

  /** `data.get(key)`: no value for an absent key and for null alike. */
  function Get<T>(f: Field<T>): (o: Option<T>)
    ensures o.Some? <==> f.Given?
    ensures o.Some? ==> o.value == f.value
  {
    if f.Given? then Some(f.value) else None
  }

  /** `get_expense`: 404 for an unknown id, then 403 when a plain user asks for another's;
      otherwise the expense. */
  function GetExpense(store: Store, actor: Actor, id: nat): (r: Reply)
    ensures id !in store.expenses <==> r == Unhandled
    ensures id in store.expenses && !CanRead(actor, store.expenses[id]) ==>
      r == Reply(Refuse(403, "No tienes permiso para ver este gasto"))
    ensures id in store.expenses && CanRead(actor, store.expenses[id]) ==>
      r == Reply(ApiResponse(Some(ExpenseData(id, store.expenses[id])), None, 200, None))
    ensures r.Reply? && r.env.success ==> r.env.data == Some(ExpenseData(id, store.expenses[id]))
  {
    if id !in store.expenses then Unhandled
    else if !CanRead(actor, store.expenses[id]) then Reply(Refuse(403, "No tienes permiso para ver este gasto"))
    else Reply(ApiResponse(Some(ExpenseData(id, store.expenses[id])), None, 200, None))
  }

  /** The body of `create_expense`. */
  datatype NewExpenseBody = NewExpenseBody(
    amount: Field<Parsed<int>>,
    category: Field<string>,
    reason: Field<string>,
    receiptImage: Field<string>,
    clientId: Field<nat>,
    latitude: Field<Parsed<int>>,
    longitude: Field<Parsed<int>>,
    address: Field<string>,
    expenseDate: Field<Parsed<Date>>)

  /** The first required key absent from the body, in the order the handler checks them; a
      null value counts as present. */
  function MissingField(body: NewExpenseBody): (f: Option<string>)
    ensures f.None? <==> !body.amount.Absent? && !body.category.Absent? && !body.reason.Absent? && !body.receiptImage.Absent?
    ensures f == Some("amount") <==> body.amount.Absent?
    ensures f == Some("category") <==> !body.amount.Absent? && body.category.Absent?
    ensures f == Some("reason") <==> !body.amount.Absent? && !body.category.Absent? && body.reason.Absent?
    ensures f == Some("receipt_image") <==>
      !body.amount.Absent? && !body.category.Absent? && !body.reason.Absent? && body.receiptImage.Absent?
  {
    if body.amount.Absent? then Some("amount")
    else if body.category.Absent? then Some("category")
    else if body.reason.Absent? then Some("reason")
    else if body.receiptImage.Absent? then Some("receipt_image")
    else None
  }

  /** A coordinate the `Numeric` column accepts: absent, null, or a value that converts. */
  predicate Converts(f: Field<Parsed<int>>) {
    !(f.Given? && f.value.Unparsable?)
  }

  /** The coordinate stored for a key that converts (`data.get`): none for absent and null. */
  function Coordinate(f: Field<Parsed<int>>): (o: Option<int>)
    requires Converts(f)
    ensures o.Some? <==> f.Given?
    ensures o.Some? ==> f.value == Parsed(o.value)
  {
    if f.Given? then Some(f.value.value) else None
  }

  /** A body the insert accepts: the amount and any coordinate convert, every NOT NULL column
      gets a value, and a date, when the key is there, converts (`fromisoformat(None)`
      raises). */
  predicate Insertable(body: NewExpenseBody) {
    && body.amount.Given? && body.amount.value.Parsed?
    && body.category.Given? && body.reason.Given? && body.receiptImage.Given?
    && body.clientId.Given?
    && Converts(body.latitude) && Converts(body.longitude)
    && (body.expenseDate.Absent? || (body.expenseDate.Given? && body.expenseDate.value.Parsed?))
  }

  /** `create_expense`: 400 naming the first absent key; then, inside the handler's `try`, a
      failed conversion or a null in a NOT NULL column gives 500 with `failure` as text and
      nothing stored; otherwise a pending expense owned by the caller, dated `today` unless a
      date was sent. */
  function CreateExpense(store: Store, actor: Actor, body: NewExpenseBody, today: Date, now: Time, failure: string)
    : (r: (Store, Envelope<Payload>))
    ensures MissingField(body).Some? ==> r.1 == Refuse(400, "Campo requerido: " + MissingField(body).value)
    ensures MissingField(body).None? && !Insertable(body) ==> r.1 == Refuse(500, failure)
    ensures r.1.status == 201 <==> MissingField(body).None? && Insertable(body)
    ensures r.1.status != 201 ==> r.0 == store
    ensures r.1.status == 201 ==>
      && r.1.success && r.1.data.Some? && r.1.data.value.ExpenseData?
      && var id := r.1.data.value.id;
      && id !in store.expenses
      && r.0 == store.(expenses := store.expenses[id := r.1.data.value.expense])
      && r.1.data.value.expense ==
           Expense(actor.id, body.clientId.value, body.amount.value.value,
                   if body.expenseDate.Given? then body.expenseDate.value.value else today,
                   body.category.value, body.reason.value, body.receiptImage.value,
                   Coordinate(body.latitude), Coordinate(body.longitude), Get(body.address), Pending, now, now, None)
  {
    match MissingField(body)
    case Some(f) => (store, Refuse(400, "Campo requerido: " + f))
    case None =>
      if !Insertable(body) then (store, Refuse(500, failure))
      else
        var date := if body.expenseDate.Given? then body.expenseDate.value.value else today;
        var e := Expense(actor.id, body.clientId.value, body.amount.value.value, date, body.category.value,
                         body.reason.value, body.receiptImage.value, Coordinate(body.latitude), Coordinate(body.longitude),
                         Get(body.address), Pending, now, now, None);
        var id := FreshId(store.expenses);
        (store.(expenses := store.expenses[id := e]),
         ApiResponse(Some(ExpenseData(id, e)), Some("Gasto creado exitosamente"), 201, None))
  }

  /** A created expense is the caller's: it is in their REST scope, they may modify it, and
      reading it back returns it. */
  lemma CreatedIsReadable(store: Store, actor: Actor, body: NewExpenseBody, today: Date, now: Time, failure: string)
    requires CreateExpense(store, actor, body, today, now, failure).1.status == 201
    ensures var (after, env) := CreateExpense(store, actor, body, today, now, failure);
      var id := env.data.value.id;
      && id in ApiScope(after, actor)
      && CanModify(actor, after.expenses[id])
      && GetExpense(after, actor, id) == Reply(ApiResponse(Some(ExpenseData(id, env.data.value.expense)), None, 200, None))
  {
    var (after, env) := CreateExpense(store, actor, body, today, now, failure);
    var id := env.data.value.id;
    assert id in ExpensesOf(after, {actor.id});
  }

  /** The editable keys of `update_expense`. */
  datatype ExpensePatch = ExpensePatch(amount: Field<Parsed<int>>, category: Field<string>, reason: Field<string>, clientId: Field<nat>)

  /** The amount key holds something `float` rejects: null or an unconvertible value. */
  predicate BadAmount(p: ExpensePatch) {
    p.amount.Null? || (p.amount.Given? && p.amount.value.Unparsable?)
  }

  /** A NOT NULL column is set to null. */
  predicate SetsNull(p: ExpensePatch) {
    p.category.Null? || p.reason.Null? || p.clientId.Null?
  }

  /** The expense with the patch applied and its modification time refreshed. */
  function Patched(e: Expense, p: ExpensePatch, now: Time): (u: Expense)
    requires !BadAmount(p) && !SetsNull(p)
    ensures u.(amount := e.amount, category := e.category, reason := e.reason, clientId := e.clientId, updatedAt := e.updatedAt) == e
    ensures u.amount == (if p.amount.Given? then p.amount.value.value else e.amount)
    ensures u.category == (if p.category.Given? then p.category.value else e.category)
    ensures u.reason == (if p.reason.Given? then p.reason.value else e.reason)
    ensures u.clientId == (if p.clientId.Given? then p.clientId.value else e.clientId)
    ensures u.updatedAt == now
  {
    e.(amount := if p.amount.Given? then p.amount.value.value else e.amount,
       category := if p.category.Given? then p.category.value else e.category,
       reason := if p.reason.Given? then p.reason.value else e.reason,
       clientId := if p.clientId.Given? then p.clientId.value else e.clientId,
       updatedAt := now)
  }

  /** `update_expense`: 404, then 403 unless owner or admin, then 400 unless pending; a bad
      amount raises outside the handler's `try`; a null in a NOT NULL column fails the commit
      (500, nothing stored); otherwise only amount, category, reason and client change. */
  function UpdateExpense(store: Store, actor: Actor, id: nat, patch: ExpensePatch, now: Time, failure: string)
    : (r: (Store, Reply))
    ensures id !in store.expenses ==> r.1 == Unhandled && r.0 == store
    ensures id in store.expenses && !CanModify(actor, store.expenses[id]) ==>
      r.1 == Reply(Refuse(403, "No tienes permiso para modificar este gasto"))
    ensures id in store.expenses && CanModify(actor, store.expenses[id]) && store.expenses[id].status != Pending ==>
      r.1 == Reply(Refuse(400, "Solo se pueden editar gastos pendientes"))
    ensures id in store.expenses && CanModify(actor, store.expenses[id]) && store.expenses[id].status == Pending ==>
      && (BadAmount(patch) ==> r.1 == Unhandled)
      && (!BadAmount(patch) && SetsNull(patch) ==> r.1 == Reply(Refuse(500, failure)))
    ensures r.1.Reply? && r.1.env.status == 200 <==>
      && id in store.expenses && CanModify(actor, store.expenses[id]) && store.expenses[id].status == Pending
      && !BadAmount(patch) && !SetsNull(patch)
    ensures !(r.1.Reply? && r.1.env.status == 200) ==> r.0 == store
    ensures r.1.Reply? && r.1.env.status == 200 ==>
      && id in store.expenses && !BadAmount(patch) && !SetsNull(patch)
      && r.0 == store.(expenses := store.expenses[id := Patched(store.expenses[id], patch, now)])
      && r.1.env.data == Some(ExpenseData(id, r.0.expenses[id]))
      && r.0.expenses[id].status == Pending && r.0.expenses[id].userId == store.expenses[id].userId
  {
    if id !in store.expenses then (store, Unhandled)
    else
      var e := store.expenses[id];
      if !CanModify(actor, e) then (store, Reply(Refuse(403, "No tienes permiso para modificar este gasto")))
      else if e.status != Pending then (store, Reply(Refuse(400, "Solo se pueden editar gastos pendientes")))
      else if BadAmount(patch) then (store, Unhandled)
      else if SetsNull(patch) then (store, Reply(Refuse(500, failure)))
      else
        var u := Patched(e, patch, now);
        (store.(expenses := store.expenses[id := u]), Reply(ApiResponse(Some(ExpenseData(id, u)), Some("Gasto actualizado"), 200, None)))
  }

  /** After a successful update, reading the expense back returns the patched record. */
  lemma UpdateThenRead(store: Store, actor: Actor, id: nat, patch: ExpensePatch, now: Time, failure: string)
    requires var r := UpdateExpense(store, actor, id, patch, now, failure); r.1.Reply? && r.1.env.status == 200
    ensures id in store.expenses && !BadAmount(patch) && !SetsNull(patch)
    ensures GetExpense(UpdateExpense(store, actor, id, patch, now, failure).0, actor, id) ==
      Reply(ApiResponse(Some(ExpenseData(id, Patched(store.expenses[id], patch, now))), None, 200, None))
  {
  }

  /** `delete_expense`: 404, then 403 unless owner or admin, then 400 unless pending; otherwise
      the expense is removed and nothing else. */
  function DeleteExpense(store: Store, actor: Actor, id: nat): (r: (Store, Reply))
    ensures id !in store.expenses ==> r.1 == Unhandled
    ensures id in store.expenses && !CanModify(actor, store.expenses[id]) ==>
      r.1 == Reply(Refuse(403, "No tienes permiso para eliminar este gasto"))
    ensures id in store.expenses && CanModify(actor, store.expenses[id]) && store.expenses[id].status != Pending ==>
      r.1 == Reply(Refuse(400, "Solo se pueden eliminar gastos pendientes"))
    ensures r.0 != store ==> id in store.expenses && CanModify(actor, store.expenses[id]) && store.expenses[id].status == Pending
    ensures id in store.expenses && CanModify(actor, store.expenses[id]) && store.expenses[id].status == Pending ==>
      && r.0 == store.(expenses := store.expenses - {id})
      && r.1.Reply? && r.1.env.success && r.1.env.status == 200
  {
    if id !in store.expenses then (store, Unhandled)
    else
      var e := store.expenses[id];
      if !CanModify(actor, e) then (store, Reply(Refuse(403, "No tienes permiso para eliminar este gasto")))
      else if e.status != Pending then (store, Reply(Refuse(400, "Solo se pueden eliminar gastos pendientes")))
      else (store.(expenses := store.expenses - {id}), Reply(ApiResponse(None, Some("Gasto eliminado exitosamente"), 200, None)))
  }

  /** A deleted expense is gone: reading it is a 404, a second delete too, and it has left
      every caller's scope. */
  lemma DeleteThenGone(store: Store, actor: Actor, id: nat, other: Actor)
    requires DeleteExpense(store, actor, id).1.Reply? && DeleteExpense(store, actor, id).1.env.status == 200
    ensures var after := DeleteExpense(store, actor, id).0;
      && GetExpense(after, other, id) == Unhandled
      && DeleteExpense(after, other, id).1 == Unhandled
      && id !in ApiScope(after, other)
  {
  }

  // ---------------------------------------------------------------- approvals

  /** `data.get('comments', '')`: '' for an absent key, `None` for null, the text otherwise. */
  function CommentsOf(comments: Field<string>): (c: Option<string>)
    ensures comments.Absent? ==> c == Some("")
    ensures c.None? <==> comments.Null?
    ensures comments.Given? ==> c == Some(comments.value)
  {
    match comments
    case Absent => Some("")
    case Null => None
    case Given(text) => Some(text)
  }

  /** `approve_expense` / `reject_expense`: 403 unless the role is supervisor or admin, then
      404, then 400 unless pending, then for a rejection 400 unless the comments are truthy; on
      success the decision is recorded with the comments as sent (null stays null).
      Ownership and team membership are not consulted. */
  function ApiDecide(store: Store, actor: Actor, id: nat, d: Decision, comments: Field<string>, now: Time): (r: (Store, Reply))
    ensures !IsSupervisorOrAdmin(actor) ==> r.1.Reply? && r.1.env.status == 403
    ensures IsSupervisorOrAdmin(actor) && id !in store.expenses ==> r.1 == Unhandled
    ensures IsSupervisorOrAdmin(actor) && id in store.expenses && store.expenses[id].status != Pending ==>
      r.1 == Reply(Refuse(400, "Este gasto ya fue procesado"))
    ensures IsSupervisorOrAdmin(actor) && id in store.expenses && store.expenses[id].status == Pending &&
            d == Reject && !Truthy(CommentsOf(comments)) ==>
      r.1 == Reply(Refuse(400, "Debes proporcionar un motivo para rechazar"))
    ensures r.1.Reply? && r.1.env.success <==>
      && IsSupervisorOrAdmin(actor) && id in store.expenses && store.expenses[id].status == Pending
      && (d == Approve || Truthy(CommentsOf(comments)))
    ensures r.1.Reply? && r.1.env.success ==> Recorded(store, r.0, id, actor.id, d, CommentsOf(comments), now)
    ensures !(r.1.Reply? && r.1.env.success) ==> r.0 == store
  {
    if !IsSupervisorOrAdmin(actor) then
      (store, Reply(Refuse(403, if d == Approve then "No tienes permisos para aprobar gastos" else "No tienes permisos para rechazar gastos")))
    else if id !in store.expenses then (store, Unhandled)
    else if store.expenses[id].status != Pending then (store, Reply(Refuse(400, "Este gasto ya fue procesado")))
    else if d == Reject && !Truthy(CommentsOf(comments)) then (store, Reply(Refuse(400, "Debes proporcionar un motivo para rechazar")))
    else
      var after := ApplyDecision(store, id, actor.id, d, CommentsOf(comments), now);
      (after, Reply(ApiResponse(Some(ExpenseData(id, after.expenses[id])),
                                Some(if d == Approve then "Gasto aprobado exitosamente" else "Gasto rechazado"), 200, None)))
  }

  /** An approval with null comments succeeds and records no comment, while a rejection with
      null comments is refused like one without a reason. */
  lemma NullComments(store: Store, actor: Actor, id: nat, now: Time)
    requires IsSupervisorOrAdmin(actor) && id in store.expenses && store.expenses[id].status == Pending
    ensures var r := ApiDecide(store, actor, id, Approve, Null, now);
      r.1.Reply? && r.1.env.success && r.0.approvals[|r.0.approvals| - 1].comments.None?
    ensures ApiDecide(store, actor, id, Reject, Null, now) ==
      (store, Reply(Refuse(400, "Debes proporcionar un motivo para rechazar")))
  {
  }

  /** The API accepts every decision the web handlers accept, with the same effect, when the
      form's comments are sent as the JSON body's. */
  lemma {:induction false} WebDecisionImpliesApi(store: Store, actor: Actor, id: nat, d: Decision, comments: string, now: Time)
    requires id in store.expenses && CanApproveExpense(store, actor, store.expenses[id])
    requires store.expenses[id].status == Pending && (d == Approve || comments != "")
    ensures var r := ApiDecide(store, actor, id, d, Given(comments), now);
      r.1.Reply? && r.1.env.success && Recorded(store, r.0, id, actor.id, d, Some(comments), now)
  {
    assert IsSupervisorOrAdmin(actor);
  }

  /** The converse fails: through the API an admin approves their own expense, which
      `can_approve_expense` forbids. */
  lemma SelfApprovalThroughApi()
    ensures var e := Expense(1, 0, 5, Date(2024, 1, 1), "Transporte", "taxi", "r.png", None, None, None, Pending, 0, 0, None);
      var store := Store(map[], map[], map[], map[], map[3 := e], []);
      var admin := Actor(1, ROLE_ADMIN);
      !CanApproveExpense(store, admin, e) &&
      ApiDecide(store, admin, 3, Approve, Absent, 9).1.Reply? && ApiDecide(store, admin, 3, Approve, Absent, 9).1.env.success
  {
  }

  // ---------------------------------------------------------------- users

  /** `get_user`: 403 unless admin or oneself, checked before the lookup. */
  function GetUser(store: Store, actor: Actor, uid: nat): (r: Reply)
    ensures !IsAdmin(actor) && actor.id != uid ==> r == Reply(Refuse(403, "Acceso denegado"))
    ensures (IsAdmin(actor) || actor.id == uid) && uid !in store.users ==> r == Unhandled
    ensures r.Reply? && r.env.success ==> uid in store.users && r.env.data == Some(UserData(uid, store.users[uid]))
    ensures (IsAdmin(actor) || actor.id == uid) && uid in store.users ==> r.Reply? && r.env.success
  {
    if !IsAdmin(actor) && actor.id != uid then Reply(Refuse(403, "Acceso denegado"))
    else if uid !in store.users then Unhandled
    else Reply(ApiResponse(Some(UserData(uid, store.users[uid])), None, 200, None))
  }

  /** The body of `create_user`. */
  datatype NewUserBody = NewUserBody(email: Field<string>, firstName: Field<string>, lastName: Field<string>,
                                     password: Field<string>, role: Field<string>, areaId: Field<nat>, supervisorId: Field<nat>)

  /** The first required key absent from the body, in the order the handler checks them; a
      null value counts as present. */
  function MissingUserField(body: NewUserBody): (f: Option<string>)
    ensures f.None? <==>
      !body.email.Absent? && !body.firstName.Absent? && !body.lastName.Absent? && !body.password.Absent? && !body.role.Absent?
    ensures f == Some("email") <==> body.email.Absent?
    ensures f == Some("first_name") <==> !body.email.Absent? && body.firstName.Absent?
    ensures f == Some("last_name") <==> !body.email.Absent? && !body.firstName.Absent? && body.lastName.Absent?
    ensures f == Some("password") <==>
      !body.email.Absent? && !body.firstName.Absent? && !body.lastName.Absent? && body.password.Absent?
    ensures f == Some("role") <==>
      !body.email.Absent? && !body.firstName.Absent? && !body.lastName.Absent? && !body.password.Absent? && body.role.Absent?
  {
    if body.email.Absent? then Some("email")
    else if body.firstName.Absent? then Some("first_name")
    else if body.lastName.Absent? then Some("last_name")
    else if body.password.Absent? then Some("password")
    else if body.role.Absent? then Some("role")
    else None
  }

  /** Whether a user with this e-mail is stored; a null e-mail matches no row, since the column
      is NOT NULL. */
  predicate ApiEmailTaken(users: map<nat, User>, email: Field<string>) {
    email.Given? && exists u :: u in users && users[u].email == email.value
  }

  /** The insert accepts the user: hashing a null password raises, and a null e-mail or name
      violates a NOT NULL column. A null role is stored as the column default. */
  predicate UserInsertable(body: NewUserBody) {
    body.email.Given? && body.firstName.Given? && body.lastName.Given? && body.password.Given?
  }

  /** `create_user`: 403 for non-admins, 400 naming the first absent key, 400 for a registered
      e-mail; then, inside the handler's `try`, 500 with `failure` as text when the insert
      fails; otherwise the user is stored with the given role (any text, 'user' for null) and
      a password that checks. */
  function CreateUser(store: Store, actor: Actor, body: NewUserBody, now: Time, failure: string): (r: (Store, Envelope<Payload>))
    ensures !IsAdmin(actor) ==> r.1 == Refuse(403, "Acceso denegado")
    ensures IsAdmin(actor) && MissingUserField(body).Some? ==> r.1 == Refuse(400, "Campo requerido: " + MissingUserField(body).value)
    ensures IsAdmin(actor) && MissingUserField(body).None? && ApiEmailTaken(store.users, body.email) ==>
      r.1 == Refuse(400, "El email ya está registrado")
    ensures IsAdmin(actor) && MissingUserField(body).None? && !ApiEmailTaken(store.users, body.email) && !UserInsertable(body) ==>
      r.1 == Refuse(500, failure)
    ensures r.1.status == 201 <==>
      IsAdmin(actor) && MissingUserField(body).None? && !ApiEmailTaken(store.users, body.email) && UserInsertable(body)
    ensures r.1.status != 201 ==> r.0 == store
    ensures r.1.status == 201 ==>
      && r.1.success && r.1.data.Some? && r.1.data.value.UserData?
      && var uid := r.1.data.value.uid;
      && var user := r.1.data.value.user;
      && uid !in store.users
      && r.0 == store.(users := store.users[uid := user])
      && user.email == body.email.value && user.firstName == body.firstName.value && user.lastName == body.lastName.value
      && user.role == (if body.role.Given? then body.role.value else ROLE_USER)
      && user.areaId == Get(body.areaId) && user.supervisorId == Get(body.supervisorId)
      && user.CheckPassword(body.password.value) && (forall q :: user.CheckPassword(q) ==> q == body.password.value)
      && user.isActive && user.createdAt == now && user.lastLogin.None?
  {
    if !IsAdmin(actor) then (store, Refuse(403, "Acceso denegado"))
    else match MissingUserField(body)
      case Some(f) => (store, Refuse(400, "Campo requerido: " + f))
      case None =>
        if ApiEmailTaken(store.users, body.email) then (store, Refuse(400, "El email ya está registrado"))
        else if !UserInsertable(body) then (store, Refuse(500, failure))
        else
          var user := NewUser(body.email.value, body.firstName.value, body.lastName.value, Get(body.role),
                              Get(body.areaId), Get(body.supervisorId), now).SetPassword(body.password.value);
          var uid := FreshId(store.users);
          (store.(users := store.users[uid := user]), ApiResponse(Some(UserData(uid, user)), Some("Usuario creado exitosamente"), 201, None))
  }

  /** A null role is accepted as present and stored as 'user'. */
  lemma NullRoleStoredAsUser(store: Store, actor: Actor, body: NewUserBody, now: Time, failure: string)
    requires IsAdmin(actor) && UserInsertable(body) && body.role.Null? && !ApiEmailTaken(store.users, body.email)
    ensures var r := CreateUser(store, actor, body, now, failure);
      r.1.status == 201 && r.1.data.value.user.role == ROLE_USER
  {
  }

  /** A created user can be read back by the admin who created it and by the new user. */
  lemma CreatedUserReadable(store: Store, actor: Actor, body: NewUserBody, now: Time, failure: string, reader: Actor)
    requires CreateUser(store, actor, body, now, failure).1.status == 201
    requires var uid := CreateUser(store, actor, body, now, failure).1.data.value.uid;
      IsAdmin(reader) || reader.id == uid
    ensures var (after, env) := CreateUser(store, actor, body, now, failure);
      GetUser(after, reader, env.data.value.uid) == Reply(ApiResponse(Some(UserData(env.data.value.uid, env.data.value.user)), None, 200, None))
  {
  }

  /** User creation through the API keeps e-mails unique. */
  lemma CreateUserKeepsEmailsUnique(store: Store, actor: Actor, body: NewUserBody, now: Time, failure: string)
    requires EmailsUnique(store.users)
    ensures EmailsUnique(CreateUser(store, actor, body, now, failure).0.users)
  {
  }
}
