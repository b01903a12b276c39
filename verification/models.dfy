/** The persisted records (users, areas, clients, categories, expenses, approvals) and the
    in-memory store that stands for the database: one map from id to record per table. */
module Models {
  import opened Wrappers
  import Strings
  import Ocr

  /** Abstract timestamps: a larger value is later. */
  type Time = nat

  const ROLE_USER := "user"
  const ROLE_SUPERVISOR := "supervisor"
  const ROLE_ADMIN := "admin"

  /** A stored password hash. `Digest(p)` stands for the hash of `p`; hashing is abstract
      and distinct passwords have distinct digests. */
  datatype Credential = Digest(secret: string)

  /** A user account. `role` is free text: the handlers that create users store whatever
      role string they are given. `supervisorId` is a self-reference with no cycle check. */
  datatype User = User(
    email: string,
    passwordHash: Option<Credential>,
    firstName: string,
    lastName: string,
    role: string,
    areaId: Option<nat>,
    supervisorId: Option<nat>,
    isActive: bool,
    createdAt: Time,
    lastLogin: Option<Time>)
  {
    function FullName(): (r: string)
      ensures |r| == |firstName| + 1 + |lastName|
      ensures r[..|firstName|] == firstName && r[|firstName|] == ' ' && r[|firstName| + 1..] == lastName
    {
      firstName + " " + lastName
    }

    /** `set_password`: afterwards exactly `p` passes `CheckPassword`. */
    function SetPassword(p: string): (u: User)
      ensures u.CheckPassword(p)
      ensures forall q :: u.CheckPassword(q) ==> q == p
      ensures u.(passwordHash := passwordHash) == this
    {
      this.(passwordHash := Some(Digest(p)))
    }

    predicate CheckPassword(p: string) {
      passwordHash == Some(Digest(p))
    }
  }

  /** `check_password` after `set_password(p)` accepts `p` and nothing else, whatever the
      account held before; no other column changes. */
  lemma PasswordCheck(u: User, p: string, q: string)
    ensures u.SetPassword(p).CheckPassword(q) <==> q == p
    ensures u.SetPassword(p).email == u.email && u.SetPassword(p).role == u.role
  {
  }

  /** When the first name has no space, the full name's first space separates the two names
      again. */
  lemma FullNameSplits(u: User)
    requires ' ' !in u.firstName
    ensures Strings.IndexOf(u.FullName(), ' ') == Some(|u.firstName|)
    ensures u.FullName()[|u.firstName| + 1..] == u.lastName
  {
    var f := u.FullName();
    assert f[..|u.firstName|] == u.firstName;
  }

  /** A user as the ORM builds it: role 'user' unless given, active, no password yet. */
  function NewUser(email: string, firstName: string, lastName: string, role: Option<string>,
                   areaId: Option<nat>, supervisorId: Option<nat>, now: Time): (u: User)
    ensures u.role == (if role.Some? then role.value else ROLE_USER)
    ensures u.isActive && u.passwordHash.None? && u.lastLogin.None?
    ensures u.email == email && u.areaId == areaId && u.supervisorId == supervisorId
  {
    User(email, None, firstName, lastName, if role.Some? then role.value else ROLE_USER,
         areaId, supervisorId, true, now, None)
  }

  datatype Area = Area(name: string, budgetMonthly: Option<int>, isActive: bool, createdAt: Time)

  datatype ClientStatus = ClientPending | ClientActive | ClientRejected

  /** A client company, identified by its formatted RUT. */
  datatype Company = Company(
    rut: string,
    name: string,
    contactEmail: Option<string>,
    status: ClientStatus,
    createdBy: Option<nat>,
    isActive: bool,
    createdAt: Time)

  /** A client as the ORM builds it when no status is given: active and enabled. */
  function NewCompany(rut: string, name: string, contactEmail: Option<string>, createdBy: Option<nat>, now: Time): (c: Company)
    ensures c.status == ClientActive && c.isActive
    ensures c.rut == rut && c.createdBy == createdBy
  {
    Company(rut, name, contactEmail, ClientActive, createdBy, true, now)
  }

  datatype ExpenseCategory = ExpenseCategory(name: string, requiresClient: bool, maxAmount: Option<int>, isActive: bool)

  /** A category as the ORM builds it: no client required, active. */
  function NewCategory(name: string, maxAmount: Option<int>): (c: ExpenseCategory)
    ensures !c.requiresClient && c.isActive && c.name == name && c.maxAmount == maxAmount
  {
    ExpenseCategory(name, false, maxAmount, true)
  }

  datatype ExpenseStatus = Pending | Approved | Rejected | Reimbursed

  /** The text stored in the status column. */
  function StatusName(s: ExpenseStatus): string {
    match s
    case Pending => "pending"
    case Approved => "approved"
    case Rejected => "rejected"
    case Reimbursed => "reimbursed"
  }

  /** Distinct statuses are stored as distinct texts, so filtering by a status text selects
      exactly one status. */
  lemma StatusNameInjective(a: ExpenseStatus, b: ExpenseStatus)
    ensures StatusName(a) == StatusName(b) <==> a == b
  {
  }

  datatype Date = Date(year: int, month: int, day: int)

  /** An expense claim. Amounts and coordinates are fixed-point numbers (the `Numeric`
      columns) kept abstract as integers. */
  datatype Expense = Expense(
    userId: nat,
    clientId: nat,
    amount: int,
    expenseDate: Date,
    category: string,
    reason: string,
    receiptImage: string,
    latitude: Option<int>,
    longitude: Option<int>,
    address: Option<string>,
    status: ExpenseStatus,
    createdAt: Time,
    updatedAt: Time,
    ocrData: Option<Ocr.OcrResult>)

  /** The action recorded by an approval row. */
  datatype Decision = Approve | Reject

  /** The expense status a decision leads to. */
  function DecisionStatus(d: Decision): (s: ExpenseStatus)
    ensures s == Approved || s == Rejected
    ensures s != Pending
  {
    match d
    case Approve => Approved
    case Reject => Rejected
  }

  /** The sort key of `order_by(Expense.created_at.desc())`. */
  function CreationKeys(expenses: map<nat, Expense>): (key: map<nat, int>)
    ensures key.Keys == expenses.Keys
    ensures forall id :: id in key ==> key[id] == expenses[id].createdAt
  {
    map id | id in expenses :: expenses[id].createdAt as int
  }

  /** One row of the audit trail of decisions. */
  datatype Approval = Approval(expenseId: nat, approverId: nat, action: Decision, comments: Option<string>, createdAt: Time)

  /** The database: one map per table, plus the approvals in insertion order. */
  datatype Store = Store(
    users: map<nat, User>,
    areas: map<nat, Area>,
    companies: map<nat, Company>,
    categories: map<nat, ExpenseCategory>,
    expenses: map<nat, Expense>,
    approvals: seq<Approval>)

  /** The unique index on users.email. */
  ghost predicate EmailsUnique(users: map<nat, User>) {
    forall a, b :: a in users && b in users && a != b ==> users[a].email != users[b].email
  }

  /** The unique index on clients.rut. */
  ghost predicate RutsUnique(companies: map<nat, Company>) {
    forall a, b :: a in companies && b in companies && a != b ==> companies[a].rut != companies[b].rut
  }

  /** A store in which every id from 0 up to `n` is taken has at least `n` rows. */
  lemma {:induction false} TakenPrefixBound(keys: set<nat>, n: nat)
    requires forall j :: 0 <= j < n ==> j in keys
    ensures n <= |keys|
  {
    if n > 0 {
      TakenPrefixBound(keys - {n - 1}, n - 1);
    }
  }

  /** The least id not in `keys` that is at least `k`, given all ids below `k` are taken. */
  function FreshFrom(keys: set<nat>, k: nat): (id: nat)
    requires forall j :: 0 <= j < k ==> j in keys
    ensures id !in keys && k <= id
    ensures forall j :: 0 <= j < id ==> j in keys
    decreases |keys| - k
  {
    if k !in keys then k
    else
      TakenPrefixBound(keys, k + 1);
      FreshFrom(keys, k + 1)
  }

  /** A fresh id for a new row. Which id the database picks is not modelled (SQLite uses one
      past the largest in use); the handlers rely only on its being unused. The model takes
      the least unused one. */
  function FreshId<V>(m: map<nat, V>): (id: nat)
    ensures id !in m
    ensures forall j :: 0 <= j < id ==> j in m
  {
    FreshFrom(m.Keys, 0)
  }
}
