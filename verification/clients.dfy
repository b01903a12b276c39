/** Client registration by any logged-in user: the RUT is validated and stored formatted, the
    contact e-mail is checked when given, and the client waits, disabled, for an admin. */
module Clients {
  import opened Wrappers
  import opened Strings
  import opened Models
  import opened Validators

  datatype RegisterOutcome =
    | InvalidRut(rutError: RutError)
    | InvalidEmail(emailError: EmailError)
    | AlreadyExists
    | MissingName       // the NOT NULL name column refuses the insert
    | Registered(id: nat)

  /** Whether a client with this exact (formatted) RUT is stored. */
  predicate RutTaken(companies: map<nat, Company>, rut: string) {
    exists c :: c in companies && companies[c].rut == rut
  }

  /** `new` on POST: validate the RUT, format it, validate the e-mail only when one was typed,
      refuse a RUT already registered, then store a pending, disabled client created by the
      caller; a missing name fails the insert. Every refusal stores nothing, and when every
      check passes the client is stored. */
  function RegisterClient(store: Store, actorId: nat, rut: Option<string>, name: Option<string>,
                          contactEmail: Option<string>, now: Time): (r: (Store, RegisterOutcome))
    ensures r.1.InvalidRut? <==> ValidateRut(rut).Fail?
    ensures ValidateRut(rut).Fail? ==> r.1 == InvalidRut(ValidateRut(rut).error)
    ensures r.1.InvalidEmail? <==> ValidateRut(rut).Pass? && Truthy(contactEmail) && ValidateEmail(contactEmail).Fail?
    ensures r.1.InvalidEmail? ==> ValidateEmail(contactEmail) == Fail(r.1.emailError)
    ensures r.1 == AlreadyExists <==>
      ValidateRut(rut).Pass? && (!Truthy(contactEmail) || ValidateEmail(contactEmail).Pass?) &&
      RutTaken(store.companies, FormatRut(rut))
    ensures r.1 == MissingName <==>
      ValidateRut(rut).Pass? && (!Truthy(contactEmail) || ValidateEmail(contactEmail).Pass?) &&
      !RutTaken(store.companies, FormatRut(rut)) && name.None?
    ensures r.1.Registered? <==>
      ValidateRut(rut).Pass? && (!Truthy(contactEmail) || ValidateEmail(contactEmail).Pass?) &&
      !RutTaken(store.companies, FormatRut(rut)) && name.Some?
    ensures !r.1.Registered? ==> r.0 == store
    ensures r.1.Registered? ==>
      && name.Some?
      && r.1.id !in store.companies
      && r.0 == store.(companies := store.companies[r.1.id :=
           Company(FormatRut(rut), name.value, contactEmail, ClientPending, Some(actorId), false, now)])
  {
    match ValidateRut(rut)
    case Fail(e) => (store, InvalidRut(e))
    case Pass =>
      var formatted := FormatRut(rut);
      if Truthy(contactEmail) && ValidateEmail(contactEmail).Fail? then (store, InvalidEmail(ValidateEmail(contactEmail).error))
      else if RutTaken(store.companies, formatted) then (store, AlreadyExists)
      else if name.None? then (store, MissingName)
      else
        var id := FreshId(store.companies);
        (store.(companies := store.companies[id := Company(formatted, name.value, contactEmail, ClientPending, Some(actorId), false, now)]),
         Registered(id))
  }

  /** Registration keeps RUTs unique, because the duplicate check looks at the very value that
      gets stored. */
  lemma RegisterKeepsRutsUnique(store: Store, actorId: nat, rut: Option<string>, name: Option<string>,
                                contactEmail: Option<string>, now: Time)
    requires RutsUnique(store.companies)
    ensures RutsUnique(RegisterClient(store, actorId, rut, name, contactEmail, now).0.companies)
  {
  }

  /** The stored RUT is in canonical form: it validates, and formatting it again changes
      nothing, so the same client typed with or without dots is found as a duplicate. */
  lemma {:induction false} StoredRutCanonical(store: Store, actorId: nat, rut: Option<string>, name: Option<string>,
                                              contactEmail: Option<string>, now: Time)
    ensures var r := RegisterClient(store, actorId, rut, name, contactEmail, now);
      r.1.Registered? ==>
        var stored := r.0.companies[r.1.id].rut;
        ValidateRut(Some(stored)).Pass? && FormatRut(Some(stored)) == stored
  {
    FormatRutPreservesValidity(rut);
    FormatRutIdempotent(rut);
  }

  /** Two spellings of one RUT collide: once one is registered, the other is refused. */
  lemma {:induction false} SpellingsCollide(store: Store, actorId: nat, rut1: Option<string>, rut2: Option<string>,
                                            name: Option<string>, contactEmail: Option<string>, now: Time, name2: Option<string>,
                                            contactEmail2: Option<string>, later: Time)
    requires FormatRut(rut1) == FormatRut(rut2)
    requires RegisterClient(store, actorId, rut1, name, contactEmail, now).1.Registered?
    requires ValidateRut(rut2).Pass? && (!Truthy(contactEmail2) || ValidateEmail(contactEmail2).Pass?)
    ensures var s1 := RegisterClient(store, actorId, rut1, name, contactEmail, now).0;
      RegisterClient(s1, actorId, rut2, name2, contactEmail2, later).1 == AlreadyExists
  {
    var r := RegisterClient(store, actorId, rut1, name, contactEmail, now);
    assert r.0.companies[r.1.id].rut == FormatRut(rut2);
  }
}
