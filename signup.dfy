/** The signup route: an ordered chain of checks on the request body, each with its own
    response, and on success one new user and one audit entry. */
module Signup {
  import opened Wrappers
  import opened Text
  import opened Permissions
  import opened Gate
  import opened Store
  import opened Pin

  const MissingFieldsMessage := "All fields are required"
  const BadIdentifierMessage := "Identifier must be 2-30 characters (letters, numbers, dots, hyphens, underscores)"
  const BadNameMessage := "Name must be 2-100 characters"
  const PinMismatchMessage := "PINs do not match"
  const TakenMessage := "This identifier is already in use"
  const UnexpectedMessage := "An unexpected error occurred"
  const SignupAction := "auth.signup"

  /** The four string fields of the JSON body; `None` is an absent or null field. */
  datatype Body = Body(identifier: Option<string>, name: Option<string>, pin: Option<string>, confirmPin: Option<string>)

  /** The JSON response: an error text, or the created identifier. */
  datatype Response = Response(status: nat, error: Option<string>, identifier: Option<string>)

  /** Why a body is refused, one constructor per check. */
  datatype Refusal = MissingFields | BadIdentifier | BadName | BadPin | PinMismatch | IdentifierTaken

  /** The response each refusal produces. */
  function Refuse(f: Refusal): (r: Response)
    ensures r.status == (if f == IdentifierTaken then 409 else 400)
    ensures r.error.Some? && r.identifier == None
  {
    match f
    case MissingFields => Response(400, Some(MissingFieldsMessage), None)
    case BadIdentifier => Response(400, Some(BadIdentifierMessage), None)
    case BadName => Response(400, Some(BadNameMessage), None)
    case BadPin => Response(400, Some(InvalidPinMessage), None)
    case PinMismatch => Response(400, Some(PinMismatchMessage), None)
    case IdentifierTaken => Response(409, Some(TakenMessage), None)
  }

  /** What `identifier.trim().toLowerCase()` stores. */
  function CleanIdentifier(identifier: string): string {
    Lower(Trim(identifier))
  }

  /** `findUnique({ where: { identifier } })` finds a row. */
  predicate Taken(users: map<Id, User>, identifier: string) {
    exists id :: id in users && users[id].identifier == identifier
  }

  /** No two users share an identifier, as the column's uniqueness guarantees. */
  predicate UniqueIdentifiers(users: map<Id, User>) {
    forall a, b :: a in users && b in users && users[a].identifier == users[b].identifier ==> a == b
  }

  /** The first failing check on the body alone, in the route's order. */
  function FormRefusal(body: Body): (r: Option<Refusal>)
    ensures r != Some(IdentifierTaken)
  {
    if !Truthy(body.identifier) || !Truthy(body.name) || !Truthy(body.pin) || !Truthy(body.confirmPin) then
      Some(MissingFields)
    else if !ValidateIdentifier(CleanIdentifier(body.identifier.value)) then Some(BadIdentifier)
    else if !(2 <= Utf16Length(Trim(body.name.value)) <= 100) then Some(BadName)
    else if !ValidatePin(body.pin.value) then Some(BadPin)
    else if body.pin.value != body.confirmPin.value then Some(PinMismatch)
    else None
  }

  /** The first failing check, the table lookup last, or `None` when every check passes. */
  function Rejection(body: Body, users: map<Id, User>): (r: Option<Refusal>)
    ensures r != Some(IdentifierTaken) ==> r == FormRefusal(body)
    ensures r == Some(IdentifierTaken) <==>
      FormRefusal(body).None? && Taken(users, CleanIdentifier(body.identifier.value))
  {
    var form := FormRefusal(body);
    if form.Some? then form
    else if Taken(users, CleanIdentifier(body.identifier.value)) then Some(IdentifierTaken)
    else None
  }

  /** A body passes every check exactly when all fields are present, the cleaned identifier and
      the trimmed name have valid form, both PINs are the same valid PIN and the identifier is free. */
  lemma AcceptedIff(body: Body, users: map<Id, User>)
    ensures Rejection(body, users).None? <==>
      && Truthy(body.identifier) && Truthy(body.name) && Truthy(body.pin) && Truthy(body.confirmPin)
      && ValidateIdentifier(CleanIdentifier(body.identifier.value))
      && 2 <= Utf16Length(Trim(body.name.value)) <= 100
      && ValidatePin(body.pin.value) && body.pin == body.confirmPin
      && !Taken(users, CleanIdentifier(body.identifier.value))
  {
  }

  /** Each check fires only when every earlier one passed. */
  lemma ChecksInOrder(body: Body)
    ensures FormRefusal(body) != Some(MissingFields) ==>
      Truthy(body.identifier) && Truthy(body.name) && Truthy(body.pin) && Truthy(body.confirmPin)
    ensures FormRefusal(body) in {Some(BadName), Some(BadPin), Some(PinMismatch), None} ==>
      ValidateIdentifier(CleanIdentifier(body.identifier.value))
    ensures FormRefusal(body) in {Some(BadPin), Some(PinMismatch), None} ==> 2 <= Utf16Length(Trim(body.name.value)) <= 100
    ensures FormRefusal(body) in {Some(PinMismatch), None} ==> ValidatePin(body.pin.value)
  {
  }

  /** A one-character name whose character lies beyond U+FFFF is two code units long, so it
      passes the length check that counts code units, as JavaScript's `length` does. */
  lemma EmojiNameLength()
    ensures 2 <= Utf16Length(Trim("\U{1F600}")) <= 100
  {
    assert Trim("\U{1F600}") == "\U{1F600}" by {
      assert !IsSpace('\U{1F600}');
    }
    EmojiLength();
  }

  /** `POST /api/auth/signup`. `body` is `None` when the request is not JSON; the new user takes
      `defaultRole`, the role column's default. */
  method Post(db: Db, body: Option<Body>, defaultRole: Role) returns (r: Response)
    requires db.Valid()
    modifies db.users, db.audit
    ensures db.Valid()
    ensures body.None? ==> r == Response(500, Some(UnexpectedMessage), None) && unchanged(db.users, db.audit)
    ensures (body.Some? && Rejection(body.value, old(db.users.rows)).Some?) ==>
      r == Refuse(Rejection(body.value, old(db.users.rows)).value) && unchanged(db.users, db.audit)
    ensures (body.Some? && Rejection(body.value, old(db.users.rows)).None?) ==>
      var cleanId := CleanIdentifier(body.value.identifier.value);
      var id := old(db.users.nextId);
      && r == Response(201, None, Some(cleanId))
      && db.users.rows == old(db.users.rows)[id :=
           User(cleanId, Trim(body.value.name.value), HashOf(body.value.pin.value), defaultRole)]
      && db.audit.entries == old(db.audit.entries) + [AuditEntry(id, SignupAction, "User", RowRef(id), None,
           Some(map["identifier" := Text(cleanId), "role" := Text(defaultRole.Name())]), None, None)]
  {
    if body.None? {
      return Response(500, Some(UnexpectedMessage), None);
    }
    var b := body.value;
    var rejection := Rejection(b, db.users.rows);
    if rejection.Some? {
      return Refuse(rejection.value);
    }
    var cleanId := CleanIdentifier(b.identifier.value);
    var hash := HashPin(b.pin.value);
    var id := db.InsertUser(User(cleanId, Trim(b.name.value), hash.value, defaultRole));
    db.audit.Append(AuditEntry(id, SignupAction, "User", RowRef(id), None,
      Some(map["identifier" := Text(cleanId), "role" := Text(defaultRole.Name())]), None, None));
    return Response(201, None, Some(cleanId));
  }

  /** Signup keeps identifiers unique. */
  lemma SignupKeepsIdentifiersUnique(users: map<Id, User>, body: Body, id: Id, defaultRole: Role)
    requires UniqueIdentifiers(users) && id !in users && Rejection(body, users).None?
    ensures UniqueIdentifiers(users[id := User(CleanIdentifier(body.identifier.value), Trim(body.name.value),
      HashOf(body.pin.value), defaultRole)])
  {
  }

  /** Once a signup has gone through, the same body is refused with 409, and so is any body whose
      identifier differs only in case or surrounding spaces. */
  lemma SecondSignupConflicts(users: map<Id, User>, body: Body, again: Body, id: Id, defaultRole: Role)
    requires Rejection(body, users).None?
    requires FormRefusal(again).None?
    requires CleanIdentifier(again.identifier.value) == CleanIdentifier(body.identifier.value)
    ensures var after := users[id := User(CleanIdentifier(body.identifier.value), Trim(body.name.value),
      HashOf(body.pin.value), defaultRole)];
      Rejection(again, after) == Some(IdentifierTaken)
  {
    var after := users[id := User(CleanIdentifier(body.identifier.value), Trim(body.name.value),
      HashOf(body.pin.value), defaultRole)];
    assert after[id].identifier == CleanIdentifier(again.identifier.value);
  }

  /** A stored identifier is always in its cleaned form: lower case, 2 to 30 characters, no
      surrounding spaces. */
  lemma StoredIdentifierIsClean(body: Body)
    requires FormRefusal(body).None?
    ensures var c := CleanIdentifier(body.identifier.value);
      Lower(c) == c && Trim(c) == c && 2 <= |c| <= 30
  {
    ChecksInOrder(body);
    CleanIdentifierIsFixed(body.identifier.value);
  }

  lemma CleanIdentifierIsFixed(raw: string)
    requires ValidateIdentifier(CleanIdentifier(raw))
    ensures var c := CleanIdentifier(raw);
      Lower(c) == c && Trim(c) == c
  {
    LowerIdempotent(Trim(raw));
    IdentifierHasNoSpaces(CleanIdentifier(raw));
  }

  lemma IdentifierHasNoSpaces(c: string)
    requires ValidateIdentifier(c)
    ensures Trim(c) == c
  {
    forall i | 0 <= i < |c| ensures !IsSpace(c[i]) {
      assert IdentifierChar(c[i]);
    }
    TrimWithoutSpaces(c);
  }

  lemma LowerIdempotent(s: string)
    ensures Lower(Lower(s)) == Lower(s)
  {
    var l := Lower(s);
    assert forall i :: 0 <= i < |l| ==> LowerChar(l[i]) == l[i];
  }

  /** A string with no space in it is its own trim. */
  lemma TrimWithoutSpaces(s: string)
    requires forall i :: 0 <= i < |s| ==> !IsSpace(s[i])
    ensures Trim(s) == s
  {
    var r := Trim(s);
    assert LeadingSpaces(s) == 0;
  }
}
