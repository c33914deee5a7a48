/**
 * Owner signup (`POST /owner`): an early-exit chain of checks over the
 * request body and the owner collection, then the insertion of one owner
 * whose password has been replaced by its hash.
 */
module OwnerSignup {
  import opened Wrappers
  import opened Store
  import opened Owners

  /** How the check chain ends: a thrown TypeError, a rejection message, or a pass to the insertion. */
  datatype SignupCheck = SignupFault | SignupReject(msg: Message) | SignupPass

  /** What the handler did: the pages it rendered, in order, and whether it ended in a thrown error. */
  datatype SignupOutcome = SignupOutcome(renders: seq<Message>, faulted: bool)

  /** Some of the five fields is falsy: "Please enter all fields" is rendered, but the handler carries on. */
  predicate MissingField(b: OwnerBody)
  {
    !Truthy(b.email) || !Truthy(b.password) || !Truthy(b.name) || !Truthy(b.phone) || !Truthy(b.userName)
  }

  /** The notice rendered before the checks run. */
  function Notice(b: OwnerBody): (r: seq<Message>)
    ensures r == [] || r == [PleaseEnterAllFields]
    ensures r != [] <==> MissingField(b)
  {
    if MissingField(b) then [PleaseEnterAllFields] else []
  }

  /**
   * The checks after the notice, in source order: password length, phone
   * length, user-name length, email in use, user name in use. Reading the
   * length of an absent password, phone or user name throws.
   */
  function SignupChecks(owners: seq<Owner>, b: OwnerBody): (r: SignupCheck)
    ensures r == SignupPass <==>
      && b.password.Some? && |b.password.value| >= MinPasswordLength
      && b.phone.Some? && |b.phone.value| == PhoneLength
      && b.userName.Some? && |b.userName.value| >= MinUserNameLength
      && !EmailTaken(owners, b.email)
      && !UserNameTaken(owners, b.userName)
    ensures r == SignupReject(PasswordTooShort) <==> b.password.Some? && |b.password.value| < MinPasswordLength
    ensures r == SignupFault <==>
      || b.password.None?
      || (|b.password.value| >= MinPasswordLength && b.phone.None?)
      || (|b.password.value| >= MinPasswordLength && |b.phone.value| == PhoneLength && b.userName.None?)
    ensures r.SignupReject? ==>
      r.msg in {PasswordTooShort, PhoneWrongLength, UserNameTooShort, UserAlreadyExists, UserNameAlreadyExists}
  {
    if b.password.None? then SignupFault
    else if |b.password.value| < MinPasswordLength then SignupReject(PasswordTooShort)
    else if b.phone.None? then SignupFault
    else if |b.phone.value| != PhoneLength then SignupReject(PhoneWrongLength)
    else if b.userName.None? then SignupFault
    else if |b.userName.value| < MinUserNameLength then SignupReject(UserNameTooShort)
    else if EmailTaken(owners, b.email) then SignupReject(UserAlreadyExists)
    else if UserNameTaken(owners, b.userName) then SignupReject(UserNameAlreadyExists)
    else SignupPass
  }

  /** The document `new Owner(req.body)` saves once the password field holds the hash. */
  function StoredOwner(id: Id, b: OwnerBody, hash: string -> string): (o: Owner)
    requires b.password.Some?
    ensures o.password == Some(hash(b.password.value))
    ensures o.id == id && o.email == b.email && o.name == b.name && o.phone == b.phone && o.userName == b.userName
  {
    Owner(id, b.email, Some(hash(b.password.value)), b.name, b.phone, b.userName)
  }

  /** The save succeeds when the database accepts it and the new `_id` is not already in use. */
  predicate SaveSucceeds(owners: seq<Owner>, newId: Id, saveOk: bool)
  {
    saveOk && !IdTaken(owners, newId)
  }

  /** A phone of any length other than ten is rejected, whatever the later fields hold. */
  lemma PhoneMustBeTenLong(owners: seq<Owner>, b: OwnerBody)
    requires b.password.Some? && |b.password.value| >= MinPasswordLength
    requires b.phone.Some? && |b.phone.value| != PhoneLength
    ensures SignupChecks(owners, b) == SignupReject(PhoneWrongLength)
  {
  }

  /** A short user name is rejected once password and phone pass, before any lookup. */
  lemma ShortUserNameRejectedBeforeLookups(owners: seq<Owner>, b: OwnerBody)
    requires b.password.Some? && |b.password.value| >= MinPasswordLength
    requires b.phone.Some? && |b.phone.value| == PhoneLength
    requires b.userName.Some? && |b.userName.value| < MinUserNameLength
    ensures SignupChecks(owners, b) == SignupReject(UserNameTooShort)
  {
  }

  /** An email in use is reported as "User already exists", even when the user name is taken too. */
  lemma EmailCheckedBeforeUserName(owners: seq<Owner>, b: OwnerBody, i: nat)
    requires b.password.Some? && |b.password.value| >= MinPasswordLength
    requires b.phone.Some? && |b.phone.value| == PhoneLength
    requires b.userName.Some? && |b.userName.value| >= MinUserNameLength
    requires i < |owners| && owners[i].email == b.email
    ensures SignupChecks(owners, b) == SignupReject(UserAlreadyExists)
  {
  }

  /** A taken user name with a free email is reported as "Username already exists". */
  lemma TakenUserNameRejected(owners: seq<Owner>, b: OwnerBody, i: nat)
    requires b.password.Some? && |b.password.value| >= MinPasswordLength
    requires b.phone.Some? && |b.phone.value| == PhoneLength
    requires b.userName.Some? && |b.userName.value| >= MinUserNameLength
    requires !EmailTaken(owners, b.email)
    requires i < |owners| && owners[i].userName == b.userName
    ensures SignupChecks(owners, b) == SignupReject(UserNameAlreadyExists)
  {
  }

  /** An owner inserted after every check passed keeps identifiers, emails and user names unique. */
  lemma SignupKeepsKeysUnique(owners: seq<Owner>, b: OwnerBody, hash: string -> string, newId: Id)
    requires UniqueKeys(owners)
    requires SignupChecks(owners, b) == SignupPass
    requires !IdTaken(owners, newId)
    ensures UniqueKeys(owners + [StoredOwner(newId, b, hash)])
  {
  }
}
