/**
 * Owner update (`PUT /owner`): the caller is named by the user name in its
 * token; each truthy optional field is validated in source order, and then
 * every field present in the body overwrites the caller's document.
 */
module OwnerUpdate {
  import opened Wrappers
  import opened Store
  import opened Owners

  /** The response the handler gives. `Status500Unsent` sets status 500 and sends nothing. */
  datatype UpdateOutcome =
    | Status401
    | Status400(msg: Message)
    | Status200(msg: Message)
    | Status500
    | Status500Unsent

  /** A truthy email that some document already carries, the caller's own included. */
  predicate EmailRejected(owners: seq<Owner>, email: Field)
  {
    Truthy(email) && EmailTaken(owners, email)
  }

  /** A truthy user name that is too short or already carried by some document. */
  predicate UserNameRejected(owners: seq<Owner>, userName: Field)
  {
    Truthy(userName) && (|userName.value| < MinUserNameLength || UserNameTaken(owners, userName))
  }

  /** A truthy password shorter than the minimum. */
  predicate PasswordRejected(password: Field)
  {
    Truthy(password) && |password.value| < MinPasswordLength
  }

  /** A truthy phone whose length is not ten. */
  predicate PhoneRejected(phone: Field)
  {
    Truthy(phone) && |phone.value| != PhoneLength
  }

  /**
   * The early responses, in source order: no user name in the token, email in
   * use, user name too short, user name in use, password too short, phone of
   * the wrong length. None means every check passed.
   */
  function UpdateChecks(owners: seq<Owner>, tokenUser: Field, b: OwnerBody): (r: Option<UpdateOutcome>)
    ensures r == Some(Status401) <==> !Truthy(tokenUser)
    ensures r.None? <==>
      && Truthy(tokenUser)
      && !EmailRejected(owners, b.email)
      && !UserNameRejected(owners, b.userName)
      && !PasswordRejected(b.password)
      && !PhoneRejected(b.phone)
    ensures r.Some? ==> r.value.Status401? || r.value.Status400?
    ensures Truthy(tokenUser) && EmailRejected(owners, b.email) <==>
      r.Some? && r.value.Status400? && r.value.msg.EmailInUse?
    ensures Truthy(tokenUser) && EmailRejected(owners, b.email) ==>
      r == Some(Status400(EmailInUse(b.email.value)))
    ensures r == Some(Status400(UserNameTooShort)) <==>
      Truthy(tokenUser) && !EmailRejected(owners, b.email)
      && Truthy(b.userName) && |b.userName.value| < MinUserNameLength
    ensures (Truthy(tokenUser) && !EmailRejected(owners, b.email) && UserNameRejected(owners, b.userName)
             && |b.userName.value| >= MinUserNameLength) <==>
      r.Some? && r.value.Status400? && r.value.msg.UserNameInUse?
    ensures (Truthy(tokenUser) && !EmailRejected(owners, b.email) && UserNameRejected(owners, b.userName)
             && |b.userName.value| >= MinUserNameLength) ==>
      r == Some(Status400(UserNameInUse(b.userName.value)))
    ensures r == Some(Status400(PasswordTooShort)) <==>
      Truthy(tokenUser) && !EmailRejected(owners, b.email) && !UserNameRejected(owners, b.userName)
      && PasswordRejected(b.password)
    ensures r == Some(Status400(PhoneWrongLength)) <==>
      Truthy(tokenUser) && !EmailRejected(owners, b.email) && !UserNameRejected(owners, b.userName)
      && !PasswordRejected(b.password) && PhoneRejected(b.phone)
  {
    if !Truthy(tokenUser) then Some(Status401)
    else if EmailRejected(owners, b.email) then Some(Status400(EmailInUse(b.email.value)))
    else if Truthy(b.userName) && |b.userName.value| < MinUserNameLength then Some(Status400(UserNameTooShort))
    else if Truthy(b.userName) && UserNameTaken(owners, b.userName) then Some(Status400(UserNameInUse(b.userName.value)))
    else if PasswordRejected(b.password) then Some(Status400(PasswordTooShort))
    else if PhoneRejected(b.phone) then Some(Status400(PhoneWrongLength))
    else None
  }

  /** The body after a truthy password has been replaced by its hash; "" is left as it is. */
  function HashedBody(b: OwnerBody, hash: string -> string): (r: OwnerBody)
    ensures Truthy(b.password) ==> r.password == Some(hash(b.password.value))
    ensures !Truthy(b.password) ==> r.password == b.password
    ensures r.email == b.email && r.name == b.name && r.phone == b.phone && r.userName == b.userName
  {
    if Truthy(b.password) then b.(password := Some(hash(b.password.value))) else b
  }

  /** A field present in the body replaces the stored one; an absent field leaves it alone. */
  function Overwrite(stored: Field, given: Field): Field
  {
    if given.Some? then given else stored
  }

  /** The document `findOneAndUpdate` writes: the listed fields of the body overwrite it, the `_id` stays. */
  function ApplyUpdate(o: Owner, b: OwnerBody): (r: Owner)
    ensures r.id == o.id
    ensures b.email.None? ==> r.email == o.email
    ensures b.email.Some? ==> r.email == b.email
    ensures b.userName.None? ==> r.userName == o.userName
    ensures b.userName.Some? ==> r.userName == b.userName
    ensures b.password.None? ==> r.password == o.password
    ensures b.password.Some? ==> r.password == b.password
    ensures b.name.None? ==> r.name == o.name
    ensures b.name.Some? ==> r.name == b.name
    ensures b.phone.None? ==> r.phone == o.phone
    ensures b.phone.Some? ==> r.phone == b.phone
  {
    o.(email := Overwrite(o.email, b.email),
       password := Overwrite(o.password, b.password),
       name := Overwrite(o.name, b.name),
       phone := Overwrite(o.phone, b.phone),
       userName := Overwrite(o.userName, b.userName))
  }

  /** An email is refused even when it is the caller's own current email. */
  lemma OwnEmailRejected(owners: seq<Owner>, tokenUser: Field, b: OwnerBody, i: nat)
    requires Truthy(tokenUser) && Truthy(b.email)
    requires i < |owners| && owners[i].userName == tokenUser && owners[i].email == b.email
    ensures UpdateChecks(owners, tokenUser, b) == Some(Status400(EmailInUse(b.email.value)))
  {
  }

  /**
   * A truthy password is written as its hash, never as sent; a name or phone
   * present in the body is written as sent.
   */
  lemma SentFieldsAreWritten(o: Owner, b: OwnerBody, hash: string -> string)
    ensures Truthy(b.password) ==> ApplyUpdate(o, HashedBody(b, hash)).password == Some(hash(b.password.value))
    ensures b.name.Some? ==> ApplyUpdate(o, HashedBody(b, hash)).name == b.name
    ensures b.phone.Some? ==> ApplyUpdate(o, HashedBody(b, hash)).phone == b.phone
  {
  }

  /**
   * A password or user name sent as "" passes the checks (it is falsy: the
   * checks answer as if it were absent) and is still written: the password is
   * stored unhashed.
   */
  lemma EmptyFieldsAreWritten(owners: seq<Owner>, tokenUser: Field, o: Owner, b: OwnerBody, hash: string -> string)
    ensures b.password == Some("") ==>
      UpdateChecks(owners, tokenUser, b) == UpdateChecks(owners, tokenUser, b.(password := None))
    ensures b.password == Some("") ==> ApplyUpdate(o, HashedBody(b, hash)).password == Some("")
    ensures b.userName == Some("") ==>
      UpdateChecks(owners, tokenUser, b) == UpdateChecks(owners, tokenUser, b.(userName := None))
    ensures b.userName == Some("") ==> ApplyUpdate(o, HashedBody(b, hash)).userName == Some("")
  {
  }

  /**
   * An update that passed every check keeps identifiers, emails and user
   * names unique, provided the body does not send "" for email or user name.
   */
  lemma UpdateKeepsKeysUnique(owners: seq<Owner>, tokenUser: Field, b: OwnerBody, hash: string -> string, i: nat)
    requires UniqueKeys(owners)
    requires UpdateChecks(owners, tokenUser, b).None?
    requires b.email != Some("") && b.userName != Some("")
    requires i < |owners|
    ensures UniqueKeys(owners[i := ApplyUpdate(owners[i], HashedBody(b, hash))])
  {
  }
}
