/**
 * The owner collection: the request body the owner handlers read, the stored
 * owner record, the lookups the handlers make, and the messages they render.
 */
module Owners {
  import opened Wrappers
  import opened Store

  const MinPasswordLength: nat := 6
  const PhoneLength: nat := 10
  const MinUserNameLength: nat := 6

  /** The five fields the handlers read from `req.body`. */
  datatype OwnerBody = OwnerBody(email: Field, password: Field, name: Field, phone: Field, userName: Field)

  /** A stored owner document; `password` holds the bcrypt hash once signup has run. */
  datatype Owner = Owner(id: Id, email: Field, password: Field, name: Field, phone: Field, userName: Field)

  /** `Owner.findOne({ email })` finds a document. */
  predicate EmailTaken(owners: seq<Owner>, email: Field)
  {
    exists i :: 0 <= i < |owners| && owners[i].email == email
  }

  /** `Owner.findOne({ userName })` finds a document. */
  predicate UserNameTaken(owners: seq<Owner>, userName: Field)
  {
    exists i :: 0 <= i < |owners| && owners[i].userName == userName
  }

  /** Some document already carries this `_id`. */
  predicate IdTaken(owners: seq<Owner>, id: Id)
  {
    exists i :: 0 <= i < |owners| && owners[i].id == id
  }

  /** The position of the document `Owner.findOne({ userName })` returns. */
  function FindByUserName(owners: seq<Owner>, userName: Field): (r: Option<nat>)
    ensures r.Some? ==> r.value < |owners| && owners[r.value].userName == userName
    ensures r.Some? ==> forall j :: 0 <= j < r.value ==> owners[j].userName != userName
    ensures r.None? <==> !UserNameTaken(owners, userName)
  {
    FirstWhere(owners, (o: Owner) => o.userName == userName)
  }

  /** Identifiers, emails and user names are each unique across the collection. */
  predicate UniqueKeys(owners: seq<Owner>)
  {
    forall i, j :: 0 <= i < |owners| && 0 <= j < |owners| && i != j ==>
      owners[i].id != owners[j].id
      && owners[i].email != owners[j].email
      && owners[i].userName != owners[j].userName
  }

  /** Every message the owner handlers send, whether rendered into a page or returned as JSON. */
  datatype Message =
    | PleaseEnterAllFields
    | PasswordTooShort
    | PhoneWrongLength
    | UserNameTooShort
    | UserAlreadyExists
    | UserNameAlreadyExists
    | OwnerCreated
    | CreateFailed
    | EmailInUse(email: string)
    | UserNameInUse(userName: string)
    | DetailsUpdated
    | IncorrectCredentials
    | IncorrectUserNameOrPassword
    | AddRestaurantDetails
    | NoMessage

  /** The text of each message as the handlers write it. */
  function Text(m: Message): string
  {
    match m
    case PleaseEnterAllFields => "Please enter all fields"
    case PasswordTooShort => "Password must be at least 6 characters"
    case PhoneWrongLength => "Phone number must be 10 characters"
    case UserNameTooShort => "Username must be at least 6 characters"
    case UserAlreadyExists => "User already exists"
    case UserNameAlreadyExists => "Username already exists"
    case OwnerCreated => "Owner created successfully! Please login"
    case CreateFailed => "Error in creating owner! Please try again"
    case EmailInUse(e) => "User with email: " + e + " already exists"
    case UserNameInUse(u) => "Username: " + u + " already exists"
    case DetailsUpdated => "Owner details updated successfully"
    case IncorrectCredentials => "Incorrect Username/Password"
    case IncorrectUserNameOrPassword => "Incorrect Username or Password"
    case AddRestaurantDetails => "Please add your restaurant details"
    case NoMessage => ""
  }
}
