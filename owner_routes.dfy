/**
 * The owner routes as state changes: the owner collection is a field that
 * signup appends to and update rewrites in place, and login writes the
 * owner and token into the caller's session.
 */
module OwnerRoutes {
  import opened Wrappers
  import opened Store
  import opened Owners
  import opened Dashboard
  import opened OwnerSignup
  import opened OwnerUpdate
  import opened OwnerLogin

  /** The session fields login sets (`req.session.owner`, `req.session.token`). */
  class Session {
    var owner: Option<Owner>
    var token: Option<Token>

    constructor ()
      ensures owner == None && token == None
    {
      owner := None;
      token := None;
    }
  }

  /** The owner collection, in natural order. */
  class OwnerTable {
    var owners: seq<Owner>

    constructor ()
      ensures owners == []
    {
      owners := [];
    }

    /**
     * Signup. `hash` is the salted bcrypt hash, `newId` the `_id` the new
     * document gets, and `saveOk` whether the database accepts the save.
     */
    method Signup(b: OwnerBody, hash: string -> string, newId: Id, saveOk: bool) returns (out: SignupOutcome)
      modifies this
      ensures out.faulted <==> SignupChecks(old(owners), b) == SignupFault
      ensures match SignupChecks(old(owners), b)
        case SignupFault => out.renders == Notice(b) && owners == old(owners)
        case SignupReject(m) => out.renders == Notice(b) + [m] && owners == old(owners)
        case SignupPass =>
          if SaveSucceeds(old(owners), newId, saveOk) then
            out.renders == Notice(b) + [OwnerCreated] && owners == old(owners) + [StoredOwner(newId, b, hash)]
          else
            out.renders == Notice(b) + [CreateFailed] && owners == old(owners)
      ensures |owners| <= |old(owners)| + 1 && owners[..|old(owners)|] == old(owners)
      ensures UniqueKeys(old(owners)) ==> UniqueKeys(owners)
    {
      var renders := Notice(b);
      var check := SignupChecks(owners, b);
      match check
      case SignupFault =>
        out := SignupOutcome(renders, true);
      case SignupReject(m) =>
        out := SignupOutcome(renders + [m], false);
      case SignupPass =>
        if SaveSucceeds(owners, newId, saveOk) {
          if UniqueKeys(owners) {
            SignupKeepsKeysUnique(owners, b, hash, newId);
          }
          owners := owners + [StoredOwner(newId, b, hash)];
          out := SignupOutcome(renders + [OwnerCreated], false);
        } else {
          out := SignupOutcome(renders + [CreateFailed], false);
        }
    }

    /**
     * Update. `tokenUser` is the user name in the caller's token, `hash` the
     * salted bcrypt hash, and `writeOk` whether the database accepts the write.
     */
    method Update(tokenUser: Field, b: OwnerBody, hash: string -> string, writeOk: bool) returns (out: UpdateOutcome)
      modifies this
      ensures UpdateChecks(old(owners), tokenUser, b).Some? ==>
        out == UpdateChecks(old(owners), tokenUser, b).value && owners == old(owners)
      ensures UpdateChecks(old(owners), tokenUser, b).None? && !writeOk ==>
        out == Status500 && owners == old(owners)
      ensures UpdateChecks(old(owners), tokenUser, b).None? && writeOk && !UserNameTaken(old(owners), tokenUser) ==>
        out == Status500Unsent && owners == old(owners)
      ensures UpdateChecks(old(owners), tokenUser, b).None? && writeOk && UserNameTaken(old(owners), tokenUser) ==>
        var i := FindByUserName(old(owners), tokenUser).value;
        out == Status200(DetailsUpdated) && owners == old(owners)[i := ApplyUpdate(old(owners)[i], HashedBody(b, hash))]
      ensures out == Status200(DetailsUpdated) && Truthy(b.password) ==>
        owners[FindByUserName(old(owners), tokenUser).value].password == Some(hash(b.password.value))
      ensures |owners| == |old(owners)|
      ensures forall j :: 0 <= j < |owners| && owners[j] != old(owners)[j] ==> old(owners)[j].userName == tokenUser
      ensures UniqueKeys(old(owners)) && b.email != Some("") && b.userName != Some("") ==> UniqueKeys(owners)
    {
      var early := UpdateChecks(owners, tokenUser, b);
      if early.Some? {
        out := early.value;
        return;
      }
      if !writeOk {
        out := Status500;
        return;
      }
      var target := FindByUserName(owners, tokenUser);
      if target.None? {
        out := Status500Unsent;
        return;
      }
      var i := target.value;
      if UniqueKeys(owners) && b.email != Some("") && b.userName != Some("") {
        UpdateKeepsKeysUnique(owners, tokenUser, b, hash, i);
      }
      owners := owners[i := ApplyUpdate(owners[i], HashedBody(b, hash))];
      out := Status200(DetailsUpdated);
    }

    /**
     * Login. `verdict` is what the password comparison reported and `snap`
     * the restaurant, menu-item and order collections as the request reads them.
     */
    method Login(session: Session, userName: Field, verdict: CompareResult, snap: Snapshot) returns (out: LoginOutcome)
      modifies session
      ensures out == LoginOutcomeOf(owners, userName, verdict, snap)
      ensures !out.NoResponse?
      ensures LoggedIn(owners, userName, verdict) ==>
        session.owner == Some(owners[FindByUserName(owners, userName).value])
        && session.token == Some(Token(userName, TokenLifetime))
      ensures !LoggedIn(owners, userName, verdict) ==>
        session.owner == old(session.owner) && session.token == old(session.token)
      ensures out.OwnerHome? ==> Some(out.token) == session.token && Some(out.owner) == session.owner
    {
      var found := FindByUserName(owners, userName);
      if found.Some? && verdict == Matched {
        var owner := owners[found.value];
        session.owner := Some(owner);
        session.token := Some(TokenFor(owner));
      }
      LoginAlwaysResponds(owners, userName, verdict, snap);
      out := LoginOutcomeOf(owners, userName, verdict, snap);
    }
  }
}
