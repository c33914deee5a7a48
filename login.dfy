/**
 * Owner login (`POST /owner/login`): look the owner up by user name, act on
 * the password comparison, then either prompt for a restaurant or assemble
 * the dashboard of the owner's restaurant.
 */
module OwnerLogin {
  import opened Wrappers
  import opened Store
  import opened Owners
  import opened Dashboard

  const TokenLifetime: string := "2h"

  /** What the password comparison reports: an error, a match, or no match. */
  datatype CompareResult = CompareError | Matched | Mismatched

  /** The claims of the issued token; signing it is not part of this model. */
  datatype Token = Token(userName: Field, expiresIn: string)

  /** The response the handler gives. `NoResponse` is a rejected promise nobody handles. */
  datatype LoginOutcome =
    | LoginPage(msg: Message)
    | Json401(msg: Message)
    | AddRestaurantPage(msg: Message, ownerId: Id)
    | OwnerHome(msg: Message, owner: Owner, token: Token, restaurant: Restaurant, orders: seq<DashboardEntry>)
    | NoResponse

  /** The token issued for a logged-in owner: its user name, valid for two hours. */
  function TokenFor(o: Owner): (t: Token)
    ensures t.userName == o.userName && t.expiresIn == "2h"
  {
    Token(o.userName, TokenLifetime)
  }

  /** The login succeeds: the user name is known and the password matches. */
  predicate LoggedIn(owners: seq<Owner>, userName: Field, verdict: CompareResult)
  {
    UserNameTaken(owners, userName) && verdict == Matched
  }

  /**
   * The response to a login with this user name, given the comparison result.
   * An unknown user name and a comparison error give the same login page; a
   * wrong password gives a 401 JSON answer with a different message instead.
   * A known owner with a matching password gets the add-restaurant prompt when
   * no restaurant is theirs, and otherwise the dashboard of their restaurant,
   * or no response at all when that dashboard's `Promise.all` rejects.
   */
  function LoginOutcomeOf(owners: seq<Owner>, userName: Field, verdict: CompareResult, snap: Snapshot): (r: LoginOutcome)
    ensures r == LoginPage(IncorrectCredentials) <==> !UserNameTaken(owners, userName) || verdict == CompareError
    ensures r == Json401(IncorrectUserNameOrPassword) <==> UserNameTaken(owners, userName) && verdict == Mismatched
    ensures r.Json401? ==> Text(r.msg) != Text(IncorrectCredentials)
    ensures r.AddRestaurantPage? || r.OwnerHome? || r.NoResponse? <==> LoggedIn(owners, userName, verdict)
    ensures LoggedIn(owners, userName, verdict) ==>
      var owner := owners[FindByUserName(owners, userName).value];
      && (r.AddRestaurantPage? <==> FindRestaurantOfOwner(snap.restaurants, owner.id).None?)
      && (r.AddRestaurantPage? ==> r.ownerId == owner.id && r.msg == AddRestaurantDetails)
      && (FindRestaurantOfOwner(snap.restaurants, owner.id).Some? ==>
            var restaurant := snap.restaurants[FindRestaurantOfOwner(snap.restaurants, owner.id).value];
            var board := BuildDashboard(OrdersOf(snap.orders, restaurant.id), snap.menuItems, snap.restaurants);
            && restaurant.ownerId == owner.id
            && (r.NoResponse? <==> board.None?)
            && (r.OwnerHome? ==>
                  && r.msg == NoMessage
                  && r.owner == owner && r.owner.userName == userName
                  && r.token == Token(userName, TokenLifetime)
                  && r.restaurant == restaurant
                  && Some(r.orders) == board))
  {
    match FindByUserName(owners, userName)
    case None => LoginPage(IncorrectCredentials)
    case Some(i) =>
      var owner := owners[i];
      match verdict
      case CompareError => LoginPage(IncorrectCredentials)
      case Mismatched => Json401(IncorrectUserNameOrPassword)
      case Matched =>
        match FindRestaurantOfOwner(snap.restaurants, owner.id)
        case None => AddRestaurantPage(AddRestaurantDetails, owner.id)
        case Some(j) =>
          var restaurant := snap.restaurants[j];
          match BuildDashboard(OrdersOf(snap.orders, restaurant.id), snap.menuItems, snap.restaurants)
          case None => NoResponse
          case Some(entries) => OwnerHome(NoMessage, owner, TokenFor(owner), restaurant, entries)
  }

  /** The orders of a restaurant found in the snapshot can all find that restaurant again. */
  lemma OwnOrdersResolve(orders: seq<Order>, restaurants: seq<Restaurant>, j: nat)
    requires j < |restaurants|
    ensures AllResolvable(OrdersOf(orders, restaurants[j].id), restaurants)
  {
  }

  /** Every login gets an answer: the unhandled-rejection path cannot be reached within one snapshot. */
  lemma LoginAlwaysResponds(owners: seq<Owner>, userName: Field, verdict: CompareResult, snap: Snapshot)
    ensures !LoginOutcomeOf(owners, userName, verdict, snap).NoResponse?
  {
  }

  /** Restaurant identifiers are unique in the snapshot. */
  predicate UniqueRestaurantIds(restaurants: seq<Restaurant>)
  {
    forall i, j :: 0 <= i < |restaurants| && 0 <= j < |restaurants| && i != j ==> restaurants[i].id != restaurants[j].id
  }

  /**
   * The dashboard of restaurant j has one entry per order of that restaurant,
   * in store order; restaurant identifiers being unique, each entry shows
   * restaurant j's name and address.
   */
  lemma DashboardShowsOwnRestaurant(snap: Snapshot, j: nat, k: nat)
    requires j < |snap.restaurants| && UniqueRestaurantIds(snap.restaurants)
    requires k < |OrdersOf(snap.orders, snap.restaurants[j].id)|
    ensures var mine := OrdersOf(snap.orders, snap.restaurants[j].id);
      var board := BuildDashboard(mine, snap.menuItems, snap.restaurants);
      && board.Some? && |board.value| == |mine|
      && board.value[k].orderId == mine[k].id
      && board.value[k].canteenName == snap.restaurants[j].restaurantName
      && board.value[k].restaurantAddress == snap.restaurants[j].restaurantAddress
  {
    var mine := OrdersOf(snap.orders, snap.restaurants[j].id);
    DashboardAt(mine, snap.menuItems, snap.restaurants, k);
    var found := FindRestaurantById(snap.restaurants, mine[k].restaurantId).value;
    assert found == j;
  }
}
