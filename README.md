# Owner routes of a restaurant-ordering backend, modelled in Dafny

The backend's owner routes (`routes/OwnerRoutes.js`) let a restaurant owner
sign up, update their details and log in; a successful login assembles a
dashboard of the orders placed at the owner's restaurant. This project models
the three handlers that carry decisions:

- **Signup** (`POST /`): a chain of checks in source order — the
  "Please enter all fields" notice, password length, phone length, user-name
  length, email in use, user name in use — and then the insertion of one owner
  whose password is replaced by its hash. The notice is rendered but the handler
  does not stop there, so the model records it and carries on; reading the length
  of an absent password, phone or user name throws, and the model records a fault.
- **Update** (`PUT /`): 401 without a user name in the token, then checks on each
  truthy optional field (email in use, user-name length, user name in use,
  password length, phone length), then each of the five fields present in the body
  overwrites the document whose `userName` is the token's.
- **Login** (`POST /login`): the owner lookup, the password comparison, the
  session writes, the restaurant lookup and the dashboard: one entry per order
  of the restaurant, in store order, each line item resolved against the menu,
  with an empty slot where the menu item is missing.

Modules: `Store` (identifiers, optional string fields, `findOne` as "first
match in natural order"), `Owners` (the owner document, lookups, uniqueness,
message texts), `Dashboard` (restaurants, menu items, orders and the
aggregation), `OwnerSignup`, `OwnerUpdate`, `OwnerLogin` (each handler's
decisions as functions and the lemmas about them) and `OwnerRoutes` (the owner
collection as a class whose methods change it, and the session).

The database collections are sequences in natural order (menu items a map, as
they are only read by id). The calls into bcrypt, the token helper and the
database become parameters: the hash is a function `hash: string -> string`
(the random salt folded into it), the comparison is a given `CompareResult`,
the new document's `_id` and whether the database accepts a save or an update
are inputs.

Three behaviours of the code worth knowing:
- a line item whose menu item is missing is an empty (`undefined`) slot at the
  same position, not dropped from the list (`Dashboard.LineItemsSpec`);
- an unknown user name and a wrong password answer differently (a login page
  versus a 401 JSON reply with another message), so a caller can tell them apart
  (`OwnerLogin.LoginOutcomeOf`);
- an order whose restaurant cannot be found again makes the whole dashboard's
  `Promise.all` reject inside the comparison callback, outside the handler's
  `try`, so no response is sent (`LoginOutcome.NoResponse`); within one snapshot
  of the collections this cannot happen (`OwnerLogin.LoginAlwaysResponds`).

## Model

| member | source | states |
|---|---|---|
| Store.FirstWhere | routes/OwnerRoutes.js:201 | `findOne` answers with a record that matches the filter and no earlier record matches; None exactly when no record matches |
| Owners.FindByUserName | routes/OwnerRoutes.js:201 | the owner found by user name carries that user name and is the first such; None exactly when the user name is not taken |
| OwnerSignup.Notice | routes/OwnerRoutes.js:57-62 | "Please enter all fields" is rendered exactly when one of the five fields is falsy, and the handler goes on |
| OwnerSignup.SignupChecks | routes/OwnerRoutes.js:63-100 | signup passes exactly when password is at least 6, phone exactly 10, user name at least 6 long and neither email nor user name is in use; a short password is always the reported failure; the fault cases are exactly the absent field reached first |
| OwnerSignup.StoredOwner | routes/OwnerRoutes.js:102-107 | the saved owner holds `hash(password)`, not the plain password, and the other body fields unchanged |
| OwnerSignup.PhoneMustBeTenLong | routes/OwnerRoutes.js:70-76 | with a valid password, a phone of any length other than 10 is rejected, whatever the later fields are |
| OwnerSignup.ShortUserNameRejectedBeforeLookups | routes/OwnerRoutes.js:77-83 | a short user name is rejected before the email and user-name lookups |
| OwnerSignup.EmailCheckedBeforeUserName | routes/OwnerRoutes.js:84-92 | an email in use gives "User already exists" even when the user name is taken too |
| OwnerSignup.TakenUserNameRejected | routes/OwnerRoutes.js:93-100 | a taken user name with a free email gives "Username already exists" |
| OwnerSignup.SignupKeepsKeysUnique | routes/OwnerRoutes.js:84-107 | inserting after every check passed keeps ids, emails and user names unique |
| OwnerUpdate.UpdateChecks | routes/OwnerRoutes.js:124-166 | 401 exactly when the token has no user name; the update proceeds exactly when no truthy field is rejected; every early answer is 401 or 400; each 400 message is given exactly when its check fails and every earlier one passed, in the order email in use ("User with email: … already exists"), user name too short, user name in use ("Username: … already exists"), password too short, phone not 10 long |
| OwnerUpdate.HashedBody | routes/OwnerRoutes.js:151-160 | a truthy password is replaced by its hash; "" and an absent password are left alone |
| OwnerUpdate.ApplyUpdate | routes/OwnerRoutes.js:168-175 | the written document keeps its id; for each of email, password, name, phone and user name, a field sent in the body replaces the stored one and an absent one leaves it |
| OwnerUpdate.SentFieldsAreWritten | routes/OwnerRoutes.js:151-175 | a truthy password is written as its hash; a name or phone in the body is written as sent |
| OwnerUpdate.OwnEmailRejected | routes/OwnerRoutes.js:132-138 | sending the caller's own current email is rejected with 400 |
| OwnerUpdate.EmptyFieldsAreWritten | routes/OwnerRoutes.js:151-175 | a password sent as "" passes the checks exactly as an absent one would and is stored unhashed; a user name sent as "" is checked as if absent and is stored |
| OwnerUpdate.UpdateKeepsKeysUnique | routes/OwnerRoutes.js:132-175 | an update that passed the checks keeps ids, emails and user names unique when the body sends no "" email or user name |
| Dashboard.FindRestaurantOfOwner | routes/OwnerRoutes.js:222-224 | the restaurant found belongs to the owner; None exactly when no restaurant does |
| Dashboard.FindRestaurantById | routes/OwnerRoutes.js:251-253 | the restaurant found has that id; None exactly when none has |
| Dashboard.OrdersOf | routes/OwnerRoutes.js:233 | every order returned belongs to the restaurant, every order of the restaurant is returned, and nothing else |
| Dashboard.OrdersOfIsFilter | routes/OwnerRoutes.js:233 | the orders query is an order-preserving filter: it distributes over concatenation and keeps a single order exactly when it belongs to the restaurant |
| Dashboard.LineItem | routes/OwnerRoutes.js:237-246 | a line item is empty exactly when its menu item is missing, and otherwise carries the menu item's name and the stored quantity |
| Dashboard.LineItems | routes/OwnerRoutes.js:236-250 | the resolved line items have as many slots as the stored ones |
| Dashboard.LineItemsAt | routes/OwnerRoutes.js:236-250 | slot k is the resolution of stored line item k: the store's order is kept |
| Dashboard.LineItemsSpec | routes/OwnerRoutes.js:238-246 | a slot is empty exactly when its menu item is missing, and otherwise holds the menu item's name and the stored quantity |
| Dashboard.OrderView | routes/OwnerRoutes.js:251-267 | an entry exists exactly when the order's restaurant is found again; it carries the order's id, status (twice), total, pickup time, requests and dates, the order's line items resolved against the menu slot for slot, and the re-found restaurant's name and address |
| Dashboard.BuildDashboard | routes/OwnerRoutes.js:234-269 | the dashboard is produced exactly when every order's restaurant is found again, with one entry per order |
| Dashboard.DashboardAt | routes/OwnerRoutes.js:234-269 | entry k is the view of order k, in the order the store returned them |
| Dashboard.DeletedMenuItemEmptiesOnlyItsSlots | routes/OwnerRoutes.js:238-250 | deleting a menu item empties exactly the slots that refer to it; the rest of the entry is unchanged |
| OwnerLogin.TokenFor | routes/OwnerRoutes.js:217-220 | the token issued carries the owner's user name and the lifetime "2h" |
| OwnerLogin.LoginOutcomeOf | routes/OwnerRoutes.js:199-283 | an unknown user name or a comparison error gives the "Incorrect Username/Password" page; a mismatch, and only a mismatch, gives the 401 JSON reply, whose text differs; on a match the owner gets the add-restaurant prompt exactly when no restaurant is theirs, and otherwise the page with an empty message, the owner, their restaurant, a two-hour token for their user name and the dashboard of that restaurant's orders, or no response exactly when that dashboard fails |
| OwnerLogin.OwnOrdersResolve | routes/OwnerRoutes.js:233-253 | every order of a restaurant in the snapshot finds that restaurant again |
| OwnerLogin.LoginAlwaysResponds | routes/OwnerRoutes.js:232-277 | within one snapshot a login is always answered |
| OwnerLogin.DashboardShowsOwnRestaurant | routes/OwnerRoutes.js:233-259 | the dashboard of a restaurant has one entry per order of that restaurant, in store order, and with unique restaurant ids each entry shows that restaurant's name and address |
| OwnerRoutes.OwnerTable.Signup | routes/OwnerRoutes.js:54-118 | the pages rendered are the notice (if any) then the first failure or the save's result; the collection gains exactly the hashed owner when everything passes and the save succeeds, and is unchanged otherwise; uniqueness is kept |
| OwnerRoutes.OwnerTable.Update | routes/OwnerRoutes.js:121-185 | any rejection, write error or missing target leaves the collection unchanged; otherwise only the first owner with the token's user name is rewritten, with a sent password stored as its hash; no other owner changes |
| OwnerRoutes.OwnerTable.Login | routes/OwnerRoutes.js:199-291 | the answer is the login outcome and is never missing; owner and token are stored in the session exactly when the user name is known and the password matches |

## Left out

- The GET handlers for the login, signup and new-restaurant pages, the owner listing and query, delete and logout (routes/OwnerRoutes.js:11-51, 188-196, 294-297): they pass straight through to rendering, redirects or the database.
- `OwnerRoutes.OwnerTable.Signup`: when the "Please enter all fields" notice has been rendered, the later render of the same request cannot reach the client (the response has already been sent); the model lists every render call, and only the first is what the client sees.
- OwnerSignup.SaveSucceeds: whether the database accepts the save is the input `saveOk`; the model adds only that a save reusing a stored `_id` is refused. The save's effect is stated by `OwnerRoutes.OwnerTable.Signup`.
- Only the five fields email, password, name, phone and userName of the request body are modelled; `new Owner(req.body)` (routes/OwnerRoutes.js:106) and `findOneAndUpdate` (routes/OwnerRoutes.js:171) receive the whole body, and any other key in it is left to the schema and the database.
- The `console.log` calls in the error handlers (routes/OwnerRoutes.js:112, 182, 285): logging has no effect on the response or the collections.
- Rendering, JSON replies and redirects are reduced to message tags; `Owners.Text` keeps each message's wording.
- bcrypt's salt generation, hashing and comparison are inputs: `hash` is a function parameter and the comparison is a given `CompareResult`.
- Token signing by `getToken` and its expiry: the token is its claims (the user name and "2h"). The `validate` middleware is not part of this model; the token's user name is an input.
- The Owner schema is not part of this model: whatever constraints it declares are enforced by the database, so whether a save or update is accepted is the input `saveOk`/`writeOk`.
- Database failures of the lookups (routes/OwnerRoutes.js:85, 93, 133, 144, 201, 222, 233, 238, 251) and the login's outer `catch` (routes/OwnerRoutes.js:284-290): the collections are assumed readable.
- A filter on an absent field is modelled as matching the documents where that field is absent, as MongoDB matches `null`; other query semantics of the database library are not modelled.
- Body values that are not strings (numbers, arrays) and the difference between `null` and `undefined`: a field is either absent or a string.
- String lengths count characters; JavaScript counts UTF-16 code units, which differs for characters outside the Basic Multilingual Plane.
- The concurrency of `Promise.all` and collections changing during a request: a login reads one snapshot.
- `toLocaleDateString`/`toLocaleTimeString`: the formatted strings are opaque fields of the order's creation time.
- An owner with several restaurants gets the first in natural order, as `findOne` returns.
- The token keeps the old user name after an update changes it; later requests are not modelled.
- models/Customer.js: a schema declaration with no code of its own.
