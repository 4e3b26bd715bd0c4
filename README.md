# Land registry backend, modelled in Dafny

This project models the backend of a land registry. Citizens register parcels
of land. An admin approves a parcel, which makes it active and opens its
ownership history. An owner lists a parcel that is not on dispute for
transfer to a named buyer, and may cancel the listing. An admin approves a transfer: the land
passes to the buyer, the previous ownership entry is closed and an open one is
added for the buyer. Citizens file disputes against a parcel, which puts the
land on dispute. The owner may drop a dispute, which gives the land back its
active status if it is still on dispute. An admin may solve a dispute, which leaves the land as it is.
Owners and admins read filtered, paginated listings.

Modules:

- `Common`: optional values, handler results and error kinds with their HTTP
  codes.
- `Text`: JavaScript `trim`, over the whitespace characters JavaScript
  removes.
- `Sequences`: the three database queries the handlers use: `findOne`, `find`
  and the newest-first sort.
- `Paging`: `parseInt(q) || d`, `skip`/`limit` and `Math.ceil(total / limit)`.
- `LandModel`, `TransferModel`, `DisputeModel` and `UserModel`: one module per
  schema, covering:
  - closed enums and defaults;
  - what a stored record must satisfy;
  - the record-level changes the handlers make.
- `Database`: the four collections as `seq` fields of class `Db`. It also
  holds the invariants every handler keeps:
  - parcel ids, citizen ids and emails are unique;
  - the identifiers stored on lands, transfers and users are trimmed;
  - the ownership-history invariant holds;
  - an admin id is recorded exactly on sold transfers.
- `OwnerController` and `AdminController`: one method per state-changing
  handler and one function per query. Each method states:
  - every error path, in the order the handler checks them;
  - the exact new state;
  - the invariants it keeps.
- `Scenarios`: end-to-end runs (a sale, a dispute, a cancellation) whose
  outcome is proved from the handlers' contracts for any parcel id and any
  two citizens.

Records are identified as follows. Every record gets its position in its
collection as its id, so ids increase in `createdAt` order. Lands are looked
up by `parcelId`.

Query filters go through the schema's setters, as Mongoose casts them. A
field declared with `trim` is therefore matched against the trimmed query
value: a land's `parcelId` in every land lookup, and a transfer's seller and
buyer citizen ids in `myTransfer` and `cancelTransfer`. The dispute schema
declares no `trim`, so `myDispute` matches the citizen id exactly. A record
the schema or a unique index refuses on save is the handler's generic 500,
modelled as `DatabaseError`.

The clock and the authenticated caller are parameters: the current time, the
caller's user id and citizen id, and the admin's id.

The model follows the code in these places:

- Disputes are not terminal. `removeDispute` and `fixDisputes` do not look at
  the prior status, and `addDispute` puts a land on dispute whatever its
  status was.
- Solving a dispute does not clear the land's `onDispute`. Canceling a
  listing restores the status recorded at listing even if the land went on
  dispute meanwhile (`Scenarios.SolvedDisputeScenario`).
- There is no bidding, no buyer confirmation and no approve-with-edits. The
  buyer is fixed when the listing is created.
- `addToTransfer` saves the land as `forSell` before it saves the listing. A
  listing the schema refuses therefore leaves the land for sale
  (`OwnerController.AddToTransfer`).
- `addLand` checks for a duplicate with the parcel id as sent, before the
  schema trims it. Since the query is trimmed too, a parcel id that differs
  from a stored one only by surrounding spaces is reported as a duplicate.

## Model

| member | source | states |
|---|---|---|
| `Common.HttpStatus` | backend/src/controllers/owner.controller.js:82-123 | not-found errors answer 404, database refusals 500, every other refusal 400 |
| `Text.Trim` | backend/src/models/land.model.js:5-10 | the result is the input with its leading and trailing JavaScript whitespace removed: it is the slice starting after the leading spaces, everything outside it is whitespace, it has no whitespace at either end, and it is empty exactly when the input is blank |
| `Text.TrimKeepsTrimmed` | backend/src/models/land.model.js:5-10 | a string with no whitespace at either end is its own trim |
| `Text.SameSpacesTrimAlike` | backend/src/models/user.model.js:11-17 | two strings with whitespace at the same positions have the same leading whitespace and trims of the same length, so lowercasing and trimming line up |
| `Text.TrimIdempotent` | backend/src/models/land.model.js:5-10 | trimming an already trimmed value changes nothing, so the trimmed query matches the trimmed stored id |
| `Sequences.FirstIndex` | backend/src/controllers/owner.controller.js:95 | `findOne` finds the first matching record, and finds none exactly when no record matches |
| `Sequences.Filter` | backend/src/controllers/owner.controller.js:32 | `find` keeps exactly the matching records, each as often as it occurs |
| `Sequences.NewestFirst` | backend/src/controllers/owner.controller.js:65-67 | the newest-first sort reverses insertion order and is a permutation |
| `Sequences.FilterKeepsOrder` | backend/src/controllers/owner.controller.js:32 | `find` keeps the records in increasing `createdAt` order when the collection is in that order |
| `Sequences.NewestFirstDescends` | backend/src/controllers/owner.controller.js:65-67 | after the newest-first sort, `createdAt` strictly decreases along the listing |
| `Paging.QueryInt` | backend/src/controllers/owner.controller.js:229-230 | a non-zero query value is kept, and a zero or absent one is exactly the default (page 1, limit 10), so `limit` is never 0 |
| `Paging.CeilDiv` | backend/src/controllers/owner.controller.js:254 | for a positive limit, `totalPages` is the least number of pages that holds all items; a negative limit is also covered |
| `Paging.Window` | backend/src/controllers/owner.controller.js:245-247 | `skip`/`limit` yields the elements from `skip` on, at most `limit` of them |
| `Paging.Paginate` | backend/src/controllers/owner.controller.js:229-257 | a negative skip is refused; otherwise the page is the slice starting at `(page-1)*limit`, with at most `\|limit\|` items and a full page whenever enough items remain, empty exactly when the skip passes the end, `totalItems` is the count and `totalPages` is the ceiling of count over limit, for a positive and for a negative limit |
| `Paging.PageOfPosition` | backend/src/controllers/owner.controller.js:229-257 | item `i` is item `i % limit` of page `i / limit + 1` |
| `Paging.EveryElementListed` | backend/src/controllers/admin.controller.js:134-148 | every element of a listing is on some page ≥ 1, whatever the positive page size |
| `Paging.PageEmptyIffBeyondLast` | backend/src/controllers/admin.controller.js:134-148 | with a positive page and limit the query succeeds, and the page is empty exactly when it is past `totalPages` |
| `Paging.PageKeepsOrder` | backend/src/controllers/admin.controller.js:138-139 | `skip`/`limit` after the sort keeps the page newest first |
| `LandModel.ParseStatus` | backend/src/models/land.model.js:51-55 | exactly the four status names parse, and each parses back to its own name |
| `LandModel.StatusNameParses` | backend/src/models/land.model.js:51-55 | every status round-trips through its name |
| `LandModel.ParseUsageType` | backend/src/models/land.model.js:34-38 | exactly business, farming and residential parse, each to its own name |
| `LandModel.UsageTypeNameParses` | backend/src/models/land.model.js:34-38 | every usage type round-trips through its name |
| `LandModel.OnlyOpenEntryIsCurrentOwner` | backend/src/models/land.model.js:40-49 | under the history invariant at most one entry is open, and it names the current owner |
| `LandModel.NewLand` | backend/src/controllers/owner.controller.js:102-115 | a new land gets the next id, is `waitingToBeApproved`, has an empty history and no approver, is owned by the caller, and stores the trimmed parcel id, the size and usage type, the trimmed address when one is given and none otherwise, and the coordinates as given; it is well formed exactly when the parcel id is not blank |
| `LandModel.Approved` | backend/src/controllers/admin.controller.js:32-40 | the land becomes active and approved by the admin with nothing else changed; an empty history becomes one open entry for the current owner and a non-empty one is kept; the history invariant and well-formedness are preserved |
| `LandModel.CloseLast` | backend/src/controllers/admin.controller.js:81-85 | the last entry is closed (at `now` if it was open, unchanged otherwise) and every earlier entry is kept |
| `LandModel.TransferredTo` | backend/src/controllers/admin.controller.js:81-94 | the buyer becomes owner of an active land approved by the admin; the history is the old one with its last entry closed, plus an open entry for the buyer (one longer); the history invariant and well-formedness are preserved |
| `TransferModel.NewTransfer` | backend/src/models/transfer.model.js:5-32 | a new listing is active with no admin recorded, stores the three trimmed identifiers and the land's previous status, and is well formed exactly when none of the three is blank |
| `TransferModel.RestoredStatus` | backend/src/controllers/owner.controller.js:331 | cancel restores the recorded previous status, or active when none was recorded |
| `TransferModel.StoredAdminApproved` | backend/src/models/transfer.model.js:29-32 | the `null` default means `adminApproved` is never missing from a saved transfer |
| `TransferModel.CancelQueryAsWrittenMatchesNothing` | backend/src/controllers/owner.controller.js:312-317 | the cancel query as written matches no saved transfer |
| `TransferModel.FreshListingCancelableOnlyAsIntended` | backend/src/controllers/owner.controller.js:312-317 | a fresh listing is cancelable by its seller under the intended query but not under the query as written |
| `TransferModel.LogSucceedsTransitive` | backend/src/models/transfer.model.js:10-14 | the "only moves on from active" relation between transfer collections composes across handlers |
| `TransferModel.SettledTransferNeverChanges` | backend/src/controllers/admin.controller.js:63-67 | a sold or canceled transfer never changes again |
| `DisputeModel.NewDispute` | backend/src/controllers/owner.controller.js:164-169 | a new dispute is waiting, live, with no admin recorded, stores the given fields, and is well formed exactly when all four are non-empty |
| `DisputeModel.Drop` | backend/src/controllers/owner.controller.js:193-195 | dropping sets status `Dropped` and the deletion time, and leaves every other field unchanged |
| `DisputeModel.Solve` | backend/src/controllers/admin.controller.js:121-122 | solving sets status `solved` and the admin, leaves whether the dispute is live unchanged, and leaves every other field unchanged |
| `DisputeModel.LogSucceedsTransitive` | backend/src/models/dispute.model.js:21-25 | "no dispute returns to waiting" composes across handlers |
| `UserModel.LowerAscii` | backend/src/models/user.model.js:11-17 | lowercasing maps each character on its own: an upper-case ASCII letter to its lower-case form, any other character to itself; so it keeps the length and whitespace positions and leaves no upper-case letter |
| `UserModel.LowerAsciiIdempotent` | backend/src/models/user.model.js:11-17 | lowercasing twice is lowercasing once |
| `UserModel.NormalEmail` | backend/src/models/user.model.js:11-17 | a stored email is trimmed and lower-case |
| `UserModel.NormalEmailIsTrimmedLowercase` | backend/src/models/user.model.js:11-17 | the stored email is exactly the lowercased trim of the input, whichever of `trim` and `lowercase` runs first |
| `UserModel.NormalEmailKeepsNormal` | backend/src/models/user.model.js:11-17 | an email already trimmed and lower-case is stored as given |
| `UserModel.NewUser` | backend/src/models/user.model.js:5-40 | a new user gets the role given or `owner`, is not deleted, and stores the trimmed citizen id, the normalised email, the trimmed phone number and name, and the password hash as given; it is well formed exactly when every required field is non-blank |
| `Database.FindLand` | backend/src/controllers/owner.controller.js:95 | the lookup returns a land whose parcel id is the trimmed query value, and returns none exactly when no land has it |
| `Database.FindLandFindsTheLand` | backend/src/models/land.model.js:5-10 | with unique parcel ids the lookup finds exactly the land carrying the id |
| `Database.BlankParcelIdNotFound` | backend/src/models/land.model.js:5-10 | a blank parcel id finds no land, since every stored parcel id is non-empty |
| `Database.FindUserByCitizenId` | backend/src/controllers/admin.controller.js:76 | the buyer lookup returns a user with that citizen id, and returns none exactly when no user has it |
| `Database.FindUserByEmail` | backend/src/models/user.model.js:11-17 | the email lookup returns a user with that email, and returns none exactly when no user has it |
| `Database.UsersValidAppend` | backend/src/models/user.model.js:5-17 | adding a well-formed user with a new citizen id and email keeps ids positional and citizen ids and emails unique |
| `Database.CitizenIdNamesOneUser` | backend/src/models/user.model.js:5-10 | with unique citizen ids the lookup names exactly the user carrying the id |
| `Database.LandsValidAppend` | backend/src/models/land.model.js:5-10 | adding a well-formed land as the next id with a new parcel id keeps parcel ids unique and every land's invariants |
| `Database.LandsValidUpdate` | backend/src/models/land.model.js:5-10 | replacing a land by one with the same parcel id that keeps the record invariants keeps the collection valid |
| `Database.WithLandStatus` | backend/src/controllers/owner.controller.js:174-175 | setting one land's status changes that field of that land only, and keeps the collection valid |
| `Database.LandsSucceedTransitive` | backend/src/models/land.model.js:5-38 | "lands are never removed and never change parcel id, size, usage or location" composes across handlers |
| `Database.DisputesValidAppend` | backend/src/models/dispute.model.js:5-25 | adding a well-formed waiting dispute as the next id keeps the disputes collection valid |
| `Database.FilingKeepsValid` | backend/src/controllers/owner.controller.js:164-175 | filing a dispute against a stored land, which appends the dispute and puts the land on dispute, keeps lands and disputes valid and only moves them on |
| `Database.TransfersValidAppend` | backend/src/models/transfer.model.js:5-32 | adding a well-formed active listing with no admin, recorded as the next id and not taken from a disputed land, keeps the transfers collection valid |
| `Database.TransfersValidSettle` | backend/src/models/transfer.model.js:10-32 | settling an active listing, sold with an admin recorded or canceled with none, keeps the transfers collection valid and moves only that listing on |
| `Database.CancelableIffActiveOwnListing` | backend/src/controllers/owner.controller.js:312-317 | under the invariant the cancel condition is exactly "own listing, still active" |
| `Database.Db.InsertUser` | backend/src/models/user.model.js:5-40 | a user is saved exactly when the normalised record is well formed and its citizen id and email are new; on success the user is appended, otherwise nothing changes and the error is a database refusal |
| `OwnerController.AddLand` | backend/src/controllers/owner.controller.js:76-124 | errors come in order, each exactly when its condition holds: missing field (size 0 included), unknown usage type, parcel id taken once trimmed, and a database refusal exactly when all checks pass but the parcel id is blank; it succeeds exactly when the trimmed id is neither blank nor taken; on success exactly the new land is appended, with the next id and the caller as owner; nothing else changes |
| `OwnerController.AddDispute` | backend/src/controllers/owner.controller.js:126-182 | errors come in order, each exactly when its condition holds: missing field, blank identifier, land not found by the trimmed id, and a database refusal exactly when the file URL is blank; on success the trimmed dispute is appended, it names the parcel id of the land found, and that land, and only it, goes on dispute |
| `OwnerController.RemoveDispute` | backend/src/controllers/owner.controller.js:183-216 | an unknown id is not found; otherwise the dispute is dropped and the land it names becomes active only if it was on dispute, and a missing land is tolerated |
| `OwnerController.AddToTransfer` | backend/src/controllers/owner.controller.js:264-299 | an unknown parcel is not found and a disputed one is refused, with nothing changed; otherwise the land is for sale, and the save of the listing is refused exactly when the seller or buyer is blank; on success an active listing records the previous status and the parcel id of the land found |
| `OwnerController.CancelTransfer` | backend/src/controllers/owner.controller.js:301-341 | a caller without a citizen id is refused; otherwise it succeeds exactly for the caller's own active listing (matched on the trimmed citizen id) with no admin recorded; the listing is canceled and its land, if any, gets the restored status; every other case leaves the state unchanged. This is the intended query: as written every cancel is not found (see Findings) |
| `OwnerController.RequestedStatus` | backend/src/controllers/owner.controller.js:21-29 | the status queried when it is one of the four, active otherwise |
| `OwnerController.GetMyLand` | backend/src/controllers/owner.controller.js:18-47 | returns exactly the caller's lands with the requested status, in collection order, and not found exactly when there are none |
| `OwnerController.SeeLands` | backend/src/controllers/owner.controller.js:50-74 | returns exactly the caller's lands, narrowed to the queried status only when it is valid, newest first |
| `OwnerController.DisputesOf` | backend/src/controllers/owner.controller.js:233-248 | exactly the live disputes where the citizen is owner or raiser, newest first |
| `OwnerController.MyDispute` | backend/src/controllers/owner.controller.js:218-262 | a caller without a citizen id is refused; otherwise the answer is the pagination of the caller's live disputes, newest first: the slice at `(page-1)*limit`, at most `limit` items, counting all of them, refused when the skip is negative |
| `OwnerController.MyDisputeListsEvery` | backend/src/controllers/owner.controller.js:229-257 | every live dispute of the caller is on some page |
| `OwnerController.TransfersOf` | backend/src/controllers/owner.controller.js:358-365 | exactly the transfers where the citizen is seller or buyer, newest first |
| `OwnerController.MyTransfer` | backend/src/controllers/owner.controller.js:343-379 | a caller without a citizen id is refused; otherwise the answer is the pagination of the transfers the trimmed citizen id sells or buys, newest first: the slice at `(page-1)*limit`, at most `limit` items, counting all of them, refused when the skip is negative |
| `OwnerController.MyTransferListsEvery` | backend/src/controllers/owner.controller.js:354-374 | every transfer the caller sells or buys, matched on the trimmed citizen id, is on some page |
| `AdminController.ApproveLand` | backend/src/controllers/admin.controller.js:20-47 | missing id refused, a parcel not found by the trimmed id is not found, state unchanged on error; otherwise that land, and only it, becomes approved as `LandModel.Approved` states, whatever its status was |
| `AdminController.ApproveTransfer` | backend/src/controllers/admin.controller.js:51-105 | errors come in order, each exactly when its condition holds and with no record changed: missing id, unknown transfer, not active, land missing, and user not found exactly when no user has the buyer's citizen id; on success the land passes to that user and the transfer is sold by the admin |
| `AdminController.FixDisputes` | backend/src/controllers/admin.controller.js:109-129 | succeeds exactly when the id is given and names a dispute; missing or unknown id refused; on success the dispute is solved whatever its status, and no land or transfer changes |
| `AdminController.SeeTransfers` | backend/src/controllers/admin.controller.js:132-152 | the answer is the pagination of all transfers newest first: the slice at `(page-1)*limit`, at most `limit` items, counting all of them, refused when the skip is negative, and the page itself newest first |
| `AdminController.SeeTransfersListsEvery` | backend/src/controllers/admin.controller.js:134-148 | every transfer is on some page |
| `AdminController.LiveDisputes` | backend/src/controllers/admin.controller.js:161-163 | exactly the disputes not soft-deleted, newest first |
| `AdminController.SeeDisputes` | backend/src/controllers/admin.controller.js:155-176 | the answer is the pagination of the live disputes newest first: the slice at `(page-1)*limit`, at most `limit` items, counting all of them, refused when the skip is negative |
| `AdminController.SeeDisputesListsEvery` | backend/src/controllers/admin.controller.js:157-171 | every live dispute is on some page |
| `Scenarios.ApprovedParcel` | backend/src/controllers/admin.controller.js:20-47 | registering then approving a parcel yields an active land with one open history entry for its owner |
| `Scenarios.SaleScenario` | backend/src/controllers/admin.controller.js:51-105 | after list and approve, the buyer owns the land, the history is the owner's closed entry then the buyer's open one, and the sold listing can be neither approved again nor canceled |
| `Scenarios.DisputeScenario` | backend/src/controllers/owner.controller.js:126-216 | filing puts the land on dispute, listing it is then refused, and dropping restores active |
| `Scenarios.CancelScenario` | backend/src/controllers/owner.controller.js:264-341 | listing makes the land for sale and canceling restores active, with the intended cancel query (as written the cancel is not found, see Findings) |
| `Scenarios.SolvedDisputeScenario` | backend/src/controllers/admin.controller.js:109-129 | solving a dispute leaves the land on dispute, and a later cancel, with the intended cancel query, overwrites that with the status recorded at listing |

## Left out

- The frontend, the routes, the authentication middleware and its role checks, JWT cookies and the database connection. The caller's ids are parameters.
- `getMe` in both controllers and `auth.controllers.js` (bcrypt and JWT). Its required-field and uniqueness checks are what `Database.Db.InsertUser` models with the user schema.
- Mongo `ObjectId` casting: ids are natural numbers. A malformed id makes `findById` throw a cast error, which the handler answers with 500; the model has no malformed ids.
- The generic 500 catch blocks for failures other than schema and unique-index refusals.
- `.populate` projections, and the `createdAt`/`updatedAt` timestamps other than their order.
- GPS coordinates are kept as given. A non-number latitude or longitude is passed as absent.
- Floating point: `sizeSqm` is a real number.
- Record order: a collection is read back in insertion order, and `createdAt` strictly increases with it. `OwnerController.GetMyLand` relies on the first, although `Land.find` without `.sort` has no order MongoDB promises. The newest-first listings rely on the second, which ignores two records created in the same millisecond, whose relative order the sort leaves open.
- Concurrent requests: `Promise.all` in `approvetransfer` is modelled as one atomic step. Both of its saves always succeed on a valid database.
- `OwnerController.AddToTransfer`: the body fields are taken as strings. An absent field, which the source passes to the query as `undefined`, is not modelled.
- `OwnerController.AddDispute`: non-string body fields (the handler's `typeof` checks) are not modelled; the fields are strings or absent.
- `Paging.Paginate`: `parseInt` of a string is not modelled. An absent, unparseable or zero query value is `None`, or 0, and takes the default.
- `UserModel.LowerAscii`: lowercases ASCII letters only, not the rest of Unicode.
- `OwnerController.CancelTransfer`: models the intended query, which matches a listing with no admin recorded. As written the query asks for `adminApproved` to be absent, which no saved transfer satisfies, so every cancel answers 404 (see Findings). `Scenarios.CancelScenario` and `Scenarios.SolvedDisputeScenario` use the intended query too.

## Findings

| source | as written | input that shows it | evidently intended | confidence | as-written member | corrected member |
|---|---|---|---|---|---|---|
| backend/src/controllers/owner.controller.js:312-317 | the cancel query requires `adminApproved: { $exists: false }`, but the schema's `default: null` (backend/src/models/transfer.model.js:29-32) writes the field into every saved transfer | any listing just created by `addToTransfer`, canceled by its seller | the seller may cancel an own active listing with no admin recorded | not executed; holds if the schema default is written on save | `TransferModel.CancelQueryAsWrittenMatchesNothing` | `TransferModel.FreshListingCancelableOnlyAsIntended` |
