/** End-to-end runs of the handlers on a fresh database, for any parcel id
    and any pair of citizens: a sale approved by an admin, a dispute filed
    and dropped, and a listing canceled. Each run's outcome follows from
    the handlers' contracts alone. */
module Scenarios {
  import opened Common
  import opened Text
  import opened Database
  import opened OwnerController
  import opened AdminController
  import U = UserModel
  import L = LandModel
  import T = TransferModel

  /** An identifier as the schemas store it: non-empty and trimmed. */
  predicate Word(s: string) {
    s != "" && Trimmed(s)
  }

  /** Two citizens with distinct citizen ids and emails. */
  predicate Citizens(ownerId: string, ownerEmail: string, buyerId: string, buyerEmail: string) {
    && Word(ownerId) && Word(ownerEmail) && U.IsLower(ownerEmail)
    && Word(buyerId) && Word(buyerEmail) && U.IsLower(buyerEmail)
    && ownerId != buyerId && ownerEmail != buyerEmail
  }

  /** Signs up a user whose fields are already in stored form. */
  method SignUp(db: Db, citizenId: string, email: string) returns (u: U.User)
    requires db.Valid()
    requires Word(citizenId) && Word(email) && U.IsLower(email)
    requires forall k :: 0 <= k < |db.users| ==> db.users[k].citizenId != citizenId && db.users[k].email != email
    modifies db
    ensures db.Valid()
    ensures u == U.User(|old(db.users)|, citizenId, email, "0911000000", "Citizen", U.Owner, "hash", None)
    ensures db.users == old(db.users) + [u]
    ensures db.lands == old(db.lands) && db.disputes == old(db.disputes) && db.transfers == old(db.transfers)
  {
    TrimKeepsTrimmed(citizenId);
    U.NormalEmailKeepsNormal(email);
    TrimmedWord("0911000000");
    TrimmedWord("Citizen");
    var r := db.InsertUser(citizenId, email, "0911000000", "Citizen", None, "hash");
    u := r.value;
  }

  /** The owner (user 0) and the buyer (user 1) signed up, and the owner's
      parcel registered and approved by `admin` at time `now`. */
  method ApprovedParcel(parcelId: string, ownerId: string, ownerEmail: string, buyerId: string, buyerEmail: string,
                        admin: UserId, now: Time) returns (db: Db)
    requires Word(parcelId) && Citizens(ownerId, ownerEmail, buyerId, buyerEmail)
    ensures fresh(db) && db.Valid()
    ensures |db.users| == 2 && db.users[0].citizenId == ownerId && db.users[1].citizenId == buyerId
    ensures db.users[1].id == 1
    ensures |db.lands| == 1 && db.lands[0].parcelId == parcelId && db.lands[0].ownerId == 0
    ensures db.lands[0].status == L.Active && db.lands[0].approvedBy == Some(admin)
    ensures db.lands[0].ownershipHistory == [L.HistoryEntry(0, now, None)]
    ensures db.disputes == [] && db.transfers == []
  {
    db := new Db();
    var owner := SignUp(db, ownerId, ownerEmail);
    var buyer := SignUp(db, buyerId, buyerEmail);
    TrimmedWord(parcelId);
    var added := AddLand(db, owner.id, Some(parcelId), Some(500.0), Some("residential"), None, None, None);
    assert added.Ok?;
    var approved := ApproveLand(db, admin, Some(parcelId), now);
    assert approved.Ok?;
  }

  /** The sale: the owner lists the parcel for the buyer and an admin
      approves. The buyer owns the land, the history holds the owner's
      closed entry and the buyer's open one, and the sold listing can
      neither be approved again nor canceled. */
  method SaleScenario(parcelId: string, ownerId: string, ownerEmail: string, buyerId: string, buyerEmail: string,
                      admin: UserId)
    returns (sold: T.Transfer, land: L.Land, again: Result<(T.Transfer, L.Land)>, cancel: Result<T.Transfer>)
    requires Word(parcelId) && Citizens(ownerId, ownerEmail, buyerId, buyerEmail)
    ensures sold.status == T.Sold && sold.adminApproved == Some(admin) && sold.buyerCitizenId == buyerId
    ensures land.parcelId == parcelId && land.ownerId == 1 && land.status == L.Active
    ensures land.ownershipHistory == [L.HistoryEntry(0, 10, Some(20)), L.HistoryEntry(1, 20, None)]
    ensures again == Err(TransferNotActive)
    ensures cancel == Err(NotFound(Transfers))
  {
    var db := ApprovedParcel(parcelId, ownerId, ownerEmail, buyerId, buyerEmail, admin, 10);
    TrimmedWord(ownerId);
    TrimmedWord(buyerId);
    var listed := AddToTransfer(db, parcelId, ownerId, buyerId);
    assert listed.Ok?;
    FindLandFindsTheLand(db.lands, 0);
    CitizenIdNamesOneUser(db.users, 1);
    var approved := ApproveTransfer(db, admin, Some(0), 20);
    assert approved.Ok?;
    sold, land := approved.value.0, approved.value.1;
    again := ApproveTransfer(db, admin, Some(0), 30);
    cancel := CancelTransfer(db, Some(ownerId), 0);
  }

  /** The dispute: filing on the parcel puts it on dispute and blocks
      listing it; dropping the dispute brings it back to active. */
  method DisputeScenario(parcelId: string, ownerId: string, ownerEmail: string, buyerId: string, buyerEmail: string,
                         fileUrl: string, admin: UserId)
    returns (filed: L.LandStatus, listing: Result<T.Transfer>, dropped: L.LandStatus)
    requires Word(parcelId) && Citizens(ownerId, ownerEmail, buyerId, buyerEmail) && Word(fileUrl)
    ensures filed == L.OnDispute
    ensures listing == Err(LandOnDispute)
    ensures dropped == L.Active
  {
    var db := ApprovedParcel(parcelId, ownerId, ownerEmail, buyerId, buyerEmail, admin, 10);
    TrimmedWord(parcelId);
    TrimmedWord(ownerId);
    TrimmedWord(buyerId);
    TrimmedWord(fileUrl);
    FindLandFindsTheLand(db.lands, 0);
    var dispute := AddDispute(db, Some(fileUrl), Some(parcelId), Some(ownerId), Some(buyerId));
    assert dispute.Ok?;
    filed := db.lands[0].status;
    FindLandFindsTheLand(db.lands, 0);
    listing := AddToTransfer(db, parcelId, ownerId, buyerId);
    FindLandFindsTheLand(db.lands, 0);
    var removed := RemoveDispute(db, 0, 20);
    dropped := db.lands[0].status;
  }

  /** Listing then canceling gives the land back the status it had. */
  method CancelScenario(parcelId: string, ownerId: string, ownerEmail: string, buyerId: string, buyerEmail: string,
                        admin: UserId)
    returns (listed: L.LandStatus, canceled: L.LandStatus)
    requires Word(parcelId) && Citizens(ownerId, ownerEmail, buyerId, buyerEmail)
    ensures listed == L.ForSell && canceled == L.Active
  {
    var db := ApprovedParcel(parcelId, ownerId, ownerEmail, buyerId, buyerEmail, admin, 10);
    TrimmedWord(ownerId);
    TrimmedWord(buyerId);
    FindLandFindsTheLand(db.lands, 0);
    var listing := AddToTransfer(db, parcelId, ownerId, buyerId);
    assert listing.Ok?;
    listed := db.lands[0].status;
    FindLandFindsTheLand(db.lands, 0);
    var cancel := CancelTransfer(db, Some(ownerId), 0);
    assert cancel.Ok?;
    canceled := db.lands[0].status;
  }

  /** A dispute filed while the parcel is listed and then solved leaves the
      land on dispute; canceling the listing afterwards overwrites that
      with the status recorded at listing. */
  method SolvedDisputeScenario(parcelId: string, ownerId: string, ownerEmail: string, buyerId: string,
                               buyerEmail: string, fileUrl: string, admin: UserId)
    returns (solved: L.LandStatus, canceled: L.LandStatus)
    requires Word(parcelId) && Citizens(ownerId, ownerEmail, buyerId, buyerEmail) && Word(fileUrl)
    ensures solved == L.OnDispute && canceled == L.Active
  {
    var db := ApprovedParcel(parcelId, ownerId, ownerEmail, buyerId, buyerEmail, admin, 10);
    TrimmedWord(parcelId);
    TrimmedWord(ownerId);
    TrimmedWord(buyerId);
    TrimmedWord(fileUrl);
    FindLandFindsTheLand(db.lands, 0);
    var listing := AddToTransfer(db, parcelId, ownerId, buyerId);
    assert listing.Ok?;
    FindLandFindsTheLand(db.lands, 0);
    var dispute := AddDispute(db, Some(fileUrl), Some(parcelId), Some(ownerId), Some(buyerId));
    assert dispute.Ok?;
    var fixed := FixDisputes(db, admin, Some(0));
    solved := db.lands[0].status;
    FindLandFindsTheLand(db.lands, 0);
    var cancel := CancelTransfer(db, Some(ownerId), 0);
    assert cancel.Ok?;
    canceled := db.lands[0].status;
  }
}
