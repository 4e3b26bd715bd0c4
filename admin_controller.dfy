/** The admin's handlers: approving a land, approving a transfer (which
    moves the ownership), solving a dispute, and the paginated listings of
    all transfers and all live disputes. The admin's id is a parameter. */
module AdminController {
  import opened Common
  import opened Text
  import opened Sequences
  import opened Paging
  import opened Database
  import L = LandModel
  import T = TransferModel
  import D = DisputeModel

  /** `approveLand`: a missing parcel id is refused and one whose trimmed
      form names no land is not found; otherwise the land becomes active and approved by `admin`
      whatever its status was, and an empty ownership history gets one
      open entry for the current owner. */
  method ApproveLand(db: Db, admin: UserId, parcelId: Option<string>, now: Time) returns (r: Result<L.Land>)
    requires db.Valid()
    modifies db
    ensures db.Valid()
    ensures LandsSucceed(old(db.lands), db.lands)
    ensures db.users == old(db.users) && db.disputes == old(db.disputes) && db.transfers == old(db.transfers)
    ensures r == Err(MissingField) <==> !Truthy(parcelId)
    ensures r == Err(NotFound(Lands)) <==> Truthy(parcelId) && FindLand(old(db.lands), parcelId.value).None?
    ensures r.Ok? <==> Truthy(parcelId) && FindLand(old(db.lands), parcelId.value).Some?
    ensures r.Err? ==> db.lands == old(db.lands)
    ensures r.Ok? ==>
      var i := FindLand(old(db.lands), parcelId.value).value;
      && r.value == L.Approved(old(db.lands)[i], admin, now)
      && db.lands == old(db.lands)[i := r.value]
  {
    if !Truthy(parcelId) {
      return Err(MissingField);
    }
    var found := FindLand(db.lands, parcelId.value);
    if found.None? {
      return Err(NotFound(Lands));
    }
    var i := found.value;
    var land := L.Approved(db.lands[i], admin, now);
    LandsValidUpdate(db.lands, i, land);
    db.lands := db.lands[i := land];
    r := Ok(land);
  }

  /** `approvetransfer`: refused, with no record changed, when the id is
      missing, the transfer is unknown or no longer active, its land is
      missing or no user has the buyer's citizen id. Otherwise the land
      passes to the buyer (closing the previous ownership entry and opening
      one for the buyer) and the transfer is sold, approved by `admin`. */
  method ApproveTransfer(db: Db, admin: UserId, transferId: Option<nat>, now: Time)
    returns (r: Result<(T.Transfer, L.Land)>)
    requires db.Valid()
    modifies db
    ensures db.Valid()
    ensures LandsSucceed(old(db.lands), db.lands)
    ensures T.LogSucceeds(old(db.transfers), db.transfers)
    ensures db.users == old(db.users) && db.disputes == old(db.disputes)
    ensures r == Err(MissingField) <==> transferId.None?
    ensures r == Err(NotFound(Transfers)) <==> transferId.Some? && transferId.value >= |old(db.transfers)|
    ensures r == Err(TransferNotActive) <==>
      transferId.Some? && transferId.value < |old(db.transfers)| && old(db.transfers)[transferId.value].status != T.Active
    ensures r == Err(NotFound(Lands)) <==>
      && transferId.Some? && transferId.value < |old(db.transfers)|
      && old(db.transfers)[transferId.value].status == T.Active
      && FindLand(old(db.lands), old(db.transfers)[transferId.value].parcelId).None?
    ensures r == Err(NotFound(Users)) <==>
      && transferId.Some? && transferId.value < |old(db.transfers)|
      && old(db.transfers)[transferId.value].status == T.Active
      && FindLand(old(db.lands), old(db.transfers)[transferId.value].parcelId).Some?
      && FindUserByCitizenId(old(db.users), old(db.transfers)[transferId.value].buyerCitizenId).None?
    ensures r.Ok? <==>
      && transferId.Some? && transferId.value < |old(db.transfers)|
      && old(db.transfers)[transferId.value].status == T.Active
      && FindLand(old(db.lands), old(db.transfers)[transferId.value].parcelId).Some?
      && FindUserByCitizenId(old(db.users), old(db.transfers)[transferId.value].buyerCitizenId).Some?
    ensures r.Err? ==> db.lands == old(db.lands) && db.transfers == old(db.transfers)
    ensures r.Ok? ==>
      var t := old(db.transfers)[transferId.value];
      var i := FindLand(old(db.lands), t.parcelId).value;
      var buyer := old(db.users)[FindUserByCitizenId(old(db.users), t.buyerCitizenId).value];
      && r.value.0 == t.(status := T.Sold, adminApproved := Some(admin))
      && r.value.1 == L.TransferredTo(old(db.lands)[i], buyer.id, admin, now)
      && db.transfers == old(db.transfers)[transferId.value := r.value.0]
      && db.lands == old(db.lands)[i := r.value.1]
      && r.value.1.ownerId == buyer.id && buyer.citizenId == t.buyerCitizenId
  {
    if transferId.None? {
      return Err(MissingField);
    }
    var id := transferId.value;
    if id >= |db.transfers| {
      return Err(NotFound(Transfers));
    }
    var transfer := db.transfers[id];
    if transfer.status != T.Active {
      return Err(TransferNotActive);
    }
    var found := FindLand(db.lands, transfer.parcelId);
    if found.None? {
      return Err(NotFound(Lands));
    }
    var buyer := FindUserByCitizenId(db.users, transfer.buyerCitizenId);
    if buyer.None? {
      return Err(NotFound(Users));
    }
    var i := found.value;
    var land := L.TransferredTo(db.lands[i], db.users[buyer.value].id, admin, now);
    var sold := transfer.(status := T.Sold, adminApproved := Some(admin));
    LandsValidUpdate(db.lands, i, land);
    TransfersValidSettle(db.transfers, id, sold);
    db.lands := db.lands[i := land];
    db.transfers := db.transfers[id := sold];
    r := Ok((sold, land));
  }

  /** `fixDisputes`: a missing or unknown id is refused; otherwise the
      dispute is solved by `admin` whatever its status was. No land
      changes, so a land put on dispute stays on dispute. */
  method FixDisputes(db: Db, admin: UserId, disputeId: Option<nat>) returns (r: Result<D.Dispute>)
    requires db.Valid()
    modifies db
    ensures db.Valid()
    ensures D.LogSucceeds(old(db.disputes), db.disputes)
    ensures db.users == old(db.users) && db.lands == old(db.lands) && db.transfers == old(db.transfers)
    ensures r == Err(MissingField) <==> disputeId.None?
    ensures r == Err(NotFound(Disputes)) <==> disputeId.Some? && disputeId.value >= |old(db.disputes)|
    ensures r.Ok? <==> disputeId.Some? && disputeId.value < |old(db.disputes)|
    ensures r.Err? ==> db.disputes == old(db.disputes)
    ensures r.Ok? ==>
      && disputeId.Some? && disputeId.value < |old(db.disputes)|
      && r.value == D.Solve(old(db.disputes)[disputeId.value], admin)
      && db.disputes == old(db.disputes)[disputeId.value := r.value]
  {
    if disputeId.None? {
      return Err(MissingField);
    }
    var id := disputeId.value;
    if id >= |db.disputes| {
      return Err(NotFound(Disputes));
    }
    var dispute := D.Solve(db.disputes[id], admin);
    db.disputes := db.disputes[id := dispute];
    r := Ok(dispute);
  }

  /** `seeTransfers`: one page of all transfers, newest first. */
  function SeeTransfers(transfers: seq<T.Transfer>, pageQ: Option<int>, limitQ: Option<int>)
    : (r: Result<Page<T.Transfer>>)
    ensures r == Paginate(NewestFirst(transfers), pageQ, limitQ)
    ensures r.Ok? && TransfersValid(transfers) ==>
      forall i, j :: 0 <= i < j < |r.value.items| ==> r.value.items[i].id > r.value.items[j].id
    ensures r.Err? ==> r.error == DatabaseError
    ensures r.Ok? ==> r.value.totalItems == |transfers|
    ensures r.Ok? ==> |r.value.items| <= Abs(QueryInt(limitQ, 10))
    ensures r.Ok? ==> forall t :: t in r.value.items ==> t in transfers
    ensures r.Ok? && QueryInt(pageQ, 1) == 1 && transfers != [] ==>
      r.value.items != [] && r.value.items[0] == transfers[|transfers| - 1]
  {
    var all := NewestFirst(transfers);
    var r := Paginate(all, pageQ, limitQ);
    assert r.Ok? && TransfersValid(transfers) ==> Descending(r.value.items, (t: T.Transfer) => t.id) by {
      if TransfersValid(transfers) {
        NewestFirstDescends(transfers, (t: T.Transfer) => t.id);
        PageKeepsOrder(all, pageQ, limitQ, (t: T.Transfer) => t.id);
      }
    }
    assert r.Ok? ==> forall t :: t in r.value.items ==> t in transfers by {
      if r.Ok? {
        forall t | t in r.value.items ensures t in transfers {
          var k :| 0 <= k < |r.value.items| && r.value.items[k] == t;
          assert all[Skip(QueryInt(pageQ, 1), QueryInt(limitQ, 10)) + k] == t;
        }
      }
    }
    r
  }

  /** Every transfer is on some page of `seeTransfers`. */
  lemma SeeTransfersListsEvery(transfers: seq<T.Transfer>, limit: int, t: T.Transfer)
    requires 0 < limit && t in transfers
    ensures exists page :: 1 <= page && SeeTransfers(transfers, Some(page), Some(limit)).Ok?
                           && t in SeeTransfers(transfers, Some(page), Some(limit)).value.items
  {
    var all := NewestFirst(transfers);
    assert t in multiset(transfers);
    assert t in all;
    EveryElementListed(all, limit, t);
  }

  /** The disputes `seeDisputes` lists: the live ones, newest first. */
  function LiveDisputes(disputes: seq<D.Dispute>): (r: seq<D.Dispute>)
    ensures |r| <= |disputes|
    ensures forall d :: d in r <==> d in disputes && D.Live(d)
    ensures DisputesValid(disputes) ==> forall i, j :: 0 <= i < j < |r| ==> r[i].id > r[j].id
  {
    var live := Filter(disputes, (d: D.Dispute) => D.Live(d));
    var r := NewestFirst(live);
    assert DisputesValid(disputes) ==> Descending(r, (d: D.Dispute) => d.id) by {
      if DisputesValid(disputes) {
        FilterKeepsOrder(disputes, (d: D.Dispute) => D.Live(d), (d: D.Dispute) => d.id);
        NewestFirstDescends(live, (d: D.Dispute) => d.id);
      }
    }
    assert forall d :: d in r <==> d in live by {
      forall d ensures d in r <==> d in live {
        assert d in r <==> d in multiset(r);
        assert d in live <==> d in multiset(live);
      }
    }
    r
  }

  /** `seeDisputes`: one page of the live disputes, newest first; dropped
      disputes never appear. */
  function SeeDisputes(disputes: seq<D.Dispute>, pageQ: Option<int>, limitQ: Option<int>)
    : (r: Result<Page<D.Dispute>>)
    ensures r == Paginate(LiveDisputes(disputes), pageQ, limitQ)
    ensures r.Ok? && DisputesValid(disputes) ==>
      forall i, j :: 0 <= i < j < |r.value.items| ==> r.value.items[i].id > r.value.items[j].id
    ensures r.Err? ==> r.error == DatabaseError
    ensures r.Ok? ==> r.value.totalItems == |LiveDisputes(disputes)|
    ensures r.Ok? ==> |r.value.items| <= Abs(QueryInt(limitQ, 10))
    ensures r.Ok? ==> forall d :: d in r.value.items ==> d in disputes && D.Live(d)
  {
    var all := LiveDisputes(disputes);
    var r := Paginate(all, pageQ, limitQ);
    assert r.Ok? ==> forall d :: d in r.value.items ==> d in all by {
      if r.Ok? {
        forall d | d in r.value.items ensures d in all {
          var k :| 0 <= k < |r.value.items| && r.value.items[k] == d;
        }
      }
    }
    r
  }

  /** Every live dispute is on some page of `seeDisputes`. */
  lemma SeeDisputesListsEvery(disputes: seq<D.Dispute>, limit: int, d: D.Dispute)
    requires 0 < limit && d in disputes && D.Live(d)
    ensures exists page :: 1 <= page && SeeDisputes(disputes, Some(page), Some(limit)).Ok?
                           && d in SeeDisputes(disputes, Some(page), Some(limit)).value.items
  {
    EveryElementListed(LiveDisputes(disputes), limit, d);
  }
}
