/** The owner's handlers: registering a land, filing and dropping a
    dispute, listing a parcel for transfer and cancelling the listing, and
    the owner's filtered and paginated queries. The caller's id and citizen
    id, which the authentication layer supplies, are parameters. */
module OwnerController {
  import opened Common
  import opened Text
  import opened Sequences
  import opened Paging
  import opened Database
  import L = LandModel
  import T = TransferModel
  import D = DisputeModel

  /** What every owner handler keeps: the invariants, and the
      history of lands, disputes and transfers only moves forward. */
  ghost predicate Progresses(db: Db, lands: seq<L.Land>, disputes: seq<D.Dispute>, transfers: seq<T.Transfer>)
    reads db
  {
    && db.Valid()
    && LandsSucceed(lands, db.lands)
    && D.LogSucceeds(disputes, db.disputes)
    && T.LogSucceeds(transfers, db.transfers)
  }

  /** `addLand`: the three required fields must be truthy (a size of 0 is
      refused, a negative one is not), the usage type must be one of the
      three, and the (trimmed) parcel id must not be registered yet. The
      schema trims the parcel id on save, so a blank id is refused by the
      database as a missing required field. */
  method AddLand(db: Db, caller: UserId, parcelId: Option<string>, sizeSqm: Option<real>,
                 usageType: Option<string>, address: Option<string>,
                 latitude: Option<real>, longitude: Option<real>) returns (r: Result<L.Land>)
    requires db.Valid()
    modifies db
    ensures Progresses(db, old(db.lands), old(db.disputes), old(db.transfers))
    ensures db.users == old(db.users) && db.disputes == old(db.disputes) && db.transfers == old(db.transfers)
    ensures r == Err(MissingField) <==> !Truthy(parcelId) || !TruthyNumber(sizeSqm) || !Truthy(usageType)
    ensures r == Err(InvalidField) <==>
      && Truthy(parcelId) && TruthyNumber(sizeSqm) && Truthy(usageType)
      && L.ParseUsageType(usageType.value).None?
    ensures r == Err(DuplicateParcel) <==>
      && Truthy(parcelId) && TruthyNumber(sizeSqm) && Truthy(usageType)
      && L.ParseUsageType(usageType.value).Some?
      && FindLand(old(db.lands), parcelId.value).Some?
    ensures r == Err(DatabaseError) <==>
      && Truthy(parcelId) && TruthyNumber(sizeSqm) && Truthy(usageType)
      && L.ParseUsageType(usageType.value).Some?
      && Blank(parcelId.value)
    ensures r.Ok? <==>
      && Truthy(parcelId) && TruthyNumber(sizeSqm) && Truthy(usageType)
      && L.ParseUsageType(usageType.value).Some?
      && !Blank(parcelId.value)
      && FindLand(old(db.lands), parcelId.value).None?
    ensures r.Ok? ==>
      && r.value == L.NewLand(|old(db.lands)|, parcelId.value, caller, sizeSqm.value,
                              L.ParseUsageType(usageType.value).value, address, latitude, longitude)
      && db.lands == old(db.lands) + [r.value]
    ensures r.Err? ==> db.lands == old(db.lands)
  {
    if !Truthy(parcelId) || !TruthyNumber(sizeSqm) || !Truthy(usageType) {
      return Err(MissingField);
    }
    var usage := L.ParseUsageType(usageType.value);
    if usage.None? {
      return Err(InvalidField);
    }
    if FindLand(db.lands, parcelId.value).Some? {
      return Err(DuplicateParcel);
    }
    if Blank(parcelId.value) {
      BlankParcelIdNotFound(db.lands, parcelId.value);
    }
    var land := L.NewLand(|db.lands|, parcelId.value, caller, sizeSqm.value, usage.value, address, latitude, longitude);
    if !L.WellFormed(land) {
      // the schema's `required` on a parcel id that trims to ""; the unique
      // index cannot refuse it, as the lookup already used the trimmed id
      return Err(DatabaseError);
    }
    TrimIdempotent(parcelId.value);
    LandsValidAppend(db.lands, land);
    db.lands := db.lands + [land];
    r := Ok(land);
  }

  /** A request field that is present and not blank once trimmed. */
  predicate Filled(s: Option<string>) {
    s.Some? && !Blank(s.value)
  }

  /** `addDispute`'s first check: all four fields truthy. */
  predicate DisputeFieldsGiven(fileUrl: Option<string>, parcelId: Option<string>,
                               landOwnerCitizenId: Option<string>, raisedByUserCitizenId: Option<string>) {
    Truthy(fileUrl) && Truthy(parcelId) && Truthy(landOwnerCitizenId) && Truthy(raisedByUserCitizenId)
  }

  /** `addDispute`'s second check: the three identifiers non-blank. */
  predicate DisputeIdsFilled(parcelId: Option<string>, landOwnerCitizenId: Option<string>,
                             raisedByUserCitizenId: Option<string>) {
    Filled(parcelId) && Filled(landOwnerCitizenId) && Filled(raisedByUserCitizenId)
  }

  /** `addDispute`: the four fields must be truthy and the three
      identifiers non-blank; the land must exist, and the dispute stores
      the trimmed fields (a file URL that trims to "" is refused by the
      schema). The dispute is saved first, then the land is put on dispute
      whatever its status was. */
  method AddDispute(db: Db, fileUrl: Option<string>, parcelId: Option<string>,
                    landOwnerCitizenId: Option<string>, raisedByUserCitizenId: Option<string>)
    returns (r: Result<D.Dispute>)
    requires db.Valid()
    modifies db
    ensures Progresses(db, old(db.lands), old(db.disputes), old(db.transfers))
    ensures db.users == old(db.users) && db.transfers == old(db.transfers)
    ensures r == Err(MissingField) <==> !DisputeFieldsGiven(fileUrl, parcelId, landOwnerCitizenId, raisedByUserCitizenId)
    ensures r == Err(InvalidField) <==>
      && DisputeFieldsGiven(fileUrl, parcelId, landOwnerCitizenId, raisedByUserCitizenId)
      && !DisputeIdsFilled(parcelId, landOwnerCitizenId, raisedByUserCitizenId)
    ensures r == Err(NotFound(Lands)) <==>
      && DisputeFieldsGiven(fileUrl, parcelId, landOwnerCitizenId, raisedByUserCitizenId)
      && DisputeIdsFilled(parcelId, landOwnerCitizenId, raisedByUserCitizenId)
      && FindLand(old(db.lands), parcelId.value).None?
    ensures r == Err(DatabaseError) <==>
      && DisputeFieldsGiven(fileUrl, parcelId, landOwnerCitizenId, raisedByUserCitizenId)
      && DisputeIdsFilled(parcelId, landOwnerCitizenId, raisedByUserCitizenId)
      && FindLand(old(db.lands), parcelId.value).Some?
      && !Filled(fileUrl)
    ensures r.Ok? <==>
      && DisputeFieldsGiven(fileUrl, parcelId, landOwnerCitizenId, raisedByUserCitizenId)
      && DisputeIdsFilled(parcelId, landOwnerCitizenId, raisedByUserCitizenId)
      && FindLand(old(db.lands), parcelId.value).Some?
      && Filled(fileUrl)
    ensures r.Ok? ==>
      && r.value == D.NewDispute(|old(db.disputes)|, Trim(fileUrl.value), Trim(parcelId.value),
                                 Trim(landOwnerCitizenId.value), Trim(raisedByUserCitizenId.value))
      && db.disputes == old(db.disputes) + [r.value]
      && db.lands == WithLandStatus(old(db.lands), FindLand(old(db.lands), parcelId.value).value, L.OnDispute)
    ensures r.Ok? ==> r.value.parcelId == old(db.lands)[FindLand(old(db.lands), parcelId.value).value].parcelId
    ensures r.Err? ==> db.lands == old(db.lands) && db.disputes == old(db.disputes)
  {
    if !DisputeFieldsGiven(fileUrl, parcelId, landOwnerCitizenId, raisedByUserCitizenId) {
      return Err(MissingField);
    }
    if !DisputeIdsFilled(parcelId, landOwnerCitizenId, raisedByUserCitizenId) {
      return Err(InvalidField);
    }
    var found := FindLand(db.lands, parcelId.value);
    if found.None? {
      return Err(NotFound(Lands));
    }
    var dispute := D.NewDispute(|db.disputes|, Trim(fileUrl.value), Trim(parcelId.value),
                                Trim(landOwnerCitizenId.value), Trim(raisedByUserCitizenId.value));
    if !D.WellFormed(dispute) {
      // the schema's `required` on a file URL that trims to ""
      return Err(DatabaseError);
    }
    FilingKeepsValid(db.lands, db.disputes, found.value, dispute);
    db.disputes := db.disputes + [dispute];
    db.lands := WithLandStatus(db.lands, found.value, L.OnDispute);
    r := Ok(dispute);
  }

  /** `removeDispute`: an unknown id is not found; otherwise the dispute is
      dropped and soft-deleted whatever its status was, and the land it
      names, if there is one, goes back to active only when it is on
      dispute. */
  method RemoveDispute(db: Db, disputeId: nat, now: Time) returns (r: Result<D.Dispute>)
    requires db.Valid()
    modifies db
    ensures Progresses(db, old(db.lands), old(db.disputes), old(db.transfers))
    ensures db.users == old(db.users) && db.transfers == old(db.transfers)
    ensures r.Err? <==> disputeId >= |old(db.disputes)|
    ensures r.Err? ==> r.error == NotFound(Disputes) && db.lands == old(db.lands) && db.disputes == old(db.disputes)
    ensures r.Ok? ==>
      && r.value == D.Drop(old(db.disputes)[disputeId], now)
      && db.disputes == old(db.disputes)[disputeId := r.value]
    ensures r.Ok? ==>
      var found := FindLand(old(db.lands), r.value.parcelId);
      if found.Some? && old(db.lands)[found.value].status == L.OnDispute
      then db.lands == WithLandStatus(old(db.lands), found.value, L.Active)
      else db.lands == old(db.lands)
  {
    if disputeId >= |db.disputes| {
      return Err(NotFound(Disputes));
    }
    var dispute := D.Drop(db.disputes[disputeId], now);
    db.disputes := db.disputes[disputeId := dispute];
    if dispute.parcelId != "" {
      var found := FindLand(db.lands, dispute.parcelId);
      if found.Some? && db.lands[found.value].status == L.OnDispute {
        db.lands := WithLandStatus(db.lands, found.value, L.Active);
      }
    }
    r := Ok(dispute);
  }

  /** `addToTransfer`: the parcel must be registered (looked up by its
      trimmed id) and not on dispute;
      its status is recorded in the listing and the land is saved as for
      sale before the listing is saved, so a listing the schema refuses (a
      blank seller or buyer) leaves the land for sale. Neither the seller
      nor the buyer is checked against the users or the land's owner. */
  method AddToTransfer(db: Db, parcelId: string, sellerCitizenId: string, buyerCitizenId: string)
    returns (r: Result<T.Transfer>)
    requires db.Valid()
    modifies db
    ensures Progresses(db, old(db.lands), old(db.disputes), old(db.transfers))
    ensures db.users == old(db.users) && db.disputes == old(db.disputes)
    ensures r == Err(NotFound(Lands)) <==> FindLand(old(db.lands), parcelId).None?
    ensures r == Err(LandOnDispute) <==>
      FindLand(old(db.lands), parcelId).Some? && old(db.lands)[FindLand(old(db.lands), parcelId).value].status == L.OnDispute
    ensures r.Ok? <==>
      && FindLand(old(db.lands), parcelId).Some?
      && old(db.lands)[FindLand(old(db.lands), parcelId).value].status != L.OnDispute
      && !Blank(sellerCitizenId) && !Blank(buyerCitizenId)
    ensures r == Err(DatabaseError) <==>
      && FindLand(old(db.lands), parcelId).Some?
      && old(db.lands)[FindLand(old(db.lands), parcelId).value].status != L.OnDispute
      && (Blank(sellerCitizenId) || Blank(buyerCitizenId))
    ensures r == Err(NotFound(Lands)) || r == Err(LandOnDispute) ==> db.lands == old(db.lands)
    ensures r.Ok? || r == Err(DatabaseError) ==>
      var i := FindLand(old(db.lands), parcelId).value;
      db.lands == WithLandStatus(old(db.lands), i, L.ForSell)
    ensures r.Ok? ==>
      var i := FindLand(old(db.lands), parcelId).value;
      && r.value == T.NewTransfer(|old(db.transfers)|, parcelId, sellerCitizenId, buyerCitizenId, old(db.lands)[i].status)
      && r.value.parcelId == old(db.lands)[i].parcelId
      && db.transfers == old(db.transfers) + [r.value]
    ensures r.Err? ==> db.transfers == old(db.transfers)
  {
    var found := FindLand(db.lands, parcelId);
    if found.None? {
      return Err(NotFound(Lands));
    }
    var i := found.value;
    if db.lands[i].status == L.OnDispute {
      return Err(LandOnDispute);
    }
    var previous := db.lands[i].status;
    db.lands := WithLandStatus(db.lands, i, L.ForSell);
    var transfer := T.NewTransfer(|db.transfers|, parcelId, sellerCitizenId, buyerCitizenId, previous);
    if !T.WellFormed(transfer) {
      // the schema's `required` on a seller or buyer that trims to ""
      return Err(DatabaseError);
    }
    TransfersValidAppend(db.transfers, transfer);
    db.transfers := db.transfers + [transfer];
    r := Ok(transfer);
  }

  /** `cancelTransfer`: only the seller may cancel (the schema's `trim`
      setter trims the caller's citizen id in the query), and only an
      active listing with no admin recorded (the query the code means; see
      `T.CancelableAsWritten` for the one it writes). The listing is
      canceled and the land, if there is one, gets back the status
      recorded at listing, or active when none was. */
  method CancelTransfer(db: Db, citizenId: Option<string>, transferId: nat) returns (r: Result<T.Transfer>)
    requires db.Valid()
    modifies db
    ensures Progresses(db, old(db.lands), old(db.disputes), old(db.transfers))
    ensures db.users == old(db.users) && db.disputes == old(db.disputes)
    ensures r == Err(MissingField) <==> !Truthy(citizenId)
    ensures r.Ok? <==>
      && Truthy(citizenId) && transferId < |old(db.transfers)|
      && T.Cancelable(old(db.transfers)[transferId], Trim(citizenId.value))
    ensures r.Err? ==> (r.error == MissingField || r.error == NotFound(Transfers))
    ensures r.Err? ==> db.lands == old(db.lands) && db.transfers == old(db.transfers)
    ensures r.Ok? ==>
      && r.value == old(db.transfers)[transferId].(status := T.Canceled)
      && db.transfers == old(db.transfers)[transferId := r.value]
    ensures r.Ok? ==>
      var found := FindLand(old(db.lands), r.value.parcelId);
      if found.Some?
      then db.lands == WithLandStatus(old(db.lands), found.value, T.RestoredStatus(r.value))
      else db.lands == old(db.lands)
  {
    if !Truthy(citizenId) {
      return Err(MissingField);
    }
    if transferId >= |db.transfers| || !T.Cancelable(db.transfers[transferId], Trim(citizenId.value)) {
      return Err(NotFound(Transfers));
    }
    var transfer := db.transfers[transferId].(status := T.Canceled);
    TransfersValidSettle(db.transfers, transferId, transfer);
    db.transfers := db.transfers[transferId := transfer];
    var found := FindLand(db.lands, transfer.parcelId);
    if found.Some? {
      db.lands := WithLandStatus(db.lands, found.value, T.RestoredStatus(transfer));
    }
    r := Ok(transfer);
  }

  /** The status `getMyLand` filters on: the query's status when it names
      one of the four, `active` otherwise. */
  function RequestedStatus(statusQ: Option<string>): (s: L.LandStatus)
    ensures statusQ.Some? && statusQ.value in {"waitingToBeApproved", "forSell", "active", "onDispute"}
            ==> L.StatusName(s) == statusQ.value
    ensures s == L.Active || (statusQ.Some? && L.StatusName(s) == statusQ.value)
  {
    if statusQ.Some? && L.ParseStatus(statusQ.value).Some? then L.ParseStatus(statusQ.value).value else L.Active
  }

  /** `getMyLand`: the caller's lands with the requested status, in
      collection order; none at all is reported as not found. */
  function GetMyLand(lands: seq<L.Land>, caller: UserId, statusQ: Option<string>): (r: Result<seq<L.Land>>)
    ensures r.Err? <==>
      forall k :: 0 <= k < |lands| ==> !(lands[k].ownerId == caller && lands[k].status == RequestedStatus(statusQ))
    ensures r.Err? ==> r.error == NotFound(Lands)
    ensures r.Ok? ==> r.value != [] && |r.value| <= |lands|
    ensures r.Ok? ==> forall l :: l in r.value <==>
      l in lands && l.ownerId == caller && l.status == RequestedStatus(statusQ)
    ensures r.Ok? && LandsValid(lands) ==> forall i, j :: 0 <= i < j < |r.value| ==> r.value[i].id < r.value[j].id
  {
    var status := RequestedStatus(statusQ);
    var mine := Filter(lands, (l: L.Land) => l.ownerId == caller && l.status == status);
    assert LandsValid(lands) ==> Ascending(mine, (l: L.Land) => l.id) by {
      if LandsValid(lands) {
        FilterKeepsOrder(lands, (l: L.Land) => l.ownerId == caller && l.status == status, (l: L.Land) => l.id);
      }
    }
    if mine == [] then
      assert forall k :: 0 <= k < |lands| ==> lands[k] !in mine;
      Err(NotFound(Lands))
    else
      assert mine[0] in mine;
      Ok(mine)
  }

  /** `seeLands`: all the caller's lands, newest first, narrowed to the
      query's status only when it names one of the four. */
  function SeeLands(lands: seq<L.Land>, caller: UserId, statusQ: Option<string>): (r: seq<L.Land>)
    ensures |r| <= |lands|
    ensures forall l :: l in r <==>
      && l in lands && l.ownerId == caller
      && (statusQ.Some? && L.ParseStatus(statusQ.value).Some? ==> l.status == L.ParseStatus(statusQ.value).value)
    ensures LandsValid(lands) ==> forall i, j :: 0 <= i < j < |r| ==> r[i].id > r[j].id
  {
    var status := if statusQ.Some? then L.ParseStatus(statusQ.value) else None;
    var mine := Filter(lands, (l: L.Land) => l.ownerId == caller && (status.Some? ==> l.status == status.value));
    var r := NewestFirst(mine);
    assert LandsValid(lands) ==> Descending(r, (l: L.Land) => l.id) by {
      if LandsValid(lands) {
        FilterKeepsOrder(lands, (l: L.Land) => l.ownerId == caller && (status.Some? ==> l.status == status.value),
                         (l: L.Land) => l.id);
        NewestFirstDescends(mine, (l: L.Land) => l.id);
      }
    }
    assert forall l :: l in r <==> l in mine by {
      assert multiset(r) == multiset(mine);
      forall l ensures l in r <==> l in mine {
        assert l in r <==> l in multiset(r);
        assert l in mine <==> l in multiset(mine);
      }
    }
    r
  }

  /** The disputes `MyDispute` lists for `citizenId`: live ones where the
      citizen is the land owner or the one who raised it, newest first. */
  function DisputesOf(disputes: seq<D.Dispute>, citizenId: string): (r: seq<D.Dispute>)
    ensures |r| <= |disputes|
    ensures forall d :: d in r <==>
      d in disputes && D.Live(d) && (d.landOwnerCitizenId == citizenId || d.raisedByUserCitizenId == citizenId)
    ensures DisputesValid(disputes) ==> forall i, j :: 0 <= i < j < |r| ==> r[i].id > r[j].id
  {
    var mine := Filter(disputes, (d: D.Dispute) =>
      D.Live(d) && (d.landOwnerCitizenId == citizenId || d.raisedByUserCitizenId == citizenId));
    var r := NewestFirst(mine);
    assert DisputesValid(disputes) ==> Descending(r, (d: D.Dispute) => d.id) by {
      if DisputesValid(disputes) {
        FilterKeepsOrder(disputes, (d: D.Dispute) =>
          D.Live(d) && (d.landOwnerCitizenId == citizenId || d.raisedByUserCitizenId == citizenId),
          (d: D.Dispute) => d.id);
        NewestFirstDescends(mine, (d: D.Dispute) => d.id);
      }
    }
    assert forall d :: d in r <==> d in mine by {
      forall d ensures d in r <==> d in mine {
        assert d in r <==> d in multiset(r);
        assert d in mine <==> d in multiset(mine);
      }
    }
    r
  }

  /** `MyDispute`: one page of the caller's live disputes, newest first; a
      caller without a citizen id is refused. The dispute schema does not
      trim, so the citizen id is matched exactly. */
  function MyDispute(disputes: seq<D.Dispute>, citizenId: Option<string>, pageQ: Option<int>, limitQ: Option<int>)
    : (r: Result<Page<D.Dispute>>)
    ensures !Truthy(citizenId) ==> r == Err(MissingField)
    ensures Truthy(citizenId) && r.Err? ==> r.error == DatabaseError
    ensures Truthy(citizenId) ==> r == Paginate(DisputesOf(disputes, citizenId.value), pageQ, limitQ)
    ensures r.Ok? && DisputesValid(disputes) ==>
      forall i, j :: 0 <= i < j < |r.value.items| ==> r.value.items[i].id > r.value.items[j].id
    ensures r.Ok? ==> r.value.totalItems == |DisputesOf(disputes, citizenId.value)|
    ensures r.Ok? ==> |r.value.items| <= Abs(QueryInt(limitQ, 10))
    ensures r.Ok? ==> forall d :: d in r.value.items ==>
      d in disputes && D.Live(d) && (d.landOwnerCitizenId == citizenId.value || d.raisedByUserCitizenId == citizenId.value)
  {
    if !Truthy(citizenId) then Err(MissingField)
    else
      var all := DisputesOf(disputes, citizenId.value);
      var r := Paginate(all, pageQ, limitQ);
      assert r.Ok? ==> forall d :: d in r.value.items ==> d in all by {
        if r.Ok? {
          forall d | d in r.value.items ensures d in all {
            var k :| 0 <= k < |r.value.items| && r.value.items[k] == d;
          }
        }
      }
      r
  }

  /** Every live dispute of the caller is on some page of `MyDispute`,
      whatever the page size. */
  lemma MyDisputeListsEvery(disputes: seq<D.Dispute>, citizenId: string, limit: int, d: D.Dispute)
    requires citizenId != "" && 0 < limit
    requires d in disputes && D.Live(d)
    requires d.landOwnerCitizenId == citizenId || d.raisedByUserCitizenId == citizenId
    ensures exists page :: 1 <= page && MyDispute(disputes, Some(citizenId), Some(page), Some(limit)).Ok?
                           && d in MyDispute(disputes, Some(citizenId), Some(page), Some(limit)).value.items
  {
    EveryElementListed(DisputesOf(disputes, citizenId), limit, d);
  }

  /** The transfers `myTransfer` lists for `citizenId`: the ones where the
      citizen is seller or buyer, whatever their status, newest first. */
  function TransfersOf(transfers: seq<T.Transfer>, citizenId: string): (r: seq<T.Transfer>)
    ensures |r| <= |transfers|
    ensures forall t :: t in r <==>
      t in transfers && (t.sellerCitizenId == citizenId || t.buyerCitizenId == citizenId)
    ensures TransfersValid(transfers) ==> forall i, j :: 0 <= i < j < |r| ==> r[i].id > r[j].id
  {
    var mine := Filter(transfers, (t: T.Transfer) => t.sellerCitizenId == citizenId || t.buyerCitizenId == citizenId);
    var r := NewestFirst(mine);
    assert TransfersValid(transfers) ==> Descending(r, (t: T.Transfer) => t.id) by {
      if TransfersValid(transfers) {
        FilterKeepsOrder(transfers, (t: T.Transfer) => t.sellerCitizenId == citizenId || t.buyerCitizenId == citizenId,
                         (t: T.Transfer) => t.id);
        NewestFirstDescends(mine, (t: T.Transfer) => t.id);
      }
    }
    assert forall t :: t in r <==> t in mine by {
      forall t ensures t in r <==> t in mine {
        assert t in r <==> t in multiset(r);
        assert t in mine <==> t in multiset(mine);
      }
    }
    r
  }

  /** `myTransfer`: one page of the listings the caller sells or buys,
      newest first; a caller without a citizen id is refused. The schema's
      `trim` setter trims the citizen id in the query. */
  function MyTransfer(transfers: seq<T.Transfer>, citizenId: Option<string>, pageQ: Option<int>, limitQ: Option<int>)
    : (r: Result<Page<T.Transfer>>)
    ensures !Truthy(citizenId) ==> r == Err(MissingField)
    ensures Truthy(citizenId) && r.Err? ==> r.error == DatabaseError
    ensures Truthy(citizenId) ==> r == Paginate(TransfersOf(transfers, Trim(citizenId.value)), pageQ, limitQ)
    ensures r.Ok? && TransfersValid(transfers) ==>
      forall i, j :: 0 <= i < j < |r.value.items| ==> r.value.items[i].id > r.value.items[j].id
    ensures r.Ok? ==> r.value.totalItems == |TransfersOf(transfers, Trim(citizenId.value))|
    ensures r.Ok? ==> |r.value.items| <= Abs(QueryInt(limitQ, 10))
    ensures r.Ok? ==> forall t :: t in r.value.items ==>
      t in transfers && (t.sellerCitizenId == Trim(citizenId.value) || t.buyerCitizenId == Trim(citizenId.value))
  {
    if !Truthy(citizenId) then Err(MissingField)
    else
      var all := TransfersOf(transfers, Trim(citizenId.value));
      var r := Paginate(all, pageQ, limitQ);
      assert r.Ok? ==> forall t :: t in r.value.items ==> t in all by {
        if r.Ok? {
          forall t | t in r.value.items ensures t in all {
            var k :| 0 <= k < |r.value.items| && r.value.items[k] == t;
          }
        }
      }
      r
  }

  /** Every listing the caller sells or buys is on some page of
      `myTransfer`, whatever the page size. */
  lemma MyTransferListsEvery(transfers: seq<T.Transfer>, citizenId: string, limit: int, t: T.Transfer)
    requires citizenId != "" && 0 < limit
    requires t in transfers && (t.sellerCitizenId == Trim(citizenId) || t.buyerCitizenId == Trim(citizenId))
    ensures exists page :: 1 <= page && MyTransfer(transfers, Some(citizenId), Some(page), Some(limit)).Ok?
                           && t in MyTransfer(transfers, Some(citizenId), Some(page), Some(limit)).value.items
  {
    EveryElementListed(TransfersOf(transfers, Trim(citizenId)), limit, t);
  }
}
