/** The Land schema: a registered parcel, its closed status and usage enums,
    its ownership history, and the record-level changes the admin handlers
    make to it. */
module LandModel {
  import opened Common
  import opened Text

  datatype LandStatus = WaitingToBeApproved | ForSell | Active | OnDispute

  datatype UsageType = Business | Farming | Residential

  /** The status a new land gets when none is given. */
  const DefaultStatus: LandStatus := WaitingToBeApproved

  function StatusName(s: LandStatus): string {
    match s
    case WaitingToBeApproved => "waitingToBeApproved"
    case ForSell => "forSell"
    case Active => "active"
    case OnDispute => "onDispute"
  }

  /** The status a query or request string names, if it is one of the four. */
  function ParseStatus(s: string): (r: Option<LandStatus>)
    ensures r.Some? <==> s in {"waitingToBeApproved", "forSell", "active", "onDispute"}
    ensures r.Some? ==> StatusName(r.value) == s
  {
    if s == "waitingToBeApproved" then Some(WaitingToBeApproved)
    else if s == "forSell" then Some(ForSell)
    else if s == "active" then Some(Active)
    else if s == "onDispute" then Some(OnDispute)
    else None
  }

  lemma StatusNameParses(st: LandStatus)
    ensures ParseStatus(StatusName(st)) == Some(st)
  {
  }

  function UsageTypeName(u: UsageType): string {
    match u
    case Business => "business"
    case Farming => "farming"
    case Residential => "residential"
  }

  /** The usage type a request string names, if it is one of the three. */
  function ParseUsageType(s: string): (r: Option<UsageType>)
    ensures r.Some? <==> s in {"business", "farming", "residential"}
    ensures r.Some? ==> UsageTypeName(r.value) == s
  {
    if s == "business" then Some(Business)
    else if s == "farming" then Some(Farming)
    else if s == "residential" then Some(Residential)
    else None
  }

  lemma UsageTypeNameParses(u: UsageType)
    ensures ParseUsageType(UsageTypeName(u)) == Some(u)
  {
  }

  /** One ownership period; an absent `toDate` marks the open, current one. */
  datatype HistoryEntry = HistoryEntry(ownerId: UserId, fromDate: Time, toDate: Option<Time>) {
    predicate Open() {
      toDate.None?
    }
  }

  /** GPS coordinates are kept as given; nothing computes with them. */
  datatype Gps = Gps(latitude: Option<real>, longitude: Option<real>)

  datatype Location = Location(address: Option<string>, gps: Gps)

  /** A land as stored; `id` is its position in the collection, which
      orders lands as `createdAt` does. */
  datatype Land = Land(
    id: nat,
    parcelId: string,
    ownerId: UserId,
    location: Location,
    sizeSqm: real,
    usageType: UsageType,
    ownershipHistory: seq<HistoryEntry>,
    status: LandStatus,
    approvedBy: Option<UserId>)

  /** What the schema demands of a stored land beyond the field types:
      `parcelId` is required (non-empty) and trimmed. */
  predicate WellFormed(l: Land) {
    l.parcelId != "" && Trimmed(l.parcelId)
  }

  /** The ownership-history invariant: when the history is not empty, every
      entry but the last is closed, and the last is open and names the
      current owner. */
  predicate HistoryOk(l: Land) {
    var h := l.ownershipHistory;
    |h| > 0 ==>
      && (forall k :: 0 <= k < |h| - 1 ==> !h[k].Open())
      && h[|h| - 1].Open()
      && h[|h| - 1].ownerId == l.ownerId
  }

  /** Under the invariant at most one entry is open, and it is the current
      owner's. */
  lemma OnlyOpenEntryIsCurrentOwner(l: Land, j: nat, k: nat)
    requires HistoryOk(l)
    requires j < |l.ownershipHistory| && l.ownershipHistory[j].Open()
    requires k < |l.ownershipHistory| && l.ownershipHistory[k].Open()
    ensures j == k && l.ownershipHistory[k].ownerId == l.ownerId
  {
  }

  /** The land `addLand` saves as the `id`-th: the schema trims `parcelId`
      and the address (an empty address is not stored), the coordinates are
      kept as given, the status takes its default and the history starts
      empty. */
  function NewLand(id: nat, parcelId: string, owner: UserId, sizeSqm: real, usage: UsageType,
                   address: Option<string>, latitude: Option<real>, longitude: Option<real>): (l: Land)
    ensures l.id == id
    ensures l.status == DefaultStatus && l.ownershipHistory == [] && l.approvedBy.None?
    ensures l.ownerId == owner && l.sizeSqm == sizeSqm && l.usageType == usage
    ensures l.parcelId == Trim(parcelId)
    ensures Truthy(address) ==> l.location.address == Some(Trim(address.value))
    ensures !Truthy(address) ==> l.location.address.None?
    ensures l.location.gps.latitude == latitude && l.location.gps.longitude == longitude
    ensures !Blank(parcelId) <==> WellFormed(l)
    ensures HistoryOk(l)
  {
    var addr := if Truthy(address) then Some(Trim(address.value)) else None;
    Land(id, Trim(parcelId), owner, Location(addr, Gps(latitude, longitude)), sizeSqm, usage,
         [], DefaultStatus, None)
  }

  /** `approveLand`'s change: the land becomes active and approved by
      `admin`; an empty history gets one open entry for the current owner,
      a non-empty one is kept. Nothing else changes. */
  function Approved(l: Land, admin: UserId, now: Time): (r: Land)
    ensures r.status == Active && r.approvedBy == Some(admin)
    ensures r == l.(status := Active, approvedBy := Some(admin), ownershipHistory := r.ownershipHistory)
    ensures l.ownershipHistory == [] ==> r.ownershipHistory == [HistoryEntry(l.ownerId, now, None)]
    ensures l.ownershipHistory != [] ==> r.ownershipHistory == l.ownershipHistory
    ensures l.ownershipHistory == [] || HistoryOk(l) ==> HistoryOk(r)
    ensures WellFormed(l) ==> WellFormed(r)
  {
    var approved := l.(status := Active, approvedBy := Some(admin));
    if l.ownershipHistory == [] then
      approved.(ownershipHistory := [HistoryEntry(l.ownerId, now, None)])
    else
      approved
  }

  /** Closing the previous ownership entry: the last entry gets `toDate =
      now` if it is still open; every other entry is kept. */
  function CloseLast(h: seq<HistoryEntry>, now: Time): (r: seq<HistoryEntry>)
    ensures |r| == |h|
    ensures forall k :: 0 <= k < |h| - 1 ==> r[k] == h[k]
    ensures |h| > 0 ==> !r[|h| - 1].Open()
    ensures |h| > 0 ==> r[|h| - 1] == h[|h| - 1].(toDate := r[|h| - 1].toDate)
    ensures |h| > 0 && h[|h| - 1].Open() ==> r[|h| - 1].toDate == Some(now)
    ensures |h| > 0 && !h[|h| - 1].Open() ==> r[|h| - 1] == h[|h| - 1]
  {
    if |h| > 0 && h[|h| - 1].Open() then h[|h| - 1 := h[|h| - 1].(toDate := Some(now))] else h
  }

  /** `approvetransfer`'s change to the land: the previous entry is closed,
      an open entry for the buyer is appended, and the buyer becomes the
      owner of an active land approved by `admin`. */
  function TransferredTo(l: Land, buyer: UserId, admin: UserId, now: Time): (r: Land)
    ensures r.ownerId == buyer && r.status == Active && r.approvedBy == Some(admin)
    ensures r == l.(ownerId := buyer, status := Active, approvedBy := Some(admin),
                    ownershipHistory := r.ownershipHistory)
    ensures |r.ownershipHistory| == |l.ownershipHistory| + 1
    ensures r.ownershipHistory[..|l.ownershipHistory|] == CloseLast(l.ownershipHistory, now)
    ensures r.ownershipHistory[|l.ownershipHistory|] == HistoryEntry(buyer, now, None)
    ensures HistoryOk(l) ==> HistoryOk(r)
    ensures WellFormed(l) ==> WellFormed(r)
  {
    var h := CloseLast(l.ownershipHistory, now) + [HistoryEntry(buyer, now, None)];
    assert h[..|l.ownershipHistory|] == CloseLast(l.ownershipHistory, now);
    l.(ownerId := buyer, status := Active, approvedBy := Some(admin), ownershipHistory := h)
  }
}
