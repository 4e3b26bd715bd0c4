/** The Transfer schema: a parcel listed for sale to a buyer named at
    creation, awaiting an admin's approval. */
module TransferModel {
  import opened Common
  import opened Text
  import L = LandModel

  datatype TransferStatus = Active | Sold | Canceled

  /** The status a new transfer gets when none is given. */
  const DefaultStatus: TransferStatus := Active

  datatype Transfer = Transfer(
    id: nat,
    parcelId: string,
    status: TransferStatus,
    sellerCitizenId: string,
    buyerCitizenId: string,
    previousLandStatus: Option<L.LandStatus>,
    adminApproved: Option<UserId>)

  /** What the schema demands beyond the field types: `parcelId`,
      `sellerCitizenId` and `buyerCitizenId` are required and trimmed. */
  predicate WellFormed(t: Transfer) {
    && t.parcelId != "" && Trimmed(t.parcelId)
    && t.sellerCitizenId != "" && Trimmed(t.sellerCitizenId)
    && t.buyerCitizenId != "" && Trimmed(t.buyerCitizenId)
  }

  /** The transfer `addToTransfer` saves as its `id`-th: the schema trims
      the three identifiers; the status takes its default and no admin is
      recorded. */
  function NewTransfer(id: nat, parcelId: string, seller: string, buyer: string,
                       previous: L.LandStatus): (t: Transfer)
    ensures t.id == id && t.status == DefaultStatus && t.adminApproved.None?
    ensures t.previousLandStatus == Some(previous)
    ensures t.parcelId == Trim(parcelId) && t.sellerCitizenId == Trim(seller) && t.buyerCitizenId == Trim(buyer)
    ensures !Blank(parcelId) && !Blank(seller) && !Blank(buyer) <==> WellFormed(t)
  {
    Transfer(id, Trim(parcelId), DefaultStatus, Trim(seller), Trim(buyer), Some(previous), None)
  }

  /** The status `cancelTransfer` gives the land back:
      `previousLandStatus || "active"`. */
  function RestoredStatus(t: Transfer): (s: L.LandStatus)
    ensures t.previousLandStatus.Some? ==> s == t.previousLandStatus.value
    ensures t.previousLandStatus.None? ==> s == L.Active
  {
    t.previousLandStatus.GetOr(L.Active)
  }

  /** The transfers `cancelTransfer` accepts from the seller `citizenId`:
      still active and with no admin id recorded. */
  predicate Cancelable(t: Transfer, citizenId: string) {
    t.sellerCitizenId == citizenId && t.status == Active && t.adminApproved.None?
  }

  /** How a document field looks to a database query: not there at all,
      present with null, or present with a value. */
  datatype StoredField<V> = Missing | Null | Holds(value: V)

  /** `adminApproved` as saved: the schema's `default: null` writes a null
      into every new transfer, so the field is never missing. */
  function StoredAdminApproved(t: Transfer): (f: StoredField<UserId>)
    ensures f != Missing
    ensures f == Null <==> t.adminApproved.None?
  {
    if t.adminApproved.None? then Null else Holds(t.adminApproved.value)
  }

  /** The cancel query as written: `adminApproved: { $exists: false }`
      matches only a document without the field. */
  predicate CancelableAsWritten(t: Transfer, citizenId: string) {
    && t.sellerCitizenId == citizenId && t.status == Active
    && StoredAdminApproved(t) == Missing
  }

  /** As written, the cancel query matches no saved transfer at all. */
  lemma CancelQueryAsWrittenMatchesNothing(t: Transfer, citizenId: string)
    ensures !CancelableAsWritten(t, citizenId)
  {
    assert StoredAdminApproved(t) != Missing;
  }

  /** A fresh listing the seller should be able to cancel: the intended
      query accepts it, the query as written does not. */
  lemma FreshListingCancelableOnlyAsIntended(id: nat, parcelId: string, seller: string, buyer: string,
                                             previous: L.LandStatus)
    requires Trimmed(seller)
    ensures var t := NewTransfer(id, parcelId, seller, buyer, previous);
      Cancelable(t, seller) && !CancelableAsWritten(t, seller)
  {
    var t := NewTransfer(id, parcelId, seller, buyer, previous);
    CancelQueryAsWrittenMatchesNothing(t, seller);
  }

  /** A later version of the same transfer: unchanged, or an active one
      that became sold or canceled with nothing but its status and its
      admin id changed. */
  predicate Succeeds(before: Transfer, after: Transfer) {
    || after == before
    || (&& before.status == Active && after.status != Active
        && after == before.(status := after.status, adminApproved := after.adminApproved))
  }

  /** The transfers collection only grows, and each transfer only moves on
      from `active`. */
  predicate LogSucceeds(before: seq<Transfer>, after: seq<Transfer>) {
    |before| <= |after| && forall k :: 0 <= k < |before| ==> Succeeds(before[k], after[k])
  }

  lemma LogSucceedsTransitive(a: seq<Transfer>, b: seq<Transfer>, c: seq<Transfer>)
    requires LogSucceeds(a, b) && LogSucceeds(b, c)
    ensures LogSucceeds(a, c)
  {
  }

  /** Sold and canceled are terminal: across any run of handlers that keeps
      `LogSucceeds`, such a transfer never changes again. */
  lemma SettledTransferNeverChanges(a: seq<Transfer>, b: seq<Transfer>, k: nat)
    requires LogSucceeds(a, b) && k < |a| && a[k].status != Active
    ensures b[k] == a[k]
  {
  }
}
