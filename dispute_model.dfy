/** The Dispute schema: a challenge against a parcel, filed by a citizen,
    solved by an admin or dropped (soft-deleted) by an owner. */
module DisputeModel {
  import opened Common

  datatype DisputeStatus = Waiting | Solved | Dropped

  /** The status a new dispute gets when none is given. */
  const DefaultStatus: DisputeStatus := Waiting

  /** `parcelId` is a plain string, not a reference: the land it names may
      be missing. `deletedAt` absent means the dispute is live. */
  datatype Dispute = Dispute(
    id: nat,
    fileUrl: string,
    parcelId: string,
    landOwnerCitizenId: string,
    raisedByUserCitizenId: string,
    status: DisputeStatus,
    adminApproved: Option<UserId>,
    deletedAt: Option<Time>)

  /** What the schema demands beyond the field types: the four strings are
      required (non-empty). */
  predicate WellFormed(d: Dispute) {
    d.fileUrl != "" && d.parcelId != "" && d.landOwnerCitizenId != "" && d.raisedByUserCitizenId != ""
  }

  /** Not soft-deleted: `deleted_at` is null. */
  predicate Live(d: Dispute) {
    d.deletedAt.None?
  }

  /** The dispute `addDispute` saves as its `id`-th, from the fields as given:
      waiting, live, with no admin recorded. */
  function NewDispute(id: nat, fileUrl: string, parcelId: string, landOwner: string, raisedBy: string): (d: Dispute)
    ensures d.id == id && d.status == DefaultStatus && d.adminApproved.None? && Live(d)
    ensures d.fileUrl == fileUrl && d.parcelId == parcelId
    ensures d.landOwnerCitizenId == landOwner && d.raisedByUserCitizenId == raisedBy
    ensures WellFormed(d) <==> fileUrl != "" && parcelId != "" && landOwner != "" && raisedBy != ""
  {
    Dispute(id, fileUrl, parcelId, landOwner, raisedBy, DefaultStatus, None, None)
  }

  /** `removeDispute`'s change, whatever the status was: the dispute is
      dropped and soft-deleted at `now`. */
  function Drop(d: Dispute, now: Time): (r: Dispute)
    ensures r.status == Dropped && r.deletedAt == Some(now) && !Live(r)
    ensures r == d.(status := Dropped, deletedAt := Some(now))
  {
    d.(status := Dropped, deletedAt := Some(now))
  }

  /** `fixDisputes`'s change, whatever the status was: the dispute is solved
      by `admin`; whether it is live does not change. */
  function Solve(d: Dispute, admin: UserId): (r: Dispute)
    ensures r.status == Solved && r.adminApproved == Some(admin)
    ensures Live(r) == Live(d)
    ensures r == d.(status := Solved, adminApproved := Some(admin))
  {
    d.(status := Solved, adminApproved := Some(admin))
  }

  /** A later version of the same dispute: unchanged, or one whose status
      moved to solved or dropped with its filed fields kept. `waiting` is
      never re-entered. */
  predicate Succeeds(before: Dispute, after: Dispute) {
    || after == before
    || (&& after.status != Waiting
        && after == before.(status := after.status, adminApproved := after.adminApproved,
                            deletedAt := after.deletedAt))
  }

  /** The disputes collection only grows, and no dispute returns to
      `waiting`. */
  predicate LogSucceeds(before: seq<Dispute>, after: seq<Dispute>) {
    |before| <= |after| && forall k :: 0 <= k < |before| ==> Succeeds(before[k], after[k])
  }

  lemma LogSucceedsTransitive(a: seq<Dispute>, b: seq<Dispute>, c: seq<Dispute>)
    requires LogSucceeds(a, b) && LogSucceeds(b, c)
    ensures LogSucceeds(a, c)
  {
    forall k | 0 <= k < |a|
      ensures Succeeds(a[k], c[k])
    {
      if b[k] != a[k] && c[k] != b[k] {
        assert c[k].status != Waiting;
      }
    }
  }
}
