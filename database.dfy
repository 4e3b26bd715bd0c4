/** The four collections the handlers read and write, with the constraints
    the schemas put on them (unique parcel ids, unique citizen ids and
    emails) and the invariants every handler keeps. */
module Database {
  import opened Common
  import opened Text
  import opened Sequences
  import U = UserModel
  import L = LandModel
  import T = TransferModel
  import D = DisputeModel

  /** Users are kept in insertion order; a user's id is its position. */
  predicate UsersValid(us: seq<U.User>) {
    && (forall k :: 0 <= k < |us| ==> us[k].id == k && U.WellFormed(us[k]))
    && (forall j, k :: 0 <= j < k < |us| ==> us[j].citizenId != us[k].citizenId && us[j].email != us[k].email)
  }

  /** Lands are kept in insertion order; a land's id is its position,
      parcel ids are unique and every land keeps the ownership-history
      invariant. */
  predicate LandsValid(ls: seq<L.Land>) {
    && (forall k :: 0 <= k < |ls| ==> ls[k].id == k && L.WellFormed(ls[k]) && L.HistoryOk(ls[k]))
    && (forall j, k :: 0 <= j < k < |ls| ==> ls[j].parcelId != ls[k].parcelId)
  }

  /** Disputes are kept in insertion order; a dispute's id is its position.
      A dropped dispute is soft-deleted and a solved one names its admin. */
  predicate DisputesValid(ds: seq<D.Dispute>) {
    forall k :: 0 <= k < |ds| ==>
      && ds[k].id == k && D.WellFormed(ds[k])
      && (ds[k].status == D.Dropped ==> ds[k].deletedAt.Some?)
      && (ds[k].status == D.Solved ==> ds[k].adminApproved.Some?)
  }

  /** Transfers are kept in insertion order; a transfer's id is its
      position. An admin id is recorded exactly on the sold ones, and the
      land status recorded at listing is never `onDispute`. */
  predicate TransfersValid(ts: seq<T.Transfer>) {
    forall k :: 0 <= k < |ts| ==>
      && ts[k].id == k && T.WellFormed(ts[k])
      && (ts[k].adminApproved.Some? <==> ts[k].status == T.Sold)
      && ts[k].previousLandStatus.Some? && ts[k].previousLandStatus.value != L.OnDispute
  }

  /** `Land.findOne({ parcelId })`: the schema's `trim` setter runs on the
      query value too, so the stored parcel id is matched against the
      trimmed one. */
  function FindLand(lands: seq<L.Land>, parcelId: string): (r: Option<nat>)
    ensures r.Some? ==> r.value < |lands| && lands[r.value].parcelId == Trim(parcelId)
    ensures r.None? <==> forall k :: 0 <= k < |lands| ==> lands[k].parcelId != Trim(parcelId)
  {
    var id := Trim(parcelId);
    FirstIndex(lands, (l: L.Land) => l.parcelId == id)
  }

  /** With unique parcel ids, the lookup finds exactly the land that has it. */
  lemma FindLandFindsTheLand(lands: seq<L.Land>, k: nat)
    requires LandsValid(lands) && k < |lands|
    ensures FindLand(lands, lands[k].parcelId) == Some(k)
  {
    TrimKeepsTrimmed(lands[k].parcelId);
  }

  /** Stored parcel ids are not empty, so a blank id is never found. */
  lemma BlankParcelIdNotFound(lands: seq<L.Land>, parcelId: string)
    requires LandsValid(lands) && Blank(parcelId)
    ensures FindLand(lands, parcelId).None?
  {
  }

  /** `User.findOne({ citizenId })`. */
  function FindUserByCitizenId(users: seq<U.User>, citizenId: string): (r: Option<nat>)
    ensures r.Some? ==> r.value < |users| && users[r.value].citizenId == citizenId
    ensures r.None? <==> forall k :: 0 <= k < |users| ==> users[k].citizenId != citizenId
  {
    FirstIndex(users, (u: U.User) => u.citizenId == citizenId)
  }

  /** `User.findOne({ email })`. */
  function FindUserByEmail(users: seq<U.User>, email: string): (r: Option<nat>)
    ensures r.Some? ==> r.value < |users| && users[r.value].email == email
    ensures r.None? <==> forall k :: 0 <= k < |users| ==> users[k].email != email
  {
    FirstIndex(users, (u: U.User) => u.email == email)
  }

  /** Appending a well-formed user whose citizen id and email are both new
      keeps the users collection valid. */
  lemma UsersValidAppend(us: seq<U.User>, u: U.User)
    requires UsersValid(us) && u.id == |us| && U.WellFormed(u)
    requires FindUserByCitizenId(us, u.citizenId).None? && FindUserByEmail(us, u.email).None?
    ensures UsersValid(us + [u])
  {
    var s := us + [u];
    forall k | 0 <= k < |s|
      ensures s[k].id == k && U.WellFormed(s[k])
    {
      if k < |us| {
        assert s[k] == us[k];
      }
    }
    forall j, k | 0 <= j < k < |s|
      ensures s[j].citizenId != s[k].citizenId && s[j].email != s[k].email
    {
      assert s[j] == us[j];
      if k < |us| {
        assert s[k] == us[k];
      }
    }
  }

  /** Citizen ids are unique, so a lookup by citizen id names one user. */
  lemma CitizenIdNamesOneUser(users: seq<U.User>, k: nat)
    requires UsersValid(users) && k < |users|
    ensures FindUserByCitizenId(users, users[k].citizenId) == Some(k)
  {
  }

  /** Saving a new land as the next id, with a parcel id not taken, keeps
      the lands collection valid. */
  lemma LandsValidAppend(ls: seq<L.Land>, l: L.Land)
    requires LandsValid(ls) && l.id == |ls| && L.WellFormed(l) && L.HistoryOk(l)
    requires FindLand(ls, l.parcelId).None?
    ensures LandsValid(ls + [l])
  {
    TrimKeepsTrimmed(l.parcelId);
    var s := ls + [l];
    forall k | 0 <= k < |s|
      ensures s[k].id == k && L.WellFormed(s[k]) && L.HistoryOk(s[k])
    {
      if k < |ls| {
        assert s[k] == ls[k];
      }
    }
    forall j, k | 0 <= j < k < |s|
      ensures s[j].parcelId != s[k].parcelId
    {
      assert s[j] == ls[j];
      if k < |ls| {
        assert s[k] == ls[k];
      }
    }
  }

  /** Saving a changed land under its own parcel id keeps the lands
      collection valid when the changed land keeps the record invariants. */
  lemma LandsValidUpdate(ls: seq<L.Land>, i: nat, l: L.Land)
    requires LandsValid(ls) && i < |ls|
    requires l.id == ls[i].id && l.parcelId == ls[i].parcelId && L.WellFormed(l) && L.HistoryOk(l)
    ensures LandsValid(ls[i := l])
  {
    var s := ls[i := l];
    forall j, k | 0 <= j < k < |s|
      ensures s[j].parcelId != s[k].parcelId
    {
      assert s[j].parcelId == ls[j].parcelId && s[k].parcelId == ls[k].parcelId;
    }
  }

  /** `lands` with the `i`-th land's status set to `status` (`land.status =
      …; land.save()`); the invariants do not depend on the status. */
  function WithLandStatus(lands: seq<L.Land>, i: nat, status: L.LandStatus): (r: seq<L.Land>)
    requires i < |lands|
    ensures |r| == |lands|
    ensures r[i] == lands[i].(status := status)
    ensures forall k :: 0 <= k < |lands| && k != i ==> r[k] == lands[k]
    ensures LandsValid(lands) ==> LandsValid(r)
  {
    var r := lands[i := lands[i].(status := status)];
    assert LandsValid(lands) ==> LandsValid(r) by {
      if LandsValid(lands) {
        LandsValidUpdate(lands, i, lands[i].(status := status));
      }
    }
    r
  }

  /** Lands are never removed, and a land's parcel id, size, usage and
      location never change once it is registered. */
  predicate LandsSucceed(before: seq<L.Land>, after: seq<L.Land>) {
    && |before| <= |after|
    && forall k :: 0 <= k < |before| ==>
         && after[k].parcelId == before[k].parcelId
         && after[k].sizeSqm == before[k].sizeSqm
         && after[k].usageType == before[k].usageType
         && after[k].location == before[k].location
  }

  lemma LandsSucceedTransitive(a: seq<L.Land>, b: seq<L.Land>, c: seq<L.Land>)
    requires LandsSucceed(a, b) && LandsSucceed(b, c)
    ensures LandsSucceed(a, c)
  {
  }

  /** Saving a new waiting dispute as the next id keeps the disputes
      collection valid. */
  lemma DisputesValidAppend(ds: seq<D.Dispute>, d: D.Dispute)
    requires DisputesValid(ds) && d.id == |ds| && D.WellFormed(d) && d.status == D.Waiting
    ensures DisputesValid(ds + [d])
  {
    var s := ds + [d];
    forall k | 0 <= k < |s|
      ensures s[k].id == k && D.WellFormed(s[k])
      ensures s[k].status == D.Dropped ==> s[k].deletedAt.Some?
      ensures s[k].status == D.Solved ==> s[k].adminApproved.Some?
    {
      if k < |ds| {
        assert s[k] == ds[k];
      }
    }
  }

  /** Filing a dispute: saving a new waiting dispute as the next id and
      putting the `i`-th land on dispute keeps both collections valid and
      only moves them forward. */
  lemma FilingKeepsValid(lands: seq<L.Land>, disputes: seq<D.Dispute>, i: nat, d: D.Dispute)
    requires LandsValid(lands) && DisputesValid(disputes) && i < |lands|
    requires d.id == |disputes| && D.WellFormed(d) && d.status == D.Waiting
    ensures LandsValid(WithLandStatus(lands, i, L.OnDispute))
    ensures LandsSucceed(lands, WithLandStatus(lands, i, L.OnDispute))
    ensures DisputesValid(disputes + [d])
    ensures D.LogSucceeds(disputes, disputes + [d])
  {
    DisputesValidAppend(disputes, d);
    var s := disputes + [d];
    forall k | 0 <= k < |disputes| ensures D.Succeeds(disputes[k], s[k]) {
      assert s[k] == disputes[k];
    }
  }

  /** Saving a new active listing as the next id keeps the transfers
      collection valid. */
  lemma TransfersValidAppend(ts: seq<T.Transfer>, t: T.Transfer)
    requires TransfersValid(ts) && t.id == |ts| && T.WellFormed(t)
    requires t.status == T.Active && t.adminApproved.None?
    requires t.previousLandStatus.Some? && t.previousLandStatus.value != L.OnDispute
    ensures TransfersValid(ts + [t])
  {
    var s := ts + [t];
    forall k | 0 <= k < |s|
      ensures s[k].id == k && T.WellFormed(s[k])
      ensures s[k].adminApproved.Some? <==> s[k].status == T.Sold
      ensures s[k].previousLandStatus.Some? && s[k].previousLandStatus.value != L.OnDispute
    {
      if k < |ts| {
        assert s[k] == ts[k];
      }
    }
  }

  /** Settling an active listing (sold with an admin recorded, or canceled
      with none) keeps the transfers collection valid and only moves that
      listing on. */
  lemma TransfersValidSettle(ts: seq<T.Transfer>, k: nat, t: T.Transfer)
    requires TransfersValid(ts) && k < |ts| && ts[k].status == T.Active
    requires t.status != T.Active && (t.adminApproved.Some? <==> t.status == T.Sold)
    requires t == ts[k].(status := t.status, adminApproved := t.adminApproved)
    ensures TransfersValid(ts[k := t])
    ensures T.LogSucceeds(ts, ts[k := t])
  {
    var s := ts[k := t];
    forall j | 0 <= j < |s|
      ensures s[j].id == j && T.WellFormed(s[j])
      ensures s[j].adminApproved.Some? <==> s[j].status == T.Sold
      ensures s[j].previousLandStatus.Some? && s[j].previousLandStatus.value != L.OnDispute
    {
      if j != k {
        assert s[j] == ts[j];
      }
    }
  }

  /** Under the invariant an active transfer has no admin recorded, so the
      seller may cancel exactly their own active transfers. */
  lemma CancelableIffActiveOwnListing(ts: seq<T.Transfer>, k: nat, citizenId: string)
    requires TransfersValid(ts) && k < |ts|
    ensures T.Cancelable(ts[k], citizenId) <==> ts[k].sellerCitizenId == citizenId && ts[k].status == T.Active
  {
  }

  /** The database: one field per collection. */
  class Db {
    var users: seq<U.User>
    var lands: seq<L.Land>
    var disputes: seq<D.Dispute>
    var transfers: seq<T.Transfer>

    ghost predicate Valid()
      reads this
    {
      UsersValid(users) && LandsValid(lands) && DisputesValid(disputes) && TransfersValid(transfers)
    }

    constructor ()
      ensures Valid()
      ensures users == [] && lands == [] && disputes == [] && transfers == []
    {
      users, lands, disputes, transfers := [], [], [], [];
    }

    /** Saving a new user: the schema trims and lowercases, applies the
        defaults and checks the required fields; the unique indexes refuse
        a citizen id or email already taken. */
    method InsertUser(citizenId: string, email: string, phoneNumber: string, name: string,
                      role: Option<U.Role>, passwordHash: string) returns (r: Result<U.User>)
      requires Valid()
      modifies this
      ensures Valid()
      ensures lands == old(lands) && disputes == old(disputes) && transfers == old(transfers)
      ensures r.Ok? <==>
        && U.WellFormed(U.NewUser(|old(users)|, citizenId, email, phoneNumber, name, role, passwordHash))
        && FindUserByCitizenId(old(users), Trim(citizenId)).None?
        && FindUserByEmail(old(users), U.NormalEmail(email)).None?
      ensures r.Ok? ==> r.value == U.NewUser(|old(users)|, citizenId, email, phoneNumber, name, role, passwordHash)
      ensures r.Ok? ==> users == old(users) + [r.value]
      ensures r.Err? ==> r.error == DatabaseError && users == old(users)
    {
      var u := U.NewUser(|users|, citizenId, email, phoneNumber, name, role, passwordHash);
      if !U.WellFormed(u) {
        return Err(DatabaseError);
      }
      if FindUserByCitizenId(users, u.citizenId).Some? || FindUserByEmail(users, u.email).Some? {
        return Err(DatabaseError);
      }
      UsersValidAppend(users, u);
      users := users + [u];
      r := Ok(u);
    }
  }
}
