/** The User schema: a citizen account, unique by citizen id and by email. */
module UserModel {
  import opened Common
  import opened Text

  datatype Role = Admin | Owner | Public

  /** The role a new user gets when none is given. */
  const DefaultRole: Role := Owner

  datatype User = User(
    id: UserId,
    citizenId: string,
    email: string,
    phoneNumber: string,
    name: string,
    role: Role,
    passwordHash: string,
    deletedAt: Option<Time>)

  predicate IsUpperAscii(c: char) {
    'A' <= c <= 'Z'
  }

  /** One character lowercased, for ASCII letters. */
  function LowerChar(c: char): char {
    if IsUpperAscii(c) then (c as int - 'A' as int + 'a' as int) as char else c
  }

  /** The schema's `lowercase: true` on `email`, for ASCII letters. */
  function LowerAscii(s: string): (r: string)
    ensures |r| == |s|
    ensures IsLower(r)
    ensures forall k :: 0 <= k < |s| ==> r[k] == LowerChar(s[k])
    ensures forall k :: 0 <= k < |s| && !IsUpperAscii(s[k]) ==> r[k] == s[k]
    ensures forall k :: 0 <= k < |s| ==> IsJsSpace(r[k]) == IsJsSpace(s[k])
  {
    seq(|s|, k requires 0 <= k < |s| => LowerChar(s[k]))
  }

  /** No upper-case ASCII letter in `s`. */
  predicate IsLower(s: string) {
    forall k :: 0 <= k < |s| ==> !IsUpperAscii(s[k])
  }

  /** Lowercasing an already lowercased string changes nothing. */
  lemma LowerAsciiIdempotent(s: string)
    ensures LowerAscii(LowerAscii(s)) == LowerAscii(s)
  {
  }

  /** What the schema demands beyond the field types: citizen id, email,
      phone number and name are required and trimmed, the email is
      lowercased, and the password is required. */
  predicate WellFormed(u: User) {
    && u.citizenId != "" && Trimmed(u.citizenId)
    && u.email != "" && Trimmed(u.email) && IsLower(u.email)
    && u.phoneNumber != "" && Trimmed(u.phoneNumber)
    && u.name != "" && Trimmed(u.name)
    && u.passwordHash != ""
  }

  /** The email as the schema stores it: lowercased, then trimmed. */
  function NormalEmail(email: string): (r: string)
    ensures Trimmed(r) && IsLower(r)
  {
    var lower := LowerAscii(email);
    var r := Trim(lower);
    assert forall k :: 0 <= k < |r| ==> r[k] == lower[LeadingSpaces(lower) + k];
    r
  }

  /** The stored email is the trimmed input lowercased: the schema's two
      setters commute. */
  lemma NormalEmailIsTrimmedLowercase(email: string)
    ensures NormalEmail(email) == LowerAscii(Trim(email))
  {
    var lower := LowerAscii(email);
    SameSpacesTrimAlike(email, lower);
    var r, t := Trim(lower), Trim(email);
    var tl := LowerAscii(t);
    forall k | 0 <= k < |r| ensures r[k] == tl[k] {
      TrimLowerAt(email, lower, t, r, k);
    }
    assert r == tl;
  }

  /** One position of the two orders of the setters agrees. */
  lemma TrimLowerAt(email: string, lower: string, t: string, r: string, k: nat)
    requires lower == LowerAscii(email) && t == Trim(email) && r == Trim(lower)
    requires LeadingSpaces(lower) == LeadingSpaces(email)
    requires k < |r| && k < |t|
    ensures r[k] == LowerChar(t[k])
  {
    var n := LeadingSpaces(email);
    assert r[k] == lower[n + k];
    assert t[k] == email[n + k];
  }

  /** An email already lowercased and trimmed is stored as given. */
  lemma NormalEmailKeepsNormal(email: string)
    requires Trimmed(email) && IsLower(email)
    ensures NormalEmail(email) == email
  {
    assert LowerAscii(email) == email;
    TrimKeepsTrimmed(email);
  }

  /** The user the schema saves as the `id`-th from the given fields: the
      role defaults to owner and the account is not deleted. */
  function NewUser(id: UserId, citizenId: string, email: string, phoneNumber: string, name: string,
                   role: Option<Role>, passwordHash: string): (u: User)
    ensures u.id == id && u.deletedAt.None?
    ensures u.role == role.GetOr(DefaultRole)
    ensures u.citizenId == Trim(citizenId) && u.email == NormalEmail(email)
    ensures u.phoneNumber == Trim(phoneNumber) && u.name == Trim(name) && u.passwordHash == passwordHash
    ensures (&& !Blank(citizenId) && NormalEmail(email) != "" && !Blank(phoneNumber) && !Blank(name)
             && passwordHash != "") <==> WellFormed(u)
  {
    User(id, Trim(citizenId), NormalEmail(email), Trim(phoneNumber), Trim(name),
         role.GetOr(DefaultRole), passwordHash, None)
  }
}
