/** `String.prototype.trim` as the handlers and the schemas' `trim: true`
    option apply it. */
module Text {

  /** The characters JavaScript's trim removes: WhiteSpace and LineTerminator. */
  predicate IsJsSpace(c: char) {
    || c == ' ' || c == '\t' || c == '\n' || c == '\r'
    || c == '\U{000B}' || c == '\U{000C}' || c == '\U{00A0}' || c == '\U{1680}'
    || ('\U{2000}' <= c <= '\U{200A}')
    || c == '\U{2028}' || c == '\U{2029}' || c == '\U{202F}' || c == '\U{205F}'
    || c == '\U{3000}' || c == '\U{FEFF}'
  }

  /** The number of whitespace characters at the start of `s`. */
  function LeadingSpaces(s: string): (n: nat)
    ensures n <= |s|
    ensures forall k :: 0 <= k < n ==> IsJsSpace(s[k])
    ensures n < |s| ==> !IsJsSpace(s[n])
  {
    if |s| == 0 || !IsJsSpace(s[0]) then 0 else 1 + LeadingSpaces(s[1..])
  }

  /** The number of whitespace characters at the end of `s`. */
  function TrailingSpaces(s: string): (n: nat)
    ensures n <= |s|
    ensures forall k :: |s| - n <= k < |s| ==> IsJsSpace(s[k])
    ensures n < |s| ==> !IsJsSpace(s[|s| - 1 - n])
  {
    if |s| == 0 || !IsJsSpace(s[|s| - 1]) then 0 else 1 + TrailingSpaces(s[..|s| - 1])
  }

  /** `s.trim()`: `s` without its leading and trailing whitespace. */
  function Trim(s: string): (r: string)
    ensures LeadingSpaces(s) + |r| <= |s|
    ensures r == "" <==> Blank(s)
    ensures Trimmed(r)
    ensures r == s[LeadingSpaces(s)..LeadingSpaces(s) + |r|]
    ensures forall k :: 0 <= k < |s| && !(LeadingSpaces(s) <= k < LeadingSpaces(s) + |r|) ==> IsJsSpace(s[k])
  {
    var t := s[LeadingSpaces(s)..];
    t[..|t| - TrailingSpaces(t)]
  }

  /** A string with no whitespace at either end. */
  predicate Trimmed(s: string) {
    s == "" || (!IsJsSpace(s[0]) && !IsJsSpace(s[|s| - 1]))
  }

  /** A string of whitespace only, which trims to "". */
  predicate Blank(s: string) {
    forall k :: 0 <= k < |s| ==> IsJsSpace(s[k])
  }

  /** A string with no whitespace at either end is its own trim. */
  lemma TrimKeepsTrimmed(s: string)
    requires Trimmed(s)
    ensures Trim(s) == s
  {
    if s != "" {
      assert LeadingSpaces(s) == 0;
      var t := s[LeadingSpaces(s)..];
      assert t == s;
      assert TrailingSpaces(t) == 0;
    }
  }

  /** A non-empty trimmed string is not blank and is its own trim. */
  lemma TrimmedWord(s: string)
    requires s != "" && Trimmed(s)
    ensures !Blank(s) && Trim(s) == s
  {
    TrimKeepsTrimmed(s);
  }

  /** `a` and `b` have whitespace at the same positions. */
  predicate SameSpaces(a: string, b: string) {
    |a| == |b| && forall k :: 0 <= k < |a| ==> IsJsSpace(a[k]) == IsJsSpace(b[k])
  }

  lemma {:induction false} LeadingSpacesAgree(a: string, b: string)
    requires SameSpaces(a, b)
    ensures LeadingSpaces(a) == LeadingSpaces(b)
  {
    if |a| > 0 && IsJsSpace(a[0]) {
      assert SameSpaces(a[1..], b[1..]) by {
        forall k | 0 <= k < |a| - 1 ensures IsJsSpace(a[1..][k]) == IsJsSpace(b[1..][k]) {
          assert a[1..][k] == a[k + 1] && b[1..][k] == b[k + 1];
        }
      }
      LeadingSpacesAgree(a[1..], b[1..]);
    }
  }

  lemma {:induction false} TrailingSpacesAgree(a: string, b: string)
    requires SameSpaces(a, b)
    ensures TrailingSpaces(a) == TrailingSpaces(b)
  {
    if |a| > 0 && IsJsSpace(a[|a| - 1]) {
      var a', b' := a[..|a| - 1], b[..|b| - 1];
      assert SameSpaces(a', b') by {
        forall k | 0 <= k < |a'| ensures IsJsSpace(a'[k]) == IsJsSpace(b'[k]) {
          assert a'[k] == a[k] && b'[k] == b[k];
        }
      }
      TrailingSpacesAgree(a', b');
    }
  }

  /** Two strings with whitespace at the same positions trim at the same
      positions. */
  lemma SameSpacesTrimAlike(a: string, b: string)
    requires SameSpaces(a, b)
    ensures LeadingSpaces(a) == LeadingSpaces(b) && |Trim(a)| == |Trim(b)|
  {
    LeadingSpacesAgree(a, b);
    var n := LeadingSpaces(a);
    var ta, tb := a[n..], b[n..];
    assert SameSpaces(ta, tb) by {
      forall k | 0 <= k < |ta| ensures IsJsSpace(ta[k]) == IsJsSpace(tb[k]) {
        assert ta[k] == a[n + k] && tb[k] == b[n + k];
      }
    }
    TrailingSpacesAgree(ta, tb);
  }

  /** Trimming twice is trimming once. */
  lemma TrimIdempotent(s: string)
    ensures Trim(Trim(s)) == Trim(s)
  {
    TrimKeepsTrimmed(Trim(s));
  }
}
