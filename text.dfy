/**
 * Crop-key normalisation: Python's `str.strip()` followed by `str.lower()`.
 * `strip()` removes the characters for which Python's `str.isspace()` holds
 * from both ends; `lower()` is modelled on ASCII letters only.
 */
module Text {

  /** The characters Python 3's `str.isspace()` accepts. */
  predicate IsSpace(c: char) {
    var k := c as int;
    || 9 <= k <= 13          // \t \n \v \f \r
    || 28 <= k <= 32         // the four information separators and ' '
    || k == 0x85 || k == 0xA0 || k == 0x1680
    || 0x2000 <= k <= 0x200A
    || k == 0x2028 || k == 0x2029 || k == 0x202F || k == 0x205F || k == 0x3000
  }

  predicate AllSpace(s: string) {
    forall i :: 0 <= i < |s| ==> IsSpace(s[i])
  }

  predicate IsUpper(c: char) {
    'A' <= c <= 'Z'
  }

  /** The first index at or after `i` that does not hold whitespace (`|s|` if none). */
  function SkipSpace(s: string, i: nat): (j: nat)
    requires i <= |s|
    ensures i <= j <= |s|
    ensures forall k :: i <= k < j ==> IsSpace(s[k])
    ensures j == |s| || !IsSpace(s[j])
    decreases |s| - i
  {
    if i < |s| && IsSpace(s[i]) then SkipSpace(s, i + 1) else i
  }

  /** The end of `s[lo..e]` once its trailing whitespace is dropped. */
  function SkipSpaceBack(s: string, lo: nat, e: nat): (j: nat)
    requires lo <= e <= |s|
    ensures lo <= j <= e
    ensures forall k :: j <= k < e ==> IsSpace(s[k])
    ensures j == lo || !IsSpace(s[j - 1])
    decreases e
  {
    if lo < e && IsSpace(s[e - 1]) then SkipSpaceBack(s, lo, e - 1) else e
  }

  /**
   * `r` is what remains of `s` once its whitespace is removed at both ends:
   * `r` starts at offset `i` of `s`, everything before and after it is
   * whitespace, and `r` neither starts nor ends with whitespace.
   */
  predicate StrippedTo(s: string, i: int, r: string) {
    && 0 <= i <= |s| - |r|
    && r == s[i..i + |r|]
    && (forall k :: 0 <= k < i ==> IsSpace(s[k]))
    && (forall k :: i + |r| <= k < |s| ==> IsSpace(s[k]))
    && (r == [] || (!IsSpace(r[0]) && !IsSpace(r[|r| - 1])))
  }

  /** Where `s.strip()` starts in `s`: the length of the leading whitespace. */
  function StripOffset(s: string): (i: nat)
    ensures i <= |s|
  {
    SkipSpace(s, 0)
  }

  /** Python's `s.strip()`. */
  function Strip(s: string): (r: string)
    ensures StrippedTo(s, StripOffset(s), r)
  {
    var i := StripOffset(s);
    s[i..SkipSpaceBack(s, i, |s|)]
  }

  /** Any stripping of `s` is the one `Strip` computes: `StrippedTo` determines its result. */
  lemma StrippedToUnique(s: string, i: int, r: string, j: int, q: string)
    requires StrippedTo(s, i, r) && StrippedTo(s, j, q)
    ensures r == q
  {
    if r != [] && q != [] {
      assert s[i] == r[0] && s[j] == q[0];
      assert i == j;
      assert s[i + |r| - 1] == r[|r| - 1] && s[j + |q| - 1] == q[|q| - 1];
    }
  }

  lemma StripCharacterised(s: string, i: int, r: string)
    requires StrippedTo(s, i, r)
    ensures r == Strip(s)
  {
    StrippedToUnique(s, i, r, StripOffset(s), Strip(s));
  }

  /** Python's `lower()` on one character, for ASCII letters. */
  function LowerChar(c: char): (d: char)
    ensures !IsUpper(d)
    ensures IsUpper(c) ==> 'a' <= d <= 'z' && d as int - 'a' as int == c as int - 'A' as int
    ensures IsSpace(d) == IsSpace(c)
    ensures !IsUpper(c) ==> d == c
  {
    if IsUpper(c) then (c as int + 32) as char else c
  }

  /** Python's `s.lower()`, for ASCII letters. */
  function Lower(s: string): (r: string)
    ensures |r| == |s|
    ensures forall i :: 0 <= i < |s| ==> r[i] == LowerChar(s[i])
  {
    seq(|s|, i requires 0 <= i < |s| => LowerChar(s[i]))
  }

  /** Lowercasing twice is lowercasing once. */
  lemma LowerIdempotent(s: string)
    ensures Lower(Lower(s)) == Lower(s)
  {
  }

  /** Lowercasing works character by character, so it commutes with slicing. */
  lemma LowerSlice(s: string, a: int, b: int)
    requires 0 <= a <= b <= |s|
    ensures Lower(s)[a..b] == Lower(s[a..b])
  {
  }

  /** Lowercasing keeps every character's whitespace-ness, so it commutes with stripping. */
  lemma StripLower(s: string)
    ensures Strip(Lower(s)) == Lower(Strip(s))
  {
    var i, r, l := StripOffset(s), Strip(s), Lower(s);
    LowerSlice(s, i, i + |r|);
    assert StrippedTo(l, i, Lower(r));
    StripCharacterised(l, i, Lower(r));
  }

  /** The crop-key normalisation `crop.strip().lower()`. */
  function Normalize(s: string): (r: string)
    ensures |r| <= |s|
    ensures forall i :: 0 <= i < |r| ==> !IsUpper(r[i])
    ensures r == [] || (!IsSpace(r[0]) && !IsSpace(r[|r| - 1]))
  {
    Lower(Strip(s))
  }

  /** A normalised key: no ASCII capital letter, no whitespace at either end. */
  predicate IsNormalized(s: string) {
    && (forall i :: 0 <= i < |s| ==> !IsUpper(s[i]))
    && (s == [] || (!IsSpace(s[0]) && !IsSpace(s[|s| - 1])))
  }

  /** The keys `Normalize` leaves unchanged are exactly the normalised ones. */
  lemma NormalizeFixedPoint(s: string)
    ensures Normalize(s) == s <==> IsNormalized(s)
  {
    if IsNormalized(s) {
      assert StrippedTo(s, 0, s) by {
        assert s[0..|s|] == s;
      }
      StripCharacterised(s, 0, s);
    }
  }

  /** Normalising an already normalised key changes nothing. */
  lemma NormalizeIdempotent(s: string)
    ensures Normalize(Normalize(s)) == Normalize(s)
  {
    NormalizeFixedPoint(Normalize(s));
  }

  /** Whitespace around the crop name does not change its key. */
  lemma NormalizeIgnoresPadding(pre: string, s: string, post: string)
    requires AllSpace(pre) && AllSpace(post)
    ensures Normalize(pre + s + post) == Normalize(s)
  {
    var i, r, w := StripOffset(s), Strip(s), pre + s + post;
    var j := |pre| + i;
    assert w[j..j + |r|] == s[i..i + |r|];
    forall k | 0 <= k < j ensures IsSpace(w[k]) {
      if k >= |pre| { assert w[k] == s[k - |pre|]; }
    }
    forall k | j + |r| <= k < |w| ensures IsSpace(w[k]) {
      if k < |pre| + |s| { assert w[k] == s[k - |pre|]; }
      else { assert w[k] == post[k - |pre| - |s|]; }
    }
    assert StrippedTo(w, j, r);
    StripCharacterised(w, j, r);
  }

  /** Letter case in the crop name does not change its key. */
  lemma NormalizeIgnoresCase(s: string)
    ensures Normalize(Lower(s)) == Normalize(s)
  {
    StripLower(s);
    LowerIdempotent(Strip(s));
  }
}
