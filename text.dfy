/** String helpers shared by the JavaScript and Rust halves of the
    application: substring tests (`String.prototype.includes`,
    `str::contains`) and whitespace trimming, which differs slightly between
    JavaScript's `String.prototype.trim` and Rust's `str::trim`. */
module Text {

  /** `p` is a prefix of `s`. */
  predicate StartsWith(s: string, p: string) {
    |p| <= |s| && s[..|p|] == p
  }

  /** `s.endsWith(x)`: `x` is a suffix of `s`. */
  predicate EndsWith(s: string, x: string) {
    |x| <= |s| && s[|s| - |x|..] == x
  }

  /** `s.includes(sub)`: `sub` occurs somewhere in `s`. */
  predicate Contains(s: string, sub: string)
    decreases |s|
  {
    StartsWith(s, sub) || (|s| > 0 && Contains(s[1..], sub))
  }

  /** A string that lacks one of the characters of `sub` cannot contain `sub`. */
  lemma {:induction false} AbsentChar(s: string, sub: string, c: char)
    requires c in sub && c !in s
    ensures !Contains(s, sub)
    decreases |s|
  {
    if |s| > 0 {
      AbsentChar(s[1..], sub, c);
    }
  }

  /** `sub` occurs in `s` starting at position `k`. */
  predicate OccursAt(s: string, sub: string, k: nat) {
    k + |sub| <= |s| && s[k..k + |sub|] == sub
  }

  /** An occurrence of `sub` at position `k` makes `s` contain it. */
  lemma {:induction false} ContainsAt(s: string, sub: string, k: nat)
    requires OccursAt(s, sub, k)
    ensures Contains(s, sub)
    decreases k
  {
    if k > 0 {
      assert s[1..][k - 1..k - 1 + |sub|] == s[k..k + |sub|];
      ContainsAt(s[1..], sub, k - 1);
    }
  }

  /** Conversely, a string that contains `sub` has it at some position. */
  lemma {:induction false} ContainsHasPosition(s: string, sub: string)
    requires Contains(s, sub)
    ensures exists k: nat :: OccursAt(s, sub, k)
    decreases |s|
  {
    if StartsWith(s, sub) {
      assert OccursAt(s, sub, 0);
    } else {
      ContainsHasPosition(s[1..], sub);
      var k: nat :| OccursAt(s[1..], sub, k);
      assert s[1..][k..k + |sub|] == s[k + 1..k + 1 + |sub|];
      assert OccursAt(s, sub, k + 1);
    }
  }

  /** The characters `String.prototype.trim` removes: ECMAScript WhiteSpace
      (tab, VT, FF, space, NBSP, ZWNBSP and the Zs category) and
      LineTerminator (LF, CR, LS, PS). */
  predicate IsJsWhitespace(c: char) {
    c == '\t' || c == '\U{B}' || c == '\U{C}' || c == ' ' || c == '\U{A0}' || c == '\U{FEFF}'
    || c == '\U{1680}' || ('\U{2000}' <= c <= '\U{200A}') || c == '\U{202F}' || c == '\U{205F}'
    || c == '\U{3000}' || c == '\n' || c == '\r' || c == '\U{2028}' || c == '\U{2029}'
  }

  /** The characters Rust's `char::is_whitespace` accepts (the Unicode
      White_Space property). Unlike JavaScript it includes NEL (U+0085)
      and excludes ZWNBSP (U+FEFF). */
  predicate IsRustWhitespace(c: char) {
    ('\t' <= c <= '\r') || c == ' ' || c == '\U{85}' || c == '\U{A0}' || c == '\U{1680}'
    || ('\U{2000}' <= c <= '\U{200A}') || c == '\U{2028}' || c == '\U{2029}' || c == '\U{202F}'
    || c == '\U{205F}' || c == '\U{3000}'
  }

  /** Drops the leading characters that satisfy `isWs`. */
  function TrimStart(s: string, isWs: char -> bool): (r: string)
    ensures |r| <= |s| && r == s[|s| - |r|..]
    ensures forall i :: 0 <= i < |s| - |r| ==> isWs(s[i])
    ensures r != [] ==> !isWs(r[0])
  {
    if |s| > 0 && isWs(s[0]) then TrimStart(s[1..], isWs) else s
  }

  /** Drops the trailing characters that satisfy `isWs`. */
  function TrimEnd(s: string, isWs: char -> bool): (r: string)
    ensures |r| <= |s| && r == s[..|r|]
    ensures forall i :: |r| <= i < |s| ==> isWs(s[i])
    ensures r != [] ==> !isWs(r[|r| - 1])
  {
    if |s| > 0 && isWs(s[|s| - 1]) then TrimEnd(s[..|s| - 1], isWs) else s
  }

  /** Drops whitespace, as decided by `isWs`, from both ends. */
  function Trim(s: string, isWs: char -> bool): string {
    TrimEnd(TrimStart(s, isWs), isWs)
  }

  /** `String.prototype.trim`. */
  function JsTrim(s: string): string {
    Trim(s, IsJsWhitespace)
  }

  /** Rust's `str::trim`. */
  function RustTrim(s: string): string {
    Trim(s, IsRustWhitespace)
  }

  /** `r` is `s[i..j]` and everything of `s` outside it is whitespace. */
  predicate WhitespaceAround(s: string, r: string, i: int, j: int, isWs: char -> bool) {
    0 <= i <= j <= |s| && r == s[i..j]
    && (forall k :: 0 <= k < i ==> isWs(s[k]))
    && (forall k :: j <= k < |s| ==> isWs(s[k]))
  }

  /** Trimming keeps one contiguous piece of the input, surrounded only by
      whitespace. */
  lemma TrimIsInfix(s: string, isWs: char -> bool)
    ensures exists i, j :: WhitespaceAround(s, Trim(s, isWs), i, j, isWs)
  {
    var t := TrimStart(s, isWs);
    var r := TrimEnd(t, isWs);
    assert r == Trim(s, isWs);
    PrefixOfSuffix(s, t, r, isWs);
    assert WhitespaceAround(s, Trim(s, isWs), |s| - |t|, |s| - |t| + |r|, isWs);
  }

  /** A prefix of a suffix, with whitespace cut off on both sides, is a
      slice with whitespace around it. */
  lemma PrefixOfSuffix(s: string, t: string, r: string, isWs: char -> bool)
    requires |t| <= |s| && t == s[|s| - |t|..]
    requires |r| <= |t| && r == t[..|r|]
    requires forall k :: 0 <= k < |s| - |t| ==> isWs(s[k])
    requires forall k :: |r| <= k < |t| ==> isWs(t[k])
    ensures WhitespaceAround(s, r, |s| - |t|, |s| - |t| + |r|, isWs)
  {
    var i := |s| - |t|;
    var j := i + |r|;
    assert r == s[i..j];
    forall k | j <= k < |s| ensures isWs(s[k]) {
      assert s[k] == t[k - i];
    }
  }

  /** The trimmed piece neither starts nor ends with whitespace. */
  lemma TrimmedEnds(s: string, isWs: char -> bool)
    ensures var r := Trim(s, isWs); r != [] ==> !isWs(r[0]) && !isWs(r[|r| - 1])
  {
    var t := TrimStart(s, isWs);
    var r := TrimEnd(t, isWs);
    if r != [] {
      assert r[0] == t[0];
    }
  }

  /** The trimmed text is empty exactly when every character is whitespace. */
  lemma TrimEmptyIff(s: string, isWs: char -> bool)
    ensures Trim(s, isWs) == [] <==> forall k :: 0 <= k < |s| ==> isWs(s[k])
  {
    var t := TrimStart(s, isWs);
    if Trim(s, isWs) == [] {
      forall k | 0 <= k < |s| ensures isWs(s[k]) {
        if k >= |s| - |t| {
          assert s[k] == t[k - (|s| - |t|)];
        }
      }
    } else {
      var r := Trim(s, isWs);
      assert r[0] == t[0] == s[|s| - |t|];
    }
  }

  /** Trimming twice is the same as trimming once. */
  lemma TrimIdempotent(s: string, isWs: char -> bool)
    ensures Trim(Trim(s, isWs), isWs) == Trim(s, isWs)
  {
    var r := Trim(s, isWs);
    if r != [] {
      assert TrimStart(r, isWs) == r;
      assert TrimEnd(r, isWs) == r;
    }
  }
}
