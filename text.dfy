/**
 * The string primitives the pipeline leans on: Python's `str.lower()`,
 * `str.strip()`, the `in` substring test and `any(kw in text for kw in ...)`.
 * Case folding and whitespace are modelled on ASCII characters only.
 */
module Text {

  /** `\d` on the characters the model covers. */
  predicate IsDigit(c: char) {
    '0' <= c <= '9'
  }

  /** `\s` and the set `str.strip()` removes, restricted to ASCII. */
  predicate IsSpace(c: char) {
    c == ' ' || c == '\t' || c == '\n' || c == '\r' || c == '\U{B}' || c == '\U{C}'
    || ('\U{1C}' <= c <= '\U{1F}')
  }

  predicate AllSpaces(s: string) {
    forall i :: 0 <= i < |s| ==> IsSpace(s[i])
  }

  function LowerChar(c: char): char {
    if 'A' <= c <= 'Z' then (c as int + 32) as char else c
  }

  /** `s.lower()`. */
  function Lower(s: string): (r: string)
    ensures |r| == |s|
    ensures forall i :: 0 <= i < |s| ==> r[i] == LowerChar(s[i])
  {
    seq(|s|, i requires 0 <= i < |s| => LowerChar(s[i]))
  }

  lemma LowerAppend(a: string, b: string)
    ensures Lower(a + b) == Lower(a) + Lower(b)
  {
  }

  lemma LowerIdempotent(s: string)
    ensures Lower(Lower(s)) == Lower(s)
  {
  }

  /** Lower-casing neither creates nor removes whitespace. */
  lemma LowerKeepsSpaces(c: char)
    ensures IsSpace(LowerChar(c)) <==> IsSpace(c)
  {
  }

  /** The end of the run of whitespace that starts at `i` (`\s*`). */
  function SpacesEnd(s: string, i: nat): (e: nat)
    requires i <= |s|
    ensures i <= e <= |s|
    ensures forall k :: i <= k < e ==> IsSpace(s[k])
    ensures e == |s| || !IsSpace(s[e])
    decreases |s| - i
  {
    if i < |s| && IsSpace(s[i]) then SpacesEnd(s, i + 1) else i
  }

  /** The start of the run of whitespace that ends at `j`, looking no further left than `lo`. */
  function SpacesStart(s: string, lo: nat, j: nat): (b: nat)
    requires lo <= j <= |s|
    ensures lo <= b <= j
    ensures forall k :: b <= k < j ==> IsSpace(s[k])
    ensures b == lo || !IsSpace(s[b - 1])
    decreases j
  {
    if lo < j && IsSpace(s[j - 1]) then SpacesStart(s, lo, j - 1) else j
  }

  /** `s.strip()`: the text between the leading and the trailing whitespace. */
  function Strip(s: string): (r: string)
    ensures Trimmed(r)
  {
    var b := SpacesEnd(s, 0);
    s[b..SpacesStart(s, b, |s|)]
  }

  /** `strip()` removes only whitespace, and only at the two ends. */
  lemma StripSplit(s: string) returns (x: string, y: string)
    ensures AllSpaces(x) && AllSpaces(y) && s == x + Strip(s) + y
  {
    var b := SpacesEnd(s, 0);
    var e := SpacesStart(s, b, |s|);
    x, y := s[..b], s[e..];
    assert s == s[..b] + s[b..e] + s[e..];
  }

  /** A trimmed text: empty, or starting and ending with a non-space. */
  predicate Trimmed(r: string) {
    r == [] || (!IsSpace(r[0]) && !IsSpace(r[|r| - 1]))
  }

  /** Whatever whitespace surrounds a trimmed text, stripping returns exactly that text. */
  lemma StripUnique(x: string, r: string, y: string)
    requires AllSpaces(x) && AllSpaces(y) && Trimmed(r)
    ensures Strip(x + r + y) == r
  {
    var s := x + r + y;
    var b := SpacesEnd(s, 0);
    var e := SpacesStart(s, b, |s|);
    if r == [] {
      assert forall k :: 0 <= k < |s| ==> IsSpace(s[k]);
      assert b == |s|;
    } else {
      var m := |x| + |r|;
      assert forall k :: 0 <= k < |x| ==> IsSpace(s[k]);
      assert s[|x|] == r[0] && !IsSpace(s[|x|]);
      assert b == |x|;
      assert forall k :: m <= k < |s| ==> IsSpace(s[k]);
      assert s[m - 1] == r[|r| - 1] && !IsSpace(s[m - 1]);
      assert e == m;
      assert s[b..e] == r;
    }
  }

  /** Surrounding whitespace never changes what `strip()` returns, and stripping twice is stripping once. */
  lemma StripPadding(a: string, s: string, b: string)
    requires AllSpaces(a) && AllSpaces(b)
    ensures Strip(a + s + b) == Strip(s)
    ensures Strip(Strip(s)) == Strip(s)
  {
    var r := Strip(s);
    var x, y := StripSplit(s);
    Regroup(a, x, r, y, b);
    AllSpacesConcat(a, x);
    AllSpacesConcat(y, b);
    StripUnique(a + x, r, y + b);
    assert r == [] + r + [];
    StripUnique([], r, []);
  }

  lemma AllSpacesConcat(a: string, b: string)
    requires AllSpaces(a) && AllSpaces(b)
    ensures AllSpaces(a + b)
  {
  }

  lemma Regroup(a: string, x: string, r: string, y: string, b: string)
    ensures a + (x + r + y) + b == (a + x) + r + (y + b)
  {
  }

  lemma LowerAllSpaces(x: string)
    requires AllSpaces(x)
    ensures AllSpaces(Lower(x))
  {
    forall i | 0 <= i < |x| ensures IsSpace(Lower(x)[i]) {
      LowerKeepsSpaces(x[i]);
    }
  }

  /** Lower-casing and stripping commute. */
  lemma {:induction false} LowerStripCommute(s: string)
    ensures Lower(Strip(s)) == Strip(Lower(s))
  {
    var r := Strip(s);
    var x, y := StripSplit(s);
    LowerAppend(x, r);
    LowerAppend(x + r, y);
    LowerAllSpaces(x);
    LowerAllSpaces(y);
    if r != [] {
      LowerKeepsSpaces(r[0]);
      LowerKeepsSpaces(r[|r| - 1]);
    }
    StripUnique(Lower(x), Lower(r), Lower(y));
  }

  /** `p` occurs in `s` starting at index `i`. */
  predicate OccursAt(s: string, p: string, i: int) {
    0 <= i && i + |p| <= |s| && s[i..i + |p|] == p
  }

  /** An occurrence fixes every character it covers. */
  lemma OccursAtChar(s: string, p: string, i: int, k: int)
    requires 0 <= k < |p|
    ensures OccursAt(s, p, i) ==> s[i + k] == p[k]
  {
    if OccursAt(s, p, i) {
      assert s[i..i + |p|][k] == s[i + k];
    }
  }

  /** Python's `p in s`. */
  predicate Contains(s: string, p: string) {
    exists i | 0 <= i <= |s| :: OccursAt(s, p, i)
  }

  /** `any(kw in text for kw in kws)`, scanning the keywords in order. */
  function ContainsAny(text: string, kws: seq<string>): (b: bool)
    ensures b <==> exists k :: 0 <= k < |kws| && Contains(text, kws[k])
    decreases |kws|
  {
    if kws == [] then false
    else if Contains(text, kws[0]) then true
    else
      var rest := ContainsAny(text, kws[1..]);
      assert forall k :: 1 <= k < |kws| ==> kws[k] == kws[1..][k - 1];
      rest
  }
}
