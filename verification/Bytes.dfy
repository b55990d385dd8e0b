/** Byte strings, as the Go sources use them: `len` counts bytes and slices cut between bytes.

    A `Bytes` value is a sequence of characters each of which stands for one byte; literals
    above 0x7F spell out the bytes of their UTF-8 encoding.  No theorem of this project needs
    an upper bound on a character, so all of them hold for byte strings in particular. */
module Bytes {

  type Bytes = string

  datatype Option<+T> = None | Some(value: T)

  /** U+2026, the ellipsis the sources append to cut strings. */
  const ELLIPSIS: Bytes := "\U{E2}\U{80}\U{A6}"

  predicate HasPrefix(s: Bytes, p: Bytes) {
    |p| <= |s| && s[..|p|] == p
  }

  function TrimPrefix(s: Bytes, p: Bytes): Bytes {
    if HasPrefix(s, p) then s[|p|..] else s
  }

  /** `truncate` of loop.go and state.go. */
  function Truncate(s: Bytes, n: nat): Bytes {
    if |s| <= n then s else s[..n] + ELLIPSIS
  }

  function Concat(parts: seq<Bytes>): Bytes {
    if parts == [] then "" else Concat(parts[..|parts| - 1]) + parts[|parts| - 1]
  }

  lemma {:induction false} ConcatAppend(a: seq<Bytes>, b: seq<Bytes>)
    ensures Concat(a + b) == Concat(a) + Concat(b)
  {
    if b == [] {
      assert a + b == a;
    } else {
      var init, last := b[..|b| - 1], b[|b| - 1];
      assert (a + b)[..|a + b| - 1] == a + init;
      ConcatAppend(a, init);
    }
  }

  lemma ConcatOne(p: Bytes)
    ensures Concat([p]) == p
  {
    assert [p][..0] == [];
  }

  // ---------------------------------------------------------------------------------
  // White space, as unicode.IsSpace sees it in UTF-8.
  // ---------------------------------------------------------------------------------

  predicate IsAsciiSpace(c: char) {
    c == ' ' || '\U{9}' <= c <= '\U{D}'
  }

  /** The two-byte encodings of U+0085 and U+00A0. */
  predicate IsSpace2(a: char, b: char) {
    a == '\U{C2}' && (b == '\U{85}' || b == '\U{A0}')
  }

  /** The three-byte encodings of U+1680, U+2000..U+200A, U+2028, U+2029, U+202F, U+205F, U+3000. */
  predicate IsSpace3(a: char, b: char, c: char) {
    || (a == '\U{E1}' && b == '\U{9A}' && c == '\U{80}')
    || (a == '\U{E2}' && b == '\U{80}' && ('\U{80}' <= c <= '\U{8A}' || c == '\U{A8}' || c == '\U{A9}' || c == '\U{AF}'))
    || (a == '\U{E2}' && b == '\U{81}' && c == '\U{9F}')
    || (a == '\U{E3}' && b == '\U{80}' && c == '\U{80}')
  }

  /** Byte length of the white-space rune at position `i`, 0 when there is none. */
  function SpaceAt(s: Bytes, i: nat): (n: nat)
    requires i <= |s|
    ensures i + n <= |s|
  {
    if i + 1 <= |s| && IsAsciiSpace(s[i]) then 1
    else if i + 2 <= |s| && IsSpace2(s[i], s[i + 1]) then 2
    else if i + 3 <= |s| && IsSpace3(s[i], s[i + 1], s[i + 2]) then 3
    else 0
  }

  /** Byte length of the white-space rune that ends at position `j` and lies behind `lo`. */
  function SpaceBefore(s: Bytes, lo: nat, j: nat): (n: nat)
    requires lo <= j <= |s|
    ensures lo + n <= j
  {
    if lo + 1 <= j && IsAsciiSpace(s[j - 1]) then 1
    else if lo + 2 <= j && IsSpace2(s[j - 2], s[j - 1]) then 2
    else if lo + 3 <= j && IsSpace3(s[j - 3], s[j - 2], s[j - 1]) then 3
    else 0
  }

  /** The bytes that occur in encoded white space. */
  predicate IsSpaceByte(c: char) {
    || IsAsciiSpace(c)
    || '\U{80}' <= c <= '\U{8A}' || c == '\U{9A}' || c == '\U{9F}'
    || c == '\U{A0}' || c == '\U{A8}' || c == '\U{A9}' || c == '\U{AF}'
    || c == '\U{C2}' || '\U{E1}' <= c <= '\U{E3}'
  }

  /** The first position from `i` on where no white-space rune starts. */
  function SkipSpace(s: Bytes, i: nat): (j: nat)
    requires i <= |s|
    ensures i <= j <= |s| && SpaceAt(s, j) == 0
    ensures forall k :: i <= k < j ==> IsSpaceByte(s[k])
    decreases |s| - i
  {
    if SpaceAt(s, i) == 0 then i else SkipSpace(s, i + SpaceAt(s, i))
  }

  /** The last position down from `j` where no white-space rune ends. */
  function SkipSpaceBack(s: Bytes, lo: nat, j: nat): (m: nat)
    requires lo <= j <= |s|
    ensures lo <= m <= j && SpaceBefore(s, lo, m) == 0
    ensures forall k :: m <= k < j ==> IsSpaceByte(s[k])
    decreases j
  {
    if SpaceBefore(s, lo, j) == 0 then j else SkipSpaceBack(s, lo, j - SpaceBefore(s, lo, j))
  }

  /** `strings.TrimSpace`. */
  function TrimSpace(s: Bytes): Bytes {
    var i := SkipSpace(s, 0);
    s[i..SkipSpaceBack(s, i, |s|)]
  }

  /** No white-space rune at either end. */
  predicate NoOuterSpace(s: Bytes) {
    SpaceAt(s, 0) == 0 && SpaceBefore(s, 0, |s|) == 0
  }

  predicate AllSpaceBytes(s: Bytes) {
    forall k :: 0 <= k < |s| ==> IsSpaceByte(s[k])
  }

  /** `TrimSpace` yields a middle piece without outer white space; what it cuts is white space. */
  lemma TrimSpaceMiddle(s: Bytes) returns (a: Bytes, b: Bytes)
    ensures s == a + TrimSpace(s) + b
    ensures AllSpaceBytes(a) && AllSpaceBytes(b)
    ensures NoOuterSpace(TrimSpace(s))
  {
    var i := SkipSpace(s, 0);
    var j := SkipSpaceBack(s, i, |s|);
    a, b := s[..i], s[j..];
    InnerEnds(s, i, j);
  }

  lemma InnerEnds(s: Bytes, i: nat, j: nat)
    requires i <= j <= |s| && SpaceAt(s, i) == 0 && SpaceBefore(s, i, j) == 0
    ensures NoOuterSpace(s[i..j])
  {
    var m := s[i..j];
    assert forall k :: 0 <= k < |m| ==> m[k] == s[i + k];
  }

  lemma TrimSpaceIdentity(s: Bytes)
    requires NoOuterSpace(s)
    ensures TrimSpace(s) == s
  {
    assert SkipSpace(s, 0) == 0 && SkipSpaceBack(s, 0, |s|) == |s|;
  }
}
