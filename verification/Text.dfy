/** Texts as the source's language stores them, in 16-bit code units, and how they are trimmed. */
module Text {

  type CodeUnit = x: int | 0 <= x < 0x1_0000

  type Units = seq<CodeUnit>

  /** White space and line terminators of ECMAScript (sections 12.2 and 12.3 of ECMA-262). */
  predicate IsSpace(c: CodeUnit) {
    || 0x09 <= c <= 0x0D || c == 0x20 || c == 0xA0 || c == 0x1680 || 0x2000 <= c <= 0x200A
    || c == 0x2028 || c == 0x2029 || c == 0x202F || c == 0x205F || c == 0x3000 || c == 0xFEFF
  }

  predicate SpaceIn(s: Units, from: int, to: int)
    requires 0 <= from && to <= |s|
  {
    forall k :: from <= k < to ==> IsSpace(s[k])
  }

  predicate AllSpace(s: Units) {
    SpaceIn(s, 0, |s|)
  }

  function TrimStart(s: Units): (r: Units)
    ensures r != [] ==> !IsSpace(r[0])
    ensures |r| <= |s| && r == s[|s| - |r|..]
    ensures SpaceIn(s, 0, |s| - |r|)
  {
    if s != [] && IsSpace(s[0]) then TrimStart(s[1..]) else s
  }

  function TrimEnd(s: Units): (r: Units)
    ensures r != [] ==> !IsSpace(r[|r| - 1])
    ensures |r| <= |s| && r == s[..|r|]
    ensures SpaceIn(s, |r|, |s|)
  {
    if s != [] && IsSpace(s[|s| - 1]) then TrimEnd(s[..|s| - 1]) else s
  }

  function Trim(s: Units): Units {
    TrimEnd(TrimStart(s))
  }

  /** A text that neither starts nor ends with white space is left alone, so trimming twice
      is trimming once. */
  lemma TrimTwice(s: Units)
    ensures Trim(Trim(s)) == Trim(s)
  {
    var t := TrimStart(s);
    var r := TrimEnd(t);
    if r != [] {
      assert r[0] == t[0];
    }
  }

  /** The white space at both ends of `s` is what lies before `i` and from `j` on. */
  predicate TrimsAt(s: Units, i: int, j: int) {
    && 0 <= i <= j <= |s| && SpaceIn(s, 0, i) && SpaceIn(s, j, |s|)
    && (i < j ==> !IsSpace(s[i]) && !IsSpace(s[j - 1]))
  }

  /** Trimming removes all white space at both ends and nothing else. */
  lemma TrimExact(s: Units, r: Units)
    ensures Trim(s) == r <==> exists i, j :: TrimsAt(s, i, j) && r == s[i..j]
  {
    hide Trim;
    var k, l := TrimHolds(s);
    if i, j :| TrimsAt(s, i, j) && r == s[i..j] {
      CutsSame(s, i, j, k, l);
    }
  }

  lemma TrimHolds(s: Units) returns (i: int, j: int)
    ensures TrimsAt(s, i, j) && Trim(s) == s[i..j]
  {
    hide SpaceIn, IsSpace, TrimStart, TrimEnd;
    var t := TrimStart(s);
    var n := |TrimEnd(t)|;
    i := |s| - |t|;
    j := i + n;
    assert t == s[i..] && TrimEnd(t) == t[..n];
    SpaceBehind(s, i, j);
    assert s[i..j] == t[..n];
    if n > 0 {
      assert s[i] == t[0] && s[j - 1] == t[n - 1];
    }
  }

  lemma SpaceBehind(s: Units, i: int, j: int)
    requires 0 <= i <= j <= |s| && SpaceIn(s[i..], j - i, |s| - i)
    ensures SpaceIn(s, j, |s|)
  {
    forall k | j <= k < |s| ensures IsSpace(s[k]) {
      assert s[i..][k - i] == s[k];
    }
  }

  lemma CutsSame(s: Units, i: int, j: int, k: int, l: int)
    requires TrimsAt(s, i, j) && TrimsAt(s, k, l)
    ensures s[i..j] == s[k..l]
  {
    if i < j || k < l {
      assert i == k && j == l;
    }
  }

  /** Nothing remains exactly of blank texts. */
  lemma TrimBlank(s: Units)
    ensures Trim(s) == [] <==> AllSpace(s)
  {
    hide Trim;
    var k, l := TrimHolds(s);
  }
}
