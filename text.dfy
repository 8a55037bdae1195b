/** The string operations the controller applies to query parameters and
    artist names: `split(",")`, `trim()`, `replace(/\s/g, "")`,
    `toLowerCase()` and `includes`, over ASCII. */
module Text {
  import opened Sequences

  /** ASCII white space: what `\s` matches and `trim` removes. */
  predicate IsSpace(c: char) {
    c == ' ' || c == '\t' || c == '\n' || c == '\r' || c == '\U{B}' || c == '\U{C}'
  }

  predicate NoSpace(s: string) {
    forall i :: 0 <= i < |s| ==> !IsSpace(s[i])
  }

  predicate AllSpace(s: string) {
    forall i :: 0 <= i < |s| ==> IsSpace(s[i])
  }

  /** Neither end of `r` is white space. */
  predicate Bare(r: string) {
    r == [] || (!IsSpace(r[0]) && !IsSpace(r[|r| - 1]))
  }

  /** `r` is the slice of `s` starting at `lo`, and everything of `s` outside
      that slice is white space. */
  predicate TrimmedAt(s: string, r: string, lo: int) {
    0 <= lo && lo + |r| <= |s| && r == s[lo..lo + |r|]
    && AllSpace(s[..lo]) && AllSpace(s[lo + |r|..])
  }

  function TrimStart(s: string): (r: string)
    ensures |r| <= |s| && r == s[|s| - |r|..]
    ensures AllSpace(s[..|s| - |r|])
    ensures r == [] || !IsSpace(r[0])
  {
    if s != [] && IsSpace(s[0]) then
      var r := TrimStart(s[1..]);
      TrimStartStep(s, r);
      r
    else
      assert s[..0] == [];
      s
  }

  lemma TrimStartStep(s: string, r: string)
    requires s != [] && IsSpace(s[0])
    requires |r| <= |s| - 1 && r == s[1..][|s| - 1 - |r|..]
    requires AllSpace(s[1..][..|s| - 1 - |r|])
    ensures r == s[|s| - |r|..] && AllSpace(s[..|s| - |r|])
  {
    var k := |s| - |r|;
    assert s[1..][k - 1..] == s[k..];
    forall i | 0 <= i < k ensures IsSpace(s[..k][i]) {
      if i > 0 {
        assert s[..k][i] == s[1..][..k - 1][i - 1];
      }
    }
  }

  function TrimEnd(s: string): (r: string)
    ensures |r| <= |s| && r == s[..|r|]
    ensures AllSpace(s[|r|..])
    ensures r == [] || !IsSpace(r[|r| - 1])
  {
    if s != [] && IsSpace(s[|s| - 1]) then
      var r := TrimEnd(s[..|s| - 1]);
      TrimEndStep(s, r);
      r
    else
      assert s[|s|..] == [];
      s
  }

  lemma TrimEndStep(s: string, r: string)
    requires s != [] && IsSpace(s[|s| - 1])
    requires |r| <= |s| - 1 && r == s[..|s| - 1][..|r|]
    requires AllSpace(s[..|s| - 1][|r|..])
    ensures r == s[..|r|] && AllSpace(s[|r|..])
  {
    var n := |s| - 1;
    assert s[..n][..|r|] == s[..|r|];
    forall i | 0 <= i < |s| - |r| ensures IsSpace(s[|r|..][i]) {
      if |r| + i < n {
        assert s[|r|..][i] == s[..n][|r|..][i];
      }
    }
  }

  /** `s.trim()`: the white space at both ends removed. */
  function Trim(s: string): (r: string)
    ensures Bare(r)
    ensures exists lo :: TrimmedAt(s, r, lo)
  {
    var t := TrimStart(s);
    var r := TrimEnd(t);
    TrimBoth(s, t, r);
    r
  }

  lemma TrimBoth(s: string, t: string, r: string)
    requires |t| <= |s| && t == s[|s| - |t|..] && AllSpace(s[..|s| - |t|])
    requires |r| <= |t| && r == t[..|r|] && AllSpace(t[|r|..])
    ensures TrimmedAt(s, r, |s| - |t|)
  {
    var lo := |s| - |t|;
    assert s[lo..lo + |r|] == t[..|r|];
    assert s[lo + |r|..] == t[|r|..];
  }

  /** Trimming adds no character. */
  lemma TrimKeepsChars(s: string, c: char)
    requires c in Trim(s)
    ensures c in s
  {
    var r := Trim(s);
    var lo :| TrimmedAt(s, r, lo);
    var i :| 0 <= i < |r| && r[i] == c;
    SpaceOutside(s, r, lo);
    assert s[lo + i] == c;
  }

  /** `s[i]` exists and is not white space. */
  predicate Solid(s: string, i: int) {
    0 <= i < |s| && !IsSpace(s[i])
  }

  /** There is only one bare slice of `s` with nothing but white space around
      it, so the two properties in Trim's contract define it. */
  lemma TrimUnique(s: string, r: string, lo: int)
    requires Bare(r) && TrimmedAt(s, r, lo)
    ensures r == Trim(s)
  {
    var t := Trim(s);
    var lo' :| TrimmedAt(s, t, lo');
    BareSliceUnique(s, r, lo, t, lo');
  }

  lemma BareSliceUnique(s: string, r: string, lo: int, t: string, lo': int)
    requires Bare(r) && TrimmedAt(s, r, lo)
    requires Bare(t) && TrimmedAt(s, t, lo')
    ensures r == t
  {
    SpaceOutside(s, r, lo);
    SpaceOutside(s, t, lo');
    assert r != [] ==> Solid(s, lo) && Solid(s, lo + |r| - 1);
    assert t != [] ==> Solid(s, lo') && Solid(s, lo' + |t| - 1);
    assert (r == []) == (t == []) by {
      assert r == [] && t != [] ==> !Solid(s, lo');
      assert t == [] && r != [] ==> !Solid(s, lo);
    }
    if r != [] {
      assert lo == lo' by {
        assert lo < lo' ==> !Solid(s, lo);
        assert lo' < lo ==> !Solid(s, lo');
      }
      assert |r| == |t| by {
        assert |r| < |t| ==> !Solid(s, lo + |t| - 1);
        assert |t| < |r| ==> !Solid(s, lo + |r| - 1);
      }
    }
  }

  /** A string with no white space at either end is its own trim. */
  lemma TrimBare(s: string)
    requires Bare(s)
    ensures Trim(s) == s
  {
    assert s[..0] == [] && s[|s|..] == [] && s[0..|s|] == s;
    TrimUnique(s, s, 0);
  }

  /** Trimming twice is trimming once. */
  lemma TrimIdempotent(s: string)
    ensures Trim(Trim(s)) == Trim(s)
  {
    TrimBare(Trim(s));
  }

  lemma SpaceOutside(s: string, r: string, lo: int)
    requires TrimmedAt(s, r, lo)
    ensures forall i :: 0 <= i < lo ==> IsSpace(s[i])
    ensures forall i :: lo + |r| <= i < |s| ==> IsSpace(s[i])
    ensures forall i :: 0 <= i < |r| ==> r[i] == s[lo + i]
  {
    forall i | 0 <= i < lo ensures IsSpace(s[i]) {
      assert s[..lo][i] == s[i];
    }
    forall i | lo + |r| <= i < |s| ensures IsSpace(s[i]) {
      assert s[lo + |r|..][i - lo - |r|] == s[i];
    }
  }

  /** `s.replace(/\s/g, "")` (equally `s.replace(/\s+/g, "")`): every white
      space character removed, everything else kept. */
  function StripSpace(s: string): (r: string)
    ensures NoSpace(r)
    ensures |r| <= |s|
    ensures NoSpace(s) ==> r == s
    ensures forall c :: c in r <==> c in s && !IsSpace(c)
  {
    if s == [] then []
    else
      assert s == [s[0]] + s[1..];
      (if IsSpace(s[0]) then [] else [s[0]]) + StripSpace(s[1..])
  }

  lemma {:induction false} StripSpaceAppend(a: string, b: string)
    ensures StripSpace(a + b) == StripSpace(a) + StripSpace(b)
    decreases |a|
  {
    if a != [] {
      assert (a + b)[0] == a[0];
      assert (a + b)[1..] == a[1..] + b;
      StripSpaceAppend(a[1..], b);
      assert StripSpace(a + b) == (if IsSpace(a[0]) then [] else [a[0]]) + StripSpace(a[1..] + b);
    } else {
      assert a + b == b;
    }
  }

  lemma {:induction false} StripSpaceAllSpace(s: string)
    requires AllSpace(s)
    ensures StripSpace(s) == []
    decreases |s|
  {
    if s != [] {
      StripSpaceAllSpace(s[1..]);
    }
  }

  /** Trimming before stripping changes nothing: `a.trim().replace(/\s+/g, "")`
      is `a.replace(/\s+/g, "")`. */
  lemma StripSpaceTrim(s: string)
    ensures StripSpace(Trim(s)) == StripSpace(s)
  {
    var r := Trim(s);
    var lo :| TrimmedAt(s, r, lo);
    StripSpaceAround(s, lo, lo + |r|);
  }

  /** White space on either side of `r` disappears when stripping. */
  lemma StripSpaceAround(s: string, lo: int, hi: int)
    requires 0 <= lo <= hi <= |s|
    requires AllSpace(s[..lo]) && AllSpace(s[hi..])
    ensures StripSpace(s) == StripSpace(s[lo..hi])
  {
    var head, r, tail := s[..lo], s[lo..hi], s[hi..];
    SliceThree(s, lo, hi);
    StripSpaceAppend(head + r, tail);
    StripSpaceAppend(head, r);
    StripSpaceAllSpace(head);
    StripSpaceAllSpace(tail);
    calc {
      StripSpace(s);
      StripSpace((head + r) + tail);
      StripSpace(head + r) + StripSpace(tail);
      StripSpace(head) + StripSpace(r) + StripSpace(tail);
      [] + StripSpace(r) + [];
      { assert [] + StripSpace(r) + [] == StripSpace(r); }
      StripSpace(r);
    }
  }

  /** ASCII `toLowerCase` of one character. */
  function LowerChar(c: char): char {
    if 'A' <= c <= 'Z' then (c as int + 32) as char else c
  }

  /** `s.toLowerCase()`, ASCII only. */
  function Lower(s: string): (r: string)
    ensures |r| == |s|
    ensures forall i :: 0 <= i < |s| ==> r[i] == LowerChar(s[i])
  {
    if s == [] then [] else [LowerChar(s[0])] + Lower(s[1..])
  }

  /** `needle` occurs in `hay` at index `i`. */
  predicate OccursAt(hay: string, needle: string, i: int) {
    0 <= i && i + |needle| <= |hay| && hay[i..i + |needle|] == needle
  }

  lemma OccursShift(hay: string, needle: string, i: int)
    requires hay != [] && 1 <= i
    ensures OccursAt(hay, needle, i) <==> OccursAt(hay[1..], needle, i - 1)
  {
    if i + |needle| <= |hay| {
      assert hay[1..][i - 1..i - 1 + |needle|] == hay[i..i + |needle|];
    }
  }

  /** `hay.includes(needle)`: some index of `hay` starts an occurrence of
      `needle`; the empty string occurs everywhere. */
  function Includes(hay: string, needle: string): (r: bool)
    ensures r <==> exists i :: OccursAt(hay, needle, i)
    decreases |hay|
  {
    if |needle| > |hay| then false
    else if hay[..|needle|] == needle then
      assert OccursAt(hay, needle, 0);
      true
    else
      var r := Includes(hay[1..], needle);
      assert r ==> exists i :: OccursAt(hay, needle, i) by {
        if r {
          var j :| OccursAt(hay[1..], needle, j);
          OccursShift(hay, needle, j + 1);
        }
      }
      assert (exists i :: OccursAt(hay, needle, i)) ==> r by {
        if exists i :: OccursAt(hay, needle, i) {
          var i :| OccursAt(hay, needle, i);
          assert i != 0;
          OccursShift(hay, needle, i);
        }
      }
      r
  }

  /** The inverse of Split: the parts glued back with `sep` between them. */
  function Join(parts: seq<string>, sep: char): string
    requires parts != []
  {
    if |parts| == 1 then parts[0] else parts[0] + [sep] + Join(parts[1..], sep)
  }

  /** `s.split(sep)` for a one-character separator: the maximal pieces of `s`
      between separators, the empty ones included; "" gives [""]. */
  function Split(s: string, sep: char): (parts: seq<string>)
    ensures parts != []
    ensures forall k :: 0 <= k < |parts| ==> sep !in parts[k]
    ensures Join(parts, sep) == s
  {
    if s == [] then [[]]
    else
      var rest := Split(s[1..], sep);
      if s[0] == sep then
        assert s == [sep] + s[1..];
        [[]] + rest
      else
        var parts := [[s[0]] + rest[0]] + rest[1..];
        assert parts[1..] == rest[1..];
        assert s == [s[0]] + s[1..];
        parts
  }

  /** The number of occurrences of `c` in `s`. */
  function Count(s: string, c: char): nat {
    if s == [] then 0 else (if s[0] == c then 1 else 0) + Count(s[1..], c)
  }

  /** There is one piece more than there are separators. */
  lemma {:induction false} SplitCount(s: string, sep: char)
    ensures |Split(s, sep)| == Count(s, sep) + 1
    decreases |s|
  {
    if s != [] {
      SplitCount(s[1..], sep);
    }
  }

  /** Splitting what Join produced gives the parts back, when no part holds
      the separator. */
  lemma {:induction false} SplitJoin(parts: seq<string>, sep: char)
    requires parts != []
    requires forall k :: 0 <= k < |parts| ==> sep !in parts[k]
    ensures Split(Join(parts, sep), sep) == parts
    decreases |parts|, |parts[0]|
  {
    if parts[0] == [] {
      if |parts| > 1 {
        SplitJoin(parts[1..], sep);
        SplitJoinEmptyHead(parts, sep);
      }
    } else {
      var tail := [parts[0][1..]] + parts[1..];
      ShortenHead(parts, sep);
      SplitJoin(tail, sep);
      SplitJoinLongHead(parts, sep);
    }
  }

  /** The parts with the first character of the first part removed still
      hold no separator. */
  lemma ShortenHead(parts: seq<string>, sep: char)
    requires parts != [] && parts[0] != []
    requires forall k :: 0 <= k < |parts| ==> sep !in parts[k]
    ensures var tail := [parts[0][1..]] + parts[1..];
      tail != [] && forall k :: 0 <= k < |tail| ==> sep !in tail[k]
  {
    var tail := [parts[0][1..]] + parts[1..];
    forall k | 0 <= k < |tail| ensures sep !in tail[k] {
      if k == 0 {
        assert parts[0] == [parts[0][0]] + parts[0][1..];
      } else {
        assert tail[k] == parts[k];
      }
    }
  }

  lemma SplitJoinEmptyHead(parts: seq<string>, sep: char)
    requires |parts| > 1 && parts[0] == []
    requires Split(Join(parts[1..], sep), sep) == parts[1..]
    ensures Split(Join(parts, sep), sep) == parts
  {
    var rest := Join(parts[1..], sep);
    assert Join(parts, sep) == [sep] + rest;
    assert ([sep] + rest)[1..] == rest;
    assert parts == [[]] + parts[1..];
  }

  lemma SplitJoinLongHead(parts: seq<string>, sep: char)
    requires parts != [] && parts[0] != [] && sep != parts[0][0]
    requires var tail := [parts[0][1..]] + parts[1..];
      Split(Join(tail, sep), sep) == tail
    ensures Split(Join(parts, sep), sep) == parts
  {
    var p := parts[0];
    var tail := [p[1..]] + parts[1..];
    JoinLongHead(parts, sep);
    var joined := Join(tail, sep);
    assert ([p[0]] + joined)[1..] == joined;
    assert ([p[0]] + joined)[0] == p[0];
    ConsHead(parts);
  }

  /** Joining moves the first character of the first part to the front. */
  lemma JoinLongHead(parts: seq<string>, sep: char)
    requires parts != [] && parts[0] != []
    ensures Join(parts, sep) == [parts[0][0]] + Join([parts[0][1..]] + parts[1..], sep)
  {
    var p := parts[0];
    var tail := [p[1..]] + parts[1..];
    assert tail[0] == p[1..] && tail[1..] == parts[1..];
    assert p == [p[0]] + p[1..];
    if |parts| > 1 {
      AppendAssoc3(p[0], p[1..], [sep], Join(parts[1..], sep));
    }
  }
}
