/** The parts of Go's `strings` package that the storage keys, the manifest and the
    request checks are built from: splitting and joining on one separator, trimming,
    and the lexicographic order in which the object store lists its keys. */
module Text {

  datatype Option<+T> = None | Some(value: T)

  predicate Distinct(s: seq<string>) { forall i, j :: 0 <= i < j < |s| ==> s[i] != s[j] }

  /** The code points `strings.TrimSpace` removes (the Unicode White_Space property). */
  predicate IsSpace(c: char) {
    var n := c as int;
    9 <= n <= 13 || n == 32 || n == 0x85 || n == 0xA0 || n == 0x1680 || 0x2000 <= n <= 0x200A
    || n == 0x2028 || n == 0x2029 || n == 0x202F || n == 0x205F || n == 0x3000
  }

  predicate IsSlash(c: char) { c == '/' }

  function TrimLeft(s: string, drop: char -> bool): string {
    if s != "" && drop(s[0]) then TrimLeft(s[1..], drop) else s
  }

  function TrimRight(s: string, drop: char -> bool): (r: string)
    ensures r <= s
    ensures r == "" || !drop(r[|r| - 1])
  {
    if s != "" && drop(s[|s| - 1]) then TrimRight(s[..|s| - 1], drop) else s
  }

  function TrimSpace(s: string): string { TrimRight(TrimLeft(s, IsSpace), IsSpace) }

  function TrimSlashes(s: string): string { TrimRight(TrimLeft(s, IsSlash), IsSlash) }

  predicate Trimmed(s: string) { s == "" || (!IsSpace(s[0]) && !IsSpace(s[|s| - 1])) }

  /** Trimming is the identity exactly on strings without space at either end, and its
      result is always such a string. */
  lemma {:induction false} TrimSpaceFixed(s: string)
    ensures TrimSpace(s) == s <==> Trimmed(s)
    ensures Trimmed(TrimSpace(s))
  {
    TrimLeftEnds(s);
    var l := TrimLeft(s, IsSpace);
    assert TrimRight(l, IsSpace) <= l;
    if TrimSpace(s) == s {
      assert |l| == |s|;
    }
  }

  /** Trimming takes white space only: what is left lies between two runs of it. */
  lemma TrimSpaceParts(s: string) returns (before: string, after: string)
    ensures s == before + TrimSpace(s) + after && AllSpace(before) && AllSpace(after)
  {
    before := TrimLeftTakes(s);
    after := TrimRightTakes(TrimLeft(s, IsSpace));
  }

  lemma {:induction false} TrimLeftTakes(s: string) returns (before: string)
    ensures s == before + TrimLeft(s, IsSpace) && AllSpace(before)
  {
    if s != "" && IsSpace(s[0]) {
      before := TrimLeftTakes(s[1..]);
      before := [s[0]] + before;
    } else {
      before := "";
    }
  }

  lemma {:induction false} TrimRightTakes(s: string) returns (after: string)
    ensures s == TrimRight(s, IsSpace) + after && AllSpace(after)
  {
    if s != "" && IsSpace(s[|s| - 1]) {
      after := TrimRightTakes(s[..|s| - 1]);
      after := after + [s[|s| - 1]];
    } else {
      after := "";
    }
  }

  predicate AllSpace(s: string) { forall i :: 0 <= i < |s| ==> IsSpace(s[i]) }

  /** Trimming is determined by that: whatever trimmed text lies between two runs of white
      space is what is left. */
  lemma TrimSpaceIs(before: string, s: string, after: string)
    requires AllSpace(before) && AllSpace(after) && Trimmed(s)
    ensures TrimSpace(before + s + after) == s
  {
    assert before + s + after == before + (s + after);
    if s == "" {
      TrimLeftAll(before + after);
      assert before + s + after == before + after;
    } else {
      TrimLeftPast(before, s + after);
      TrimRightKeeps(s, after, IsSpace);
      TrimRightAll(after);
    }
  }

  lemma {:induction false} TrimLeftPast(before: string, s: string)
    requires AllSpace(before) && s != "" && !IsSpace(s[0])
    ensures TrimLeft(before + s, IsSpace) == s
  {
    if before != "" {
      assert (before + s)[1..] == before[1..] + s;
      TrimLeftPast(before[1..], s);
    } else {
      assert before + s == s;
    }
  }

  lemma {:induction false} TrimLeftAll(s: string)
    requires AllSpace(s)
    ensures TrimLeft(s, IsSpace) == ""
  {
    if s != "" { TrimLeftAll(s[1..]); }
  }

  lemma {:induction false} TrimRightAll(s: string)
    requires AllSpace(s)
    ensures TrimRight(s, IsSpace) == ""
  {
    if s != "" { TrimRightAll(s[..|s| - 1]); }
  }

  lemma BlankIsSpace(s: string)
    requires TrimSpace(s) == ""
    ensures AllSpace(s)
  {
    var before, after := TrimSpaceParts(s);
    assert s == before + after;
    forall i | 0 <= i < |s| ensures IsSpace(s[i]) {
      assert s[i] == if i < |before| then before[i] else after[i - |before|];
    }
  }

  /** A text with a character that is no white space is not blank. */
  lemma TrimSpaceSolid(s: string, i: nat)
    requires i < |s| && !IsSpace(s[i])
    ensures TrimSpace(s) != ""
  {
    if TrimSpace(s) == "" { BlankIsSpace(s); }
  }

  lemma {:induction false} TrimLeftEnds(s: string)
    ensures |TrimLeft(s, IsSpace)| <= |s|
    ensures TrimLeft(s, IsSpace) == "" || !IsSpace(TrimLeft(s, IsSpace)[0])
    ensures |TrimLeft(s, IsSpace)| == |s| ==> TrimLeft(s, IsSpace) == s
  {
    if s != "" && IsSpace(s[0]) {
      TrimLeftEnds(s[1..]);
    }
  }

  /** Trimming the right end never eats past a character that stays. */
  lemma {:induction false} TrimRightKeeps(a: string, b: string, drop: char -> bool)
    requires a != "" && !drop(a[|a| - 1])
    ensures TrimRight(a + b, drop) == a + TrimRight(b, drop)
  {
    if b != "" && drop(b[|b| - 1]) {
      assert (a + b)[..|a + b| - 1] == a + b[..|b| - 1];
      TrimRightKeeps(a, b[..|b| - 1], drop);
    } else if b == "" {
      assert a + b == a;
    }
  }

  /** A string that starts with solid text is only trimmed after it. */
  lemma TrimSpaceBelow(p: string, rest: string)
    requires p != "" && !IsSpace(p[0]) && !IsSpace(p[|p| - 1])
    ensures TrimSpace(p + rest) == p + TrimRight(rest, IsSpace)
  {
    assert (p + rest)[0] == p[0];
    TrimRightKeeps(p, rest, IsSpace);
  }

  // ---- Split and Join ------------------------------------------------------------

  function Split(s: string, sep: char): (parts: seq<string>)
    ensures |parts| >= 1
  {
    if s == "" then [""]
    else
      var rest := Split(s[1..], sep);
      if s[0] == sep then [""] + rest else [[s[0]] + rest[0]] + rest[1..]
  }

  function Join(parts: seq<string>, sep: char): string {
    if |parts| == 0 then ""
    else if |parts| == 1 then parts[0]
    else parts[0] + [sep] + Join(parts[1..], sep)
  }

  predicate Free(parts: seq<string>, sep: char) {
    forall i :: 0 <= i < |parts| ==> sep !in parts[i]
  }

  /** Join undoes Split. */
  lemma {:induction false} JoinSplit(s: string, sep: char)
    ensures Join(Split(s, sep), sep) == s
  {
    if s != "" {
      JoinSplit(s[1..], sep);
      var rest := Split(s[1..], sep);
      if s[0] == sep {
        assert Split(s, sep)[1..] == rest;
      } else if |rest| > 1 {
        assert Split(s, sep)[1..] == rest[1..];
      }
    }
  }

  lemma {:induction false} SplitFree(s: string, sep: char)
    ensures Free(Split(s, sep), sep)
  {
    if s != "" {
      SplitFree(s[1..], sep);
      var rest := Split(s[1..], sep);
      forall i | 0 <= i < |Split(s, sep)| ensures sep !in Split(s, sep)[i] {
        if s[0] == sep {
          if i > 0 { assert Split(s, sep)[i] == rest[i - 1]; }
        } else if i > 0 {
          assert Split(s, sep)[i] == rest[i];
        }
      }
    }
  }

  lemma {:induction false} SplitWhole(p: string, sep: char)
    requires sep !in p
    ensures Split(p, sep) == [p]
  {
    if p != "" {
      SplitWhole(p[1..], sep);
      assert [p[0]] + p[1..] == p;
    }
  }

  /** The pieces once one more character is in front. */
  function PutFront(c: char, sep: char, parts: seq<string>): seq<string>
    requires |parts| > 0
  {
    if c == sep then [""] + parts else [[c] + parts[0]] + parts[1..]
  }

  lemma SplitHead(s: string, sep: char)
    requires s != ""
    ensures Split(s, sep) == PutFront(s[0], sep, Split(s[1..], sep))
  {
  }

  lemma PutFrontJoined(c: char, sep: char, a: seq<string>, b: seq<string>)
    requires |a| > 0
    ensures PutFront(c, sep, a + b) == PutFront(c, sep, a) + b
  {
    assert (a + b)[1..] == a[1..] + b;
    if c == sep {
      assert [""] + (a + b) == ([""] + a) + b;
    } else {
      assert [[c] + a[0]] + (a[1..] + b) == ([[c] + a[0]] + a[1..]) + b;
    }
  }

  /** A separator cuts: the pieces of both sides are the pieces of the whole. */
  lemma {:induction false} SplitCut(a: string, b: string, sep: char)
    ensures Split(a + [sep] + b, sep) == Split(a, sep) + Split(b, sep)
  {
    var whole := a + [sep] + b;
    SplitHead(whole, sep);
    if a == "" {
      assert whole[1..] == b;
    } else {
      assert whole[1..] == a[1..] + [sep] + b && whole[0] == a[0];
      SplitCut(a[1..], b, sep);
      SplitHead(a, sep);
      PutFrontJoined(a[0], sep, Split(a[1..], sep), Split(b, sep));
    }
  }

  /** Split undoes Join exactly when there is a piece and no piece holds the separator. */
  lemma {:induction false} SplitJoin(parts: seq<string>, sep: char)
    ensures Split(Join(parts, sep), sep) == parts <==> |parts| > 0 && Free(parts, sep)
  {
    if |parts| > 0 && Free(parts, sep) {
      if |parts| == 1 {
        SplitWhole(parts[0], sep);
        assert parts == [parts[0]];
      } else {
        SplitJoin(parts[1..], sep);
        SplitCut(parts[0], Join(parts[1..], sep), sep);
        SplitWhole(parts[0], sep);
        assert parts == [parts[0]] + parts[1..];
      }
    } else if Split(Join(parts, sep), sep) == parts {
      SplitFree(Join(parts, sep), sep);
    }
  }

  lemma {:induction false} JoinCut(a: seq<string>, b: seq<string>, sep: char)
    requires |a| > 0 && |b| > 0
    ensures Join(a + b, sep) == Join(a, sep) + [sep] + Join(b, sep)
  {
    if |a| == 1 {
      assert (a + b)[1..] == b;
    } else {
      assert (a + b)[1..] == a[1..] + b;
      JoinCut(a[1..], b, sep);
    }
  }

  // ---- the order of keys ---------------------------------------------------------

  /** Lexicographic order on code points, the order of an S3 listing. */
  predicate Less(a: string, b: string) {
    b != "" && (a == "" || a[0] < b[0] || (a[0] == b[0] && Less(a[1..], b[1..])))
  }

  lemma {:induction false} LessTotal(a: string, b: string)
    ensures Less(a, b) || a == b || Less(b, a)
    ensures !(Less(a, b) && Less(b, a)) && !Less(a, a)
  {
    if a != "" && b != "" {
      LessTotal(a[1..], b[1..]);
    }
    if a != "" {
      LessTotal(a[1..], a[1..]);
    }
  }

  lemma {:induction false} LessTrans(a: string, b: string, c: string)
    requires Less(a, b) && Less(b, c)
    ensures Less(a, c)
  {
    if a != "" && a[0] == b[0] && b[0] == c[0] {
      LessTrans(a[1..], b[1..], c[1..]);
    }
  }

  /** At the first place where two strings differ the smaller character decides; a proper
      prefix comes first. */
  lemma {:induction false} LessIff(a: string, b: string, n: nat)
    requires n <= |a| && n <= |b| && a[..n] == b[..n]
    requires n == |a| || n == |b| || a[n] != b[n]
    ensures Less(a, b) <==> n < |b| && (n == |a| || a[n] < b[n])
    decreases n
  {
    if n > 0 {
      assert a[0] == a[..n][0] == b[..n][0] == b[0];
      assert a[1..][..n - 1] == a[..n][1..] == b[..n][1..] == b[1..][..n - 1];
      LessIff(a[1..], b[1..], n - 1);
    }
  }

  lemma {:induction false} PrefixNotGreater(a: string, b: string)
    requires a <= b
    ensures !Less(b, a)
  {
    if a != "" {
      PrefixNotGreater(a[1..], b[1..]);
    }
  }

  /** A finite set of strings has a first element. */
  lemma {:induction false} FirstExists(ks: set<string>) returns (first: string)
    requires ks != {}
    ensures first in ks && forall k :: k in ks ==> k == first || Less(first, k)
    decreases |ks|
  {
    var pick :| pick in ks;
    var rest := ks - {pick};
    if rest == {} {
      first := pick;
      forall k | k in ks ensures k == pick { assert k !in rest; }
    } else {
      var low := FirstExists(rest);
      LessTotal(low, pick);
      first := if Less(low, pick) then low else pick;
      forall k | k in ks ensures k == first || Less(first, k) {
        if k != pick {
          assert k in rest;
          if first == pick && k != low { LessTrans(pick, low, k); }
        }
      }
    }
  }
}
