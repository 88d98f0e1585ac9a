/**
 * String operations of the JavaScript runtime used by the source, on `seq<char>`.
 * Trimming strips every white-space and line-terminator character of JavaScript; case
 * conversion lowers ASCII letters only.
 */
module Text {
  import opened Wrappers

  predicate StartsWith(s: string, prefix: string) {
    |prefix| <= |s| && s[..|prefix|] == prefix
  }

  predicate OccursAt(s: string, pat: string, i: nat) {
    i + |pat| <= |s| && s[i..i + |pat|] == pat
  }

  /** `s.indexOf(pat)`: the first position where `pat` occurs, if any. */
  function IndexOf(s: string, pat: string): (r: Option<nat>)
    ensures r.Some? ==> OccursAt(s, pat, r.value)
    ensures r.Some? ==> forall j :: 0 <= j < r.value ==> !OccursAt(s, pat, j)
    ensures r.None? ==> forall j :: 0 <= j <= |s| ==> !OccursAt(s, pat, j)
    decreases |s|
  {
    if StartsWith(s, pat) then Some(0)
    else if s == [] then None
    else
      var r := IndexOf(s[1..], pat);
      OccursShift(s, pat);
      match r
      case None => None
      case Some(k) => Some(k + 1)
  }

  /** An occurrence at `j > 0` is an occurrence at `j - 1` of the tail. */
  lemma OccursShift(s: string, pat: string)
    requires s != []
    ensures forall j :: 0 < j <= |s| ==> (OccursAt(s, pat, j) <==> OccursAt(s[1..], pat, j - 1))
  {
    forall j | 0 < j <= |s| ensures OccursAt(s, pat, j) <==> OccursAt(s[1..], pat, j - 1) {
      if j + |pat| <= |s| {
        var here := s[j..j + |pat|];
        var there := s[1..][j - 1..j - 1 + |pat|];
        assert forall k :: 0 <= k < |here| ==> here[k] == there[k];
        assert here == there;
      }
    }
  }

  /** `s.includes(pat)`. */
  predicate Contains(s: string, pat: string) {
    IndexOf(s, pat).Some?
  }

  lemma ContainsAt(s: string, pat: string, i: nat)
    requires OccursAt(s, pat, i)
    ensures Contains(s, pat)
  {
  }

  lemma {:induction false} PrefixContains(s: string, pat: string)
    requires StartsWith(s, pat)
    ensures Contains(s, pat)
  {
    assert OccursAt(s, pat, 0);
  }

  lemma ContainsExtend(s: string, pat: string, a: string, b: string)
    requires Contains(s, pat)
    ensures Contains(a + s + b, pat)
  {
    var i := IndexOf(s, pat).value;
    assert (a + s + b)[|a| + i..|a| + i + |pat|] == s[i..i + |pat|];
    ContainsAt(a + s + b, pat, |a| + i);
  }

  lemma StartsWithContains(s: string, p: string, q: string)
    requires StartsWith(s, p + q)
    ensures Contains(s, q)
  {
    assert s[|p|..|p| + |q|] == (p + q)[|p|..];
    ContainsAt(s, q, |p|);
  }

  function LowerChar(c: char): char {
    if 'A' <= c <= 'Z' then (c as int + 32) as char else c
  }

  function UpperChar(c: char): char {
    if 'a' <= c <= 'z' then (c as int - 32) as char else c
  }

  /** `s.toLowerCase()` on ASCII letters. */
  function ToLower(s: string): (r: string)
    ensures |r| == |s|
    ensures forall i :: 0 <= i < |s| ==> r[i] == LowerChar(s[i])
  {
    seq(|s|, i requires 0 <= i < |s| => LowerChar(s[i]))
  }

  /** `s.charAt(0).toUpperCase() + s.slice(1)`. */
  function Capitalize(s: string): (r: string)
    ensures |r| == |s|
    ensures s != [] ==> r[0] == UpperChar(s[0]) && r[1..] == s[1..]
  {
    if s == [] then [] else [UpperChar(s[0])] + s[1..]
  }

  /**
   * The characters `trim()` strips: the white space and line terminators of
   * ECMAScript (sections 12.2 and 12.3 of ECMA-262), including the space separators.
   */
  predicate IsSpace(c: char) {
    || c == ' ' || c == '\t' || c == '\n' || c == '\r' || c == '\U{000B}' || c == '\U{000C}'
    || c == '\U{00A0}' || c == '\U{FEFF}' || c == '\U{1680}' || ('\U{2000}' <= c <= '\U{200A}')
    || c == '\U{2028}' || c == '\U{2029}' || c == '\U{202F}' || c == '\U{205F}' || c == '\U{3000}'
  }

  function TrimStart(s: string): (r: string)
    ensures r == [] || !IsSpace(r[0])
  {
    if s != [] && IsSpace(s[0]) then TrimStart(s[1..]) else s
  }

  function TrimEnd(s: string): (r: string)
    ensures r == [] || !IsSpace(r[|r| - 1])
    ensures |r| <= |s| && (r != [] ==> r[0] == s[0])
  {
    if s != [] && IsSpace(s[|s| - 1]) then TrimEnd(s[..|s| - 1]) else s
  }

  /** `s.trim()`. */
  function Trim(s: string): (r: string)
    ensures r == [] || (!IsSpace(r[0]) && !IsSpace(r[|r| - 1]))
  {
    TrimEnd(TrimStart(s))
  }

  /** `s.split(sep)` for a separator given as a set of single characters; always at least one piece. */
  function Split(s: string, seps: set<char>): (r: seq<string>)
    ensures |r| >= 1
    ensures forall i :: 0 <= i < |r| ==> forall c :: c in r[i] ==> c !in seps
    decreases |s|
  {
    if s == [] then [""]
    else
      var rest := Split(s[1..], seps);
      if s[0] in seps then [""] + rest
      else [[s[0]] + rest[0]] + rest[1..]
  }

  /** `parts.join(sep)`. */
  function Join(parts: seq<string>, sep: string): (r: string)
  {
    if parts == [] then ""
    else if |parts| == 1 then parts[0]
    else parts[0] + sep + Join(parts[1..], sep)
  }

  lemma {:induction false} SplitNoSep(a: string, seps: set<char>)
    requires forall c :: c in a ==> c !in seps
    ensures Split(a, seps) == [a]
  {
    if a != [] {
      SplitNoSep(a[1..], seps);
      assert [a[0]] + a[1..] == a;
    }
  }

  lemma {:induction false} SplitAtSep(a: string, c: char, b: string, seps: set<char>)
    requires forall x :: x in a ==> x !in seps
    requires c in seps
    ensures Split(a + [c] + b, seps) == [a] + Split(b, seps)
  {
    if a == [] {
      assert a + [c] + b == [c] + b;
      assert ([c] + b)[1..] == b;
    } else {
      SplitAtSep(a[1..], c, b, seps);
      assert (a + [c] + b)[1..] == a[1..] + [c] + b;
      assert [a[0]] + a[1..] == a;
    }
  }

  /** Splitting a joined list of separator-free pieces gives the pieces back. */
  lemma {:induction false} SplitJoin(parts: seq<string>, c: char, seps: set<char>)
    requires c in seps && |parts| >= 1
    requires forall i :: 0 <= i < |parts| ==> forall x :: x in parts[i] ==> x !in seps
    ensures Split(Join(parts, [c]), seps) == parts
  {
    if |parts| == 1 {
      SplitNoSep(parts[0], seps);
    } else {
      SplitJoin(parts[1..], c, seps);
      assert parts[0] + [c] + Join(parts[1..], [c]) == Join(parts, [c]);
      SplitAtSep(parts[0], c, Join(parts[1..], [c]), seps);
      assert [parts[0]] + parts[1..] == parts;
    }
  }

  /** Joining the pieces of a split on one character gives the text back. */
  lemma {:induction false} JoinSplit(s: string, c: char)
    ensures Join(Split(s, {c}), [c]) == s
    decreases |s|
  {
    if s != [] {
      JoinSplit(s[1..], c);
      var rest := Split(s[1..], {c});
      if s[0] != c {
        var r0 := [[s[0]] + rest[0]] + rest[1..];
        assert r0[1..] == rest[1..];
        if |rest| == 1 {
          assert [s[0]] + s[1..] == s;
        } else {
          assert rest == [rest[0]] + rest[1..];
          assert Join(rest, [c]) == rest[0] + [c] + Join(rest[1..], [c]);
          assert [s[0]] + s[1..] == s;
        }
      } else {
        assert ([""] + rest)[1..] == rest;
        assert [s[0]] + s[1..] == s;
      }
    }
  }

  /** `s.replace(pat, r)` with a plain-string pattern: only the first occurrence is replaced. */
  function ReplaceFirst(s: string, pat: string, r: string): string {
    match IndexOf(s, pat)
    case None => s
    case Some(i) => s[..i] + r + s[i + |pat|..]
  }

  /** Replacing the first occurrence, when the first occurrence is right after `p`. */
  lemma ReplaceFirstAfter(p: string, pat: string, q: string, r: string)
    requires forall j :: 0 <= j < |p| ==> !OccursAt(p + pat + q, pat, j)
    ensures ReplaceFirst(p + pat + q, pat, r) == p + r + q
  {
    var s := p + pat + q;
    assert OccursAt(s, pat, |p|) by {
      assert s[|p|..|p| + |pat|] == pat;
    }
    var i := IndexOf(s, pat).value;
    assert i == |p|;
    assert s[..i] == p && s[i + |pat|..] == q;
  }

  /** `s.replace(/pat/g, r)`: every occurrence, scanning left to right without overlap. */
  function ReplaceAll(s: string, pat: string, r: string): string
    requires |pat| > 0
    decreases |s|
  {
    match IndexOf(s, pat)
    case None => s
    case Some(i) => s[..i] + r + ReplaceAll(s[i + |pat|..], pat, r)
  }

  /** A string with no surrounding white space is its own trim. */
  lemma TrimTrimmed(s: string)
    requires s == [] || (!IsSpace(s[0]) && !IsSpace(s[|s| - 1]))
    ensures Trim(s) == s
  {
  }

  lemma {:induction false} TrimStartKeepsChars(s: string, c: char)
    requires c in TrimStart(s)
    ensures c in s
  {
    if s != [] && IsSpace(s[0]) {
      TrimStartKeepsChars(s[1..], c);
    }
  }

  lemma {:induction false} TrimEndKeepsChars(s: string, c: char)
    requires c in TrimEnd(s)
    ensures c in s
  {
    if s != [] && IsSpace(s[|s| - 1]) {
      TrimEndKeepsChars(s[..|s| - 1], c);
    }
  }

  /** Trimming only removes characters. */
  lemma TrimKeepsChars(s: string, c: char)
    requires c in Trim(s)
    ensures c in s
  {
    TrimEndKeepsChars(TrimStart(s), c);
    TrimStartKeepsChars(s, c);
  }

  /** The joined text starts with the first piece. */
  lemma JoinFirst(parts: seq<string>, sep: string)
    requires |parts| >= 1
    ensures StartsWith(Join(parts, sep), parts[0])
  {
  }

  lemma {:induction false} JoinAppend(parts: seq<string>, x: string, sep: string)
    requires parts != []
    ensures Join(parts + [x], sep) == Join(parts, sep) + sep + x
  {
    if |parts| > 1 {
      JoinAppend(parts[1..], x, sep);
      assert (parts + [x])[1..] == parts[1..] + [x];
    }
  }

  /** The joined text ends with the last piece. */
  lemma JoinLast(parts: seq<string>, sep: string)
    requires |parts| >= 1
    ensures |parts[|parts| - 1]| <= |Join(parts, sep)|
    ensures Join(parts, sep)[|Join(parts, sep)| - |parts[|parts| - 1]|..] == parts[|parts| - 1]
  {
    if |parts| > 1 {
      var init := parts[..|parts| - 1];
      JoinAppend(init, parts[|parts| - 1], sep);
      assert init + [parts[|parts| - 1]] == parts;
    }
  }

  lemma NoEarlierOccurrence(s: string, pat: string, i: nat)
    requires i <= |s| && |pat| > 0
    requires forall j :: 0 <= j < i ==> !OccursAt(s, pat, j)
    ensures !Contains(s[..i], pat)
  {
    if Contains(s[..i], pat) {
      var k := IndexOf(s[..i], pat).value;
      assert s[..i][k..k + |pat|] == s[k..k + |pat|];
      assert OccursAt(s, pat, k);
    }
  }

  /** The text around the occurrences of `pat` found by a left-to-right scan; no piece contains `pat`. */
  function Pieces(s: string, pat: string): (r: seq<string>)
    requires |pat| > 0
    ensures |r| >= 1
    ensures forall i :: 0 <= i < |r| ==> !Contains(r[i], pat)
    decreases |s|
  {
    match IndexOf(s, pat)
    case None => [s]
    case Some(i) =>
      NoEarlierOccurrence(s, pat, i);
      [s[..i]] + Pieces(s[i + |pat|..], pat)
  }

  lemma JoinCons(x: string, ps: seq<string>, sep: string)
    requires |ps| >= 1
    ensures Join([x] + ps, sep) == x + sep + Join(ps, sep)
  {
    assert ([x] + ps)[1..] == ps;
  }

  lemma SplitAround(s: string, i: nat, n: nat)
    requires i + n <= |s|
    ensures s == s[..i] + s[i..i + n] + s[i + n..]
  {
  }

  /** Putting `pat` back between the pieces gives the text back. */
  lemma {:induction false} PiecesJoin(s: string, pat: string)
    requires |pat| > 0
    ensures Join(Pieces(s, pat), pat) == s
    decreases |s|
  {
    var k := IndexOf(s, pat);
    if k.Some? {
      var i := k.value;
      var rest := s[i + |pat|..];
      PiecesJoin(rest, pat);
      assert Pieces(s, pat) == [s[..i]] + Pieces(rest, pat);
      JoinCons(s[..i], Pieces(rest, pat), pat);
      SplitAround(s, i, |pat|);
    }
  }

  /** A global replacement puts `r` between the same pieces: every occurrence is replaced. */
  lemma {:induction false} ReplaceAllPieces(s: string, pat: string, r: string)
    requires |pat| > 0
    ensures ReplaceAll(s, pat, r) == Join(Pieces(s, pat), r)
    decreases |s|
  {
    match IndexOf(s, pat)
    case None =>
    case Some(i) =>
      var rest := s[i + |pat|..];
      ReplaceAllPieces(rest, pat, r);
      assert Pieces(s, pat) == [s[..i]] + Pieces(rest, pat);
      assert ReplaceAll(s, pat, r) == s[..i] + r + ReplaceAll(rest, pat, r);
      JoinCons(s[..i], Pieces(rest, pat), r);
  }
}
