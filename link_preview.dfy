/** Link-preview suppression: the rewrite at src/index.ts:112, which replaces
    every match of the expression `(?<!\]\()https?:\/\/[^\s)]+` (global flag)
    by `<$&>`. The scan moves left to right over the ORIGINAL text. At a position
    where the two characters before are not "](", where "http://" or "https://"
    begins and where at least one character that is neither whitespace nor ')'
    follows, the longest such run is a match: it is wrapped in '<' and '>' and
    the scan goes on after it. Elsewhere one character is copied and the scan
    moves on by one. */
module LinkPreview {

  /** JavaScript's `\s`: the WhiteSpace and LineTerminator characters of
      ECMAScript (all of them in the Basic Multilingual Plane). */
  predicate IsWhitespace(c: char) {
    || c == '\t' || c == '\n' || c == '\U{000B}' || c == '\U{000C}' || c == '\r' || c == ' '
    || c == '\U{00A0}' || c == '\U{1680}' || ('\U{2000}' <= c <= '\U{200A}')
    || c == '\U{2028}' || c == '\U{2029}' || c == '\U{202F}' || c == '\U{205F}'
    || c == '\U{3000}' || c == '\U{FEFF}'
  }

  /** A character that `[^\s)]` refuses: it ends a URL run. */
  predicate IsTerminator(c: char) {
    IsWhitespace(c) || c == ')'
  }

  /** The characters of "http://" and "https://". */
  predicate IsSchemeChar(c: char) {
    c == 'h' || c == 't' || c == 'p' || c == 's' || c == ':' || c == '/'
  }

  /** "https://" (when `secure`) or "http://" begins at position `i` of `s`. */
  predicate HasSchemeAt(s: string, i: nat, secure: bool) {
    && i + (if secure then 8 else 7) <= |s|
    && s[i] == 'h' && s[i + 1] == 't' && s[i + 2] == 't' && s[i + 3] == 'p'
    && (if secure then s[i + 4] == 's' && s[i + 5] == ':' && s[i + 6] == '/' && s[i + 7] == '/'
        else s[i + 4] == ':' && s[i + 5] == '/' && s[i + 6] == '/')
  }

  /** The length of the `https?:\/\/` that begins at position `i` of `s`, or 0. */
  function SchemeLen(s: string, i: nat): (k: nat)
    ensures k == 0 || k == 7 || k == 8
  {
    if HasSchemeAt(s, i, true) then 8
    else if HasSchemeAt(s, i, false) then 7
    else 0
  }

  /** SchemeLen finds exactly the two literal schemes. */
  lemma SchemeLenLiteral(s: string, i: nat)
    requires i <= |s|
    ensures SchemeLen(s, i) == 8 <==> i + 8 <= |s| && s[i..i + 8] == "https://"
    ensures SchemeLen(s, i) == 7 <==> i + 7 <= |s| && s[i..i + 7] == "http://"
  {
    if i + 8 <= |s| {
      var t := s[i..i + 8];
      assert forall n :: 0 <= n < 8 ==> t[n] == s[i + n];
    }
    if i + 7 <= |s| {
      var t := s[i..i + 7];
      assert forall n :: 0 <= n < 7 ==> t[n] == s[i + n];
    }
  }

  /** A scheme is made of scheme characters, starts with 'h' and has its ':'
      three characters before its end. */
  lemma SchemeShape(s: string, i: nat)
    requires SchemeLen(s, i) > 0
    ensures i + SchemeLen(s, i) <= |s|
    ensures forall n :: i <= n < i + SchemeLen(s, i) ==> IsSchemeChar(s[n])
    ensures s[i] == 'h' && s[i + SchemeLen(s, i) - 3] == ':'
  {
  }

  /** The negative lookbehind `(?<!\]\()` fails at `i`. */
  predicate PrecededByLinkOpen(s: string, i: nat) {
    2 <= i <= |s| && s[i - 2] == ']' && s[i - 1] == '('
  }

  /** The regular expression matches at position `i` of `s`. */
  predicate UrlStartsAt(s: string, i: nat) {
    var k := SchemeLen(s, i);
    k > 0 && i + k < |s| && !IsTerminator(s[i + k]) && !PrecededByLinkOpen(s, i)
  }

  /** Where the greedy `[^\s)]+` that starts at `j` stops. */
  function RunEnd(s: string, j: nat): (e: nat)
    requires j <= |s|
    ensures j <= e <= |s|
    ensures e == |s| || IsTerminator(s[e])
    decreases |s| - j
  {
    if j == |s| || IsTerminator(s[j]) then j else RunEnd(s, j + 1)
  }

  /** The run holds no whitespace and no ')': it is the longest one. */
  lemma {:induction false} RunEndIsFirstTerminator(s: string, j: nat)
    requires j <= |s|
    ensures forall t :: j <= t < RunEnd(s, j) ==> !IsTerminator(s[t])
    decreases |s| - j
  {
    if j < |s| && !IsTerminator(s[j]) {
      RunEndIsFirstTerminator(s, j + 1);
    }
  }

  /** Where the match that starts at `i` ends. */
  function MatchEnd(s: string, i: nat): (e: nat)
    requires UrlStartsAt(s, i)
    ensures i + SchemeLen(s, i) < e <= |s|
    ensures i + 8 <= e
  {
    RunEnd(s, i + SchemeLen(s, i))
  }

  /** A piece of the scanned text: one copied character, or one matched URL. */
  datatype Segment = Plain(c: char) | Link(url: string)

  /** The scan of `s` from position `i`. */
  function SegmentsFrom(s: string, i: nat): seq<Segment>
    requires i <= |s|
    decreases |s| - i
  {
    if i == |s| then []
    else if UrlStartsAt(s, i) then [Link(s[i..MatchEnd(s, i)])] + SegmentsFrom(s, MatchEnd(s, i))
    else [Plain(s[i])] + SegmentsFrom(s, i + 1)
  }

  function Segments(s: string): seq<Segment> {
    SegmentsFrom(s, 0)
  }

  /** The replacement `<$&>` of one match. */
  function Wrapped(u: string): string {
    "<" + u + ">"
  }

  /** The replacement applied to every match. */
  function Render(segs: seq<Segment>): string {
    if segs == [] then []
    else
      (match segs[0]
       case Plain(c) => [c]
       case Link(u) => Wrapped(u)) + Render(segs[1..])
  }

  /** The text with the inserted brackets taken out again. */
  function Flatten(segs: seq<Segment>): string {
    if segs == [] then []
    else
      (match segs[0]
       case Plain(c) => [c]
       case Link(u) => u) + Flatten(segs[1..])
  }

  function LinkCount(segs: seq<Segment>): nat {
    if segs == [] then 0 else (if segs[0].Link? then 1 else 0) + LinkCount(segs[1..])
  }

  /** The sanitised message. */
  function Sanitize(s: string): string {
    Render(Segments(s))
  }

  // ----- Render and Flatten -----

  lemma {:induction false} RenderAppend(x: seq<Segment>, y: seq<Segment>)
    ensures Render(x + y) == Render(x) + Render(y)
  {
    if x == [] {
      assert x + y == y;
    } else {
      assert (x + y)[0] == x[0];
      assert (x + y)[1..] == x[1..] + y;
      RenderAppend(x[1..], y);
    }
  }

  lemma DropSplit(s: string, i: nat, e: nat)
    requires i <= e <= |s|
    ensures s[i..] == s[i..e] + s[e..]
  {
  }

  lemma FlattenCons(g: Segment, rest: seq<Segment>)
    ensures Flatten([g] + rest) == (if g.Plain? then [g.c] else g.url) + Flatten(rest)
  {
    assert ([g] + rest)[1..] == rest;
  }

  /** Each inserted link adds exactly two characters, and without links Render
      changes nothing. */
  lemma {:induction false} RenderLength(segs: seq<Segment>)
    ensures |Render(segs)| == |Flatten(segs)| + 2 * LinkCount(segs)
    ensures LinkCount(segs) == 0 ==> Render(segs) == Flatten(segs)
  {
    if segs != [] {
      RenderLength(segs[1..]);
    }
  }

  lemma AppendAssoc(x: string, y: string, z: string)
    ensures (x + y) + z == x + (y + z)
  {
  }

  // ----- What the scan produces -----

  /** Every segment is one piece of the input, taken in order: the scan never
      loses, reorders or invents a character. */
  lemma {:induction false} FlattenSegmentsFrom(s: string, i: nat)
    requires i <= |s|
    ensures Flatten(SegmentsFrom(s, i)) == s[i..]
    decreases |s| - i
  {
    if i == |s| {
      assert SegmentsFrom(s, i) == [];
    } else if UrlStartsAt(s, i) {
      FlattenSegmentsFrom(s, MatchEnd(s, i));
      FlattenAtMatch(s, i, MatchEnd(s, i));
    } else {
      FlattenSegmentsFrom(s, i + 1);
      FlattenAtPlain(s, i);
    }
  }

  /** The step of FlattenSegmentsFrom at a match. */
  lemma FlattenAtMatch(s: string, i: nat, e: nat)
    requires i < |s| && UrlStartsAt(s, i) && e == MatchEnd(s, i)
    requires Flatten(SegmentsFrom(s, e)) == s[e..]
    ensures Flatten(SegmentsFrom(s, i)) == s[i..]
  {
    ScanStep(s, i);
    FlattenCons(Link(s[i..e]), SegmentsFrom(s, e));
    DropSplit(s, i, e);
  }

  /** The step of FlattenSegmentsFrom where a character is copied. */
  lemma FlattenAtPlain(s: string, i: nat)
    requires i < |s| && !UrlStartsAt(s, i)
    requires Flatten(SegmentsFrom(s, i + 1)) == s[i + 1..]
    ensures Flatten(SegmentsFrom(s, i)) == s[i..]
  {
    ScanStep(s, i);
    FlattenCons(Plain(s[i]), SegmentsFrom(s, i + 1));
    DropSplit(s, i, i + 1);
    assert s[i..i + 1] == [s[i]];
  }

  /** Round trip: deleting exactly the brackets the rewrite inserted gives back
      the input, and each match adds exactly two characters. */
  lemma RoundTrip(s: string)
    ensures Flatten(Segments(s)) == s
    ensures |Sanitize(s)| == |s| + 2 * LinkCount(Segments(s))
  {
    FlattenSegmentsFrom(s, 0);
    RenderLength(Segments(s));
  }

  /** Every wrapped span is a URL: a scheme, then at least one character, and no
      whitespace or ')' anywhere in it. */
  lemma {:induction false} LinksAreUrls(s: string, i: nat, n: nat)
    requires i <= |s| && n < |SegmentsFrom(s, i)| && SegmentsFrom(s, i)[n].Link?
    ensures var u := SegmentsFrom(s, i)[n].url;
            SchemeLen(u, 0) > 0 && |u| > SchemeLen(u, 0) && forall t :: 0 <= t < |u| ==> !IsTerminator(u[t])
    decreases |s| - i
  {
    if UrlStartsAt(s, i) {
      var e := MatchEnd(s, i);
      if n == 0 {
        LinkIsUrl(s, i);
      } else {
        LinksAreUrls(s, e, n - 1);
      }
    } else {
      LinksAreUrls(s, i + 1, n - 1);
    }
  }

  /** The span a match covers is a URL. */
  lemma LinkIsUrl(s: string, i: nat)
    requires UrlStartsAt(s, i)
    ensures var u := s[i..MatchEnd(s, i)];
            SchemeLen(u, 0) > 0 && |u| > SchemeLen(u, 0) && forall t :: 0 <= t < |u| ==> !IsTerminator(u[t])
  {
    var k := SchemeLen(s, i);
    var e := MatchEnd(s, i);
    SchemeShape(s, i);
    RunEndIsFirstTerminator(s, i + k);
    SliceSchemeLen(s, i, e);
    var u := s[i..e];
    assert forall t :: 0 <= t < |u| ==> u[t] == s[i + t];
  }

  /** A slice that keeps the next eight characters keeps the scheme at its start. */
  lemma SliceSchemeLen(s: string, i: nat, e: nat)
    requires i + 8 <= e <= |s|
    ensures SchemeLen(s[i..e], 0) == SchemeLen(s, i)
  {
    assert forall n :: 0 <= n < 8 ==> s[i..e][n] == s[i + n];
  }

  /** A match anywhere ahead of the scan position produces at least one link. */
  lemma {:induction false} MatchAheadGivesLink(s: string, i: nat, j: nat)
    requires i <= j < |s| && UrlStartsAt(s, j)
    ensures LinkCount(SegmentsFrom(s, i)) > 0
    decreases j - i
  {
    if !UrlStartsAt(s, i) {
      MatchAheadGivesLink(s, i + 1, j);
    }
  }

  /** With no match anywhere from `i` on, the scan copies every character. */
  lemma {:induction false} NoMatchNoLink(s: string, i: nat)
    requires i <= |s|
    requires forall j :: i <= j < |s| ==> !UrlStartsAt(s, j)
    ensures LinkCount(SegmentsFrom(s, i)) == 0
    decreases |s| - i
  {
    if i < |s| {
      NoMatchNoLink(s, i + 1);
    }
  }

  /** The message is left exactly as it was if and only if the expression matches
      nowhere in it. */
  lemma UnchangedIffNoMatch(s: string)
    ensures Sanitize(s) == s <==> forall j :: 0 <= j < |s| ==> !UrlStartsAt(s, j)
  {
    RoundTrip(s);
    if forall j :: 0 <= j < |s| ==> !UrlStartsAt(s, j) {
      NoMatchNoLink(s, 0);
      RenderLength(Segments(s));
    } else {
      var j :| 0 <= j < |s| && UrlStartsAt(s, j);
      MatchAheadGivesLink(s, 0, j);
    }
  }

  /** No "http://" or "https://" begins anywhere in `s`. */
  ghost predicate NoScheme(s: string) {
    forall j :: 0 <= j < |s| ==> SchemeLen(s, j) == 0
  }

  /** Text without "http://" or "https://" passes through unchanged. */
  lemma NoSchemeUnchanged(s: string)
    requires NoScheme(s)
    ensures Sanitize(s) == s
  {
    UnchangedIffNoMatch(s);
  }

  /** A text without 'h', or without ':', holds no scheme. */
  lemma NoSchemeWithoutHOrColon(s: string)
    requires 'h' !in s || ':' !in s
    ensures NoScheme(s)
  {
    forall j | 0 <= j < |s| ensures SchemeLen(s, j) == 0 {
      if SchemeLen(s, j) > 0 {
        SchemeShape(s, j);
      }
    }
  }

  /** No scheme begins in `x + y` when `x` has no 'h' and `y` no ':'. */
  lemma NoSchemeAcross(x: string, y: string)
    requires 'h' !in x && ':' !in y
    ensures NoScheme(x + y)
  {
    var s := x + y;
    forall j | 0 <= j < |s| ensures SchemeLen(s, j) == 0 {
      if SchemeLen(s, j) > 0 {
        SchemeShape(s, j);
      }
    }
  }

  /** Whether a scheme begins at a position depends only on the text from there on. */
  lemma SchemeLenShift(p: string, q: string, j: nat)
    requires j <= |q|
    ensures SchemeLen(p + q, |p| + j) == SchemeLen(q, j)
  {
    assert forall n :: j <= n < |q| ==> (p + q)[|p| + n] == q[n];
  }

  // ----- Splitting the text where no match can cross -----

  /** A scheme cannot run past a character that does not occur in it. */
  lemma SchemeLenStops(x: string, y: string, i: nat)
    requires i <= |x| && y != [] && !IsSchemeChar(y[0])
    ensures SchemeLen(x + y, i) == SchemeLen(x, i)
  {
    var xy := x + y;
    assert xy[|x|] == y[0];
    assert forall n :: 0 <= n < |x| ==> xy[n] == x[n];
    if SchemeLen(xy, i) > 0 {
      SchemeShape(xy, i);
    }
  }

  /** `a` and `b` meet at a terminator: no match of the expression can cross the seam. */
  predicate Seam(a: string, b: string) {
    a == [] || b == [] || IsTerminator(a[|a| - 1]) || IsTerminator(b[0])
  }

  lemma {:induction false} RunEndSuffix(a: string, b: string, j: nat)
    requires j <= |b|
    ensures RunEnd(a + b, |a| + j) == |a| + RunEnd(b, j)
    decreases |b| - j
  {
    assert |a| + j < |a + b| ==> (a + b)[|a| + j] == b[j];
    if j < |b| && !IsTerminator(b[j]) {
      RunEndSuffix(a, b, j + 1);
    }
  }

  lemma {:induction false} RunEndPrefix(a: string, b: string, j: nat)
    requires j <= |a|
    requires b == [] || IsTerminator(b[0]) || (j < |a| && IsTerminator(a[|a| - 1]))
    ensures RunEnd(a + b, j) == RunEnd(a, j)
    decreases |a| - j
  {
    assert j < |a| ==> (a + b)[j] == a[j];
    assert j == |a| && b != [] ==> (a + b)[j] == b[0];
    if j < |a| && !IsTerminator(a[j]) {
      RunEndPrefix(a, b, j + 1);
    }
  }

  /** At a position of `b`, the expression matches in `a + b` exactly when it
      matches in `b` alone, once the lookbehind cannot see into `a`, or at a
      seam; and the match ends at the same place. */
  lemma MatchSuffix(a: string, b: string, j: nat)
    requires j < |b|
    requires j >= 2 || Seam(a, b)
    ensures SchemeLen(a + b, |a| + j) == SchemeLen(b, j)
    ensures UrlStartsAt(a + b, |a| + j) == UrlStartsAt(b, j)
    ensures UrlStartsAt(b, j) ==> MatchEnd(a + b, |a| + j) == |a| + MatchEnd(b, j)
  {
    var s := a + b;
    var i := |a| + j;
    var k := SchemeLen(b, j);
    assert SchemeLen(s, i) == k;
    if j == 0 && a != [] && !IsTerminator(a[|a| - 1]) && k > 0 {
      SchemeShape(b, j);
    }
    if j == 1 || (j == 0 && a != []) {
      assert s[i - 1] == (if j == 1 then b[0] else a[|a| - 1]);
    }
    if j == 0 && |a| >= 2 {
      assert s[i - 2] == a[|a| - 2];
    }
    if UrlStartsAt(b, j) {
      RunEndSuffix(a, b, j + k);
    }
  }

  /** At positions of `b` the scan of `a + b` behaves as the scan of `b` alone,
      once the lookbehind can no longer see into `a`, or at a seam. */
  lemma {:induction false} ScanSuffix(a: string, b: string, j: nat)
    requires j <= |b|
    requires j >= 2 || Seam(a, b)
    ensures SegmentsFrom(a + b, |a| + j) == SegmentsFrom(b, j)
    decreases |b| - j
  {
    if j == |b| {
      ScanEnds(a + b, |a| + j, b, j);
    } else if UrlStartsAt(b, j) {
      ScanSuffix(a, b, MatchEnd(b, j));
      ScanSuffixAtMatch(a, b, j, MatchEnd(b, j));
    } else {
      ScanSuffix(a, b, j + 1);
      ScanSuffixAtPlain(a, b, j);
    }
  }

  /** Two scans that have reached the end produce the same nothing. */
  lemma ScanEnds(s: string, i: nat, t: string, j: nat)
    requires i == |s| && j == |t|
    ensures SegmentsFrom(s, i) == SegmentsFrom(t, j)
  {
  }

  /** The step of ScanSuffix at a match. */
  lemma ScanSuffixAtMatch(a: string, b: string, j: nat, e: nat)
    requires j < |b| && (j >= 2 || Seam(a, b)) && UrlStartsAt(b, j) && e == MatchEnd(b, j)
    requires SegmentsFrom(a + b, |a| + e) == SegmentsFrom(b, e)
    ensures SegmentsFrom(a + b, |a| + j) == SegmentsFrom(b, j)
  {
    MatchSuffixAt(a, b, j, e);
    SameLink(a + b, |a| + j, |a| + e, b, j, e);
  }

  /** The match at `j` of `b` is found at `|a| + j` of `a + b`, and covers the same text. */
  lemma MatchSuffixAt(a: string, b: string, j: nat, e: nat)
    requires j < |b| && (j >= 2 || Seam(a, b)) && UrlStartsAt(b, j) && e == MatchEnd(b, j)
    ensures UrlStartsAt(a + b, |a| + j) && MatchEnd(a + b, |a| + j) == |a| + e
    ensures (a + b)[|a| + j..|a| + e] == b[j..e]
  {
    MatchSuffix(a, b, j);
    SliceSuffix(a, b, j, e);
  }

  /** Two scans that find the same match continue alike when the rest agrees. */
  lemma SameLink(s: string, i: nat, m: nat, t: string, j: nat, e: nat)
    requires i < |s| && UrlStartsAt(s, i) && m == MatchEnd(s, i)
    requires j < |t| && UrlStartsAt(t, j) && e == MatchEnd(t, j)
    requires s[i..m] == t[j..e] && SegmentsFrom(s, m) == SegmentsFrom(t, e)
    ensures SegmentsFrom(s, i) == SegmentsFrom(t, j)
  {
    ScanStep(s, i);
    ScanStep(t, j);
  }

  /** The step of ScanSuffix where a character is copied. */
  lemma ScanSuffixAtPlain(a: string, b: string, j: nat)
    requires j < |b| && (j >= 2 || Seam(a, b)) && !UrlStartsAt(b, j)
    requires SegmentsFrom(a + b, |a| + j + 1) == SegmentsFrom(b, j + 1)
    ensures SegmentsFrom(a + b, |a| + j) == SegmentsFrom(b, j)
  {
    MatchSuffix(a, b, j);
    assert (a + b)[|a| + j] == b[j];
    assert SegmentsFrom(b, j + 1) + [] == SegmentsFrom(b, j + 1);
    PlainSteps(a + b, |a| + j, b, j, []);
    assert SegmentsFrom(b, j) + [] == SegmentsFrom(b, j);
  }

  /** A slice inside the second part of a concatenation. */
  lemma SliceSuffix(a: string, b: string, j: nat, e: nat)
    requires j <= e <= |b|
    ensures (a + b)[|a| + j..|a| + e] == b[j..e]
  {
  }

  /** Two scans that find the same match continue alike when the rest agrees, up
      to a common tail. */
  lemma LinkSteps(s: string, i: nat, m: nat, t: string, j: nat, e: nat, tail: seq<Segment>)
    requires i < |s| && UrlStartsAt(s, i) && m == MatchEnd(s, i)
    requires j < |t| && UrlStartsAt(t, j) && e == MatchEnd(t, j)
    requires s[i..m] == t[j..e] && SegmentsFrom(s, m) == SegmentsFrom(t, e) + tail
    ensures SegmentsFrom(s, i) == SegmentsFrom(t, j) + tail
  {
    assert [Link(t[j..e])] + (SegmentsFrom(t, e) + tail) == ([Link(t[j..e])] + SegmentsFrom(t, e)) + tail;
  }

  /** Two scans that copy the same character continue alike when the rest
      agrees, up to a common tail. */
  lemma PlainSteps(s: string, i: nat, t: string, j: nat, tail: seq<Segment>)
    requires i < |s| && !UrlStartsAt(s, i) && j < |t| && !UrlStartsAt(t, j)
    requires s[i] == t[j] && SegmentsFrom(s, i + 1) == SegmentsFrom(t, j + 1) + tail
    ensures SegmentsFrom(s, i) == SegmentsFrom(t, j) + tail
  {
    assert [Plain(t[j])] + (SegmentsFrom(t, j + 1) + tail) == ([Plain(t[j])] + SegmentsFrom(t, j + 1)) + tail;
  }

  /** At a position of `a`, the expression matches in `a + b` exactly when it
      matches in `a` alone, when the two meet at a seam; and the match ends at
      the same place. */
  lemma MatchPrefix(a: string, b: string, i: nat)
    requires i < |a|
    requires Seam(a, b)
    ensures UrlStartsAt(a + b, i) == UrlStartsAt(a, i)
    ensures UrlStartsAt(a, i) ==> MatchEnd(a + b, i) == MatchEnd(a, i)
  {
    var s := a + b;
    assert forall n :: 0 <= n < |a| ==> s[n] == a[n];
    var k := SchemeLen(a, i);
    if b == [] {
      assert s == a;
    } else if IsTerminator(b[0]) {
      SchemeLenStops(a, b, i);
      assert s[|a|] == b[0];
    } else {
      // The last character of `a` is a terminator, so no scheme reaches it.
      var last := |a| - 1;
      assert a == a[..last] + [a[last]];
      assert s == a[..last] + ([a[last]] + b);
      SchemeLenStops(a[..last], [a[last]], i);
      SchemeLenStops(a[..last], [a[last]] + b, i);
      if k > 0 {
        SchemeShape(a, i);
      }
    }
    assert SchemeLen(s, i) == k;
    if UrlStartsAt(a, i) {
      RunEndPrefix(a, b, i + k);
    }
  }

  /** The scan of `a + b` from inside `a` covers `a` as `a` alone would, and then
      continues at the seam. */
  lemma {:induction false} ScanPrefix(a: string, b: string, i: nat)
    requires i <= |a|
    requires Seam(a, b)
    ensures SegmentsFrom(a + b, i) == SegmentsFrom(a, i) + SegmentsFrom(a + b, |a|)
    decreases |a| - i
  {
    if i == |a| {
      assert SegmentsFrom(a, i) == [];
    } else if UrlStartsAt(a, i) {
      ScanPrefix(a, b, MatchEnd(a, i));
      ScanPrefixAtMatch(a, b, i);
    } else {
      ScanPrefix(a, b, i + 1);
      ScanPrefixAtPlain(a, b, i);
    }
  }

  /** The step of ScanPrefix at a match. */
  lemma ScanPrefixAtMatch(a: string, b: string, i: nat)
    requires i < |a| && Seam(a, b) && UrlStartsAt(a, i)
    requires SegmentsFrom(a + b, MatchEnd(a, i)) == SegmentsFrom(a, MatchEnd(a, i)) + SegmentsFrom(a + b, |a|)
    ensures SegmentsFrom(a + b, i) == SegmentsFrom(a, i) + SegmentsFrom(a + b, |a|)
  {
    var e := MatchEnd(a, i);
    MatchPrefix(a, b, i);
    SlicePrefix(a, b, i, e);
    LinkSteps(a + b, i, e, a, i, e, SegmentsFrom(a + b, |a|));
  }

  /** The step of ScanPrefix where a character is copied. */
  lemma ScanPrefixAtPlain(a: string, b: string, i: nat)
    requires i < |a| && Seam(a, b) && !UrlStartsAt(a, i)
    requires SegmentsFrom(a + b, i + 1) == SegmentsFrom(a, i + 1) + SegmentsFrom(a + b, |a|)
    ensures SegmentsFrom(a + b, i) == SegmentsFrom(a, i) + SegmentsFrom(a + b, |a|)
  {
    MatchPrefix(a, b, i);
    assert (a + b)[i] == a[i];
    PlainSteps(a + b, i, a, i, SegmentsFrom(a + b, |a|));
  }

  /** A slice inside the first part of a concatenation. */
  lemma SlicePrefix(a: string, b: string, i: nat, e: nat)
    requires i <= e <= |a|
    ensures (a + b)[i..e] == a[i..e]
  {
  }

  /** Two texts that meet at whitespace or ')' are sanitised independently. */
  lemma SplitAtSeam(a: string, b: string)
    requires Seam(a, b)
    ensures Segments(a + b) == Segments(a) + Segments(b)
    ensures Sanitize(a + b) == Sanitize(a) + Sanitize(b)
  {
    assert Segments(a + b) == Segments(a) + Segments(b) by {
      ScanPrefix(a, b, 0);
      ScanSuffix(a, b, 0);
    }
    RenderAppend(Segments(a), Segments(b));
  }

  // ----- Bare URLs and markdown links -----

  /** `u` is what the expression matches on its own: a scheme, at least one
      more character, and no whitespace or ')' anywhere. */
  predicate IsBareUrl(u: string) {
    SchemeLen(u, 0) > 0 && SchemeLen(u, 0) < |u| && forall t :: 0 <= t < |u| ==> !IsTerminator(u[t])
  }

  /** A bare URL standing between terminators is wrapped in '<' and '>', and the
      wrapped span stops just before the whitespace or ')' that follows it. */
  lemma BareUrlWrapped(a: string, u: string, b: string)
    requires a == [] || IsTerminator(a[|a| - 1])
    requires IsBareUrl(u)
    requires b == [] || IsTerminator(b[0])
    ensures Sanitize(a + u + b) == Sanitize(a) + Wrapped(u) + Sanitize(b)
  {
    assert Sanitize(u) == Wrapped(u) by {
      assert UrlStartsAt(u, 0);
      assert MatchEnd(u, 0) == |u|;
      assert u[0..|u|] == u;
      assert SegmentsFrom(u, |u|) == [];
      assert Segments(u) == [Link(u)];
      assert Render([Link(u)]) == Wrapped(u) + Render([]);
    }
    assert Sanitize(u + b) == Sanitize(u) + Sanitize(b) by {
      SplitAtSeam(u, b);
    }
    assert Sanitize(a + (u + b)) == Sanitize(a) + Sanitize(u + b) by {
      SplitAtSeam(a, u + b);
    }
    AppendAssoc(a, u, b);
    AppendAssoc(Sanitize(a), Wrapped(u), Sanitize(b));
  }

  /** A bare URL is wrapped after any text in which no scheme begins, unless
      that text ends in "](": the expression has no word boundary, so "(",
      '"' or ':' right before the URL do not protect it. The text before is
      copied, and what follows a terminator is rewritten on its own. */
  lemma BareUrlAfterText(a: string, u: string, b: string)
    requires NoScheme(a) && !(|a| >= 2 && a[|a| - 2] == ']' && a[|a| - 1] == '(')
    requires IsBareUrl(u)
    requires b == [] || IsTerminator(b[0])
    ensures Sanitize(a + u + b) == a + Wrapped(u) + Sanitize(b)
  {
    var s := a + u + b;
    NoMatchBeforeUrl(a, u, b);
    assert s[..|a|] == a;
    CopiedPrefix(s, a, 0);
    UrlThenRest(a, u, b);
    RenderLink(u, Segments(b));
    assert a[0..] == a;
    AppendAssoc(a, Wrapped(u), Sanitize(b));
  }

  /** No match begins inside the text before the URL. */
  lemma NoMatchBeforeUrl(a: string, u: string, b: string)
    requires NoScheme(a) && IsBareUrl(u)
    ensures forall j :: 0 <= j < |a| ==> !UrlStartsAt(a + u + b, j)
  {
    assert a + u + b == a + (u + b);
    SchemeShape(u, 0);
    forall j | 0 <= j < |a| ensures SchemeLen(a + (u + b), j) == 0 {
      NoSchemeBeforeUrl(a, u + b, j);
    }
  }

  lemma RenderLink(u: string, rest: seq<Segment>)
    ensures Render([Link(u)] + rest) == Wrapped(u) + Render(rest)
  {
    assert ([Link(u)] + rest)[1..] == rest;
  }

  /** From the start of `u` on, the scan is the URL and then the scan of `b`. */
  lemma UrlThenRest(a: string, u: string, b: string)
    requires !(|a| >= 2 && a[|a| - 2] == ']' && a[|a| - 1] == '(')
    requires IsBareUrl(u)
    requires b == [] || IsTerminator(b[0])
    ensures SegmentsFrom(a + u + b, |a|) == [Link(u)] + Segments(b)
  {
    var s := a + u + b;
    var e := |a| + |u|;
    UrlMatchesAfter(a, u, b);
    assert s == (a + u) + b && |a + u| == e;
    ScanSuffix(a + u, b, 0);
    assert s[|a|..e] == u;
    LinkThen(s, |a|, e, u, Segments(b));
  }

  /** The scan at a match: the matched URL, then the scan after it. */
  lemma LinkThen(s: string, i: nat, e: nat, u: string, rest: seq<Segment>)
    requires i < |s| && UrlStartsAt(s, i) && MatchEnd(s, i) == e
    requires s[i..e] == u && SegmentsFrom(s, e) == rest
    ensures SegmentsFrom(s, i) == [Link(u)] + rest
  {
  }

  /** A scheme cannot begin in `a` and reach into `t` when `t` starts with its
      'h': a scheme has no 'h' after its first character. */
  lemma NoSchemeBeforeUrl(a: string, t: string, j: nat)
    requires NoScheme(a) && j < |a| && t != [] && t[0] == 'h'
    ensures SchemeLen(a + t, j) == 0
  {
    var s := a + t;
    assert forall n :: 0 <= n < |a| ==> s[n] == a[n];
    assert s[|a|] == 'h';
    assert SchemeLen(a, j) == 0;
  }

  /** Positions of `s` where no match begins are copied one character each. */
  lemma {:induction false} CopiedPrefix(s: string, a: string, i: nat)
    requires i <= |a| <= |s| && s[..|a|] == a
    requires forall j :: i <= j < |a| ==> !UrlStartsAt(s, j)
    ensures Render(SegmentsFrom(s, i)) == a[i..] + Render(SegmentsFrom(s, |a|))
    decreases |a| - i
  {
    if i < |a| {
      CopiedPrefix(s, a, i + 1);
      CopiedStep(s, a, i, Render(SegmentsFrom(s, |a|)));
    }
  }

  /** The step of CopiedPrefix. */
  lemma CopiedStep(s: string, a: string, i: nat, tail: string)
    requires i < |a| <= |s| && s[..|a|] == a && !UrlStartsAt(s, i)
    requires Render(SegmentsFrom(s, i + 1)) == a[i + 1..] + tail
    ensures Render(SegmentsFrom(s, i)) == a[i..] + tail
  {
    assert s[i] == a[i];
    ScanStep(s, i);
    RenderPlain(a[i], SegmentsFrom(s, i + 1));
    assert a[i..] == [a[i]] + a[i + 1..];
  }

  lemma RenderPlain(c: char, rest: seq<Segment>)
    ensures Render([Plain(c)] + rest) == [c] + Render(rest)
  {
    assert ([Plain(c)] + rest)[1..] == rest;
  }

  /** The match at the start of `u` covers exactly `u`. */
  lemma UrlMatchesAfter(a: string, u: string, b: string)
    requires !(|a| >= 2 && a[|a| - 2] == ']' && a[|a| - 1] == '(')
    requires IsBareUrl(u)
    requires b == [] || IsTerminator(b[0])
    ensures UrlStartsAt(a + u + b, |a|) && MatchEnd(a + u + b, |a|) == |a| + |u|
  {
    var k := SchemeLen(u, 0);
    assert forall n :: 0 <= n < |u| ==> (u + b)[n] == u[n];
    assert SchemeLen(u + b, 0) == k;
    SchemeLenShift(a, u + b, 0);
    assert a + u + b == a + (u + b);
    assert (a + u + b)[|a| + k] == u[k];
    if |a| >= 2 {
      assert (a + u + b)[|a| - 2] == a[|a| - 2] && (a + u + b)[|a| - 1] == a[|a| - 1];
    }
    RunEndSuffix(a, u + b, k);
    RunEndPrefix(u, b, k);
    RunEndIsFirstTerminator(u, k);
  }

  /** A markdown link `[text](url)` whose text holds no scheme, and whose target
      holds no scheme after its first character, is left exactly as it is: the
      target is preceded by "](", and nothing else can match. */
  lemma MarkdownLinkKept(text: string, url: string)
    requires NoScheme(text)
    requires url != [] && NoScheme(url[1..])
    ensures Sanitize("[" + text + "](" + url + ")") == "[" + text + "](" + url + ")"
  {
    var open := "[" + text;
    var mid := "](" + url;
    var s := open + mid + ")";
    assert s == "[" + text + "](" + url + ")";
    forall j | 0 <= j < |s| ensures !UrlStartsAt(s, j) {
      if j == 0 || j == |open| || j == |open| + 1 || j == |s| - 1 {
        assert s[j] != 'h';
      } else if j < |open| {
        assert s == open + (mid + ")");
        assert (mid + ")")[0] == ']';
        SchemeLenStops(open, mid + ")", j);
        assert open == "[" + text;
        SchemeLenShift("[", text, j - 1);
      } else if j == |open| + 2 {
        assert PrecededByLinkOpen(s, j);
      } else {
        assert s == (open + "](" + url[..1]) + (url[1..] + ")");
        var t := j - |open| - 3;
        SchemeLenStops(url[1..], ")", t);
        SchemeLenShift(open + "](" + url[..1], url[1..] + ")", t);
      }
    }
    UnchangedIffNoMatch(s);
  }

  // ----- Worked examples -----

  /** A bare URL inside a sentence is wrapped. */
  lemma ExampleBareUrl()
    ensures Sanitize("see http://x.com for info") == "see <http://x.com> for info"
  {
    var a, u, b := "see ", "http://x.com", " for info";
    ExampleBareUrlParts();
    BareUrlWrapped(a, u, b);
    NoSchemeWithoutHOrColon(a);
    NoSchemeUnchanged(a);
    NoSchemeWithoutHOrColon(b);
    NoSchemeUnchanged(b);
    ExampleBareUrlTexts();
  }

  lemma ExampleBareUrlParts()
    ensures 'h' !in "see " && IsTerminator("see "[3])
    ensures 'h' !in " for info" && IsTerminator(" for info"[0])
    ensures IsBareUrl("http://x.com")
  {
    assert SchemeLen("http://x.com", 0) == 7;
  }

  lemma ExampleBareUrlTexts()
    ensures "see " + "http://x.com" + " for info" == "see http://x.com for info"
    ensures "see " + Wrapped("http://x.com") + " for info" == "see <http://x.com> for info"
  {
    ExampleBareUrlInput();
    ExampleBareUrlOutput();
  }

  lemma ExampleBareUrlInput()
    ensures "see " + "http://x.com" + " for info" == "see http://x.com for info"
  {
  }

  lemma ExampleBareUrlOutput()
    ensures "see " + Wrapped("http://x.com") + " for info" == "see <http://x.com> for info"
  {
  }

  /** A URL right after '(' is wrapped too: only "](" protects a URL. */
  lemma ExampleParenthesisedUrl()
    ensures Sanitize("(http://x.com)") == "(<http://x.com>)"
  {
    var a, u, b := "(", "http://x.com", ")";
    ExampleParenthesisedUrlParts();
    BareUrlAfterText(a, u, b);
    NoSchemeWithoutHOrColon(b);
    NoSchemeUnchanged(b);
    ExampleParenthesisedUrlTexts();
  }

  lemma ExampleParenthesisedUrlParts()
    ensures NoScheme("(") && IsBareUrl("http://x.com") && IsTerminator(")"[0]) && 'h' !in ")"
  {
    assert SchemeLen("(", 0) == 0;
    assert SchemeLen("http://x.com", 0) == 7;
  }

  lemma ExampleParenthesisedUrlTexts()
    ensures "(" + "http://x.com" + ")" == "(http://x.com)"
    ensures "(" + Wrapped("http://x.com") + ")" == "(<http://x.com>)"
  {
  }

  /** The target of a markdown link is not wrapped. */
  lemma ExampleMarkdownLink()
    ensures Sanitize("[link](http://x.com)") == "[link](http://x.com)"
  {
    var url := "http://x.com";
    NoSchemeWithoutHOrColon("link");
    assert url[1..] == "ttp://x.com";
    NoSchemeWithoutHOrColon(url[1..]);
    MarkdownLinkKept("link", url);
    assert "[" + "link" + "](" + url + ")" == "[link](http://x.com)";
  }

  /** A link whose text is itself a URL is not protected by the lookbehind: the
      run that starts in the text crosses "](" and swallows the target, so the
      brackets land around both. */
  lemma ExampleUrlAsLinkText()
    ensures Sanitize("[http://a](http://b)") == "[<http://a](http://b>)"
  {
    var s := "[http://a](http://b)";
    ExampleUrlAsLinkTextMatch();
    ExampleUrlAsLinkTextEnd();
    ScanStep(s, 0);
    ScanStep(s, 1);
    assert Segments(s) == [Plain('['), Link(s[1..19]), Plain(')')];
    assert Render([Plain('['), Link(s[1..19]), Plain(')')]) == "[" + Wrapped(s[1..19]) + ")";
    ExampleUrlAsLinkTextTexts();
  }

  /** The match starts after the '[' and runs up to the final ')'. */
  lemma ExampleUrlAsLinkTextMatch()
    ensures !UrlStartsAt("[http://a](http://b)", 0)
    ensures UrlStartsAt("[http://a](http://b)", 1) && MatchEnd("[http://a](http://b)", 1) == 19
  {
    var s := "[http://a](http://b)";
    assert SchemeLen(s, 1) == 7 by {
      assert HasSchemeAt(s, 1, false) && !HasSchemeAt(s, 1, true);
    }
    assert forall t :: 8 <= t < 19 ==> !IsTerminator(s[t]);
    RunEndIsFirstTerminator(s, 8);
  }

  /** The final ')' is copied. */
  lemma ExampleUrlAsLinkTextEnd()
    ensures SegmentsFrom("[http://a](http://b)", 19) == [Plain(')')]
  {
    var s := "[http://a](http://b)";
    assert SchemeLen(s, 19) == 0;
    assert SegmentsFrom(s, 20) == [];
  }

  /** One step of the scan. */
  lemma ScanStep(s: string, i: nat)
    requires i < |s|
    ensures UrlStartsAt(s, i) ==> SegmentsFrom(s, i) == [Link(s[i..MatchEnd(s, i)])] + SegmentsFrom(s, MatchEnd(s, i))
    ensures !UrlStartsAt(s, i) ==> SegmentsFrom(s, i) == [Plain(s[i])] + SegmentsFrom(s, i + 1)
  {
  }

  lemma ExampleUrlAsLinkTextTexts()
    ensures "[" + Wrapped("[http://a](http://b)"[1..19]) + ")" == "[<http://a](http://b>)"
  {
    assert "[http://a](http://b)"[1..19] == "http://a](http://b";
  }
}
