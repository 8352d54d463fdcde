// Where a chart is downloaded from (internal/helm/installer.go): an index
// entry's URL, resolved against the repository's by the rules of RFC 3986.
module ChartUrl {
  import opened Bytes

  const HASH: byte := 35
  const DOT: byte := 46
  const SLASH: byte := 47
  const COLON: byte := 58
  const QMARK: byte := 63

  // ------------------------------------------- components (RFC 3986, section 3)

  datatype Uri = Uri(
    scheme: Option<Bytes>,
    authority: Option<Bytes>,
    path: Bytes,
    query: Option<Bytes>,
    fragment: Option<Bytes>)

  // strings.Cut at the first `sep`, and its inverse.
  function Cut(s: Bytes, sep: byte): (r: (Bytes, Option<Bytes>))
    ensures sep !in r.0 && Glue(r.0, sep, r.1) == s
  {
    if s == [] then ([], None)
    else if s[0] == sep then ([], Some(s[1..]))
    else
      var rest := Cut(s[1..], sep);
      assert s == [s[0]] + s[1..];
      ([s[0]] + rest.0, rest.1)
  }

  function Glue(head: Bytes, sep: byte, tail: Option<Bytes>): Bytes {
    if tail.None? then head else head + [sep] + tail.value
  }

  predicate IsLetter(b: byte) { 65 <= b <= 90 || 97 <= b <= 122 }

  predicate IsSchemeByte(b: byte) { IsLetter(b) || 48 <= b <= 57 || b == 43 || b == 45 || b == DOT }

  predicate ValidScheme(s: Bytes) {
    s != [] && IsLetter(s[0]) && forall i :: 0 <= i < |s| ==> IsSchemeByte(s[i])
  }

  function SplitScheme(s: Bytes): (Option<Bytes>, Bytes) {
    var (head, tail) := Cut(s, COLON);
    if tail.Some? && ValidScheme(head) then (Some(head), tail.value) else (None, s)
  }

  predicate Slashes(s: Bytes) { |s| >= 2 && s[0] == SLASH && s[1] == SLASH }

  // The authority runs up to the next slash, which stays with the path.
  function SplitAuthority(s: Bytes): (Option<Bytes>, Bytes) {
    if !Slashes(s) then (None, s)
    else
      var (host, path) := Cut(s[2..], SLASH);
      (Some(host), if path.None? then [] else [SLASH] + path.value)
  }

  function Parse(s: Bytes): Uri {
    var (upToFragment, fragment) := Cut(s, HASH);
    var (upToQuery, query) := Cut(upToFragment, QMARK);
    var (scheme, hier) := SplitScheme(upToQuery);
    var (authority, path) := SplitAuthority(hier);
    Uri(scheme, authority, path, query, fragment)
  }

  // Section 5.3.
  function Compose(u: Uri): Bytes {
    Glue(Glue(Hier(u), QMARK, u.query), HASH, u.fragment)
  }

  function Hier(u: Uri): Bytes {
    (if u.scheme.Some? then u.scheme.value + [COLON] else []) + Tail(u)
  }

  function Tail(u: Uri): Bytes {
    (if u.authority.Some? then [SLASH, SLASH] + u.authority.value else []) + u.path
  }

  // Components that can be told apart again once composed.
  predicate WellFormed(u: Uri) {
    && HASH !in Hier(u) && QMARK !in Hier(u)
    && (u.query.Some? ==> HASH !in u.query.value)
    && u.scheme.Some? && ValidScheme(u.scheme.value)
    && if u.authority.Some? then SLASH !in u.authority.value && Rooted(u.path) else !Slashes(u.path)
  }

  predicate Rooted(path: Bytes) { path == [] || path[0] == SLASH }

  // Taking a text apart loses nothing, whatever the text.
  lemma ComposeParse(s: Bytes)
    ensures Compose(Parse(s)) == s
  {
    var upToQuery := Cut(Cut(s, HASH).0, QMARK).0;
    TailRebuilt(SplitScheme(upToQuery).1);
    assert Hier(Parse(s)) == upToQuery;
  }

  lemma TailRebuilt(s: Bytes)
    ensures (if SplitAuthority(s).0.Some? then [SLASH, SLASH] + SplitAuthority(s).0.value else []) + SplitAuthority(s).1 == s
  {
    if Slashes(s) {
      var (host, path) := Cut(s[2..], SLASH);
      assert s == [SLASH, SLASH] + Glue(host, SLASH, path);
    }
  }

  lemma {:induction false} CutGlue(head: Bytes, sep: byte, tail: Option<Bytes>)
    requires sep !in head
    ensures Cut(Glue(head, sep, tail), sep) == (head, tail)
  {
    var s := Glue(head, sep, tail);
    if head != [] {
      CutGlue(head[1..], sep, tail);
      assert s[1..] == Glue(head[1..], sep, tail);
      assert head == [head[0]] + head[1..];
    }
  }

  lemma TailSplits(u: Uri)
    requires WellFormed(u)
    ensures SplitAuthority(Tail(u)) == (u.authority, u.path)
  {
    if u.authority.Some? {
      AuthoritySplits(u.authority.value, u.path);
      assert Tail(u) == [SLASH, SLASH] + u.authority.value + u.path;
    } else {
      assert Tail(u) == u.path;
    }
  }

  lemma AuthoritySplits(host: Bytes, path: Bytes)
    requires SLASH !in host && Rooted(path)
    ensures SplitAuthority([SLASH, SLASH] + host + path) == (Some(host), path)
  {
    var rest := if path == [] then None else Some(path[1..]);
    assert ([SLASH, SLASH] + host + path)[2..] == Glue(host, SLASH, rest);
    CutGlue(host, SLASH, rest);
    assert path == if rest.None? then [] else [SLASH] + rest.value;
  }

  lemma HierSplits(u: Uri)
    requires WellFormed(u)
    ensures SplitScheme(Hier(u)) == (u.scheme, Tail(u))
  {
    hide Tail;
    assert SchemeIsClean(u.scheme.value);
    assert Hier(u) == Glue(u.scheme.value, COLON, Some(Tail(u)));
    CutGlue(u.scheme.value, COLON, Some(Tail(u)));
  }

  predicate SchemeIsClean(s: Bytes) { COLON !in s && HASH !in s && QMARK !in s && SLASH !in s }

  // And well-formed components are read back as they were.
  lemma ParseCompose(u: Uri)
    requires WellFormed(u)
    ensures Parse(Compose(u)) == u
  {
    hide SplitScheme, SplitAuthority, Tail;
    CutGlue(Glue(Hier(u), QMARK, u.query), HASH, u.fragment);
    CutGlue(Hier(u), QMARK, u.query);
    HierSplits(u);
    TailSplits(u);
  }

  // A full URL, written out, is taken apart where a reader would expect it.
  lemma UrlParts(scheme: Bytes, host: Bytes, path: Bytes, query: Bytes, fragment: Bytes)
    requires ValidScheme(scheme) && (path == [] || path[0] == '/' as int)
    requires forall b :: b in host ==> b !in {'/' as int, '?' as int, '#' as int}
    requires '?' as int !in path && '#' as int !in path && '#' as int !in query
    ensures Parse(scheme + [':' as int, '/' as int, '/' as int] + host + path + ['?' as int] + query + ['#' as int] + fragment)
         == Uri(Some(scheme), Some(host), path, Some(query), Some(fragment))
  {
    var u := Uri(Some(scheme), Some(host), path, Some(query), Some(fragment));
    hide Parse, WellFormed, Compose;
    WellFormedParts(scheme, host, path, query, fragment);
    ParseCompose(u);
    ComposeWritten(scheme, host, path, query, fragment);
  }

  lemma ComposeWritten(scheme: Bytes, host: Bytes, path: Bytes, query: Bytes, fragment: Bytes)
    ensures Compose(Uri(Some(scheme), Some(host), path, Some(query), Some(fragment)))
         == scheme + [':' as int, '/' as int, '/' as int] + host + path + ['?' as int] + query + ['#' as int] + fragment
  {
    assert scheme + [58] + ([47, 47] + host + path) == scheme + [58, 47, 47] + host + path;
  }

  lemma WellFormedParts(scheme: Bytes, host: Bytes, path: Bytes, query: Bytes, fragment: Bytes)
    requires ValidScheme(scheme) && (path == [] || path[0] == '/' as int)
    requires forall b :: b in host ==> b !in {'/' as int, '?' as int, '#' as int}
    requires '?' as int !in path && '#' as int !in path && '#' as int !in query
    ensures WellFormed(Uri(Some(scheme), Some(host), path, Some(query), Some(fragment)))
  {
    SchemeClean(scheme);
  }

  // What comes after the colon does not change how a scheme is read.
  lemma SchemeFirst(scheme: Bytes, rest: Bytes)
    requires ValidScheme(scheme)
    ensures Parse(scheme + [COLON] + rest).scheme == Some(scheme)
  {
    var front := scheme + [COLON];
    var (upToFragment, fragment) := Cut(front + rest, HASH);
    CutPast(front, rest, HASH);
    CutPast(front, Cut(rest, HASH).0, QMARK);
    var rest2 := Cut(Cut(rest, HASH).0, QMARK).0;
    assert front + rest2 == Glue(scheme, COLON, Some(rest2));
    CutGlue(scheme, COLON, Some(rest2));
  }

  lemma CutPast(front: Bytes, rest: Bytes, sep: byte)
    requires sep !in front
    ensures Cut(front + rest, sep) == (front + Cut(rest, sep).0, Cut(rest, sep).1)
  {
    var (head, tail) := Cut(rest, sep);
    CutGlue(front + head, sep, tail);
    assert front + rest == Glue(front + head, sep, tail);
  }

  // ------------------------------------------- dot segments (section 5.2.4)

  // The first segment, with its leading slash if it has one.
  function SegmentEnd(s: Bytes): (n: nat)
    requires s != []
    ensures 1 <= n <= |s| && NoSlashIn(s, 1, n) && SegmentStops(s, n)
  {
    1 + |Cut(s[1..], SLASH).0|
  }

  predicate NoSlashIn(s: Bytes, from: nat, to: nat) {
    forall i :: from <= i < to && i < |s| ==> s[i] != SLASH
  }

  function DropLast(out: Bytes): (r: Bytes)
    ensures SLASH !in out ==> r == []
    ensures SLASH in out ==> |r| < |out| && r == out[..|r|] && out[|r|] == SLASH && NoSlashIn(out, |r| + 1, |out|)
  {
    if out == [] then []
    else if out[|out| - 1] == SLASH then out[..|out| - 1]
    else
      assert out == out[..|out| - 1] + [out[|out| - 1]];
      DropLast(out[..|out| - 1])
  }

  predicate SegmentStops(p: Bytes, k: nat) { k == |p| || (k < |p| && p[k] == SLASH) }

  predicate DotAt(p: Bytes, k: nat) { k < |p| && p[k] == DOT && SegmentStops(p, k + 1) }

  predicate DotDotAt(p: Bytes, k: nat) { k + 1 < |p| && p[k] == DOT && p[k + 1] == DOT && SegmentStops(p, k + 2) }

  // No segment after a slash is "." or "..".
  predicate DotFree(p: Bytes) {
    forall i :: 0 <= i < |p| && p[i] == SLASH ==> !DotAt(p, i + 1) && !DotDotAt(p, i + 1)
  }

  // One turn of the loop in section 5.2.4: what is left of the input buffer,
  // and the output buffer.
  function Turn(input: Bytes, output: Bytes): (r: (Bytes, Bytes))
    requires input != []
    ensures |r.0| < |input|
  {
    if DotDotAt(input, 0) then (if |input| == 2 then [] else input[3..], output)
    else if DotAt(input, 0) then (if |input| == 1 then [] else input[2..], output)
    else if input[0] == SLASH && DotAt(input, 1) then (if |input| == 2 then [SLASH] else input[2..], output)
    else if input[0] == SLASH && DotDotAt(input, 1) then
      (if |input| == 3 then [SLASH] else input[3..], DropLast(output))
    else
      (input[SegmentEnd(input)..], output + input[..SegmentEnd(input)])
  }

  function RemoveDots(input: Bytes, output: Bytes): Bytes
    decreases |input|
  {
    if input == [] then output
    else
      var (rest, built) := Turn(input, output);
      RemoveDots(rest, built)
  }

  lemma TakesTurn(input: Bytes, output: Bytes)
    requires input != []
    ensures RemoveDots(input, output) == RemoveDots(Turn(input, output).0, Turn(input, output).1)
  {
  }

  lemma DropLastClean(output: Bytes)
    requires Rooted(output) && DotFree(output)
    ensures Rooted(DropLast(output)) && DotFree(DropLast(output))
  {
    var r := DropLast(output);
    forall i | 0 <= i < |r| && r[i] == SLASH
      ensures !DotAt(r, i + 1) && !DotDotAt(r, i + 1)
    {
      assert !DotAt(output, i + 1) && !DotDotAt(output, i + 1);
    }
  }

  lemma AppendClean(output: Bytes, segment: Bytes)
    requires Rooted(output) && DotFree(output)
    requires segment != [] && segment[0] == SLASH && NoSlashIn(segment, 1, |segment|)
    requires !DotAt(segment, 1) && !DotDotAt(segment, 1)
    ensures Rooted(output + segment) && DotFree(output + segment)
  {
    var r := output + segment;
    forall i | 0 <= i < |r| && r[i] == SLASH
      ensures !DotAt(r, i + 1) && !DotDotAt(r, i + 1)
    {
      if i < |output| {
        assert !DotAt(output, i + 1) && !DotDotAt(output, i + 1);
      } else {
        assert segment[i - |output|] == SLASH;
        assert i == |output|;
      }
    }
  }

  lemma TurnClean(input: Bytes, output: Bytes)
    requires input != [] && Rooted(input) && Rooted(output) && DotFree(output)
    ensures Rooted(Turn(input, output).0) && Rooted(Turn(input, output).1) && DotFree(Turn(input, output).1)
    ensures forall b :: b in Turn(input, output).0 + Turn(input, output).1 ==> b in input + output
  {
    DropLastClean(output);
    if !DotAt(input, 1) && !DotDotAt(input, 1) {
      var n := SegmentEnd(input);
      AppendClean(output, input[..n]);
    }
  }

  // No dot segment survives, and nothing is invented.
  lemma {:induction false} RemoveDotsClean(input: Bytes, output: Bytes)
    requires Rooted(input) && Rooted(output) && DotFree(output)
    ensures Rooted(RemoveDots(input, output)) && DotFree(RemoveDots(input, output))
    ensures forall b :: b in RemoveDots(input, output) ==> b in input + output
    decreases |input|
  {
    if input != [] {
      hide Turn;
      TurnClean(input, output);
      var (rest, built) := Turn(input, output);
      RemoveDotsClean(rest, built);
    }
  }

  // A path without dot segments stays as it is.
  lemma {:induction false} RemoveDotsKeeps(input: Bytes, output: Bytes)
    requires Rooted(input) && DotFree(input)
    ensures RemoveDots(input, output) == output + input
    decreases |input|
  {
    hide RemoveDots, DotFree, Turn, DotAt, DotDotAt;
    if input == [] {
      NothingLeft(output);
    } else {
      var n := SegmentEnd(input);
      var built := output + input[..n];
      SuffixClean(input, n);
      NameTurn(input, output);
      TakesTurn(input, output);
      RemoveDotsKeeps(input[n..], built);
      JoinParts(output, input, n);
    }
  }

  lemma NothingLeft(output: Bytes)
    ensures RemoveDots([], output) == output + []
  {
  }

  lemma JoinParts(p: Bytes, q: Bytes, n: nat)
    requires n <= |q|
    ensures p + q[..n] + q[n..] == p + q
  {
    assert q == q[..n] + q[n..];
  }

  lemma NameTurn(input: Bytes, output: Bytes)
    requires input != [] && !DotAt(input, 0) && !DotDotAt(input, 0) && !DotAt(input, 1) && !DotDotAt(input, 1)
    ensures Turn(input, output) == (input[SegmentEnd(input)..], output + input[..SegmentEnd(input)])
  {
  }

  lemma SuffixClean(p: Bytes, n: nat)
    requires DotFree(p) && n <= |p|
    ensures DotFree(p[n..])
    ensures Rooted(p) && p != [] ==> !DotAt(p, 0) && !DotDotAt(p, 0) && !DotAt(p, 1) && !DotDotAt(p, 1)
  {
    var rest := p[n..];
    forall i | 0 <= i < |rest| && rest[i] == SLASH
      ensures !DotAt(rest, i + 1) && !DotDotAt(rest, i + 1)
    {
      assert !DotAt(p, n + i + 1) && !DotDotAt(p, n + i + 1);
    }
  }

  // Paths that reduce alike reduce alike behind any front.
  lemma {:induction false} RemoveDotsBehind(front: Bytes, p: Bytes, q: Bytes, output: Bytes)
    requires Rooted(front) && p != [] && q != [] && Rooted(p) && Rooted(q)
    requires forall o :: RemoveDots(p, o) == RemoveDots(q, o)
    ensures RemoveDots(front + p, output) == RemoveDots(front + q, output)
    decreases |front|
  {
    if front == [] {
      assert front + p == p && front + q == q;
    } else {
      hide Turn, Step, Built;
      TurnInFront(front, p, output);
      TurnInFront(front, q, output);
      RemoveDotsBehind(front[Step(front)..], p, q, Built(front, output));
    }
  }
  
  // How much of a rooted front the next turn consumes.
  function Step(front: Bytes): (k: nat)
    requires front != [] && Rooted(front)
    ensures 1 <= k <= |front| && Rooted(front[k..])
  {
    if DotAt(front, 1) then 2 else if DotDotAt(front, 1) then 3 else SegmentEnd(front)
  }

  function Built(front: Bytes, output: Bytes): Bytes
    requires front != [] && Rooted(front)
  {
    if DotAt(front, 1) then output else if DotDotAt(front, 1) then DropLast(output) else output + front[..Step(front)]
  }

  lemma DotsInFront(front: Bytes, p: Bytes)
    requires front != [] && Rooted(front) && p != [] && Rooted(p)
    ensures DotAt(front + p, 1) == DotAt(front, 1) && DotDotAt(front + p, 1) == DotDotAt(front, 1)
    ensures !DotAt(front + p, 0) && !DotDotAt(front + p, 0)
    ensures |front + p| == 2 ==> !DotAt(front, 1)
    ensures |front + p| == 3 ==> !DotDotAt(front, 1)
  {
  }

  lemma TurnInFront(front: Bytes, p: Bytes, output: Bytes)
    requires front != [] && Rooted(front) && p != [] && Rooted(p)
    ensures Turn(front + p, output) == (front[Step(front)..] + p, Built(front, output))
  {
    hide DropLast, DotAt, DotDotAt, SegmentEnd;
    var k := Step(front);
    DotsInFront(front, p);
    SegmentInFront(front, p);
    assert (front + p)[k..] == front[k..] + p && (front + p)[..k] == front[..k];
  }

  lemma SegmentInFront(front: Bytes, p: Bytes)
    requires front != [] && Rooted(front) && p != [] && Rooted(p)
    ensures SegmentEnd(front + p) == SegmentEnd(front)
  {
    var n, m := SegmentEnd(front), SegmentEnd(front + p);
    assert (front + p)[n] == SLASH;
    assert m >= n || front[m] == SLASH;
  }

  // ".." takes back the segment before it, anywhere in a path.
  lemma DotDotCancels(front: Bytes, segment: Bytes, rest: Bytes)
    requires Rooted(front) && rest != [] && Rooted(rest)
    requires SLASH !in segment && segment != [DOT] && segment != [DOT, DOT]
    ensures RemoveDots(front + ['/' as int] + segment + ['/' as int, '.' as int, '.' as int] + rest, []) == RemoveDots(front + rest, [])
  {
    hide RemoveDots;
    var p := [SLASH] + segment + [SLASH, DOT, DOT] + rest;
    forall o ensures RemoveDots(p, o) == RemoveDots(rest, o) {
      TwoTurns(segment, rest, o);
    }
    RemoveDotsBehind(front, p, rest, []);
    assert front + [SLASH] + segment + [SLASH, DOT, DOT] + rest == front + p;
  }

  lemma TwoTurns(segment: Bytes, rest: Bytes, o: Bytes)
    requires rest != [] && Rooted(rest)
    requires SLASH !in segment && segment != [DOT] && segment != [DOT, DOT]
    ensures RemoveDots([SLASH] + segment + [SLASH, DOT, DOT] + rest, o) == RemoveDots(rest, o)
  {
    hide Turn;
    var first, up := [SLASH] + segment, [SLASH, DOT, DOT] + rest;
    SegmentTurn(segment, up, o);
    UpTurn(segment, rest, o);
    assert [SLASH] + segment + [SLASH, DOT, DOT] + rest == first + up;
  }

  lemma SegmentTurn(segment: Bytes, rest: Bytes, o: Bytes)
    requires rest != [] && Rooted(rest)
    requires SLASH !in segment && segment != [DOT] && segment != [DOT, DOT]
    ensures Turn([SLASH] + segment + rest, o) == (rest, o + ([SLASH] + segment))
  {
    hide Turn, DropLast;
    var first := [SLASH] + segment;
    assert first[1..] == segment;
    assert SegmentEnd(first) == |first|;
    assert !DotAt(first, 1) && !DotDotAt(first, 1);
    TurnInFront(first, rest, o);
    assert first[|first|..] + rest == rest && first[..|first|] == first;
  }

  lemma UpTurn(segment: Bytes, rest: Bytes, o: Bytes)
    requires rest != [] && Rooted(rest) && SLASH !in segment
    ensures Turn([SLASH, DOT, DOT] + rest, o + ([SLASH] + segment)) == (rest, o)
  {
    hide DropLast;
    assert o + ([SLASH] + segment) == o + [SLASH] + segment;
    DropOne(o, segment);
  }

  lemma DropOne(o: Bytes, segment: Bytes)
    requires SLASH !in segment
    ensures DropLast(o + [SLASH] + segment) == o
  {
    var s := o + [SLASH] + segment;
    var r := DropLast(s);
    assert s[|o|] == SLASH;
    assert NoSlashIn(s, |o| + 1, |s|);
  }

  // "." changes nothing, and ".." at the root stays at the root.
  lemma DotVanishes(front: Bytes, rest: Bytes)
    requires Rooted(front) && rest != [] && Rooted(rest)
    ensures RemoveDots(front + ['/' as int, '.' as int] + rest, []) == RemoveDots(front + rest, [])
    ensures RemoveDots(['/' as int, '.' as int, '.' as int] + rest, []) == RemoveDots(rest, [])
  {
    hide RemoveDots;
    var p := [SLASH, DOT] + rest;
    forall o ensures RemoveDots(p, o) == RemoveDots(rest, o) {
      DotTurns(rest, o);
    }
    DotTurns(rest, []);
    RemoveDotsBehind(front, p, rest, []);
    assert front + [SLASH, DOT] + rest == front + p;
  }

  lemma DotTurns(rest: Bytes, o: Bytes)
    requires rest != [] && Rooted(rest)
    ensures RemoveDots([SLASH, DOT] + rest, o) == RemoveDots(rest, o)
    ensures RemoveDots([SLASH, DOT, DOT] + rest, o) == RemoveDots(rest, DropLast(o))
  {
    hide RemoveDots, DropLast;
    var dot, up := [SLASH, DOT] + rest, [SLASH, DOT, DOT] + rest;
    TakesTurn(dot, o);
    TakesTurn(up, o);
    assert dot[2..] == rest && up[3..] == rest;
  }

  // ------------------------------------------- resolution (section 5.2.2)

  function ParentOf(path: Bytes): Bytes {
    if SLASH in path then DropLast(path) + [SLASH] else []
  }

  // Section 5.2.3.
  function Merge(base: Uri, path: Bytes): Bytes {
    if base.authority.Some? && base.path == [] then [SLASH] + path else ParentOf(base.path) + path
  }

  // The caller asks only for references without a scheme.
  function Resolve(base: Uri, ref: Uri): Uri {
    if ref.authority.Some? then
      Uri(base.scheme, ref.authority, RemoveDots(ref.path, []), ref.query, ref.fragment)
    else if ref.path == [] then
      Uri(base.scheme, base.authority, base.path, if ref.query.Some? then ref.query else base.query, ref.fragment)
    else
      var path := if ref.path[0] == SLASH then ref.path else Merge(base, ref.path);
      Uri(base.scheme, base.authority, RemoveDots(path, []), ref.query, ref.fragment)
  }

  // ------------------------------------------- resolveChartURL

  function TrimSlashes(s: Bytes): (r: Bytes)
    ensures |r| <= |s| && r == s[..|r|] && forall i :: |r| <= i < |s| ==> s[i] == SLASH
    ensures r != [] ==> r[|r| - 1] != SLASH
  {
    if s != [] && s[|s| - 1] == SLASH then TrimSlashes(s[..|s| - 1]) else s
  }

  function Root(repoURL: Bytes): Bytes { TrimSlashes(repoURL) + [SLASH] }

  // What the outside answers: the texts url.Parse refuses, and the index read
  // from a repository, by chart name and version.
  datatype Index = Unreachable | NotAnIndex | Entries(urls: (Bytes, Bytes) -> Option<seq<Bytes>>)
  datatype Outside = Outside(refused: Bytes -> bool, index: Uri -> Index)

  datatype UrlError = BadRepoUrl | IndexUnreachable | BadIndex | ChartNotFound | NoDownloadUrl | BadChartUrl
  datatype Found = Found(url: Bytes) | Failed(error: UrlError)

  // Parsing reads a scheme in lower case, and an empty fragment is not
  // written back.
  function LowerByte(b: byte): byte { if 65 <= b <= 90 then b + 32 else b }

  function Lower(s: Bytes): (r: Bytes)
    ensures |r| == |s| && forall i :: 0 <= i < |s| ==> r[i] == LowerByte(s[i])
  {
    seq(|s|, i requires 0 <= i < |s| => LowerByte(s[i]))
  }

  function LowerScheme(scheme: Option<Bytes>): Option<Bytes> {
    if scheme.None? then None else Some(Lower(scheme.value))
  }

  function Canonical(u: Uri): Uri {
    u.(scheme := LowerScheme(u.scheme), fragment := if u.fragment == Some([]) then None else u.fragment)
  }

  function Resolved(base: Uri, raw: Bytes): Uri {
    var parsed := Parse(raw);
    if parsed.scheme.Some? then parsed else Resolve(base, parsed)
  }

  function ResolveEntry(base: Uri, raw: Bytes): Bytes { Compose(Canonical(Resolved(base, raw))) }

  function ResolveChartURL(o: Outside, repoURL: Bytes, name: Bytes, version: Bytes): Found {
    if o.refused(Root(repoURL)) then Failed(BadRepoUrl)
    else
      var base := Parse(Root(repoURL));
      match o.index(base)
      case Unreachable => Failed(IndexUnreachable)
      case NotAnIndex => Failed(BadIndex)
      case Entries(urls) =>
        match urls(name, version)
        case None => Failed(ChartNotFound)
        case Some(list) =>
          if list == [] then Failed(NoDownloadUrl)
          else if o.refused(list[0]) then Failed(BadChartUrl)
          else Found(ResolveEntry(base, list[0]))
  }

  function Repeat(n: nat): Bytes { if n == 0 then [] else Repeat(n - 1) + [SLASH] }

  // However many slashes end the repository URL, every answer and every error
  // is the same.
  lemma TrailingSlashesDoNotMatter(o: Outside, repoURL: Bytes, n: nat, name: Bytes, version: Bytes)
    ensures ResolveChartURL(o, repoURL + Repeat(n), name, version) == ResolveChartURL(o, repoURL, name, version)
  {
    hide TrimSlashes, Parse, ResolveEntry;
    TrimRepeat(repoURL, n);
  }

  lemma {:induction false} TrimRepeat(s: Bytes, n: nat)
    ensures TrimSlashes(s + Repeat(n)) == TrimSlashes(s)
  {
    hide TrimSlashes;
    if n == 0 {
      assert s + Repeat(n) == s;
    } else {
      TrimRepeat(s, n - 1);
      TrimOne(s + Repeat(n - 1));
      assert s + Repeat(n) == s + Repeat(n - 1) + [SLASH];
    }
  }

  lemma TrimOne(s: Bytes)
    ensures TrimSlashes(s + [SLASH]) == TrimSlashes(s)
  {
    assert (s + [SLASH])[..|s|] == s;
  }

  // Whatever is found for a repository URL with a scheme is absolute.
  lemma FoundIsAbsolute(o: Outside, repoURL: Bytes, name: Bytes, version: Bytes)
    requires Parse(Root(repoURL)).scheme.Some?
    ensures var r := ResolveChartURL(o, repoURL, name, version);
      r.Found? ==> Parse(r.url).scheme.Some?
  {
    hide Parse, ResolveEntry;
    var r := ResolveChartURL(o, repoURL, name, version);
    if r.Found? {
      var list := o.index(Parse(Root(repoURL))).urls(name, version).value;
      ResolvedIsAbsolute(Root(repoURL), list[0]);
    }
  }

  // An absolute entry does not depend on the repository, and is returned byte
  // for byte exactly if its scheme is in lower case and no empty fragment ends
  // it.
  lemma AbsoluteEntryStands(base: Uri, raw: Bytes)
    requires Parse(raw).scheme.Some?
    ensures ResolveEntry(base, raw) == Compose(Canonical(Parse(raw)))
    ensures ResolveEntry(base, raw) == raw
            <==> Parse(raw).scheme == LowerScheme(Parse(raw).scheme) && Parse(raw).fragment != Some([])
  {
    hide Parse, Hier, Lower;
    ComposeParse(raw);
    CanonicalIff(Parse(raw));
  }

  // The canonical form is written like the original iff it is the original.
  lemma CanonicalIff(u: Uri)
    ensures Compose(Canonical(u)) == Compose(u) <==> Canonical(u) == u
  {
    hide Lower;
    if u.fragment == Some([]) {
      CanonicalLength(u);
    } else if u.scheme.Some? && Compose(Canonical(u)) == Compose(u) {
      assert u.scheme.value == Compose(u)[..|u.scheme.value|];
      assert Lower(u.scheme.value) == Compose(Canonical(u))[..|u.scheme.value|];
    }
  }

  lemma CanonicalLength(u: Uri)
    requires u.fragment == Some([])
    ensures |Compose(Canonical(u))| < |Compose(u)|
  {
    assert |Hier(Canonical(u))| == |Hier(u)|;
  }

  // An absolute repository makes every entry absolute.
  lemma ResolvedIsAbsolute(repo: Bytes, raw: Bytes)
    requires Parse(repo).scheme.Some?
    ensures Parse(ResolveEntry(Parse(repo), raw)).scheme
         == LowerScheme(if Parse(raw).scheme.Some? then Parse(raw).scheme else Parse(repo).scheme)
  {
    hide Parse, Resolve, Tail, Lower;
    var u := Canonical(Resolved(Parse(repo), raw));
    ParseParts(raw);
    ParseParts(repo);
    ResolveScheme(Parse(repo), Parse(raw));
    LowerValid(Resolved(Parse(repo), raw).scheme.value);
    var rest := Glue(Glue(Tail(u), QMARK, u.query), HASH, u.fragment);
    assert Compose(u) == u.scheme.value + [COLON] + rest;
    SchemeFirst(u.scheme.value, rest);
  }

  lemma LowerValid(scheme: Bytes)
    requires ValidScheme(scheme)
    ensures ValidScheme(Lower(scheme))
  {
  }

  lemma ResolveScheme(base: Uri, ref: Uri)
    ensures Resolve(base, ref).scheme == base.scheme
  {
  }

  // What a text is taken apart into.
  lemma ParseParts(s: Bytes)
    ensures var u := Parse(s);
      && HASH !in u.path && QMARK !in u.path
      && (u.authority.Some? ==> Clean(u.authority.value) && Rooted(u.path))
      && (u.authority.None? ==> !Slashes(u.path))
      && (u.query.Some? ==> HASH !in u.query.value)
      && (u.scheme.Some? ==> ValidScheme(u.scheme.value))
  {
    var upToFragment := Cut(s, HASH).0;
    var upToQuery, query := Cut(upToFragment, QMARK).0, Cut(upToFragment, QMARK).1;
    assert Compose(Parse(s)) == s by { ComposeParse(s); }
    assert forall b :: b in upToQuery ==> b in upToFragment;
    if query.Some? { assert forall b :: b in query.value ==> b in upToFragment; }
    var hier := SplitScheme(upToQuery).1;
    assert forall b :: b in hier ==> b in upToQuery;
    TailRebuilt(hier);
    var u := Parse(s);
    assert forall b :: b in u.path ==> b in hier;
    if u.authority.Some? { assert forall b :: b in u.authority.value ==> b in hier; }
  }

  predicate Clean(host: Bytes) { SLASH !in host && HASH !in host && QMARK !in host }

  // ------------------------------------------- relative entries

  // An entry that names no scheme and no host.
  predicate Relative(raw: Bytes) { Parse(raw).scheme.None? && Parse(raw).authority.None? }

  // A repository URL with a scheme and a host.
  predicate Hosted(base: Uri) { base.scheme.Some? && base.authority.Some? }

  lemma ParentRooted(path: Bytes)
    requires Rooted(path)
    ensures Rooted(ParentOf(path)) && (path != [] ==> ParentOf(path) != [])
    ensures forall b :: b in ParentOf(path) ==> b in path
    ensures path != [] && path[|path| - 1] == SLASH ==> ParentOf(path) == path
  {
    if path != [] {
      var r := DropLast(path);
      assert ParentOf(path) == path[..|r| + 1];
      if path[|path| - 1] == SLASH { assert path[..|path|] == path; }
    }
  }

  lemma MergeRooted(base: Uri, path: Bytes)
    requires base.authority.Some? && Rooted(base.path)
    ensures Rooted(Merge(base, path))
    ensures forall b :: b in Merge(base, path) ==> b == SLASH || b in base.path || b in path
  {
    ParentRooted(base.path);
  }

  // The path of a resolved entry.
  lemma ResolvedPath(base: Uri, ref: Uri)
    requires base.authority.Some? && Rooted(base.path) && ref.authority.None?
    ensures Rooted(Resolve(base, ref).path)
    ensures ref.path != [] ==> DotFree(Resolve(base, ref).path)
    ensures forall b :: b in Resolve(base, ref).path ==> b == SLASH || b in base.path || b in ref.path
  {
    hide RemoveDots, Merge;
    if ref.path != [] {
      MergeRooted(base, ref.path);
      RemoveDotsClean(if ref.path[0] == SLASH then ref.path else Merge(base, ref.path), []);
    }
  }

  lemma ResolvedWellFormed(repo: Bytes, raw: Bytes)
    requires Hosted(Parse(repo)) && Relative(raw)
    ensures WellFormed(Resolve(Parse(repo), Parse(raw)))
    ensures WellFormed(Canonical(Resolve(Parse(repo), Parse(raw))))
  {
    hide Parse, Lower;
    var base, ref := Parse(repo), Parse(raw);
    ParseParts(repo);
    ParseParts(raw);
    ResolvedPath(base, ref);
    var u := Resolve(base, ref);
    assert u.scheme == base.scheme && u.authority == base.authority;
    SchemeClean(u.scheme.value);
    LowerValid(u.scheme.value);
    SchemeClean(Lower(u.scheme.value));
  }

  lemma SchemeClean(s: Bytes)
    requires ValidScheme(s)
    ensures SchemeIsClean(s)
  {
  }

  // A relative entry never leaves the repository's host, and no dot segment
  // of it survives.
  lemma RelativeEntryStaysHome(repo: Bytes, raw: Bytes)
    requires Hosted(Parse(repo)) && Relative(raw)
    ensures var base, u := Parse(repo), Parse(ResolveEntry(Parse(repo), raw));
      && u.scheme == LowerScheme(base.scheme) && u.authority == base.authority
      && (Parse(raw).path != [] ==> DotFree(u.path) && u.query == Parse(raw).query)
      && u.fragment == (if Parse(raw).fragment == Some([]) then None else Parse(raw).fragment)
  {
    hide Parse, WellFormed, RemoveDots, Merge, Lower;
    var base, ref := Parse(repo), Parse(raw);
    ResolvedWellFormed(repo, raw);
    ParseCompose(Canonical(Resolve(base, ref)));
    ParseParts(repo);
    ResolvedPath(base, ref);
  }

  lemma HostedEntryWellFormed(repo: Bytes, raw: Bytes)
    requires Hosted(Parse(repo)) && Parse(raw).scheme.None? && Parse(raw).authority.Some?
    ensures WellFormed(Canonical(Resolve(Parse(repo), Parse(raw))))
  {
    hide Parse, Lower, RemoveDots;
    var base, ref := Parse(repo), Parse(raw);
    ParseParts(repo);
    ParseParts(raw);
    RemoveDotsClean(ref.path, []);
    SchemeClean(base.scheme.value);
    LowerValid(base.scheme.value);
    SchemeClean(Lower(base.scheme.value));
  }

  // Where the parts of the other relative entries come from: with a host of its
  // own, everything but the scheme is the entry's; without a path, the path is
  // the repository's, and so is the query if the entry has none; and a path
  // that starts at the root replaces the repository's.
  lemma RelativeEntryParts(repo: Bytes, raw: Bytes)
    requires Hosted(Parse(repo)) && Parse(raw).scheme.None?
    ensures var base, ref, u := Parse(repo), Parse(raw), Parse(ResolveEntry(Parse(repo), raw));
      && u.scheme == LowerScheme(base.scheme)
      && u.authority == (if ref.authority.Some? then ref.authority else base.authority)
      && (ref.authority.None? && ref.path == [] ==>
            u.path == base.path && u.query == (if ref.query.Some? then ref.query else base.query))
      && (ref.authority.Some? || (ref.path != [] && ref.path[0] == '/' as int) ==>
            u.query == ref.query && (DotFree(ref.path) ==> u.path == ref.path))
  {
    hide Parse, WellFormed, RemoveDots, Merge, Lower, DotFree;
    var base, ref := Parse(repo), Parse(raw);
    ParseParts(raw);
    if ref.authority.Some? {
      HostedEntryWellFormed(repo, raw);
    } else {
      ResolvedWellFormed(repo, raw);
    }
    ParseCompose(Canonical(Resolve(base, ref)));
    if Rooted(ref.path) && DotFree(ref.path) { RemoveDotsKeeps(ref.path, []); }
  }

  // An entry whose path starts with a name and has no dot segments.
  predicate Plain(raw: Bytes) {
    var path := Parse(raw).path;
    Relative(raw) && path != [] && path[0] != SLASH && !DotAt(path, 0) && !DotDotAt(path, 0) && DotFree(path)
  }

  predicate PlainRoot(base: Uri) { base.query.None? && base.fragment.None? && DotFree(base.path) }

  lemma CutExtends(s: Bytes, more: Bytes, sep: byte)
    requires Cut(s, sep).1.Some?
    ensures Cut(s + more, sep) == (Cut(s, sep).0, Some(Cut(s, sep).1.value + more))
  {
    hide Cut;
    var (head, tail) := Cut(s, sep);
    CutGlue(head, sep, Some(tail.value + more));
    assert s + more == head + [sep] + tail.value + more;
    assert s + more == Glue(head, sep, Some(tail.value + more));
  }

  // Plain paths join where the first ends in a slash; and only those do.
  lemma JoinedDotFree(p: Bytes, q: Bytes)
    requires p != [] && p[|p| - 1] == SLASH && !DotAt(q, 0) && !DotDotAt(q, 0) && DotFree(q)
    ensures DotFree(p + q) <==> DotFree(p)
  {
    forall i | 0 <= i < |p| && p[i] == SLASH
      ensures DotAt(p + q, i + 1) == DotAt(p, i + 1) && DotDotAt(p + q, i + 1) == DotDotAt(p, i + 1)
    {
      if i == |p| - 1 {
        assert DotAt(p + q, i + 1) == DotAt(q, 0);
        assert DotDotAt(p + q, i + 1) == DotDotAt(q, 0);
      }
    }
    forall i | |p| <= i < |p + q| && (p + q)[i] == SLASH
      ensures !DotAt(p + q, i + 1) && !DotDotAt(p + q, i + 1)
    {
      assert q[i - |p|] == SLASH;
    }
    assert DotFree(p + q) ==> forall i :: 0 <= i < |p| && p[i] == SLASH ==> (p + q)[i] == SLASH;
  }

  // The root's path ends in the slash that was put there.
  lemma RootPath(s: Bytes)
    requires |s| >= 2 && s[|s| - 1] == SLASH && s[|s| - 2] != SLASH
    requires var u := Parse(s); u.authority.Some? && u.query.None? && u.fragment.None?
    ensures var path := Parse(s).path; path != [] && path[|path| - 1] == SLASH
    ensures Hier(Parse(s)) == s
  {
    hide Parse;
    ComposeParse(s);
    ParseParts(s);
    var u := Parse(s);
    assert s == Hier(u);
    assert |Tail(u)| >= 2 && Tail(u)[|Tail(u)| - 1] == SLASH && Tail(u) == s[|s| - |Tail(u)|..];
    assert Tail(u)[|Tail(u)| - 2] != SLASH;
  }

  lemma RootShape(repoURL: Bytes)
    requires Hosted(Parse(Root(repoURL)))
    ensures var s := Root(repoURL); |s| >= 2 && s[|s| - 1] == SLASH && s[|s| - 2] != SLASH
  {
    hide Parse;
    ComposeParse(Root(repoURL));
  }

  lemma NothingIsDotFree()
    ensures DotFree([])
  {
  }

  // A plain entry is resolved to the joined path, its own query and fragment.
  lemma PlainResolves(base: Uri, ref: Uri)
    requires base.authority.Some? && base.query.None? && base.fragment.None? && Rooted(base.path)
    requires base.path != [] && base.path[|base.path| - 1] == SLASH
    requires ref.scheme.None? && ref.authority.None? && ref.path != [] && ref.path[0] != SLASH
    requires !DotAt(ref.path, 0) && !DotDotAt(ref.path, 0) && DotFree(ref.path)
    ensures var path := base.path + ref.path;
      Resolve(base, ref).path == path <==> DotFree(base.path)
  {
    hide RemoveDots, DotFree, DotAt, DotDotAt;
    var path := base.path + ref.path;
    ParentRooted(base.path);
    assert Merge(base, ref.path) == path;
    JoinedDotFree(base.path, ref.path);
    NothingIsDotFree();
    RemoveDotsClean(path, []);
    if DotFree(path) { RemoveDotsKeeps(path, []); }
  }

  // Texts of the same scheme and host differ as their paths do.
  lemma SamePath(u: Uri, base: Uri, raw: Bytes)
    requires u.scheme == base.scheme && u.authority == base.authority
    requires base.query.None? && base.fragment.None? && Relative(raw)
    requires u.query == Parse(raw).query && u.fragment == Parse(raw).fragment
    ensures Compose(u) == Hier(base) + raw <==> u.path == base.path + Parse(raw).path
  {
    hide Parse;
    var ref := Parse(raw);
    ComposeParse(raw);
    var end := Glue(Glue([], QMARK, ref.query), HASH, ref.fragment);
    var empty := u.(path := []);
    ComposeEnds(ref);
    ComposeEnds(u);
    HierEnds(u);
    HierEnds(base);
    var front := Hier(empty);
    assert Hier(base.(path := [])) == front;
    assert Hier(base) + raw == front + (base.path + ref.path) + end;
    if Compose(u) == Hier(base) + raw {
      MiddleIsSame(front, u.path, base.path + ref.path, end);
    }
  }

  lemma ComposeEnds(u: Uri)
    ensures Compose(u) == Hier(u) + Glue(Glue([], QMARK, u.query), HASH, u.fragment)
  {
    if u.query.Some? { assert [] + [QMARK] + u.query.value == [QMARK] + u.query.value; }
  }

  lemma HierEnds(u: Uri)
    ensures Hier(u) == Hier(u.(path := [])) + u.path
  {
  }

  lemma MiddleIsSame(front: Bytes, p: Bytes, q: Bytes, end: Bytes)
    requires front + p + end == front + q + end
    ensures p == q
  {
    assert |p| == |q|;
    assert p == (front + p + end)[|front|..|front| + |p|];
    assert q == (front + q + end)[|front|..|front| + |q|];
  }

  // With a query or fragment in the repository's URL, appending would extend
  // that instead of the path.
  lemma AppendedToQuery(s: Bytes, raw: Bytes)
    requires Parse(s).query.Some? || Parse(s).fragment.Some?
    requires Relative(raw) && Parse(raw).path != []
    ensures Parse(s + raw).query != Parse(raw).query || Parse(s + raw).fragment != Parse(raw).fragment
  {
    ComposeParse(raw);
    var ref := Parse(raw);
    if Cut(s, HASH).1.Some? {
      CutExtends(s, raw, HASH);
      assert |raw| > |Glue([], HASH, ref.fragment)|;
    } else {
      CutGlue(s, HASH, None);
      CutPast(s, raw, HASH);
      var (rest, fragment) := Cut(raw, HASH);
      CutExtends(s, rest, QMARK);
      assert |rest| > |Glue([], QMARK, ref.query)|;
    }
  }

  // By RFC 3986 alone, a plain entry is appended to the root of the repository
  // exactly if the repository's URL has no query, fragment or dot segments.
  lemma PlainEntryResolvedIff(repoURL: Bytes, raw: Bytes)
    requires Hosted(Parse(Root(repoURL))) && Plain(raw)
    ensures Compose(Resolve(Parse(Root(repoURL)), Parse(raw))) == Root(repoURL) + raw <==> PlainRoot(Parse(Root(repoURL)))
  {
    hide Parse, Compose, WellFormed, RemoveDots, Merge, DotFree, DotAt, DotDotAt, TrimSlashes;
    var root, base, ref := Root(repoURL), Parse(Root(repoURL)), Parse(raw);
    var u := Resolve(base, ref);
    ParseParts(root);
    if base.query.None? && base.fragment.None? {
      RootShape(repoURL);
      RootPath(root);
      PlainResolves(base, ref);
      SamePath(u, base, raw);
    } else {
      AppendedToQuery(root, raw);
      ResolvedWellFormed(root, raw);
      ParseCompose(u);
    }
  }

  predicate IsCanonical(base: Uri, ref: Uri) {
    base.scheme == LowerScheme(base.scheme) && ref.fragment != Some([])
  }

  // The text returned is the repository's root followed by the entry exactly
  // if, besides, the repository's scheme is in lower case and no empty fragment
  // ends the entry.
  lemma PlainEntryIsAppendedIff(repoURL: Bytes, raw: Bytes)
    requires Hosted(Parse(Root(repoURL))) && Plain(raw)
    ensures ResolveEntry(Parse(Root(repoURL)), raw) == Root(repoURL) + raw
            <==> PlainRoot(Parse(Root(repoURL))) && IsCanonical(Parse(Root(repoURL)), Parse(raw))
  {
    hide Parse, Compose, WellFormed, RemoveDots, Merge, DotFree, DotAt, DotDotAt, TrimSlashes, Lower, PlainRoot;
    var root, base, ref := Root(repoURL), Parse(Root(repoURL)), Parse(raw);
    var u := Resolve(base, ref);
    PlainEntryResolvedIff(repoURL, raw);
    if ResolveEntry(base, raw) == root + raw {
      ResolvedWellFormed(root, raw);
      ParseCompose(Canonical(u));
      KeepsSchemeAndFragment(root, raw);
      assert Canonical(u) == u;
    }
  }

  // Whatever follows, a text keeps its scheme; and a fragment of what follows
  // shows in the whole.
  lemma KeepsSchemeAndFragment(root: Bytes, raw: Bytes)
    requires Parse(root).scheme.Some?
    ensures Parse(root + raw).scheme == Parse(root).scheme
    ensures Parse(raw).fragment.Some? ==> Parse(root + raw).fragment.Some?
  {
    ComposeParse(root);
    ParseParts(root);
    KeepsScheme(Parse(root), root, raw);
    var head := Cut(raw, HASH).0;
    assert Parse(raw).fragment.Some? ==> (root + raw)[|root| + |head|] == HASH;
  }

  lemma KeepsScheme(u: Uri, root: Bytes, raw: Bytes)
    requires u.scheme.Some? && ValidScheme(u.scheme.value) && root == Compose(u)
    ensures Parse(root + raw).scheme == u.scheme
  {
    hide Parse, Tail;
    var rest := Glue(Glue(Tail(u), QMARK, u.query), HASH, u.fragment) + raw;
    assert root + raw == u.scheme.value + [COLON] + rest;
    SchemeFirst(u.scheme.value, rest);
  }

  // Each thing that may be missing before that has an error of its own.
  lemma ErrorsAreTold(o: Outside, repoURL: Bytes, name: Bytes, version: Bytes)
    ensures var r, index := ResolveChartURL(o, repoURL, name, version), o.index(Parse(Root(repoURL)));
            && (o.refused(Root(repoURL)) <==> r == Failed(BadRepoUrl))
            && (!o.refused(Root(repoURL)) && index.Unreachable? <==> r == Failed(IndexUnreachable))
            && (!o.refused(Root(repoURL)) && index.NotAnIndex? <==> r == Failed(BadIndex))
            && (!o.refused(Root(repoURL)) && index.Entries? && index.urls(name, version).None? <==> r == Failed(ChartNotFound))
  {
  }

  // From end to end: of the URLs an index lists for a chart, the first decides.
  lemma FirstUrlDecides(o: Outside, repoURL: Bytes, name: Bytes, version: Bytes, urls: seq<Bytes>)
    requires Hosted(Parse(Root(repoURL))) && !o.refused(Root(repoURL))
    requires o.index(Parse(Root(repoURL))).Entries?
    requires o.index(Parse(Root(repoURL))).urls(name, version) == Some(urls)
    ensures var r := ResolveChartURL(o, repoURL, name, version);
            && (urls == [] <==> r == Failed(NoDownloadUrl))
            && (urls != [] ==>
                  var raw := urls[0];
                  && (o.refused(raw) <==> r == Failed(BadChartUrl))
                  && (!o.refused(raw) && Parse(raw).scheme.Some? && IsCanonical(Parse(raw), Parse(raw)) ==> r == Found(raw))
                  && (!o.refused(raw) && Plain(raw) && PlainRoot(Parse(Root(repoURL))) && IsCanonical(Parse(Root(repoURL)), Parse(raw)) ==>
                        r == Found(Root(repoURL) + raw)))
  {
    hide Parse, ResolveEntry, Plain, PlainRoot;
    if urls != [] && !o.refused(urls[0]) {
      var base, raw := Parse(Root(repoURL)), urls[0];
      if Parse(raw).scheme.Some? { AbsoluteEntryStands(base, raw); }
      if Plain(raw) { PlainEntryIsAppendedIff(repoURL, raw); }
    }
  }

  const QUERY_REPO: Bytes := [104, 58, 47, 47, 104, 63, 120]
  const ENTRY: Bytes := [99]

  lemma QueryRepoParts()
    ensures Root(QUERY_REPO) == QUERY_REPO + [SLASH]
    ensures Parse(Root(QUERY_REPO)) == Uri(Some([104]), Some([104]), [], Some([120, SLASH]), None)
  {
    hide Parse;
    var base := Uri(Some([104]), Some([104]), [], Some([120, SLASH]), None);
    assert Compose(base) == QUERY_REPO + [SLASH];
    ParseCompose(base);
  }

  lemma EntryParts()
    ensures Parse(ENTRY) == Uri(None, None, ENTRY, None, None) && Plain(ENTRY)
  {
    CutGlue(ENTRY, HASH, None);
    CutGlue(ENTRY, QMARK, None);
    CutGlue(ENTRY, COLON, None);
  }

  // The repository h://h?x takes its slash into the query, and the entry c
  // goes without it: the result is h://h/c.
  lemma QueryIsDropped()
    ensures Hosted(Parse(Root(QUERY_REPO))) && Plain(ENTRY)
    ensures ResolveEntry(Parse(Root(QUERY_REPO)), ENTRY) == [104, 58, 47, 47, 104, 47, 99] != Root(QUERY_REPO) + ENTRY
  {
    hide Parse, Plain, RemoveDots;
    QueryRepoParts();
    EntryParts();
    RemoveDotsKeeps([SLASH] + ENTRY, []);
    var u := Uri(Some([104]), Some([104]), [SLASH] + ENTRY, None, None);
    assert Lower([104]) == [104];
    assert Resolved(Parse(Root(QUERY_REPO)), ENTRY) == u == Canonical(u);
  }
}
