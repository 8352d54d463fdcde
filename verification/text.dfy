// Line handling of the test utilities (test/utils/utils.go): splitting,
// scanning for names, and taking comment prefixes off a block.
module Text {
  import opened Bytes

  const NEWLINE: byte := 10
  const CR: byte := 13

  // No line feed.
  predicate OneLine(s: Bytes) { 10 !in s }

  // ------------------------------------------------------ splitting, joining

  // Where the first newline is, or the end.
  function LineEnd(s: Bytes): (n: nat)
    ensures n <= |s| && OneLine(s[..n]) && (n < |s| ==> s[n] == NEWLINE)
  {
    if s == [] || s[0] == NEWLINE then 0
    else
      assert s[..1 + LineEnd(s[1..])] == [s[0]] + s[1..][..LineEnd(s[1..])];
      1 + LineEnd(s[1..])
  }

  // strings.SplitSeq(s, "\n").
  function Split(s: Bytes): (parts: seq<Bytes>)
    ensures |parts| >= 1
    decreases |s|
  {
    var n := LineEnd(s);
    if n == |s| then [s] else [s[..n]] + Split(s[n + 1..])
  }

  function Join(parts: seq<Bytes>): Bytes {
    if parts == [] then [] else if |parts| == 1 then parts[0] else parts[0] + [10] + Join(parts[1..])
  }

  predicate AllOneLine(parts: seq<Bytes>) { forall i :: 0 <= i < |parts| ==> OneLine(parts[i]) }

  // Splitting loses nothing: the parts are newline-free and join back.
  lemma {:induction false} JoinSplit(s: Bytes)
    ensures AllOneLine(Split(s)) && Join(Split(s)) == s
    decreases |s|
  {
    var n := LineEnd(s);
    if n < |s| {
      hide Join, LineEnd;
      var rest := s[n + 1..];
      JoinSplit(rest);
      JoinCons(s[..n], Split(rest));
      assert s == s[..n] + [NEWLINE] + rest;
    } else {
      assert s[..n] == s;
    }
  }

  lemma JoinCons(part: Bytes, parts: seq<Bytes>)
    requires parts != []
    ensures Join([part] + parts) == part + [NEWLINE] + Join(parts)
  {
    assert ([part] + parts)[1..] == parts;
  }

  lemma {:induction false} LineEndOf(line: Bytes, rest: Bytes)
    requires OneLine(line) && (rest == [] || rest[0] == NEWLINE)
    ensures LineEnd(line + rest) == |line|
  {
    if line == [] {
      assert line + rest == rest;
    } else {
      assert (line + rest)[1..] == line[1..] + rest;
      LineEndOf(line[1..], rest);
    }
  }

  // And it invents nothing: newline-free parts are recovered from their join.
  lemma {:induction false} SplitJoin(parts: seq<Bytes>)
    requires |parts| >= 1 && AllOneLine(parts)
    ensures Split(Join(parts)) == parts
  {
    if |parts| == 1 {
      LineEndOf(parts[0], []);
      assert parts[0] + [] == parts[0];
      assert parts == [parts[0]];
    } else {
      hide Split;
      SplitJoin(parts[1..]);
      SplitCons(parts[0], Join(parts[1..]));
      assert parts == [parts[0]] + parts[1..];
    }
  }

  lemma SplitCons(line: Bytes, rest: Bytes)
    requires OneLine(line)
    ensures Split(line + [NEWLINE] + rest) == [line] + Split(rest)
  {
    var s := line + [NEWLINE] + rest;
    LineEndOf(line, [NEWLINE] + rest);
    assert s == line + ([NEWLINE] + rest);
    assert s[..|line|] == line && s[|line| + 1..] == rest;
  }

  lemma JoinInjective(a: seq<Bytes>, b: seq<Bytes>)
    requires |a| >= 1 && |b| >= 1 && AllOneLine(a) && AllOneLine(b) && Join(a) == Join(b)
    ensures a == b
  {
    SplitJoin(a);
    SplitJoin(b);
  }

  // ------------------------------------------------------- GetNonEmptyLines

  function NonEmpty(parts: seq<Bytes>): seq<Bytes> {
    if parts == [] then []
    else (if parts[0] == [] then [] else [parts[0]]) + NonEmpty(parts[1..])
  }

  lemma {:induction false} NonEmptyAppend(a: seq<Bytes>, p: Bytes)
    ensures NonEmpty(a + [p]) == NonEmpty(a) + (if p == [] then [] else [p])
  {
    if a == [] {
      assert a + [p] == [p];
    } else {
      assert (a + [p])[1..] == a[1..] + [p];
      NonEmptyAppend(a[1..], p);
    }
  }

  method GetNonEmptyLines(output: Bytes) returns (res: seq<Bytes>)
    ensures res == NonEmpty(Split(output))
  {
    res := [];
    var elements := Split(output);
    for i := 0 to |elements|
      invariant res == NonEmpty(elements[..i])
    {
      NonEmptyAppend(elements[..i], elements[i]);
      assert elements[..i + 1] == elements[..i] + [elements[i]];
      if elements[i] != [] {
        res := res + [elements[i]];
      }
    }
    assert elements[..|elements|] == elements;
  }

  lemma {:induction false} NonEmptyLaws(parts: seq<Bytes>)
    ensures forall p :: p in NonEmpty(parts) <==> p in parts && p != []
  {
    if parts != [] {
      NonEmptyLaws(parts[1..]);
      assert parts == [parts[0]] + parts[1..];
      assert forall p :: p in parts <==> p == parts[0] || p in parts[1..];
    }
  }

  lemma {:induction false} NonEmptyKeepsAll(parts: seq<Bytes>)
    requires forall i :: 0 <= i < |parts| ==> parts[i] != []
    ensures NonEmpty(parts) == parts
  {
    if parts != [] {
      NonEmptyKeepsAll(parts[1..]);
      assert parts == [parts[0]] + parts[1..];
    }
  }

  // The result is exactly the non-empty newline-free segments, and splitting
  // its join gives it again.
  lemma LinesAreStable(output: Bytes)
    ensures var lines := NonEmpty(Split(output));
            && (forall l :: l in lines <==> l in Split(output) && l != [])
            && AllOneLine(lines)
            && NonEmpty(Split(Join(lines))) == lines
  {
    JoinSplit(output);
    NonEmptyLaws(Split(output));
    var lines := NonEmpty(Split(output));
    forall i | 0 <= i < |lines| ensures OneLine(lines[i]) {
      assert lines[i] in lines;
    }
    if lines != [] {
      SplitJoin(lines);
      assert forall i :: 0 <= i < |lines| ==> lines[i] in lines;
      NonEmptyKeepsAll(lines);
    } else {
      assert Split([]) == [[]];
      assert NonEmpty([[]]) == NonEmpty([[]][1..]);
    }
  }

  // ---------------------------------------------------------- the CRD scan

  const CERT_MANAGER_CRDS := [
    Ascii("certificates.cert-manager.io"),
    Ascii("issuers.cert-manager.io"),
    Ascii("clusterissuers.cert-manager.io"),
    Ascii("certificaterequests.cert-manager.io"),
    Ascii("orders.acme.cert-manager.io"),
    Ascii("challenges.acme.cert-manager.io")]

  lemma OccursWithin(whole: Bytes, a: nat, b: nat, part: Bytes, i: nat)
    requires a <= b <= |whole|
    ensures OccursAt(whole[a..b], part, i) <==> a + i + |part| <= b && OccursAt(whole, part, a + i)
  {
    if i + |part| <= b - a {
      var x, y := whole[a..b][i..i + |part|], whole[a + i..a + i + |part|];
      assert |x| == |y| && forall k :: 0 <= k < |x| ==> x[k] == y[k];
    }
  }

  lemma BreakOutside(s: Bytes, n: nat, part: Bytes, i: nat)
    requires OneLine(part) && OccursAt(s, part, i) && n < |s| && s[n] == NEWLINE
    ensures n < i || i + |part| <= n
  {
    var found := s[i..i + |part|];
    assert forall k :: i <= k < i + |part| ==> s[k] == found[k - i] && found[k - i] in part;
  }

  // A newline-free text never spans a line break.
  lemma OccursOnOneSide(s: Bytes, n: nat, part: Bytes)
    requires OneLine(part) && n < |s| && s[n] == NEWLINE
    ensures Contains(s, part) <==> Contains(s[..n], part) || Contains(s[n + 1..], part)
  {
    var head, rest := s[..n], s[n + 1..];
    assert head == s[0..n] && rest == s[n + 1..|s|];
    if Contains(s, part) {
      var i :| 0 <= i <= |s| && OccursAt(s, part, i);
      BreakOutside(s, n, part, i);
      if n < i {
        OccursWithin(s, n + 1, |s|, part, i - (n + 1));
        assert OccursAt(rest, part, i - (n + 1));
      } else {
        OccursWithin(s, 0, n, part, i);
        assert OccursAt(head, part, i);
      }
    }
    if Contains(head, part) {
      var i :| 0 <= i <= |head| && OccursAt(head, part, i);
      OccursWithin(s, 0, n, part, i);
      assert OccursAt(s, part, i);
    }
    if Contains(rest, part) {
      var i :| 0 <= i <= |rest| && OccursAt(rest, part, i);
      OccursWithin(s, n + 1, |s|, part, i);
      assert OccursAt(s, part, n + 1 + i);
    }
  }

  ghost predicate SomeLineContains(parts: seq<Bytes>, part: Bytes) {
    exists i :: 0 <= i < |parts| && Contains(parts[i], part)
  }

  lemma SomeLineOf(first: Bytes, parts: seq<Bytes>, part: Bytes)
    ensures SomeLineContains([first] + parts, part) <==> Contains(first, part) || SomeLineContains(parts, part)
  {
    hide Contains;
    var all := [first] + parts;
    assert all[0] == first;
    if SomeLineContains(all, part) && !Contains(first, part) {
      var i :| 0 <= i < |all| && Contains(all[i], part);
      assert all[i] == parts[i - 1];
    }
    if SomeLineContains(parts, part) {
      var i :| 0 <= i < |parts| && Contains(parts[i], part);
      assert all[i + 1] == parts[i];
    }
  }

  // A newline-free text occurs in the whole exactly when it occurs in one of
  // the lines.
  lemma {:induction false} OccursInSomeLine(s: Bytes, part: Bytes)
    requires OneLine(part)
    ensures Contains(s, part) <==> SomeLineContains(Split(s), part)
    decreases |s|
  {
    hide Contains, OneLine, SomeLineContains;
    var n := LineEnd(s);
    if n == |s| {
      SomeLineOf(s, [], part);
      NoLines(part);
      assert [s] + [] == [s];
    } else {
      OccursInSomeLine(s[n + 1..], part);
      OccursOnOneSide(s, n, part);
      SomeLineOf(s[..n], Split(s[n + 1..]), part);
    }
  }

  lemma NoLines(part: Bytes)
    ensures !SomeLineContains([], part)
  {
  }

  // Dropping the empty lines loses no occurrence of a non-empty text.
  lemma {:induction false} EmptyLinesContainNothing(parts: seq<Bytes>, part: Bytes)
    requires part != []
    ensures SomeLineContains(NonEmpty(parts), part) <==> SomeLineContains(parts, part)
  {
    if parts != [] {
      hide SomeLineContains;
      EmptyLinesContainNothing(parts[1..], part);
      assert parts == [parts[0]] + parts[1..];
      SomeLineOf(parts[0], parts[1..], part);
      if parts[0] == [] {
        assert !Contains([], part);
        assert NonEmpty(parts) == NonEmpty(parts[1..]);
      } else {
        SomeLineOf(parts[0], NonEmpty(parts[1..]), part);
      }
    }
  }

  lemma NonEmptyLinesSuffice(s: Bytes, part: Bytes)
    requires OneLine(part) && part != []
    ensures Contains(s, part) <==> SomeLineContains(NonEmpty(Split(s)), part)
  {
    OccursInSomeLine(s, part);
    EmptyLinesContainNothing(Split(s), part);
  }

  lemma AsciiIsLine(s: string)
    requires forall i :: 0 <= i < |s| ==> '-' <= s[i] <= 'z'
    ensures OneLine(Ascii(s))
  {
  }

  predicate IsCrdName(crd: Bytes) {
    || crd == Ascii("certificates.cert-manager.io") || crd == Ascii("issuers.cert-manager.io")
    || crd == Ascii("clusterissuers.cert-manager.io") || crd == Ascii("certificaterequests.cert-manager.io")
    || crd == Ascii("orders.acme.cert-manager.io") || crd == Ascii("challenges.acme.cert-manager.io")
  }

  lemma CrdNames()
    ensures forall crd :: crd in CERT_MANAGER_CRDS <==> IsCrdName(crd)
  {
    hide Ascii;
    var names := CERT_MANAGER_CRDS;
    assert forall crd :: IsCrdName(crd) ==>
      crd == names[0] || crd == names[1] || crd == names[2] || crd == names[3] || crd == names[4] || crd == names[5];
  }

  lemma CrdNamesAreLines()
    ensures forall crd :: crd in CERT_MANAGER_CRDS ==> OneLine(crd) && crd != []
  {
    hide Ascii, OneLine;
    AsciiIsLine("certificates.cert-manager.io");
    AsciiIsLine("issuers.cert-manager.io");
    AsciiIsLine("clusterissuers.cert-manager.io");
    AsciiIsLine("certificaterequests.cert-manager.io");
    AsciiIsLine("orders.acme.cert-manager.io");
    AsciiIsLine("challenges.acme.cert-manager.io");
  }

  // The nested scan; `failed` is the error of the kubectl run.  It refines
  // plain substring search over the whole output.
  method IsCertManagerCRDsInstalled(output: Bytes, failed: bool) returns (found: bool)
    ensures found <==> !failed && exists crd :: IsCrdName(crd) && Contains(output, crd)
  {
    if failed {
      return false;
    }
    var crdList := GetNonEmptyLines(output);
    CrdNamesAreLines();
    CrdNames();
    for i := 0 to |CERT_MANAGER_CRDS|
      invariant forall k :: 0 <= k < i ==> !Contains(output, CERT_MANAGER_CRDS[k])
    {
      var crd := CERT_MANAGER_CRDS[i];
      assert crd in CERT_MANAGER_CRDS;
      NonEmptyLinesSuffice(output, crd);
      for j := 0 to |crdList|
        invariant forall k :: 0 <= k < j ==> !Contains(crdList[k], crd)
      {
        if Contains(crdList[j], crd) {
          return true;
        }
      }
    }
    return false;
  }

  // ---------------------------------------------------------- UncommentCode

  // A bufio.Scanner's token limit: a line fits if it is shorter than this.
  const TOKEN_LIMIT := 65536

  function DropCR(line: Bytes): Bytes {
    if line != [] && line[|line| - 1] == CR then line[..|line| - 1] else line
  }

  function TrimPrefix(line: Bytes, prefix: Bytes): Bytes {
    if |prefix| <= |line| && line[..|prefix|] == prefix then line[|prefix|..] else line
  }

  // The tokens of a line scanner: lines without their newline and one
  // trailing CR, no token for an empty last line, and nothing from the first
  // line on that does not fit.
  function Tokens(s: Bytes): seq<Bytes>
    decreases |s|
  {
    if s == [] then []
    else
      var n := LineEnd(s);
      if n >= TOKEN_LIMIT then []
      else [DropCR(s[..n])] + (if n == |s| then [] else Tokens(s[n + 1..]))
  }

  class Scanner {
    var rest: Bytes
    var token: Bytes

    constructor (s: Bytes)
      ensures rest == s
    {
      rest, token := s, [];
    }

    method Scan() returns (ok: bool)
      modifies this
      ensures ok <==> Tokens(old(rest)) != []
      ensures ok ==> token == Tokens(old(rest))[0] && Tokens(rest) == Tokens(old(rest))[1..]
    {
      var n := LineEnd(rest);
      if rest == [] || n >= TOKEN_LIMIT {
        return false;
      }
      token := DropCR(rest[..n]);
      rest := if n == |rest| then [] else rest[n + 1..];
      return true;
    }
  }

  // strings.Index, or the length of s + 1 if there is no occurrence.
  function FirstIndex(s: Bytes, part: Bytes): (i: nat)
    ensures i <= |s| ==> OccursAt(s, part, i)
    ensures forall j :: 0 <= j < i && j <= |s| ==> !OccursAt(s, part, j)
  {
    FirstIndexFrom(s, part, 0)
  }

  function FirstIndexFrom(s: Bytes, part: Bytes, from: nat): (i: nat)
    requires from <= |s| + 1
    requires forall j :: 0 <= j < from && j <= |s| ==> !OccursAt(s, part, j)
    ensures i <= |s| ==> OccursAt(s, part, i)
    ensures forall j :: 0 <= j < i && j <= |s| ==> !OccursAt(s, part, j)
    decreases |s| + 1 - from
  {
    if from > |s| || OccursAt(s, part, from) then from else FirstIndexFrom(s, part, from + 1)
  }

  function TrimAll(tokens: seq<Bytes>, prefix: Bytes): (r: seq<Bytes>)
    ensures |r| == |tokens|
  {
    seq(|tokens|, i requires 0 <= i < |tokens| => TrimPrefix(tokens[i], prefix))
  }

  // What happens to the file: an error, nothing, or new content.
  datatype Edit = CodeNotFound | Untouched | Written(content: Bytes)

  function Uncommented(content: Bytes, target: Bytes, prefix: Bytes): Edit {
    var idx := FirstIndex(content, target);
    if idx > |content| then CodeNotFound
    else if Tokens(target) == [] then Untouched
    else Written(content[..idx] + Join(TrimAll(Tokens(target), prefix)) + content[idx + |target|..])
  }

  lemma JoinTrimmed(token: Bytes, tokens: seq<Bytes>, prefix: Bytes)
    ensures Join(TrimAll([token] + tokens, prefix))
         == TrimPrefix(token, prefix) + (if tokens == [] then [] else [NEWLINE] + Join(TrimAll(tokens, prefix)))
  {
    hide TrimPrefix;
    var all := TrimAll([token] + tokens, prefix);
    assert all[1..] == TrimAll(tokens, prefix);
    assert all[0] == TrimPrefix(token, prefix);
  }

  // Write the trimmed tokens of an already started scanner, with a newline
  // between two of them.
  method WriteTokens(scanner: Scanner, prefix: Bytes, before: Bytes) returns (out: Bytes)
    modifies scanner
    ensures out == before + Join(TrimAll([old(scanner.token)] + Tokens(old(scanner.rest)), prefix))
  {
    hide Tokens, TrimAll, TrimPrefix, Join;
    out := before;
    ghost var todo := [scanner.token] + Tokens(scanner.rest);
    ghost var result := before + Join(TrimAll(todo, prefix));
    while true
      invariant todo == [scanner.token] + Tokens(scanner.rest)
      invariant out + Join(TrimAll(todo, prefix)) == result
      decreases |todo|
    {
      JoinTrimmed(scanner.token, Tokens(scanner.rest), prefix);
      out := out + TrimPrefix(scanner.token, prefix);
      ghost var rest := Tokens(scanner.rest);
      var more := scanner.Scan();
      if !more {
        break;
      }
      assert rest == [scanner.token] + Tokens(scanner.rest);
      out := out + [NEWLINE];
      todo := rest;
    }
  }

  method UncommentCode(content: Bytes, target: Bytes, prefix: Bytes) returns (edit: Edit)
    ensures edit == Uncommented(content, target, prefix)
  {
    hide Tokens, TrimAll, Join;
    var idx := FirstIndex(content, target);
    if idx > |content| {
      return CodeNotFound;
    }
    var scanner := new Scanner(target);
    var more := scanner.Scan();
    if !more {
      return Untouched;
    }
    assert Tokens(target) == [scanner.token] + Tokens(scanner.rest);
    var out := WriteTokens(scanner, prefix, content[..idx]);
    out := out + content[idx + |target|..];
    edit := Written(out);
  }

  // ------------------------------------------- commenting and its inverse

  // Commenting a block out: the prefix in front of every line.
  function Prefixed(lines: seq<Bytes>, prefix: Bytes): (r: seq<Bytes>)
    ensures |r| == |lines|
  {
    seq(|lines|, i requires 0 <= i < |lines| => prefix + lines[i])
  }

  function Comment(block: Bytes, prefix: Bytes): Bytes { Join(Prefixed(Split(block), prefix)) }

  // The scanner gives a commented line back unharmed: it is short enough, and
  // no carriage return is taken for a line ending.
  predicate Survives(line: Bytes, prefix: Bytes)
    requires prefix != []
  {
    && |prefix| + |line| < 65536
    && (if line != [] then line[|line| - 1] != 13 else prefix[|prefix| - 1] != 13 || |prefix| == 1)
  }

  lemma LineSurvives(line: Bytes, prefix: Bytes)
    requires prefix != []
    ensures Survives(line, prefix)
            <==> |prefix + line| < TOKEN_LIMIT && TrimPrefix(DropCR(prefix + line), prefix) == line
  {
    var t := prefix + line;
    if line != [] {
      assert t[|t| - 1] == line[|line| - 1];
      if line[|line| - 1] == CR {
        assert t[..|t| - 1] == prefix + line[..|line| - 1];
      }
      assert t[..|prefix|] == prefix && t[|prefix|..] == line;
    } else {
      assert t == prefix;
      assert prefix[|prefix|..] == [];
    }
  }

  // The tokens of a commented block: one for every line, up to the first
  // that does not fit.
  function Fitting(lines: seq<Bytes>): seq<Bytes> {
    if lines == [] || |lines[0]| >= TOKEN_LIMIT then [] else [DropCR(lines[0])] + Fitting(lines[1..])
  }

  lemma {:induction false} TokensOfJoin(lines: seq<Bytes>)
    requires |lines| >= 1 && AllOneLine(lines) && lines[|lines| - 1] != []
    ensures Tokens(Join(lines)) == Fitting(lines)
  {
    if |lines| == 1 {
      LineEndOf(lines[0], []);
      assert lines[0] + [] == lines[0] && lines[0][..|lines[0]|] == lines[0];
      assert Fitting(lines[1..]) == [];
    } else {
      var rest := Join(lines[1..]);
      TokensOfJoin(lines[1..]);
      LineEndOf(lines[0], [NEWLINE] + rest);
      var all := Join(lines);
      assert all == lines[0] + ([NEWLINE] + rest);
      assert all[..|lines[0]|] == lines[0] && all[|lines[0]| + 1..] == rest;
    }
  }

  lemma {:induction false} FittingUndone(lines: seq<Bytes>, prefix: Bytes)
    requires prefix != []
    ensures TrimAll(Fitting(Prefixed(lines, prefix)), prefix) == lines
            <==> forall i :: 0 <= i < |lines| ==> Survives(lines[i], prefix)
  {
    hide Survives, TrimPrefix, DropCR;
    if lines != [] {
      var p := Prefixed(lines, prefix);
      LineSurvives(lines[0], prefix);
      assert p[0] == prefix + lines[0] && p[1..] == Prefixed(lines[1..], prefix);
      FittingUndone(lines[1..], prefix);
      if |p[0]| < TOKEN_LIMIT {
        var t := TrimAll(Fitting(p), prefix);
        assert t[0] == TrimPrefix(DropCR(p[0]), prefix);
        assert t[1..] == TrimAll(Fitting(p[1..]), prefix);
        assert lines == [lines[0]] + lines[1..];
        assert t == [t[0]] + t[1..];
        assert forall i :: 1 <= i < |lines| ==> lines[i] == lines[1..][i - 1];
      }
    }
  }

  lemma {:induction false} FittingIsLines(lines: seq<Bytes>, prefix: Bytes)
    requires AllOneLine(lines)
    ensures AllOneLine(TrimAll(Fitting(lines), prefix))
  {
    if lines != [] {
      FittingIsLines(lines[1..], prefix);
      var t := TrimAll(Fitting(lines), prefix);
      if t != [] {
        assert t[1..] == TrimAll(Fitting(lines[1..]), prefix);
      }
    }
  }

  lemma PrefixedIsLines(block: Bytes, prefix: Bytes)
    requires prefix != [] && OneLine(prefix)
    ensures var p := Prefixed(Split(block), prefix);
            AllOneLine(p) && (forall i :: 0 <= i < |p| ==> p[i] != [])
  {
    JoinSplit(block);
  }

  lemma {:induction false} CommentIsLonger(lines: seq<Bytes>, prefix: Bytes)
    requires prefix != [] && |lines| >= 1
    ensures |Join(Prefixed(lines, prefix))| > |Join(lines)|
  {
    if |lines| > 1 {
      assert Prefixed(lines, prefix)[1..] == Prefixed(lines[1..], prefix);
      CommentIsLonger(lines[1..], prefix);
    }
  }

  // What the file holds afterwards.
  function FileAfter(content: Bytes, edit: Edit): Bytes { if edit.Written? then edit.content else content }

  // UncommentCode undoes line commenting, byte for byte, exactly when every
  // line survives the scanner: with a one-line prefix and the commented block
  // first occurring where it was put, the file ends up as the text before,
  // the original block and the text after if and only if no commented line
  // reaches the token limit or loses a carriage return at its end that was not
  // the prefix itself.
  lemma UncommentUndoesComment(before: Bytes, block: Bytes, after: Bytes, prefix: Bytes)
    requires prefix != [] && OneLine(prefix)
    requires FirstIndex(before + Comment(block, prefix) + after, Comment(block, prefix)) == |before|
    ensures var content := before + Comment(block, prefix) + after;
            FileAfter(content, Uncommented(content, Comment(block, prefix), prefix)) == before + block + after
            <==> forall i :: 0 <= i < |Split(block)| ==> Survives(Split(block)[i], prefix)
  {
    hide FirstIndex, Tokens, Fitting, TrimAll, Survives, Split, Prefixed, Join;
    var lines, target := Split(block), Comment(block, prefix);
    var p, content := Prefixed(lines, prefix), before + target + after;
    PrefixedIsLines(block, prefix);
    TokensOfJoin(p);
    FittingUndone(lines, prefix);
    FittingIsLines(p, prefix);
    JoinSplit(block);
    assert content[..|before|] == before && content[|before| + |target|..] == after;
    var trimmed := TrimAll(Fitting(p), prefix);
    if Tokens(target) != [] {
      if before + Join(trimmed) + after == before + block + after {
        assert |Join(trimmed)| == |block|;
        assert Join(trimmed) == (before + Join(trimmed) + after)[|before|..|before| + |block|] == block;
        JoinInjective(trimmed, lines);
      }
    } else {
      assert trimmed == [];
      CommentIsLonger(lines, prefix);
      assert |content| > |before + block + after|;
    }
  }

  // What becomes of one line: the prefix is taken off once, where it is.
  predicate Trimmed(line: Bytes, prefix: Bytes, result: Bytes) {
    if prefix <= line then line == prefix + result else result == line
  }

  predicate Clean(line: Bytes) { |line| < 65536 && (line == [] || line[|line| - 1] != 13) }

  lemma {:induction false} FittingClean(lines: seq<Bytes>)
    requires forall i :: 0 <= i < |lines| ==> Clean(lines[i])
    ensures Fitting(lines) == lines
  {
    if lines != [] {
      FittingClean(lines[1..]);
      assert lines == [lines[0]] + lines[1..];
    }
  }

  // Line by line, in any target of clean lines whose last is not empty: those
  // with the prefix lose it, the others stay, and nothing else changes.
  lemma UncommentLineByLine(before: Bytes, lines: seq<Bytes>, after: Bytes, prefix: Bytes, result: seq<Bytes>)
    requires |lines| >= 1 && AllOneLine(lines) && lines[|lines| - 1] != []
    requires forall i :: 0 <= i < |lines| ==> Clean(lines[i])
    requires |result| == |lines| && forall i :: 0 <= i < |lines| ==> Trimmed(lines[i], prefix, result[i])
    requires FirstIndex(before + Join(lines) + after, Join(lines)) == |before|
    ensures Uncommented(before + Join(lines) + after, Join(lines), prefix) == Written(before + Join(result) + after)
  {
    hide FirstIndex, Tokens, Fitting, Join;
    var target := Join(lines);
    var content := before + target + after;
    TokensOfJoin(lines);
    FittingClean(lines);
    assert TrimAll(lines, prefix) == result;
    assert content[..|before|] == before && content[|before| + |target|..] == after;
  }

  // A block of one line that ends in a carriage return does not come back:
  // under the prefix "#" the file that held it ends up without the return.
  lemma CarriageReturnIsLost()
    ensures var block, prefix: Bytes := [97, 13], [35];
            && Comment(block, prefix) == [35, 97, 13]
            && FirstIndex(Comment(block, prefix), Comment(block, prefix)) == 0
            && Uncommented(Comment(block, prefix), Comment(block, prefix), prefix) == Written([97])
  {
    var block, prefix: Bytes := [97, CR], [35];
    var target: Bytes := [35, 97, CR];
    LineEndOf(block, []);
    LineEndOf(target, []);
    assert block + [] == block && target + [] == target;
    assert Split(block) == [block];
    assert prefix + block == target;
    assert Prefixed([block], prefix) == [target];
    assert OccursAt(target, target, 0);
    assert target[..3] == target && DropCR(target) == [35, 97];
    assert Tokens(target) == [[35, 97]];
    assert TrimAll([[35, 97]], prefix) == [[97]];
  }
}
