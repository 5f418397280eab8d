/** Loading a document: normalizing its text and collecting the pages that have any. */
module Documents {
  import opened Options
  import opened Chunking
  import Text

  // ---------------------------------------------------------------- normalization

  function ReplaceCrLf(s: string): string {
    if |s| < 2 then s
    else if s[0] == '\r' && s[1] == '\n' then ['\n'] + ReplaceCrLf(s[2..])
    else [s[0]] + ReplaceCrLf(s[1..])
  }

  function ReplaceCr(s: string): string {
    if s == "" then "" else [if s[0] == '\r' then '\n' else s[0]] + ReplaceCr(s[1..])
  }

  function StripLines(lines: seq<string>): seq<string> {
    if lines == [] then [] else [Text.StripEnd(lines[0])] + StripLines(lines[1..])
  }

  function NormalizeText(text: string): string {
    Text.Strip(Text.Join(StripLines(Text.Split(ReplaceCr(ReplaceCrLf(text)), '\n')), '\n'))
  }

  /** Nothing but a line break stands before a line break, unless it is visible. */
  predicate NoTrailing(s: string) {
    forall i :: 0 <= i < |s| - 1 && s[i + 1] == '\n' ==> s[i] == '\n' || !Text.IsSpace(s[i])
  }

  predicate Trimmed(s: string) {
    s != "" ==> !Text.IsSpace(s[0]) && !Text.IsSpace(s[|s| - 1])
  }

  predicate Normal(s: string) {
    '\r' !in s && NoTrailing(s) && Trimmed(s)
  }

  predicate Ended(line: string) {
    line != "" ==> !Text.IsSpace(line[|line| - 1])
  }

  lemma {:induction false} ReplaceCrHasNone(s: string)
    ensures '\r' !in ReplaceCr(s)
  {
    if s != "" {
      ReplaceCrHasNone(s[1..]);
    }
  }

  lemma {:induction false} ReplaceCrKeeps(s: string)
    requires '\r' !in s
    ensures ReplaceCr(s) == s
  {
    if s != "" {
      ReplaceCrKeeps(s[1..]);
    }
  }

  lemma {:induction false} ReplaceCrLfKeeps(s: string)
    requires '\r' !in s
    ensures ReplaceCrLf(s) == s
  {
    if |s| >= 2 {
      ReplaceCrLfKeeps(s[1..]);
    }
  }

  /** Stripping the lines leaves no whitespace at their ends and brings in no other character. */
  lemma {:induction false} StripLinesEnds(lines: seq<string>)
    requires Text.Free(lines, '\n') && Text.Free(lines, '\r')
    ensures |StripLines(lines)| == |lines|
    ensures Text.Free(StripLines(lines), '\n') && Text.Free(StripLines(lines), '\r')
    ensures forall line <- StripLines(lines) :: Ended(line)
    decreases |lines|
  {
    if lines != [] {
      Text.StripEndCuts(lines[0]);
      var stripped := Text.StripEnd(lines[0]);
      assert forall c <- stripped :: c in lines[0];
      assert lines[0] in lines;
      assert forall line <- lines[1..] :: line in lines;
      StripLinesEnds(lines[1..]);
    }
  }

  lemma {:induction false} StripLinesKeeps(lines: seq<string>)
    requires forall line <- lines :: Ended(line)
    ensures StripLines(lines) == lines
    decreases |lines|
  {
    if lines != [] {
      assert Ended(lines[0]);
      StripLinesKeeps(lines[1..]);
    }
  }

  lemma {:induction false} JoinHasNoTrailing(lines: seq<string>)
    requires Text.Free(lines, '\n') && Text.Free(lines, '\r') && forall line <- lines :: Ended(line)
    ensures NoTrailing(Text.Join(lines, '\n')) && '\r' !in Text.Join(lines, '\n')
    decreases |lines|
  {
    if lines != [] {
      assert lines[0] in lines && Ended(lines[0]);
      if |lines| > 1 {
        JoinHasNoTrailing(lines[1..]);
        BreakKeepsNoTrailing(lines[0], Text.Join(lines[1..], '\n'));
      } else {
        assert forall i :: 0 <= i < |lines[0]| ==> lines[0][i] in lines[0];
      }
    }
  }

  lemma BreakKeepsNoTrailing(line: string, rest: string)
    requires '\n' !in line && '\r' !in line && Ended(line) && NoTrailing(rest) && '\r' !in rest
    ensures NoTrailing(line + ['\n'] + rest) && '\r' !in line + ['\n'] + rest
  {
    var s := line + ['\n'] + rest;
    assert forall k :: 0 <= k < |line| ==> line[k] in line;
    forall i | 0 <= i < |s| - 1 && s[i + 1] == '\n'
      ensures s[i] == '\n' || !Text.IsSpace(s[i])
    {
      if i > |line| {
        assert s[i] == rest[i - |line| - 1] && s[i + 1] == rest[i - |line|];
      }
    }
  }

  lemma SliceIsNormal(s: string, from: nat, to: nat)
    requires from <= to <= |s| && NoTrailing(s) && '\r' !in s
    ensures NoTrailing(s[from..to]) && '\r' !in s[from..to]
  {
    var t := s[from..to];
    forall i | 0 <= i < |t| - 1 && t[i + 1] == '\n'
      ensures t[i] == '\n' || !Text.IsSpace(t[i])
    {
      assert t[i] == s[from + i] && t[i + 1] == s[from + i + 1];
    }
  }

  /** The lines of a text without carriage returns have none either. */
  lemma {:induction false} SplitKeepsOut(s: string, c: char, sep: char)
    requires c !in s
    ensures Text.Free(Text.Split(s, sep), c)
  {
    if s != "" {
      SplitKeepsOut(s[1..], c, sep);
    }
  }

  /** Every result of normalization is normal. */
  lemma NormalizedIsNormal(text: string)
    ensures Normal(NormalizeText(text))
  {
    var unix := ReplaceCr(ReplaceCrLf(text));
    var lines := Text.Split(unix, '\n');
    ReplaceCrHasNone(ReplaceCrLf(text));
    Text.SplitIsFree(unix, '\n');
    SplitKeepsOut(unix, '\r', '\n');
    StripLinesEnds(lines);
    JoinHasNoTrailing(StripLines(lines));
    var joined := Text.Join(StripLines(lines), '\n');
    var from, to := Text.StripIsSubstring(joined);
    SliceIsNormal(joined, from, to);
  }

  /** In a normal text every line has a visible end. */
  lemma {:induction false} NormalLines(s: string)
    requires NoTrailing(s) && Ended(s)
    ensures forall line <- Text.Split(s, '\n') :: Ended(line)
    decreases |s|
  {
    if s != "" {
      var rest := s[1..];
      assert forall i :: 0 <= i < |rest| ==> rest[i] == s[i + 1];
      assert NoTrailing(rest) by {
        forall i | 0 <= i < |rest| - 1 && rest[i + 1] == '\n'
          ensures rest[i] == '\n' || !Text.IsSpace(rest[i])
        {
          assert s[i + 2] == '\n';
        }
      }
      NormalLines(rest);
      var tail := Text.Split(rest, '\n');
      if s[0] != '\n' {
        FirstPiece(rest, '\n');
        assert rest != "" ==> rest[0] == s[1];
        if tail[0] != "" {
          assert Ended(tail[0]);
        }
      }
    }
  }

  /** The first piece is empty only at the end or before a separator; otherwise it starts the text. */
  lemma FirstPiece(s: string, sep: char)
    ensures Text.Split(s, sep)[0] == "" <==> s == "" || s[0] == sep
    ensures s != "" && s[0] != sep ==> Text.Split(s, sep)[0][0] == s[0]
  {
  }

  lemma {:induction false} LastPiece(s: string, sep: char)
    requires s != "" && s[|s| - 1] != sep
    ensures
      var pieces := Text.Split(s, sep);
      pieces[|pieces| - 1] != "" && pieces[|pieces| - 1][|pieces[|pieces| - 1]| - 1] == s[|s| - 1]
    decreases |s|
  {
    if |s| > 1 {
      assert s[1..][|s| - 2] == s[|s| - 1];
      LastPiece(s[1..], sep);
    } else {
      assert s[1..] == "";
    }
  }

  /** The normal texts are exactly the ones that normalization leaves alone. */
  lemma NormalTextsAreFixed(s: string)
    ensures Normal(s) <==> NormalizeText(s) == s
  {
    if Normal(s) {
      ReplaceCrLfKeeps(s);
      ReplaceCrKeeps(s);
      NormalLines(s);
      StripLinesKeeps(Text.Split(s, '\n'));
      Text.JoinOfSplit(s, '\n');
      Text.StripFixed(s);
    } else {
      NormalizedIsNormal(s);
    }
  }

  /** Normalizing twice is normalizing once. */
  lemma NormalizationIsIdempotent(text: string)
    ensures NormalizeText(NormalizeText(text)) == NormalizeText(text)
  {
    NormalizedIsNormal(text);
    NormalTextsAreFixed(NormalizeText(text));
  }

  lemma NormalTextLines(s: string)
    requires Normal(s)
    ensures
      var lines := Text.Split(s, '\n');
      && (forall line <- lines :: line == Text.StripEnd(line))
      && (s != "" ==> !Text.Blank(lines[0]) && !Text.Blank(lines[|lines| - 1]))
      && Text.Join(lines, '\n') == s
  {
    var lines := Text.Split(s, '\n');
    NormalLines(s);
    forall line | line in lines
      ensures line == Text.StripEnd(line)
    {
      assert Ended(line);
    }
    if s != "" {
      FirstPiece(s, '\n');
      LastPiece(s, '\n');
      assert !Text.IsSpace(lines[0][0]);
      var last := lines[|lines| - 1];
      assert !Text.IsSpace(last[|last| - 1]);
    }
    Text.JoinOfSplit(s, '\n');
  }

  /** A normalized text has no carriage return, no line ending in whitespace and no blank first or last line. */
  lemma NormalizedLines(text: string)
    ensures
      var s := NormalizeText(text);
      var lines := Text.Split(s, '\n');
      && '\r' !in s
      && (forall line <- lines :: line == Text.StripEnd(line))
      && (s != "" ==> !Text.Blank(lines[0]) && !Text.Blank(lines[|lines| - 1]))
      && Text.Join(lines, '\n') == s
  {
    NormalizedIsNormal(text);
    NormalTextLines(NormalizeText(text));
  }

  // ---------------------------------------------------------------- the same in one pass

  function Breaks(n: nat): string {
    seq(n, i => '\n')
  }

  /**
   One pass over a text: n line breaks have been seen since the last visible character, and w is the
   other whitespace since the last break. A carriage return with a line feed behind it is one break.
   */
  function Scan(s: string, n: nat, w: string): string {
    if s == "" then ""
    else if |s| >= 2 && s[0] == '\r' && s[1] == '\n' then Scan(s[2..], n + 1, "")
    else if s[0] == '\r' || s[0] == '\n' then Scan(s[1..], n + 1, "")
    else if Text.IsSpace(s[0]) then Scan(s[1..], n, w + [s[0]])
    else Breaks(n) + w + [s[0]] + Scan(s[1..], 0, "")
  }

  function Unix(text: string): string {
    ReplaceCr(ReplaceCrLf(text))
  }

  lemma UnixStep(s: string)
    ensures s != "" ==>
      Unix(s) == if |s| >= 2 && s[0] == '\r' && s[1] == '\n' then ['\n'] + Unix(s[2..])
        else [if s[0] == '\r' then '\n' else s[0]] + Unix(s[1..])
  {
    if |s| == 1 {
      assert s[1..] == "" && ReplaceCr("") == "";
    }
  }

  lemma {:induction false} UnixScans(s: string, n: nat, w: string)
    ensures Scan(Unix(s), n, w) == Scan(s, n, w)
    decreases |s|
  {
    if s != "" {
      UnixStep(s);
      var u := Unix(s);
      if |s| >= 2 && s[0] == '\r' && s[1] == '\n' {
        assert u[1..] == Unix(s[2..]);
        UnixScans(s[2..], n + 1, "");
      } else {
        assert u[1..] == Unix(s[1..]);
        UnixScans(s[1..], n + 1, "");
        UnixScans(s[1..], n, w + [s[0]]);
        UnixScans(s[1..], 0, "");
      }
    }
  }

  lemma StripEndOfConcat(a: string, b: string)
    requires Text.StripEnd(b) != "" || Ended(a)
    ensures Text.StripEnd(a + b) == a + Text.StripEnd(b)
    decreases |b|
  {
    if b == "" {
      assert a + b == a;
    } else if Text.IsSpace(b[|b| - 1]) {
      assert (a + b)[..|a + b| - 1] == a + b[..|b| - 1];
      StripEndOfConcat(a, b[..|b| - 1]);
    }
  }

  lemma {:induction false} StripStartOfConcat(a: string, b: string)
    requires Text.Blank(a) && b != "" && !Text.IsSpace(b[0])
    ensures Text.StripStart(a + b) == b
  {
    if a == "" {
      assert a + b == b;
    } else {
      assert (a + b)[1..] == a[1..] + b;
      assert forall i :: 0 <= i < |a[1..]| ==> a[1..][i] == a[i + 1];
      StripStartOfConcat(a[1..], b);
    }
  }

  /** Text behind which the line ends: nothing, or a line break. */
  predicate LineEnds(tail: string) {
    tail == "" || tail[0] == '\n'
  }

  predicate OneLine(line: string) {
    '\n' !in line && '\r' !in line
  }

  lemma ScanOne(c: char, rest: string, n: nat, w: string)
    requires c != '\n' && c != '\r'
    ensures Scan([c] + rest, n, w) ==
      if Text.IsSpace(c) then Scan(rest, n, w + [c]) else Breaks(n) + w + [c] + Scan(rest, 0, "")
  {
    assert ([c] + rest)[1..] == rest;
  }

  lemma StripEndOne(c: char, rest: string)
    ensures Text.StripEnd([c] + rest) ==
      if !Text.Blank(rest) then [c] + Text.StripEnd(rest) else if Text.IsSpace(c) then "" else [c]
    ensures Text.Blank([c] + rest) <==> Text.IsSpace(c) && Text.Blank(rest)
  {
    var s := [c] + rest;
    assert forall i :: 0 <= i < |rest| ==> rest[i] == s[i + 1];
    StripEndBlank(rest);
    if !Text.Blank(rest) || !Text.IsSpace(c) {
      StripEndOfConcat([c], rest);
    } else {
      StripEndBlank(s);
    }
  }

  /** A pass over one line: a blank line adds nothing, any other one itself without the whitespace at its end. */
  lemma {:induction false} ScanLine(line: string, tail: string, n: nat, w: string)
    requires OneLine(line) && LineEnds(tail)
    ensures Scan(line + tail, n, w) ==
      if Text.Blank(line) then Scan(tail, n, "") else Breaks(n) + w + Text.StripEnd(line) + Scan(tail, 0, "")
  {
    if line == "" {
      assert line + tail == tail;
      TailForgets(tail, n, w);
    } else {
      var c, rest := line[0], line[1..];
      assert c in line && line == [c] + rest && line + tail == [c] + (rest + tail);
      ScanOne(c, rest + tail, n, w);
      StripEndOne(c, rest);
      if Text.IsSpace(c) {
        ScanLine(rest, tail, n, w + [c]);
        Regroup(Breaks(n), w, c, Text.StripEnd(rest), Scan(tail, 0, ""));
      } else {
        ScanLine(rest, tail, 0, "");
        Regroup(Breaks(n), w, c, Text.StripEnd(rest), Scan(tail, 0, ""));
        assert Breaks(0) == "";
      }
    }
  }

  /** The whitespace before the end of a line is forgotten. */
  lemma TailForgets(tail: string, n: nat, w: string)
    requires LineEnds(tail)
    ensures Scan(tail, n, w) == Scan(tail, n, "")
  {
  }

  lemma Regroup(a: string, w: string, c: char, b: string, d: string)
    ensures a + w + [c] + (b + d) == a + (w + [c]) + b + d == a + w + ([c] + b) + d
    ensures "" + "" + b + d == b + d
    ensures a + w + [c] + d == a + w + ([c] + "") + d
  {
  }

  lemma StripEndBlank(s: string)
    ensures Text.StripEnd(s) == "" <==> Text.Blank(s)
  {
    Text.StripEndCuts(s);
    var n := |Text.StripEnd(s)|;
    assert n > 0 ==> s[n - 1] == Text.StripEnd(s)[n - 1];
    assert s[0..] == s;
  }

  function Lines(u: string): string {
    Text.Join(StripLines(Text.Split(u, '\n')), '\n')
  }

  /** The lines of a text, each stripped at its end: the first, and those of the rest. */
  lemma LinesStep(line: string, rest: string)
    requires '\n' !in line
    ensures Lines(line) == Text.StripEnd(line)
    ensures Lines(line + ['\n'] + rest) == Text.StripEnd(line) + ['\n'] + Lines(rest)
  {
    Text.SplitPiece(line, rest, '\n');
    var tail := Text.Split(rest, '\n');
    assert ([line] + tail)[1..] == tail && [line][1..] == [];
    StripLinesCount(tail);
    var stripped := StripLines([line] + tail);
    assert stripped == [Text.StripEnd(line)] + StripLines(tail) && stripped[1..] == StripLines(tail);
  }

  lemma StripLinesCount(lines: seq<string>)
    ensures |StripLines(lines)| == |lines|
  {
  }

  /** The first line of a text, and what is behind its line break, if there is one. */
  lemma {:induction false} FirstLine(u: string) returns (line: string, rest: Option<string>)
    requires '\r' !in u
    ensures OneLine(line)
    ensures if rest.None? then u == line else u == line + ['\n'] + rest.value && '\r' !in rest.value
  {
    if u == "" {
      line, rest := "", None;
    } else if u[0] == '\n' {
      line, rest := "", Some(u[1..]);
    } else {
      line, rest := FirstLine(u[1..]);
      line := [u[0]] + line;
    }
  }

  /** A line is followed by nothing, or by a line break and the rest. */
  lemma {:induction false} ScanIsLines(u: string, n: nat)
    requires '\r' !in u
    ensures Scan(u, n, "") == Text.StripEnd(Breaks(n) + Lines(u))
    decreases |u|
  {
    var line, rest := FirstLine(u);
    if rest.None? {
      assert u == line + "";
      ScanLine(line, "", n, "");
      LastLine(line, n);
    } else {
      ScanIsLines(rest.value, n + 1);
      ScanIsLines(rest.value, 1);
      ScanLineAndRest(line, rest.value, n);
      LineAndRest(line, rest.value, n);
    }
  }

  lemma ScanLineAndRest(line: string, rest: string, n: nat)
    requires OneLine(line)
    ensures
      Scan(line + ['\n'] + rest, n, "") ==
        if Text.Blank(line) then Scan(rest, n + 1, "") else Breaks(n) + Text.StripEnd(line) + Scan(rest, 1, "")
  {
    assert line + ['\n'] + rest == line + (['\n'] + rest);
    ScanLine(line, ['\n'] + rest, n, "");
    BreakScans(rest, n);
    BreakScans(rest, 0);
    assert Breaks(n) + "" == Breaks(n);
  }

  lemma BreakScans(rest: string, n: nat)
    ensures Scan(['\n'] + rest, n, "") == Scan(rest, n + 1, "")
  {
    assert (['\n'] + rest)[1..] == rest;
  }

  lemma LastLine(line: string, n: nat)
    requires OneLine(line) && Scan(line, n, "") == if Text.Blank(line) then "" else Breaks(n) + Text.StripEnd(line)
    ensures Scan(line, n, "") == Text.StripEnd(Breaks(n) + Lines(line))
  {
    var head := Text.StripEnd(line);
    LinesStep(line, "");
    StripEndBlank(line);
    if head == "" {
      StripEndBlank(Breaks(n) + head);
    } else {
      StripEndOfConcat(Breaks(n), line);
      StripEndTwice(line);
      StripEndOfConcat(Breaks(n), head);
    }
  }

  lemma StripEndTwice(s: string)
    ensures Text.StripEnd(Text.StripEnd(s)) == Text.StripEnd(s)
  {
  }

  lemma LineAndRest(line: string, rest: string, n: nat)
    requires OneLine(line)
    ensures
      Text.StripEnd(Breaks(n) + Lines(line + ['\n'] + rest)) ==
        if Text.Blank(line) then Text.StripEnd(Breaks(n + 1) + Lines(rest))
        else Breaks(n) + Text.StripEnd(line) + Text.StripEnd(Breaks(1) + Lines(rest))
  {
    LinesStep(line, rest);
    StripEndBlank(line);
    HeadAndMore(Text.StripEnd(line), Lines(rest), n);
  }

  lemma HeadAndMore(head: string, more: string, n: nat)
    requires Ended(head)
    ensures
      Text.StripEnd(Breaks(n) + (head + ['\n'] + more)) ==
        if head == "" then Text.StripEnd(Breaks(n + 1) + more)
        else Breaks(n) + head + Text.StripEnd(Breaks(1) + more)
  {
    assert Breaks(1) == ['\n'];
    if head == "" {
      assert Breaks(n) + (head + ['\n'] + more) == Breaks(n + 1) + more;
    } else {
      assert Breaks(n) + (head + ['\n'] + more) == (Breaks(n) + head) + (['\n'] + more);
      StripEndOfConcat(Breaks(n) + head, ['\n'] + more);
    }
  }

  /** Whitespace before the first visible character only puts whitespace before it. */
  lemma {:induction false} ScanAfterBlank(a: string, b: string, n: nat, w: string) returns (c: string)
    requires Text.Blank(a) && Text.Blank(w) && b != "" && !Text.IsSpace(b[0])
    ensures Text.Blank(c) && Scan(a + b, n, w) == c + Scan(b, 0, "")
    decreases |a|
  {
    var s := a + b;
    if a == "" {
      assert s == b;
      c := Breaks(n) + w;
      assert Breaks(0) == "";
      assert Scan(b, 0, "") == [b[0]] + Scan(b[1..], 0, "");
    } else {
      assert s[1..] == a[1..] + b;
      assert forall i :: 0 <= i < |a[1..]| ==> a[1..][i] == a[i + 1];
      if |s| >= 2 && s[0] == '\r' && s[1] == '\n' {
        assert |a| >= 2 && s[2..] == a[2..] + b;
        c := ScanAfterBlank(a[2..], b, n + 1, "");
      } else if s[0] == '\r' || s[0] == '\n' {
        c := ScanAfterBlank(a[1..], b, n + 1, "");
      } else {
        c := ScanAfterBlank(a[1..], b, n, w + [s[0]]);
      }
    }
  }

  lemma {:induction false} BlankScans(s: string, n: nat, w: string)
    requires Text.Blank(s)
    ensures Scan(s, n, w) == ""
    decreases |s|
  {
    if s != "" {
      assert forall i :: 0 <= i < |s[1..]| ==> s[1..][i] == s[i + 1];
      if |s| >= 2 && s[0] == '\r' && s[1] == '\n' {
        assert forall i :: 0 <= i < |s[2..]| ==> s[2..][i] == s[i + 2];
        BlankScans(s[2..], n + 1, "");
      } else if s[0] == '\r' || s[0] == '\n' {
        BlankScans(s[1..], n + 1, "");
      } else {
        BlankScans(s[1..], n, w + [s[0]]);
      }
    }
  }

  /** Stripping at the end first and at the start afterwards is stripping. */
  lemma StripsCommute(s: string)
    ensures Text.StripStart(Text.StripEnd(s)) == Text.Strip(s)
  {
    Text.StripStartCuts(s);
    var x := Text.StripStart(s);
    var a := s[..|s| - |x|];
    assert s == a + x;
    StripEndBlank(x);
    if x == "" {
      assert a == s;
      StripEndBlank(s);
    } else {
      StripEndOfConcat(a, x);
      StripStartOfConcat(a, Text.StripEnd(x));
    }
  }

  /**
   Normalization splits, strips and joins; it comes to one pass from the first visible character on.
   Between two visible characters stand as many line breaks as before, however they were written, and
   behind them the whitespace that stood behind the last of them; without a break, all the whitespace
   that was there.
   */
  lemma NormalizedInOnePass(text: string)
    ensures NormalizeText(text) == Scan(Text.StripStart(text), 0, "")
  {
    NormalizedScans(text);
    Text.StripStartCuts(text);
    var b := Text.StripStart(text);
    var a := text[..|text| - |b|];
    assert text == a + b;
    if b == "" {
      assert a == text;
      BlankScans(text, 0, "");
    } else {
      var c := ScanAfterBlank(a, b, 0, "");
      VisibleScans(b);
      StripStartOfConcat(c, Scan(b, 0, ""));
    }
  }

  lemma VisibleScans(b: string)
    requires b != "" && !Text.IsSpace(b[0])
    ensures Scan(b, 0, "") != "" && Scan(b, 0, "")[0] == b[0]
  {
    assert Breaks(0) == "";
  }

  lemma NormalizedScans(text: string)
    ensures NormalizeText(text) == Text.StripStart(Scan(text, 0, ""))
  {
    var u := Unix(text);
    ReplaceCrHasNone(ReplaceCrLf(text));
    UnixScans(text, 0, "");
    ScanIsLines(u, 0);
    NoBreaks(Lines(u));
    StripsCommute(Lines(u));
  }

  lemma NoBreaks(s: string)
    ensures Breaks(0) + s == s
  {
  }

  // ---------------------------------------------------------------- what normalization keeps

  /** The characters of a text that are not whitespace. */
  function Visible(s: string): string {
    if s == "" then "" else (if Text.IsSpace(s[0]) then "" else [s[0]]) + Visible(s[1..])
  }

  lemma {:induction false} VisibleJoin(a: string, b: string)
    ensures Visible(a + b) == Visible(a) + Visible(b)
  {
    if a == "" {
      assert a + b == b;
    } else {
      assert (a + b)[0] == a[0] && (a + b)[1..] == a[1..] + b;
      VisibleJoin(a[1..], b);
    }
  }

  lemma {:induction false} BlankIsInvisible(s: string)
    requires Text.Blank(s)
    ensures Visible(s) == ""
  {
    if s != "" {
      assert forall i :: 0 <= i < |s[1..]| ==> s[1..][i] == s[i + 1];
      BlankIsInvisible(s[1..]);
    }
  }

  lemma StripKeepsVisible(s: string)
    ensures Visible(Text.Strip(s)) == Visible(s)
  {
    var from, to := Text.StripIsSubstring(s);
    assert s == s[..from] + (s[from..to] + s[to..]);
    VisibleJoin(s[..from], s[from..to] + s[to..]);
    VisibleJoin(s[from..to], s[to..]);
    BlankIsInvisible(s[..from]);
    BlankIsInvisible(s[to..]);
  }

  lemma StripEndKeepsVisible(s: string)
    ensures Visible(Text.StripEnd(s)) == Visible(s)
  {
    Text.StripEndCuts(s);
    var n := |Text.StripEnd(s)|;
    assert s == s[..n] + s[n..];
    VisibleJoin(s[..n], s[n..]);
    BlankIsInvisible(s[n..]);
  }

  lemma {:induction false} StripLinesKeepVisible(lines: seq<string>)
    ensures Visible(Text.Join(StripLines(lines), '\n')) == Visible(Text.Join(lines, '\n'))
    decreases |lines|
  {
    if lines != [] {
      StripEndKeepsVisible(lines[0]);
      if |lines| > 1 {
        StripLinesKeepVisible(lines[1..]);
        var stripped := StripLines(lines);
        assert stripped[1..] == StripLines(lines[1..]) && |stripped| > 1;
        var a, b := Text.Join(lines[1..], '\n'), Text.Join(stripped[1..], '\n');
        VisibleJoin(lines[0] + ['\n'], a);
        VisibleJoin(lines[0], ['\n']);
        VisibleJoin(stripped[0] + ['\n'], b);
        VisibleJoin(stripped[0], ['\n']);
      } else {
        assert StripLines(lines) == [Text.StripEnd(lines[0])];
      }
    }
  }

  lemma {:induction false} ReplaceKeepsVisible(s: string)
    ensures Visible(ReplaceCr(s)) == Visible(s)
  {
    if s != "" {
      ReplaceKeepsVisible(s[1..]);
    }
  }

  lemma {:induction false} ReplaceCrLfKeepsVisible(s: string)
    ensures Visible(ReplaceCrLf(s)) == Visible(s)
  {
    if |s| >= 2 {
      if s[0] == '\r' && s[1] == '\n' {
        ReplaceCrLfKeepsVisible(s[2..]);
        assert s[1..][1..] == s[2..];
      } else {
        ReplaceCrLfKeepsVisible(s[1..]);
      }
    }
  }

  /** Normalization changes whitespace only: every other character stays, in order. */
  lemma NormalizationKeepsVisible(text: string)
    ensures Visible(NormalizeText(text)) == Visible(text)
  {
    var unix := ReplaceCr(ReplaceCrLf(text));
    var lines := Text.Split(unix, '\n');
    ReplaceCrLfKeepsVisible(text);
    ReplaceKeepsVisible(ReplaceCrLf(text));
    Text.JoinOfSplit(unix, '\n');
    StripLinesKeepVisible(lines);
    StripKeepsVisible(Text.Join(StripLines(lines), '\n'));
  }

  // ---------------------------------------------------------------- pages

  /** The text of a page; a page may have none. */
  function PageText(page: Option<string>): string {
    NormalizeText(if page.Some? then page.value else "")
  }

  function PageTexts(pages: seq<Option<string>>): seq<string> {
    seq(|pages|, i requires 0 <= i < |pages| => PageText(pages[i]))
  }

  /** The pages that have text, with their numbers. */
  function SectionsOf(texts: seq<string>, from: nat): seq<Section> {
    if texts == [] then []
    else (if texts[0] == "" then [] else [Section(texts[0], Some(from))]) + SectionsOf(texts[1..], from + 1)
  }

  /** Reads the pages of a document, numbered from 1; there must be text on at least one. */
  method LoadPages(pages: seq<Option<string>>) returns (sections: Option<seq<Section>>)
    ensures
      var all := SectionsOf(PageTexts(pages), 1);
      sections == if all == [] then None else Some(all)
  {
    var found: seq<Section> := [];
    ghost var texts := PageTexts(pages);
    assert texts[0..] == texts;
    for i := 0 to |pages|
      invariant SectionsOf(texts, 1) == found + SectionsOf(texts[i..], i + 1)
    {
      NextPage(texts, i, found);
      var text := NormalizeText(if pages[i].Some? then pages[i].value else "");
      assert text == PageText(pages[i]) == texts[i];
      if text != "" {
        found := found + [Section(text, Some(i + 1))];
      }
    }
    assert found + [] == found;
    sections := if found == [] then None else Some(found);
  }

  lemma NextPage(texts: seq<string>, i: nat, found: seq<Section>)
    requires i < |texts|
    ensures found + SectionsOf(texts[i..], i + 1) ==
      (if texts[i] == "" then found else found + [Section(texts[i], Some(i + 1))]) + SectionsOf(texts[i + 1..], i + 2)
  {
    assert texts[i..][0] == texts[i] && texts[i..][1..] == texts[i + 1..];
  }

  /** A section that is the text, not empty, of one of the pages numbered from from. */
  predicate IsPage(s: Section, texts: seq<string>, from: nat) {
    s.text != "" && s.page.Some? && from <= s.page.value < from + |texts| && s.text == texts[s.page.value - from]
  }

  function PageOf(s: Section): nat {
    if s.page.Some? then s.page.value else 0
  }

  lemma LaterPage(s: Section, texts: seq<string>, from: nat)
    requires texts != [] && IsPage(s, texts[1..], from + 1)
    ensures IsPage(s, texts, from) && s.page.value > from
  {
    assert texts[1..][s.page.value - (from + 1)] == texts[s.page.value - from];
  }

  /** Each section is a page, and the page numbers increase. */
  lemma {:induction false} SectionsAreTheirPages(texts: seq<string>, from: nat)
    ensures forall s <- SectionsOf(texts, from) :: IsPage(s, texts, from)
    ensures forall i, j :: 0 <= i < j < |SectionsOf(texts, from)| ==>
      PageOf(SectionsOf(texts, from)[i]) < PageOf(SectionsOf(texts, from)[j])
    decreases |texts|
  {
    if texts != [] {
      SectionsAreTheirPages(texts[1..], from + 1);
      var rest := SectionsOf(texts[1..], from + 1);
      forall s | s in rest
        ensures IsPage(s, texts, from) && PageOf(s) > from
      {
        LaterPage(s, texts, from);
      }
    }
  }

  /** No page with text is left out. */
  lemma {:induction false} PagesAreSections(texts: seq<string>, from: nat, k: nat)
    requires k < |texts| && texts[k] != ""
    ensures Section(texts[k], Some(from + k)) in SectionsOf(texts, from)
    decreases |texts|
  {
    if k > 0 {
      PagesAreSections(texts[1..], from + 1, k - 1);
    }
  }
}
