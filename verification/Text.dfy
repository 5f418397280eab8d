/** Splitting, joining and stripping text the way Python's str methods do. */
module Text {

  /** The characters Python's str.strip removes. */
  predicate IsSpace(c: char) {
    || '\U{0009}' <= c <= '\U{000D}'
    || '\U{001C}' <= c <= '\U{0020}'
    || c == '\U{0085}' || c == '\U{00A0}' || c == '\U{1680}' || '\U{2028}' <= c <= '\U{2029}'
    || c == '\U{202F}' || c == '\U{205F}' || c == '\U{3000}'
    || '\U{2000}' <= c <= '\U{200A}'
  }

  function StripStart(s: string): (r: string)
    ensures r == [] || !IsSpace(r[0])
    ensures |r| <= |s|
  {
    if s != [] && IsSpace(s[0]) then StripStart(s[1..]) else s
  }

  function StripEnd(s: string): (r: string)
    ensures r == [] || !IsSpace(r[|r| - 1])
    ensures |r| <= |s| && (r != [] ==> r[0] == s[0])
  {
    if s != [] && IsSpace(s[|s| - 1]) then StripEnd(s[..|s| - 1]) else s
  }

  function Strip(s: string): (r: string)
    ensures |r| <= |s|
    ensures r != [] ==> !IsSpace(r[0]) && !IsSpace(r[|r| - 1])
  {
    StripEnd(StripStart(s))
  }

  predicate Blank(s: string) {
    forall i :: 0 <= i < |s| ==> IsSpace(s[i])
  }

  lemma {:induction false} StripStartCuts(s: string)
    ensures StripStart(s) == s[|s| - |StripStart(s)|..] && Blank(s[..|s| - |StripStart(s)|])
  {
    if s != [] && IsSpace(s[0]) {
      StripStartCuts(s[1..]);
      var n := |s| - |StripStart(s)|;
      assert s[..n] == [s[0]] + s[1..][..n - 1];
    } else {
      assert s[..0] == [];
    }
  }

  lemma {:induction false} StripEndCuts(s: string)
    ensures StripEnd(s) == s[..|StripEnd(s)|] && Blank(s[|StripEnd(s)|..])
  {
    if s != [] && IsSpace(s[|s| - 1]) {
      StripEndCuts(s[..|s| - 1]);
      var n := |StripEnd(s)|;
      assert s[n..] == s[..|s| - 1][n..] + [s[|s| - 1]];
    } else {
      assert s[|s|..] == [];
    }
  }

  /** Strip cuts out the substring s[from..to], with nothing but whitespace on either side. */
  lemma StripIsSubstring(s: string) returns (from: nat, to: nat)
    ensures from <= to <= |s| && Strip(s) == s[from..to]
    ensures Blank(s[..from]) && Blank(s[to..])
  {
    var t := StripStart(s);
    var u := StripEnd(t);
    StripStartCuts(s);
    StripEndCuts(t);
    from, to := |s| - |t|, |s| - |t| + |u|;
    assert s[from..][..|u|] == s[from..to] && s[from..][|u|..] == s[to..];
  }

  lemma StripBlank(s: string)
    ensures Strip(s) == [] <==> Blank(s)
  {
    var from, to := StripIsSubstring(s);
    if Strip(s) == [] {
      assert s == s[..from] + s[to..];
      assert forall i :: 0 <= i < |s| ==> s[i] == if i < from then s[..from][i] else s[to..][i - to];
    }
  }

  lemma StripFixed(s: string)
    requires s != [] ==> !IsSpace(s[0]) && !IsSpace(s[|s| - 1])
    ensures Strip(s) == s
  {
  }

  // ---------------------------------------------------------------- split and join

  function Split(s: string, sep: char): (parts: seq<string>)
    ensures |parts| >= 1
  {
    if s == [] then [[]]
    else
      var rest := Split(s[1..], sep);
      if s[0] == sep then [[]] + rest else [[s[0]] + rest[0]] + rest[1..]
  }

  function Join(parts: seq<string>, sep: char): string {
    if parts == [] then []
    else if |parts| == 1 then parts[0]
    else parts[0] + [sep] + Join(parts[1..], sep)
  }

  predicate Free(parts: seq<string>, sep: char) {
    forall p <- parts :: sep !in p
  }

  lemma {:induction false} SplitIsFree(s: string, sep: char)
    ensures Free(Split(s, sep), sep)
  {
    if s != [] {
      SplitIsFree(s[1..], sep);
    }
  }

  lemma {:induction false} JoinOfSplit(s: string, sep: char)
    ensures Join(Split(s, sep), sep) == s
  {
    if s != [] {
      JoinOfSplit(s[1..], sep);
      var rest := Split(s[1..], sep);
      if s[0] == sep {
        assert ([[]] + rest)[1..] == rest;
      } else {
        var parts := [[s[0]] + rest[0]] + rest[1..];
        assert parts[1..] == rest[1..];
        if |rest| > 1 {
          assert Join(parts, sep) == [s[0]] + (rest[0] + [sep] + Join(rest[1..], sep));
        }
      }
    }
  }

  lemma {:induction false} SplitPiece(p: string, tail: string, sep: char)
    requires sep !in p
    ensures Split(p + [sep] + tail, sep) == [p] + Split(tail, sep)
    ensures Split(p, sep) == [p]
  {
    if p == [] {
      assert p + [sep] + tail == [sep] + tail;
    } else {
      SplitPiece(p[1..], tail, sep);
      assert (p + [sep] + tail)[1..] == p[1..] + [sep] + tail;
      assert [p[0]] + p[1..] == p && p[0] in p;
    }
  }

  lemma {:induction false} SplitOfJoin(parts: seq<string>, sep: char)
    requires parts != [] && Free(parts, sep)
    ensures Split(Join(parts, sep), sep) == parts
  {
    SplitPiece(parts[0], Join(parts[1..], sep), sep);
    if |parts| > 1 {
      SplitOfJoin(parts[1..], sep);
      assert parts == [parts[0]] + parts[1..];
    } else {
      assert parts == [parts[0]];
    }
  }
}
