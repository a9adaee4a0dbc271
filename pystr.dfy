/** The two Python string operations the probe configuration relies on:
    `str.strip()` with no argument and `str.split(" ")`. */
module PyStr {

  /** `str.isspace()` for one character: the characters that `strip()` removes. */
  predicate IsSpace(c: char) {
    ('\t' <= c <= '\r')                    // tab, line feed, vertical tab, form feed, carriage return
    || ('\U{1C}' <= c <= ' ')              // the four separators and the space
    || c == '\U{85}' || c == '\U{A0}' || c == '\U{1680}'
    || ('\U{2000}' <= c <= '\U{200A}')
    || c == '\U{2028}' || c == '\U{2029}' || c == '\U{202F}' || c == '\U{205F}' || c == '\U{3000}'
  }

  /** `s.lstrip()`: `s` after dropping leading whitespace. Its meaning is stated by
      `StripLeftDrops`, so that callers do not pay for it. */
  function StripLeft(s: string): string
    decreases |s|
  {
    if s != [] && IsSpace(s[0]) then StripLeft(s[1..]) else s
  }

  /** `s.rstrip()`: `s` after dropping trailing whitespace (see `StripRightDrops`). */
  function StripRight(s: string): string
    decreases |s|
  {
    if s != [] && IsSpace(s[|s| - 1]) then StripRight(s[..|s| - 1]) else s
  }

  /** `s.strip()`: `s` without its leading and trailing whitespace (see `StripTrims`). */
  function Strip(s: string): string {
    StripRight(StripLeft(s))
  }

  /** `lstrip()` keeps a suffix, drops only whitespace, and stops at a non-space. */
  lemma {:induction false} StripLeftDrops(s: string)
    ensures var r := StripLeft(s);
      |r| <= |s| && r == s[|s| - |r|..]
      && (forall k :: 0 <= k < |s| - |r| ==> IsSpace(s[k]))
      && (r != [] ==> !IsSpace(r[0]))
    decreases |s|
  {
    if s != [] && IsSpace(s[0]) {
      StripLeftDrops(s[1..]);
    }
  }

  /** `rstrip()` keeps a prefix, drops only whitespace, and stops at a non-space. */
  lemma {:induction false} StripRightDrops(s: string)
    ensures var r := StripRight(s);
      |r| <= |s| && r == s[..|r|]
      && (forall k :: |r| <= k < |s| ==> IsSpace(s[k]))
      && (r != [] ==> !IsSpace(r[|r| - 1]))
    decreases |s|
  {
    if s != [] && IsSpace(s[|s| - 1]) {
      StripRightDrops(s[..|s| - 1]);
    }
  }

  /** `r` is the slice of `s` at offset `a`, and everything around it is whitespace. */
  predicate TrimmedAt(s: string, r: string, a: nat) {
    a + |r| <= |s| && r == s[a..a + |r|]
    && (forall k :: 0 <= k < a ==> IsSpace(s[k]))
    && (forall k :: a + |r| <= k < |s| ==> IsSpace(s[k]))
  }

  /** What `strip()` removes is whitespace, and only at the two ends; what it keeps
      starts and ends with a non-space. */
  lemma StripTrims(s: string)
    ensures exists a :: TrimmedAt(s, Strip(s), a)
    ensures Strip(s) != [] ==> !IsSpace(Strip(s)[0]) && !IsSpace(Strip(s)[|Strip(s)| - 1])
  {
    var left := StripLeft(s);
    var r := StripRight(left);
    StripLeftDrops(s);
    StripRightDrops(left);
    var a := |s| - |left|;
    assert r == s[a..a + |r|];
    assert forall k :: a + |r| <= k < |s| ==> s[k] == left[k - a];
    assert Strip(s) == r && TrimmedAt(s, r, a);
  }

  /** A string is stripped to nothing exactly when it is all whitespace. */
  lemma StripEmpty(s: string)
    ensures Strip(s) == [] <==> forall k :: 0 <= k < |s| ==> IsSpace(s[k])
  {
    var r := Strip(s);
    StripTrims(s);
    var a: nat :| TrimmedAt(s, r, a);
    if r != [] {
      assert s[a] == r[0];
    }
  }

  /** A string that starts and ends with a non-space is left as it is. */
  lemma StripUnchanged(s: string)
    requires s != [] ==> !IsSpace(s[0]) && !IsSpace(s[|s| - 1])
    ensures Strip(s) == s
  {
  }

  /** Trailing whitespace (the newline a shell command prints) does not survive `strip()`. */
  lemma {:induction false} StripTrailing(s: string, ws: string)
    requires s != [] && !IsSpace(s[0]) && !IsSpace(s[|s| - 1])
    requires forall k :: 0 <= k < |ws| ==> IsSpace(ws[k])
    ensures Strip(s + ws) == s
    decreases |ws|
  {
    assert StripLeft(s + ws) == s + ws;
    if ws == [] {
      assert s + ws == s;
      StripUnchanged(s);
    } else {
      var shorter := ws[..|ws| - 1];
      assert (s + ws)[..|s + ws| - 1] == s + shorter;
      StripTrailing(s, shorter);
      assert StripLeft(s + shorter) == s + shorter;
    }
  }

  /** Joins tokens with single spaces: the inverse of `Split`. */
  function Join(tokens: seq<string>): string
    requires |tokens| >= 1
  {
    if |tokens| == 1 then tokens[0] else tokens[0] + " " + Join(tokens[1..])
  }

  /** Joining non-empty tokens keeps the first character of the first token and the last
      character of the last. */
  lemma {:induction false} JoinEnds(tokens: seq<string>)
    requires |tokens| >= 1 && forall k :: 0 <= k < |tokens| ==> tokens[k] != []
    ensures var line, last := Join(tokens), tokens[|tokens| - 1];
      |line| > 0 && line[0] == tokens[0][0] && line[|line| - 1] == last[|last| - 1]
  {
    if |tokens| > 1 {
      var rest := tokens[1..];
      JoinEnds(rest);
      var tail := Join(rest);
      assert rest[|rest| - 1] == tokens[|tokens| - 1];
      var line := tokens[0] + " " + tail;
      assert Join(tokens) == line;
      assert line[0] == tokens[0][0];
      assert line[|line| - 1] == tail[|tail| - 1];
    }
  }

  /** `s.split(" ")`: the pieces between single spaces, empty pieces included;
      the empty string gives one empty piece. */
  function Split(s: string): (r: seq<string>)
    ensures |r| >= 1
    ensures forall k :: 0 <= k < |r| ==> ' ' !in r[k]
    ensures Join(r) == s
    decreases |s|
  {
    if s == [] then [[]]
    else
      var rest := Split(s[1..]);
      if s[0] == ' ' then
        assert ([[]] + rest)[1..] == rest;
        [[]] + rest
      else
        var r := [[s[0]] + rest[0]] + rest[1..];
        assert r[1..] == rest[1..];
        assert |rest| > 1 ==> Join(rest) == rest[0] + " " + Join(rest[1..]);
        assert s == [s[0]] + s[1..];
        r
  }

  /** A piece without spaces is not cut. */
  lemma SplitNoSpace(t: string)
    requires ' ' !in t
    ensures Split(t) == [t]
  {
  }

  /** The first space of `t + " " + rest` is the first cut. */
  lemma {:induction false} SplitAtFirstSpace(t: string, rest: string)
    requires ' ' !in t
    ensures Split(t + " " + rest) == [t] + Split(rest)
    decreases |t|
  {
    var s := t + " " + rest;
    if t == [] {
      assert s[1..] == rest;
    } else {
      assert s[1..] == t[1..] + " " + rest;
      SplitAtFirstSpace(t[1..], rest);
      assert t == [t[0]] + t[1..];
    }
  }

  /** Round trip: splitting joined space-free tokens gives the tokens back. */
  lemma {:induction false} SplitJoin(tokens: seq<string>)
    requires |tokens| >= 1
    requires forall k :: 0 <= k < |tokens| ==> ' ' !in tokens[k]
    ensures Split(Join(tokens)) == tokens
  {
    if |tokens| == 1 {
      SplitNoSpace(tokens[0]);
    } else {
      SplitJoin(tokens[1..]);
      SplitAtFirstSpace(tokens[0], Join(tokens[1..]));
      assert tokens == [tokens[0]] + tokens[1..];
    }
  }
}
