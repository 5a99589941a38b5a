/** String operations of Python that the modelled code relies on. */
module Text {
  import opened Options

  /** Whitespace, as str.strip() removes it. */
  predicate IsSpace(c: char) {
    || 9 as char <= c <= 13 as char || 28 as char <= c <= 32 as char
    || c == 0x85 as char || c == 0xA0 as char || c == 0x1680 as char || 0x2000 as char <= c <= 0x200A as char
    || c == 0x2028 as char || c == 0x2029 as char || c == 0x202F as char || c == 0x205F as char || c == 0x3000 as char
  }

  /** Where str.splitlines() ends a line. */
  predicate IsBreak(c: char) {
    || 10 as char <= c <= 13 as char || 28 as char <= c <= 30 as char
    || c == 0x85 as char || c == 0x2028 as char || c == 0x2029 as char
  }

  function StripLeft(s: string): string {
    if s != "" && IsSpace(s[0]) then StripLeft(s[1..]) else s
  }

  function StripRight(s: string): string {
    if s != "" && IsSpace(s[|s| - 1]) then StripRight(s[..|s| - 1]) else s
  }

  function Strip(s: string): string {
    StripRight(StripLeft(s))
  }

  /** Position of the last occurrence of c. */
  function LastIndexOf(s: string, c: char): (r: Option<nat>)
    ensures r.None? ==> c !in s
    ensures r.Some? ==> r.value < |s| && s[r.value] == c && c !in s[r.value + 1..]
  {
    if s == "" then None
    else if s[|s| - 1] == c then Some(|s| - 1)
    else
      var r := LastIndexOf(s[..|s| - 1], c);
      assert s == s[..|s| - 1] + [s[|s| - 1]];
      if r.Some? then assert s[r.value + 1..] == s[..|s| - 1][r.value + 1..] + [s[|s| - 1]]; r else r
  }

  // ---- Stripping ----

  /** Starts and ends with a visible character, or is empty. */
  predicate Trimmed(s: string) {
    s == "" || (!IsSpace(s[0]) && !IsSpace(s[|s| - 1]))
  }

  lemma {:induction false} StripRightTrims(s: string)
    ensures StripRight(s) <= s && (StripRight(s) != "" ==> !IsSpace(StripRight(s)[|StripRight(s)| - 1]))
  {
    if s != "" && IsSpace(s[|s| - 1]) {
      StripRightTrims(s[..|s| - 1]);
    }
  }

  lemma {:induction false} StripLeftTrims(s: string)
    ensures (StripLeft(s) != "" ==> !IsSpace(StripLeft(s)[0])) && forall c :: c in StripLeft(s) ==> c in s
  {
    if s != "" && IsSpace(s[0]) {
      StripLeftTrims(s[1..]);
    }
  }

  lemma StripTrims(s: string)
    ensures Trimmed(Strip(s)) && forall c :: c in Strip(s) ==> c in s
  {
    StripLeftTrims(s);
    StripRightTrims(StripLeft(s));
  }

  predicate Blank(s: string) {
    forall c :: c in s ==> IsSpace(c)
  }

  /** s is the nonempty core with only space around it. */
  ghost predicate Padded(s: string, core: string) {
    core != "" && Trimmed(core) && exists a, b :: Blank(a) && Blank(b) && s == a + core + b
  }

  lemma {:induction false} StripLeftPads(a: string, s: string)
    requires Blank(a) && (s != "" ==> !IsSpace(s[0]))
    ensures StripLeft(a + s) == s
  {
    if a == "" {
      assert a + s == s;
    } else {
      assert a[0] in a && (a + s)[1..] == a[1..] + s;
      StripLeftPads(a[1..], s);
    }
  }

  lemma {:induction false} StripRightPads(s: string, b: string)
    requires Blank(b) && (s != "" ==> !IsSpace(s[|s| - 1]))
    ensures StripRight(s + b) == s
  {
    if b == "" {
      assert s + b == s;
    } else {
      assert b[|b| - 1] in b && (s + b)[..|s + b| - 1] == s + b[..|b| - 1];
      StripRightPads(s, b[..|b| - 1]);
    }
  }

  lemma {:induction false} StripLeftTakes(s: string) returns (a: string)
    ensures Blank(a) && s == a + StripLeft(s)
  {
    if s != "" && IsSpace(s[0]) {
      var rest := StripLeftTakes(s[1..]);
      a := [s[0]] + rest;
    } else {
      a := "";
    }
  }

  lemma {:induction false} StripRightTakes(s: string) returns (b: string)
    ensures Blank(b) && s == StripRight(s) + b
  {
    if s != "" && IsSpace(s[|s| - 1]) {
      var rest := StripRightTakes(s[..|s| - 1]);
      b := rest + [s[|s| - 1]];
    } else {
      b := "";
    }
  }

  /** A string of spaces is stripped to nothing, and no other is. */
  lemma StripBlank(s: string)
    ensures Strip(s) == "" <==> Blank(s)
  {
    if Blank(s) {
      StripLeftPads(s, "");
      assert s + "" == s;
    } else {
      var a := StripLeftTakes(s);
      var b := StripRightTakes(StripLeft(s));
    }
  }

  lemma StripFinds(s: string, core: string)
    requires Padded(s, core)
    ensures Strip(s) == core
  {
    var a, b :| Blank(a) && Blank(b) && s == a + core + b;
    assert s == a + (core + b);
    hide Blank, Padded;
    StripLeftPads(a, core + b);
    StripRightPads(core, b);
  }

  lemma StripPads(s: string)
    requires Strip(s) != ""
    ensures Padded(s, Strip(s))
  {
    StripTrims(s);
    var a := StripLeftTakes(s);
    var b := StripRightTakes(StripLeft(s));
    hide Blank, StripLeft, StripRight, Trimmed;
    assert s == a + Strip(s) + b;
  }

  /** Stripping finds the visible core, whatever space surrounds it. */
  lemma StripMeans(s: string, core: string)
    ensures core != "" && Strip(s) == core <==> Padded(s, core)
  {
    if Padded(s, core) {
      StripFinds(s, core);
    }
    if core != "" && Strip(s) == core {
      StripPads(s);
    }
    hide Strip;
  }

  /** A leading visible character stays in front. */
  lemma StripKeepsHead(s: string)
    requires s != "" && !IsSpace(s[0])
    ensures Strip(s) != "" && Strip(s)[0] == s[0]
  {
    HeadStays(s);
  }

  lemma {:induction false} HeadStays(s: string)
    requires s != "" && !IsSpace(s[0])
    ensures StripRight(s) != "" && StripRight(s)[0] == s[0]
  {
    if IsSpace(s[|s| - 1]) {
      HeadStays(s[..|s| - 1]);
    }
  }

  // ---- Lines ----

  predicate OneLine(s: string) {
    forall c :: c in s ==> !IsBreak(c)
  }

  /** Length of the line at the front of s. */
  function LineLength(s: string): (n: nat)
    ensures n <= |s| && OneLine(s[..n]) && (n < |s| ==> IsBreak(s[n]))
  {
    if s == "" || IsBreak(s[0]) then 0
    else
      var n := LineLength(s[1..]);
      assert s[..n + 1] == [s[0]] + s[1..][..n];
      n + 1
  }

  /** CR LF is one line break. */
  function BreakLength(s: string): (n: nat)
    requires s != ""
    ensures n <= |s|
  {
    if |s| >= 2 && s[..2] == "\r\n" then 2 else 1
  }

  /** str.splitlines(). */
  function SplitLines(s: string): seq<string> {
    if s == "" then []
    else
      var n := LineLength(s);
      if n == |s| then [s] else [s[..n]] + SplitLines(s[n + BreakLength(s[n..])..])
  }

  /** "\n".join(lines) + "\n" */
  function JoinLines(lines: seq<string>): string {
    if |lines| == 0 then "\n"
    else if |lines| == 1 then lines[0] + "\n"
    else lines[0] + "\n" + JoinLines(lines[1..])
  }

  predicate AllOneLine(lines: seq<string>) {
    forall l :: l in lines ==> OneLine(l)
  }

  lemma {:induction false} SplitGivesLines(s: string)
    ensures AllOneLine(SplitLines(s))
  {
    if s != "" && LineLength(s) < |s| {
      SplitGivesLines(s[LineLength(s) + BreakLength(s[LineLength(s)..])..]);
    } else if s != "" {
      assert s[..|s|] == s;
    }
  }

  lemma {:induction false} LineLengthOf(l: string, rest: string)
    requires OneLine(l)
    ensures LineLength(l + "\n" + rest) == |l|
  {
    var s := l + "\n" + rest;
    if l != "" {
      assert s[1..] == l[1..] + "\n" + rest;
      LineLengthOf(l[1..], rest);
      assert l[0] in l;
    }
  }

  lemma BreakIsOne(s: string)
    requires s != "" && s[0] == '\n'
    ensures BreakLength(s) == 1
  {
  }

  lemma SplitNext(l: string, rest: string)
    requires OneLine(l)
    ensures SplitLines(l + "\n" + rest) == [l] + SplitLines(rest)
  {
    var s := l + "\n" + rest;
    hide LineLength, OneLine;
    LineLengthOf(l, rest);
    assert s != "" && |l| < |s|;
    BreakIsOne(s[|l|..]);
    assert s[..|l|] == l;
    assert s[|l| + 1..] == rest;
  }

  /** Splitting undoes joining, except that no lines at all come back as one empty line. */
  lemma {:induction false} SplitJoined(lines: seq<string>)
    requires AllOneLine(lines)
    ensures SplitLines(JoinLines(lines)) == if lines == [] then [""] else lines
  {
    if lines == [] {
      SplitNext("", "");
      assert "" + "\n" + "" == "\n";
    } else {
      var rest := if |lines| == 1 then "" else JoinLines(lines[1..]);
      assert lines[0] in lines;
      SplitNext(lines[0], rest);
      assert lines[0] + "\n" + rest == JoinLines(lines);
      if |lines| > 1 {
        SplitJoined(lines[1..]);
      }
      assert lines == [lines[0]] + lines[1..];
    }
  }
}
