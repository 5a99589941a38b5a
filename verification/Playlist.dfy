/** Master playlists: the rewrite that carries the playback token, and the reorder that puts the cheapest
    stream first. */
module Playlist {
  import opened StableSort
  import opened Text

  const STREAM_TAG := "#EXT-X-STREAM-INF"
  const BANDWIDTH := "BANDWIDTH="

  datatype Variant = Variant(tag: string, uri: string)
  datatype Master = Master(header: seq<string>, variants: seq<Keyed<Variant>>)

  predicate IsUriLine(line: string) {
    Strip(line) != "" && Strip(line)[0] != '#'
  }

  predicate IsStreamTag(line: string) {
    STREAM_TAG <= line
  }

  // ---- The bandwidth of a stream tag ----

  predicate IsDigit(c: char) {
    '0' <= c <= '9'
  }

  /** The number written by the digits in front, read on from acc. */
  function ReadNumber(s: string, acc: nat): nat {
    if s == "" || !IsDigit(s[0]) then acc else ReadNumber(s[1..], 10 * acc + (s[0] - '0') as nat)
  }

  predicate MatchesHere(s: string) {
    BANDWIDTH <= s && |s| > |BANDWIDTH| && IsDigit(s[|BANDWIDTH|])
  }

  /** The first match of BANDWIDTH=(\d+), else 0. */
  function StreamBandwidth(line: string): nat {
    if line == "" then 0
    else if MatchesHere(line) then ReadNumber(line[|BANDWIDTH|..], 0)
    else StreamBandwidth(line[1..])
  }

  // ---- Reading and writing a master playlist ----

  /** From the first URI line on. */
  function FromUri(lines: seq<string>): (r: seq<string>)
    ensures |r| <= |lines| && (r != [] ==> IsUriLine(r[0]))
  {
    if lines == [] || IsUriLine(lines[0]) then lines else FromUri(lines[1..])
  }

  /** A stream tag takes the next URI line, however far, and what lies between is lost; a tag with no URI
      line after it is lost with everything behind it. */
  function Parse(lines: seq<string>): Master
    decreases |lines|
  {
    if lines == [] then Master([], [])
    else if IsStreamTag(lines[0]) then
      var at := FromUri(lines[1..]);
      if at == [] then Master([], [])
      else
        var m := Parse(at[1..]);
        Master(m.header, [Keyed(StreamBandwidth(lines[0]), Variant(lines[0], Strip(at[0])))] + m.variants)
    else
      var m := Parse(lines[1..]);
      Master([lines[0]] + m.header, m.variants)
  }

  function PrintVariants(vs: seq<Keyed<Variant>>): (r: seq<string>)
    ensures |r| == 2 * |vs|
  {
    if vs == [] then [] else [vs[0].item.tag, vs[0].item.uri] + PrintVariants(vs[1..])
  }

  function Print(m: Master): seq<string> {
    m.header + PrintVariants(m.variants)
  }

  function Ordered(lines: seq<string>): seq<string> {
    var m := Parse(lines);
    Print(Master(m.header, Sort(m.variants)))
  }

  function OrderedText(text: string): string {
    JoinLines(Ordered(SplitLines(text)))
  }

  method OrderForStartup(text: string) returns (r: string)
    ensures r == OrderedText(text)
  {
    hide Sort, JoinLines, SplitLines, StreamBandwidth, Strip, IsStreamTag;
    var lines := SplitLines(text);
    var header: seq<string>, variants: seq<Keyed<Variant>>, i := [], [], 0;
    while i < |lines|
      invariant i <= |lines|
      invariant Parse(lines) == Master(header + Parse(lines[i..]).header, variants + Parse(lines[i..]).variants)
    {
      var line := lines[i];
      if IsStreamTag(line) {
        ghost var here := i;
        assert lines[here..][1..] == lines[here + 1..];
        i := i + 1;
        var uri := "";
        while i < |lines|
          invariant here < i <= |lines| && uri == ""
          invariant FromUri(lines[here + 1..]) == FromUri(lines[i..])
        {
          var candidate := lines[i];
          assert lines[i..][1..] == lines[i + 1..];
          i := i + 1;
          if IsUriLine(candidate) {
            uri := Strip(candidate);
            break;
          }
        }
        if uri != "" {
          variants := variants + [Keyed(StreamBandwidth(line), Variant(line, uri))];
        }
      } else {
        assert lines[i..][1..] == lines[i + 1..];
        header := header + [line];
        i := i + 1;
      }
    }
    assert lines[i..] == [];
    assert Parse(lines) == Master(header, variants) by {
      assert Parse([]) == Master([], []);
      assert header + [] == header && variants + [] == variants;
    }
    variants := Sort(variants);
    var out := WriteMaster(header, variants);
    r := JoinLines(out);
  }

  method WriteMaster(header: seq<string>, variants: seq<Keyed<Variant>>) returns (out: seq<string>)
    ensures out == Print(Master(header, variants))
  {
    out := header;
    var j := 0;
    assert variants[j..] == variants;
    while j < |variants|
      invariant j <= |variants|
      invariant out + PrintVariants(variants[j..]) == header + PrintVariants(variants)
    {
      assert variants[j..][1..] == variants[j + 1..];
      out := out + [variants[j].item.tag] + [variants[j].item.uri];
      j := j + 1;
    }
    assert variants[j..] == [] && out + [] == out;
  }

  // ---- What reading yields, and reading back what was written ----

  /** What reading always yields: header lines are no stream tags, and each variant is a stream tag with
      its own bandwidth beside a trimmed URI line. */
  predicate CanonicalVariant(v: Keyed<Variant>) {
    && IsStreamTag(v.item.tag) && v.key == StreamBandwidth(v.item.tag)
    && IsUriLine(v.item.uri) && Trimmed(v.item.uri)
  }

  predicate Canonical(m: Master) {
    && (forall l :: l in m.header ==> !IsStreamTag(l))
    && (forall v :: v in m.variants ==> CanonicalVariant(v))
  }

  lemma StripTrimmed(s: string)
    requires Trimmed(s)
    ensures Strip(s) == s
  {
  }

  lemma UriStripped(line: string)
    requires IsUriLine(line)
    ensures IsUriLine(Strip(line)) && Trimmed(Strip(line)) && Strip(Strip(line)) == Strip(line)
    ensures !IsStreamTag(line)
  {
    StripTrims(line);
    StripTrimmed(Strip(line));
    if IsStreamTag(line) {
      StripKeepsHead(line);
    }
  }

  lemma {:induction false} ParseCanonical(lines: seq<string>)
    ensures Canonical(Parse(lines))
    decreases |lines|
  {
    if lines == [] {
    } else if IsStreamTag(lines[0]) {
      var at := FromUri(lines[1..]);
      if at != [] {
        ParseCanonical(at[1..]);
        UriStripped(at[0]);
      }
    } else {
      ParseCanonical(lines[1..]);
    }
  }

  lemma {:induction false} ParsePrintedVariants(vs: seq<Keyed<Variant>>)
    requires forall v :: v in vs ==> CanonicalVariant(v)
    ensures Parse(PrintVariants(vs)) == Master([], vs)
  {
    if vs != [] {
      ParsePrintedVariants(vs[1..]);
      var lines := PrintVariants(vs);
      assert CanonicalVariant(vs[0]);
      StripTrimmed(vs[0].item.uri);
      ParsePair(lines, 0);
      assert lines[0..] == lines && lines[2..] == PrintVariants(vs[1..]);
      assert vs == [vs[0]] + vs[1..];
      hide Parse, Strip, StreamBandwidth, IsStreamTag, IsUriLine;
    }
  }

  /** Reading undoes writing. */
  lemma {:induction false} ParsePrinted(m: Master)
    requires Canonical(m)
    ensures Parse(Print(m)) == m
    decreases |m.header|
  {
    if m.header == [] {
      ParsePrintedVariants(m.variants);
      assert Print(m) == PrintVariants(m.variants);
    } else {
      var rest := Master(m.header[1..], m.variants);
      ParsePrinted(rest);
      assert Print(m)[1..] == Print(rest);
      assert m.header[0] in m.header;
      assert m.header == [m.header[0]] + m.header[1..];
    }
  }

  lemma SortedCanonical(m: Master)
    requires Canonical(m)
    ensures Canonical(Master(m.header, Sort(m.variants)))
  {
    SortPermutes(m.variants);
    forall v | v in Sort(m.variants) ensures CanonicalVariant(v) {
      assert v in multiset(Sort(m.variants));
    }
  }

  /** The reordered playlist reads as the same header over the stably sorted variants. */
  lemma ParseOrdered(lines: seq<string>)
    ensures Parse(Ordered(lines)) == Master(Parse(lines).header, Sort(Parse(lines).variants))
  {
    ParseCanonical(lines);
    SortedCanonical(Parse(lines));
    ParsePrinted(Master(Parse(lines).header, Sort(Parse(lines).variants)));
  }

  lemma OrderedTwice(lines: seq<string>)
    ensures Ordered(Ordered(lines)) == Ordered(lines)
  {
    ParseOrdered(lines);
    SortIsStable(Parse(lines).variants);
    SortSorted(Sort(Parse(lines).variants));
  }

  // ---- Texts ----

  lemma {:induction false} ParsedOneLine(lines: seq<string>)
    requires AllOneLine(lines)
    ensures AllOneLine(Parse(lines).header)
    ensures forall v :: v in Parse(lines).variants ==> OneLine(v.item.tag) && OneLine(v.item.uri)
    decreases |lines|
  {
    hide OneLine;
    if lines == [] {
    } else if IsStreamTag(lines[0]) {
      var at := FromUri(lines[1..]);
      FromUriMembers(lines[1..]);
      assert lines[0] in lines;
      if at != [] {
        assert at[0] in at && forall l :: l in at[1..] ==> l in at;
        ParsedOneLine(at[1..]);
        StripOneLine(at[0]);
      }
    } else {
      ParsedOneLine(lines[1..]);
    }
  }

  lemma {:induction false} FromUriMembers(lines: seq<string>)
    ensures forall l :: l in FromUri(lines) ==> l in lines
  {
    if lines != [] && !IsUriLine(lines[0]) {
      FromUriMembers(lines[1..]);
    }
  }

  lemma StripOneLine(s: string)
    requires OneLine(s)
    ensures OneLine(Strip(s))
  {
    StripTrims(s);
  }

  lemma {:induction false} PrintedOneLine(vs: seq<Keyed<Variant>>)
    requires forall v :: v in vs ==> OneLine(v.item.tag) && OneLine(v.item.uri)
    ensures AllOneLine(PrintVariants(vs))
  {
    hide OneLine;
    if vs != [] {
      assert vs[0] in vs;
      PrintedOneLine(vs[1..]);
    }
  }

  lemma OrderedOneLine(lines: seq<string>)
    requires AllOneLine(lines)
    ensures AllOneLine(Ordered(lines))
  {
    hide OneLine;
    var m := Parse(lines);
    ParsedOneLine(lines);
    SortPermutes(m.variants);
    forall v | v in Sort(m.variants) ensures OneLine(v.item.tag) && OneLine(v.item.uri) {
      assert v in multiset(Sort(m.variants));
    }
    PrintedOneLine(Sort(m.variants));
  }

  /** The lines of the reordered text. */
  lemma OrderedLines(text: string)
    ensures var ls := Ordered(SplitLines(text)); SplitLines(OrderedText(text)) == if ls == [] then [""] else ls
  {
    SplitGivesLines(text);
    OrderedOneLine(SplitLines(text));
    SplitJoined(Ordered(SplitLines(text)));
  }

  /** Reordering a reordered playlist changes nothing, for every text. */
  lemma Idempotent(text: string)
    ensures OrderedText(OrderedText(text)) == OrderedText(text)
  {
    var ls := Ordered(SplitLines(text));
    OrderedLines(text);
    if ls == [] {
      BlankOrdered();
    } else {
      OrderedTwice(SplitLines(text));
    }
  }

  lemma BlankOrdered()
    ensures Ordered([""]) == [""] && JoinLines([""]) == JoinLines([]) == "\n"
  {
    assert !IsStreamTag("");
    assert Parse([""]) == Master([""], []);
  }

  // ---- Well-formed playlists ----

  /** Section 4.3.4.2 of RFC 8216: a URI line directly follows every stream tag. */
  predicate WellFormed(lines: seq<string>) {
    forall i :: 0 <= i < |lines| && IsStreamTag(lines[i]) ==> i + 1 < |lines| && IsUriLine(lines[i + 1])
  }

  predicate FollowsTag(lines: seq<string>, i: nat)
    requires i < |lines|
  {
    i > 0 && IsStreamTag(lines[i - 1])
  }

  /** Among the first n lines: those that neither are a stream tag nor follow one. */
  function HeaderLines(lines: seq<string>, n: nat): seq<string>
    requires n <= |lines|
  {
    if n == 0 then []
    else HeaderLines(lines, n - 1)
         + if IsStreamTag(lines[n - 1]) || FollowsTag(lines, n - 1) then [] else [lines[n - 1]]
  }

  /** Among the first n lines: each stream tag with the line after it. */
  function TagPairs(lines: seq<string>, n: nat): seq<Keyed<Variant>>
    requires n <= |lines|
  {
    if n == 0 then []
    else TagPairs(lines, n - 1)
         + if FollowsTag(lines, n - 1)
           then [Keyed(StreamBandwidth(lines[n - 2]), Variant(lines[n - 2], Strip(lines[n - 1])))] else []
  }

  lemma ParsePair(lines: seq<string>, i: nat)
    requires i + 1 < |lines| && IsStreamTag(lines[i]) && IsUriLine(lines[i + 1])
    ensures !IsStreamTag(lines[i + 1])
    ensures var v := Keyed(StreamBandwidth(lines[i]), Variant(lines[i], Strip(lines[i + 1])));
            Parse(lines[i..]) == Master(Parse(lines[i + 2..]).header, [v] + Parse(lines[i + 2..]).variants)
  {
    UriStripped(lines[i + 1]);
    hide IsStreamTag, IsUriLine, Strip, StreamBandwidth;
    var at := lines[i..][1..];
    assert at[0] == lines[i + 1] && FromUri(at) == at && at[1..] == lines[i + 2..];
  }

  lemma PairCounted(lines: seq<string>, i: nat)
    requires i + 1 < |lines| && IsStreamTag(lines[i]) && !IsStreamTag(lines[i + 1]) && !FollowsTag(lines, i)
    ensures HeaderLines(lines, i + 2) == HeaderLines(lines, i)
    ensures TagPairs(lines, i + 2) ==
            TagPairs(lines, i) + [Keyed(StreamBandwidth(lines[i]), Variant(lines[i], Strip(lines[i + 1])))]
  {
    hide IsStreamTag, Strip, StreamBandwidth;
    assert HeaderLines(lines, i + 1) == HeaderLines(lines, i);
    assert TagPairs(lines, i + 1) == TagPairs(lines, i);
  }

  lemma ParseHeaderLine(lines: seq<string>, i: nat)
    requires i < |lines| && !IsStreamTag(lines[i])
    ensures Parse(lines[i..]) == Master([lines[i]] + Parse(lines[i + 1..]).header, Parse(lines[i + 1..]).variants)
  {
    assert lines[i..][1..] == lines[i + 1..];
  }

  lemma HeaderCounted(lines: seq<string>, i: nat)
    requires i < |lines| && !IsStreamTag(lines[i]) && !FollowsTag(lines, i)
    ensures HeaderLines(lines, i + 1) == HeaderLines(lines, i) + [lines[i]]
    ensures TagPairs(lines, i + 1) == TagPairs(lines, i)
  {
    hide IsStreamTag, Strip, StreamBandwidth;
  }

  lemma {:induction false} WellFormedParse(lines: seq<string>, i: nat)
    requires WellFormed(lines) && i <= |lines| && (i < |lines| ==> !FollowsTag(lines, i))
    ensures HeaderLines(lines, |lines|) == HeaderLines(lines, i) + Parse(lines[i..]).header
    ensures TagPairs(lines, |lines|) == TagPairs(lines, i) + Parse(lines[i..]).variants
    decreases |lines| - i
  {
    hide Parse, IsStreamTag, IsUriLine, Strip, StreamBandwidth, HeaderLines, TagPairs;
    if i == |lines| {
      assert lines[i..] == [];
      NothingParsed();
    } else if IsStreamTag(lines[i]) {
      ParsePair(lines, i);
      WellFormedParse(lines, i + 2);
      PairCounted(lines, i);
      var v, rest := Keyed(StreamBandwidth(lines[i]), Variant(lines[i], Strip(lines[i + 1]))),
        Parse(lines[i + 2..]).variants;
      assert TagPairs(lines, i) + [v] + rest == TagPairs(lines, i) + ([v] + rest);
    } else {
      ParseHeaderLine(lines, i);
      WellFormedParse(lines, i + 1);
      HeaderCounted(lines, i);
      var rest := Parse(lines[i + 1..]).header;
      assert HeaderLines(lines, i) + [lines[i]] + rest == HeaderLines(lines, i) + ([lines[i]] + rest);
    }
  }

  lemma NothingParsed()
    ensures Parse([]) == Master([], [])
  {
  }

  /** The reordered playlist keeps the header lines in order, and its pairs are the input's pairs in
      ascending bandwidth, equal bandwidths in their input order; no other sequence of pairs is. */
  lemma WellFormedOrdered(lines: seq<string>, pairs: seq<Keyed<Variant>>)
    requires WellFormed(lines)
    ensures IsStableSortOf(pairs, TagPairs(lines, |lines|)) <==>
            (Parse(Ordered(lines)).variants == pairs
             && Ordered(lines) == HeaderLines(lines, |lines|) + PrintVariants(pairs))
    ensures Parse(Ordered(lines)).header == HeaderLines(lines, |lines|)
  {
    var m := Parse(lines);
    assert lines[0..] == lines;
    WellFormedParse(lines, 0);
    assert m.header == HeaderLines(lines, |lines|) && m.variants == TagPairs(lines, |lines|);
    ParseOrdered(lines);
    SortIsStable(m.variants);
    if IsStableSortOf(pairs, m.variants) {
      StableSortUnique(pairs, Sort(m.variants));
    }
  }

  lemma {:induction false} ParsedLength(lines: seq<string>)
    ensures |Parse(lines).header| + 2 * |Parse(lines).variants| <= |lines|
    ensures |Parse(lines).header| + 2 * |Parse(lines).variants| == |lines| <==> WellFormed(lines)
    decreases |lines|
  {
    if lines == [] {
    } else if IsStreamTag(lines[0]) {
      var rest := lines[1..];
      var at := FromUri(rest);
      if rest == [] || !IsUriLine(rest[0]) {
        assert !WellFormed(lines) by {
          assert IsStreamTag(lines[0]) && (rest != [] ==> rest[0] == lines[1]);
        }
        if rest != [] {
          assert |at| <= |rest[1..]|;
        }
        if at != [] {
          ParsedLength(at[1..]);
        }
      } else {
        UriStripped(rest[0]);
        assert rest[1..] == lines[2..] && rest[0] == lines[1];
        ParsedLength(lines[2..]);
        DropsWellFormed(lines, 2);
      }
    } else {
      ParsedLength(lines[1..]);
      DropsWellFormed(lines, 1);
    }
  }

  /** Dropping lines that hold no unanswered tag. */
  lemma DropsWellFormed(lines: seq<string>, n: nat)
    requires n <= |lines|
    requires forall i :: 0 <= i < n && IsStreamTag(lines[i]) ==> i + 1 < |lines| && IsUriLine(lines[i + 1])
    ensures WellFormed(lines) <==> WellFormed(lines[n..])
  {
    var rest := lines[n..];
    if WellFormed(rest) {
      forall i | 0 <= i < |lines| && IsStreamTag(lines[i]) ensures i + 1 < |lines| && IsUriLine(lines[i + 1]) {
        if i >= n {
          assert rest[i - n] == lines[i];
          assert rest[i - n + 1] == lines[i + 1];
        }
      }
    }
    if WellFormed(lines) {
      forall i | 0 <= i < |rest| && IsStreamTag(rest[i]) ensures i + 1 < |rest| && IsUriLine(rest[i + 1]) {
        assert rest[i] == lines[i + n] && lines[i + n + 1] == rest[i + 1];
      }
    }
  }

  /** No line is lost exactly when the playlist is well-formed. */
  lemma LosesNothingIff(lines: seq<string>)
    ensures |Ordered(lines)| <= |lines|
    ensures |Ordered(lines)| == |lines| <==> WellFormed(lines)
  {
    ParsedLength(lines);
    SortPermutes(Parse(lines).variants);
  }

  // ---- The token rewrite ----

  function Rewritten(line: string, token: string): string {
    if IsUriLine(line) then "v/" + Strip(line) + "?t=" + token else line
  }

  function RewrittenLines(lines: seq<string>, token: string): (r: seq<string>)
    ensures |r| == |lines|
  {
    if lines == [] then [] else [Rewritten(lines[0], token)] + RewrittenLines(lines[1..], token)
  }

  function RewrittenText(text: string, token: string): string {
    JoinLines(RewrittenLines(SplitLines(text), token))
  }

  method BuildMaster(text: string, token: string) returns (r: string)
    ensures r == OrderedText(RewrittenText(text, token))
  {
    hide SplitLines, JoinLines, Strip;
    var lines := SplitLines(text);
    var out, i := [], 0;
    while i < |lines|
      invariant i <= |lines|
      invariant RewrittenLines(lines, token) == out + RewrittenLines(lines[i..], token)
    {
      assert lines[i..][1..] == lines[i + 1..];
      if IsUriLine(lines[i]) {
        out := out + ["v/" + Strip(lines[i]) + "?t=" + token];
      } else {
        out := out + [lines[i]];
      }
      i := i + 1;
    }
    assert lines[i..] == [] && RewrittenLines(lines, token) == out;
    r := OrderForStartup(JoinLines(out));
  }

  /** A playback token holds no whitespace. */
  predicate Solid(token: string) {
    forall c :: c in token ==> !IsSpace(c)
  }

  function RewrittenVariant(token: string): Variant -> Variant {
    (v: Variant) => Variant(v.tag, Rewritten(v.uri, token))
  }

  function RewrittenMaster(m: Master, token: string): Master {
    Master(RewrittenLines(m.header, token), MapItems(m.variants, RewrittenVariant(token)))
  }

  lemma RewrittenUri(line: string, token: string)
    requires IsUriLine(line) && Solid(token)
    ensures var r := Rewritten(line, token);
            IsUriLine(r) && Strip(r) == r && r == Rewritten(Strip(line), token)
  {
    UriStripped(line);
    var r := Rewritten(line, token);
    assert r[0] == 'v' && r[|r| - 1] == if token == "" then '=' else token[|token| - 1];
    StripTrimmed(r);
  }

  lemma RewriteKeepsKind(line: string, token: string)
    requires Solid(token)
    ensures IsUriLine(Rewritten(line, token)) <==> IsUriLine(line)
    ensures IsStreamTag(Rewritten(line, token)) <==> IsStreamTag(line)
    ensures IsStreamTag(line) ==> Rewritten(line, token) == line
  {
    if IsUriLine(line) {
      RewrittenUri(line, token);
      UriStripped(line);
      UriStripped(Rewritten(line, token));
    }
  }

  lemma {:induction false} FromUriRewritten(lines: seq<string>, token: string)
    requires Solid(token)
    ensures FromUri(RewrittenLines(lines, token)) == RewrittenLines(FromUri(lines), token)
  {
    if lines != [] {
      RewriteKeepsKind(lines[0], token);
      if !IsUriLine(lines[0]) {
        FromUriRewritten(lines[1..], token);
      }
    }
  }

  lemma {:induction false} ParseRewritten(lines: seq<string>, token: string)
    requires Solid(token)
    ensures Parse(RewrittenLines(lines, token)) == RewrittenMaster(Parse(lines), token)
    decreases |lines|
  {
    hide Rewritten, Strip, IsStreamTag, IsUriLine;
    if lines != [] {
      RewriteKeepsKind(lines[0], token);
      if IsStreamTag(lines[0]) {
        FromUriRewritten(lines[1..], token);
        var at := FromUri(lines[1..]);
        if at != [] {
          RewrittenUri(at[0], token);
          ParseRewritten(at[1..], token);
        }
      } else {
        ParseRewritten(lines[1..], token);
      }
    }
  }

  lemma {:induction false} RewrittenJoin(a: seq<string>, b: seq<string>, token: string)
    ensures RewrittenLines(a + b, token) == RewrittenLines(a, token) + RewrittenLines(b, token)
  {
    if a == [] {
      assert a + b == b;
    } else {
      assert (a + b)[1..] == a[1..] + b;
      RewrittenJoin(a[1..], b, token);
    }
  }

  lemma {:induction false} PrintRewritten(vs: seq<Keyed<Variant>>, token: string)
    requires Solid(token) && forall v :: v in vs ==> CanonicalVariant(v)
    ensures RewrittenLines(PrintVariants(vs), token) == PrintVariants(MapItems(vs, RewrittenVariant(token)))
  {
    if vs != [] {
      assert CanonicalVariant(vs[0]);
      PrintRewritten(vs[1..], token);
      RewriteKeepsKind(vs[0].item.tag, token);
      RewrittenJoin([vs[0].item.tag, vs[0].item.uri], PrintVariants(vs[1..]), token);
    }
  }

  lemma RewriteCommutesOnLines(lines: seq<string>, token: string)
    requires Solid(token)
    ensures Ordered(RewrittenLines(lines, token)) == RewrittenLines(Ordered(lines), token)
  {
    var m := Parse(lines);
    ParseRewritten(lines, token);
    SortMapped(m.variants, RewrittenVariant(token));
    ParseCanonical(lines);
    SortedCanonical(m);
    PrintRewritten(Sort(m.variants), token);
    RewrittenJoin(m.header, PrintVariants(Sort(m.variants)), token);
  }

  lemma {:induction false} RewrittenOneLine(lines: seq<string>, token: string)
    requires AllOneLine(lines) && Solid(token)
    ensures AllOneLine(RewrittenLines(lines, token))
  {
    if lines != [] {
      assert lines[0] in lines;
      StripTrims(lines[0]);
      RewrittenOneLine(lines[1..], token);
    }
  }

  /** A line carries the URI u: u is its text without the space around it, and u does not start with a '#'. */
  ghost predicate CarriesUri(line: string, u: string) {
    Padded(line, u) && u[0] != '#'
  }

  lemma UriLineIff(line: string)
    ensures IsUriLine(line) <==> exists u :: CarriesUri(line, u)
    ensures IsUriLine(line) ==> CarriesUri(line, Strip(line))
    ensures forall u :: CarriesUri(line, u) ==> u == Strip(line)
  {
    StripMeans(line, Strip(line));
    forall u | CarriesUri(line, u)
      ensures u == Strip(line) && u != "" && u[0] != '#'
    {
      StripMeans(line, u);
    }
    assert IsUriLine(line) ==> CarriesUri(line, Strip(line));
  }

  lemma {:induction false} RewrittenAt(lines: seq<string>, token: string, i: nat)
    requires i < |lines|
    ensures RewrittenLines(lines, token)[i] == Rewritten(lines[i], token)
  {
    if i > 0 {
      RewrittenAt(lines[1..], token, i - 1);
    }
  }

  /** What is served: the reordered playlist line by line, each URI u replaced by v/u?t= and the token, every other line
      as it was. */
  lemma ServedLines(text: string, token: string, i: nat)
    requires Solid(token) && Ordered(SplitLines(text)) != []
    ensures var ordered := Ordered(SplitLines(text));
            var served := SplitLines(OrderedText(RewrittenText(text, token)));
            && |served| == |ordered|
            && (i < |served| ==>
                  && (forall u :: CarriesUri(ordered[i], u) ==> served[i] == "v/" + u + "?t=" + token)
                  && ((forall u :: !CarriesUri(ordered[i], u)) ==> served[i] == ordered[i]))
  {
    var ordered := Ordered(SplitLines(text));
    SplitGivesLines(text);
    RewriteCommutes(text, token);
    OrderedLines(text);
    OrderedOneLine(SplitLines(text));
    RewrittenOneLine(ordered, token);
    SplitJoined(RewrittenLines(ordered, token));
    if i < |ordered| {
      RewrittenAt(ordered, token, i);
      UriLineIff(ordered[i]);
    }
    hide Ordered, OrderedText, SplitLines, JoinLines, RewrittenLines, CarriesUri, IsUriLine, Strip;
  }

  /** Reordering and rewriting commute, for every text: the reorder can run before or after the token is in. */
  lemma RewriteCommutes(text: string, token: string)
    requires Solid(token)
    ensures OrderedText(RewrittenText(text, token)) == RewrittenText(OrderedText(text), token)
  {
    var lines := SplitLines(text);
    SplitGivesLines(text);
    RewrittenOneLine(lines, token);
    SplitJoined(RewrittenLines(lines, token));
    OrderedLines(text);
    RewriteCommutesOnLines(lines, token);
    BlankOrdered();
    BlankRewritten(token);
  }

  lemma BlankRewritten(token: string)
    ensures RewrittenLines([""], token) == [""] && RewrittenLines([], token) == []
  {
    assert RewrittenLines([""][1..], token) == [];
  }

  // ---- Bandwidth ----

  function Decimal(n: nat): (r: string)
    ensures r != "" && forall c :: c in r ==> IsDigit(c)
  {
    (if n < 10 then "" else Decimal(n / 10)) + [('0' as int + n % 10) as char]
  }

  lemma {:induction false} ReadDigits(s: string, d: char, rest: string, acc: nat)
    requires (forall c :: c in s ==> IsDigit(c)) && IsDigit(d) && (rest == "" || !IsDigit(rest[0]))
    ensures ReadNumber(s + [d] + rest, acc) == 10 * ReadNumber(s, acc) + (d - '0') as nat
  {
    if s == "" {
      assert (s + [d] + rest)[1..] == rest;
    } else {
      assert (s + [d] + rest)[1..] == s[1..] + [d] + rest;
      assert s[0] in s;
      ReadDigits(s[1..], d, rest, 10 * acc + (s[0] - '0') as nat);
    }
  }

  lemma {:induction false} ReadDecimal(n: nat, rest: string)
    requires rest == "" || !IsDigit(rest[0])
    ensures ReadNumber(Decimal(n) + rest, 0) == n
  {
    var d := ('0' as int + n % 10) as char;
    var front := if n < 10 then "" else Decimal(n / 10);
    assert Decimal(n) + rest == front + [d] + rest;
    ReadDigits(front, d, rest, 0);
    if n >= 10 {
      ReadDecimal(n / 10, "");
      assert Decimal(n / 10) + "" == Decimal(n / 10);
    }
  }

  /** No match starts inside the first n characters. */
  predicate NoMatchBefore(line: string, n: nat)
    requires n <= |line|
  {
    forall i :: 0 <= i < n ==> !MatchesHere(line[i..])
  }

  /** The first attribute whose name ends in BANDWIDTH decides, whichever attribute that is. */
  lemma {:induction false} FirstBandwidthWins(before: string, n: nat, rest: string)
    requires rest == "" || !IsDigit(rest[0])
    requires NoMatchBefore(before + BANDWIDTH + Decimal(n) + rest, |before|)
    ensures StreamBandwidth(before + BANDWIDTH + Decimal(n) + rest) == n
  {
    var line := before + BANDWIDTH + Decimal(n) + rest;
    if before == "" {
      assert line[|BANDWIDTH|..] == Decimal(n) + rest;
      assert line[|BANDWIDTH|] == Decimal(n)[0];
      ReadDecimal(n, rest);
    } else {
      assert !MatchesHere(line[0..]) && line[0..] == line;
      assert line[1..] == before[1..] + BANDWIDTH + Decimal(n) + rest;
      forall i | 0 <= i < |before| - 1 ensures !MatchesHere(line[1..][i..]) {
        assert line[1..][i..] == line[i + 1..];
      }
      FirstBandwidthWins(before[1..], n, rest);
    }
  }

  /** The number written after a match. */
  function NumberAt(line: string, i: nat): nat
    requires i <= |line| && MatchesHere(line[i..])
  {
    ReadNumber(line[i + |BANDWIDTH|..], 0)
  }

  lemma {:induction false} FirstMatchDecides(line: string, i: nat)
    requires i <= |line| && MatchesHere(line[i..]) && NoMatchBefore(line, i)
    ensures StreamBandwidth(line) == NumberAt(line, i)
  {
    if i == 0 {
      assert line[0..] == line;
    } else {
      assert !MatchesHere(line[0..]) && line[0..] == line;
      assert line[1..][i - 1..] == line[i..];
      assert line[1..][i - 1 + |BANDWIDTH|..] == line[i + |BANDWIDTH|..];
      forall k | 0 <= k < i - 1
        ensures !MatchesHere(line[1..][k..])
      {
        assert line[1..][k..] == line[k + 1..];
      }
      FirstMatchDecides(line[1..], i - 1);
    }
  }

  /** A tag without such an attribute sorts as zero. */
  lemma {:induction false} NoMatchIsZero(line: string)
    requires NoMatchBefore(line, |line|)
    ensures StreamBandwidth(line) == 0
  {
    if line != "" {
      assert !MatchesHere(line[0..]) && line[0..] == line;
      forall k | 0 <= k < |line| - 1
        ensures !MatchesHere(line[1..][k..])
      {
        assert line[1..][k..] == line[k + 1..];
      }
      NoMatchIsZero(line[1..]);
    }
  }

  /** The BANDWIDTH attribute itself: its name starts the attribute list or follows a comma. */
  predicate AttributeAt(line: string, i: nat) {
    0 < i <= |line| && line[i - 1] in {':', ','} && MatchesHere(line[i..])
  }

  /** Some attribute ending in BANDWIDTH, with another number, comes first. */
  ghost predicate Overtaken(line: string, i: nat)
    requires i <= |line| && MatchesHere(line[i..])
  {
    exists j: nat :: j < i && MatchesHere(line[j..]) && NoMatchBefore(line, j) && NumberAt(line, j) != NumberAt(line, i)
  }

  lemma {:induction false} FirstMatch(line: string, n: nat)
    requires n <= |line| && !NoMatchBefore(line, n)
    ensures exists j: nat :: j < n && MatchesHere(line[j..]) && NoMatchBefore(line, j)
  {
    if NoMatchBefore(line, n - 1) {
      assert MatchesHere(line[n - 1..]);
    } else {
      FirstMatch(line, n - 1);
    }
  }

  /** The sort key is the number of the BANDWIDTH attribute exactly for the lines in which no attribute whose name
      merely ends in BANDWIDTH stands before it with another number. */
  lemma KeyIsAttributeIff(line: string, i: nat)
    requires AttributeAt(line, i)
    ensures StreamBandwidth(line) == NumberAt(line, i) <==> !Overtaken(line, i)
  {
    hide MatchesHere, ReadNumber;
    if NoMatchBefore(line, i) {
      FirstMatchDecides(line, i);
    } else {
      FirstMatch(line, i);
      var j: nat :| j < i && MatchesHere(line[j..]) && NoMatchBefore(line, j);
      FirstMatchDecides(line, j);
    }
    forall j: nat | j < i && MatchesHere(line[j..]) && NoMatchBefore(line, j)
      ensures StreamBandwidth(line) == NumberAt(line, j)
    {
      FirstMatchDecides(line, j);
    }
  }

  /** An average bandwidth written first is the key, whatever the bandwidth after it. */
  lemma AverageWins(average: nat, peak: nat)
    ensures var line := STREAM_TAG + ":AVERAGE-" + BANDWIDTH + Decimal(average) + "," + BANDWIDTH + Decimal(peak);
            StreamBandwidth(line) == average
  {
    var before, rest := STREAM_TAG + ":AVERAGE-", "," + BANDWIDTH + Decimal(peak);
    var line := before + BANDWIDTH + Decimal(average) + rest;
    assert line == STREAM_TAG + ":AVERAGE-" + BANDWIDTH + Decimal(average) + "," + BANDWIDTH + Decimal(peak);
    assert before == "#EXT-X-STREAM-INF:AVERAGE-";
    forall i | 0 <= i < |before|
      ensures !MatchesHere(line[i..])
    {
      assert line[i..][0] == before[i] && 'B' !in before;
    }
    FirstBandwidthWins(before, average, rest);
  }
}
