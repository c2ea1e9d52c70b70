/** The text of a fact file: a front matter of metadata lines between `---` and the content. */
module FactText {
  import opened Wrappers
  import opened Text

  /** The JSON codec; `raw` is a value read as plain text because it does not load. */
  datatype Codec<!J> = Codec(dumps: J -> string, loads: string -> Option<J>, raw: string -> J)

  /** What `json.dumps` gives: one line of printable ASCII, no space at either end, loading back. */
  predicate CleanText(s: string) {
    && s != "" && (forall i | 0 <= i < |s| :: 0x20 <= s[i] as int <= 0x7F)
    && s[0] != ' ' && s[|s| - 1] != ' '
  }

  ghost predicate Inverts<J(!new)>(codec: Codec<J>) {
    forall v: J :: codec.loads(codec.dumps(v)) == Some(v) && CleanText(codec.dumps(v))
  }

  /** A dictionary in insertion order. */
  type Meta<J> = seq<(string, J)>

  // ---- Rendering ----------------------------------------------------------------------------

  function RStrip(s: string): string {
    if s != "" && IsSpace(s[|s| - 1]) then RStrip(s[..|s| - 1]) else s
  }

  function LStrip(s: string): string {
    if s != "" && IsSpace(s[0]) then LStrip(s[1..]) else s
  }

  function Strip(s: string): string { RStrip(LStrip(s)) }

  function LStripNewlines(s: string): string {
    if s != "" && s[0] == '\n' then LStripNewlines(s[1..]) else s
  }

  function Line<J>(codec: Codec<J>, item: (string, J)): string { item.0 + ": " + codec.dumps(item.1) }

  /** The metadata lines, each with its line break. */
  function Block<J>(codec: Codec<J>, meta: Meta<J>): string {
    if meta == [] then "" else Line(codec, meta[0]) + "\n" + Block(codec, meta[1..])
  }

  function Render<J>(codec: Codec<J>, meta: Meta<J>, content: string): string {
    "---\n" + Block(codec, meta) + "---\n\n" + RStrip(content) + "\n"
  }

  // ---- Parsing ------------------------------------------------------------------------------

  predicate DashesAt(s: string, i: nat) { i + 3 <= |s| && s[i] == '-' && s[i + 1] == '-' && s[i + 2] == '-' }

  /** The first `---`. */
  function FindDashes(s: string): (r: Option<nat>)
    ensures r.Some? ==> DashesAt(s, r.value) && forall i: nat | i < r.value :: !DashesAt(s, i)
    ensures r.None? ==> forall i: nat :: !DashesAt(s, i)
  {
    if |s| < 3 then None
    else if DashesAt(s, 0) then Some(0)
    else
      var r := FindDashes(s[1..]);
      assert forall i: nat | i > 0 :: DashesAt(s, i) <==> DashesAt(s[1..], i - 1);
      if r.None? then None else Some(r.value + 1)
  }

  predicate IsBreak(c: char) {
    var n := c as int;
    0x0A <= n <= 0x0D || 0x1C <= n <= 0x1E || n == 0x85 || n == 0x2028 || n == 0x2029
  }

  function FirstBreak(s: string): (r: nat)
    ensures r <= |s| && (r < |s| ==> IsBreak(s[r])) && forall i | 0 <= i < r :: !IsBreak(s[i])
  {
    if s == "" || IsBreak(s[0]) then 0 else 1 + FirstBreak(s[1..])
  }

  /** `str.splitlines`: a carriage return and a line feed are one break, no empty last line. */
  function SplitLines(s: string): seq<string>
    decreases |s|
  {
    if s == "" then []
    else
      var i := FirstBreak(s);
      if i == |s| then [s]
      else if s[i] == '\r' && i + 1 < |s| && s[i + 1] == '\n' then [s[..i]] + SplitLines(s[i + 2..])
      else [s[..i]] + SplitLines(s[i + 1..])
  }

  function FirstColon(s: string): (r: nat)
    ensures r <= |s| && (r < |s| ==> s[r] == ':') && forall i | 0 <= i < r :: s[i] != ':'
  {
    if s == "" || s[0] == ':' then 0 else 1 + FirstColon(s[1..])
  }

  function Set<J>(meta: Meta<J>, key: string, v: J): Meta<J> {
    if meta == [] then [(key, v)]
    else if meta[0].0 == key then [(key, v)] + meta[1..]
    else [meta[0]] + Set(meta[1..], key, v)
  }

  /** One metadata line: blank lines, comments and lines without a colon say nothing. */
  function ParseLine<J>(codec: Codec<J>, meta: Meta<J>, raw: string): Meta<J> {
    if Blank(raw) || (LStrip(raw) != "" && LStrip(raw)[0] == '#') then meta
    else
      var i := FirstColon(raw);
      if i == |raw| then meta
      else
        var value := Strip(raw[i + 1..]);
        var loaded := codec.loads(value);
        Set(meta, Strip(raw[..i]), if loaded.Some? then loaded.value else codec.raw(value))
  }

  function ParseLines<J>(codec: Codec<J>, lines: seq<string>): Meta<J> {
    if lines == [] then [] else ParseLine(codec, ParseLines(codec, lines[..|lines| - 1]), lines[|lines| - 1])
  }

  /** Text without a complete front matter is all content. */
  function Parse<J>(codec: Codec<J>, text: string): (Meta<J>, string) {
    if !DashesAt(text, 0) then ([], text)
    else
      var end := FindDashes(text[3..]);
      if end.None? then ([], text)
      else (ParseLines(codec, SplitLines(Strip(text[3..][..end.value]))), LStripNewlines(text[3..][end.value + 3..]))
  }

  // ---- The two functions as loops -----------------------------------------------------------

  function JoinLines(lines: seq<string>): string {
    if lines == [] then "" else if |lines| == 1 then lines[0] else lines[0] + "\n" + JoinLines(lines[1..])
  }

  method RenderFact<J>(codec: Codec<J>, meta: Meta<J>, content: string) returns (text: string)
    ensures text == Render(codec, meta, content)
  {
    hide RStrip;
    var lines := ["---"];
    for i := 0 to |meta|
      invariant lines == ["---"] + Lines(codec, meta[..i])
    {
      LinesAppend(codec, meta, i);
      lines := lines + [Line(codec, meta[i])];
    }
    assert meta[..|meta|] == meta;
    lines := lines + ["---", "", RStrip(content)];
    JoinedBlock(codec, meta, ["---", "", RStrip(content)]);
    assert lines == ["---"] + (Lines(codec, meta) + ["---", "", RStrip(content)]);
    JoinTail(RStrip(content));
    return JoinLines(lines) + "\n";
  }

  function Lines<J>(codec: Codec<J>, meta: Meta<J>): (r: seq<string>)
    ensures |r| == |meta| && forall i | 0 <= i < |meta| :: r[i] == Line(codec, meta[i])
  {
    if meta == [] then [] else [Line(codec, meta[0])] + Lines(codec, meta[1..])
  }

  lemma LinesAppend<J>(codec: Codec<J>, meta: Meta<J>, i: nat)
    requires i < |meta|
    ensures Lines(codec, meta[..i + 1]) == Lines(codec, meta[..i]) + [Line(codec, meta[i])]
  {}

  lemma {:induction false} JoinedBlock<J>(codec: Codec<J>, meta: Meta<J>, rest: seq<string>)
    requires rest != []
    ensures JoinLines(Lines(codec, meta) + rest) == Block(codec, meta) + JoinLines(rest)
    decreases |meta|
  {
    var all := Lines(codec, meta) + rest;
    if meta == [] {
      assert all == rest;
    } else {
      assert all[1..] == Lines(codec, meta[1..]) + rest;
      JoinedBlock(codec, meta[1..], rest);
      assert all[0] == Line(codec, meta[0]);
    }
  }

  lemma JoinTail(content: string)
    ensures JoinLines(["---", "", content]) == "---\n\n" + content
  {
    var tail := ["---", "", content];
    assert tail[1..] == ["", content] && tail[1..][1..] == [content];
    assert JoinLines([content]) == content;
    assert JoinLines(["", content]) == "\n" + content;
  }

  method ParseFact<J>(codec: Codec<J>, text: string) returns (r: (Meta<J>, string))
    ensures r == Parse(codec, text)
  {
    hide ParseLine, Strip, SplitLines, LStripNewlines;
    if !DashesAt(text, 0) {
      return ([], text);
    }
    var end := FindDashes(text[3..]);
    if end.None? {
      return ([], text);
    }
    var lines := SplitLines(Strip(text[3..][..end.value]));
    var meta: Meta<J> := [];
    for i := 0 to |lines|
      invariant meta == ParseLines(codec, lines[..i])
    {
      assert lines[..i + 1][..i] == lines[..i];
      meta := ParseLine(codec, meta, lines[i]);
    }
    assert lines[..|lines|] == lines;
    return (meta, LStripNewlines(text[3..][end.value + 3..]));
  }

  // ---- Stripping ----------------------------------------------------------------------------

  /** What a read gives back for some content: trailing space gone, one line break added, leading
      line breaks gone. */
  function Norm(content: string): string { LStripNewlines(RStrip(content) + "\n") }

  lemma {:induction false} RStripIs(s: string)
    ensures RStrip(s) <= s
    ensures RStrip(s) == "" || !IsSpace(RStrip(s)[|RStrip(s)| - 1])
    ensures RStrip(s) == "" <==> Blank(s)
    decreases |s|
  {
    hide IsSpace;
    if s != "" && IsSpace(s[|s| - 1]) {
      var n := |s| - 1;
      RStripIs(s[..n]);
      assert Blank(s[..n]) <==> Blank(s) by {
        if Blank(s[..n]) { assert forall i | 0 <= i < n :: IsSpace(s[..n][i]); }
        if Blank(s) { assert forall i | 0 <= i < n :: s[..n][i] == s[i]; }
      }
    }
  }

  lemma {:induction false} RStripSpaces(s: string, t: string)
    requires Blank(t)
    ensures RStrip(s + t) == RStrip(s)
    decreases |t|
  {
    hide IsSpace;
    if t == "" {
      assert s + t == s;
    } else {
      var n := |t| - 1;
      assert (s + t)[..|s + t| - 1] == s + t[..n];
      assert forall i | 0 <= i < n :: t[..n][i] == t[i];
      RStripSpaces(s, t[..n]);
    }
  }

  lemma {:induction false} NewlinesOnly(s: string)
    ensures LStripNewlines(s) == "" || LStripNewlines(s)[0] != '\n'
    ensures |LStripNewlines(s)| <= |s| && LStripNewlines(s) == s[|s| - |LStripNewlines(s)|..]
    decreases |s|
  {
    if s != "" && s[0] == '\n' { NewlinesOnly(s[1..]); }
  }

  /** Leading line breaks stop at the first other character. */
  lemma {:induction false} NewlinesKeep(s: string, t: string)
    requires s != "" && s[|s| - 1] != '\n'
    ensures LStripNewlines(s + t) == LStripNewlines(s) + t
    ensures LStripNewlines(s) != "" && LStripNewlines(s)[|LStripNewlines(s)| - 1] == s[|s| - 1]
    decreases |s|
  {
    if s[0] == '\n' {
      assert (s + t)[1..] == s[1..] + t;
      NewlinesKeep(s[1..], t);
    }
  }

  lemma NormIs(content: string)
    ensures Blank(content) ==> Norm(content) == ""
    ensures !Blank(content) ==>
      var r := LStripNewlines(RStrip(content));
      Norm(content) == r + "\n" && r != "" && !IsSpace(r[|r| - 1]) && r[0] != '\n'
  {
    RStripIs(content);
    var r := RStrip(content);
    if r == "" {
      assert r + "\n" == "\n" && ("\n")[1..] == "";
    } else {
      assert IsSpace('\n');
      NewlinesKeep(r, "\n");
      NewlinesOnly(r);
    }
  }

  /** A second write and read changes nothing. */
  lemma NormIdempotent(content: string)
    ensures Norm(Norm(content)) == Norm(content)
  {
    NormIs(content);
    if Blank(content) {
      NormIs("");
    } else {
      var r := LStripNewlines(RStrip(content));
      assert IsSpace('\n');
      RStripSpaces(r, "\n");
      assert RStrip(r) == r;
      NewlinesKeep(r, "\n");
      assert LStripNewlines(r) == r;
    }
  }

  // ---- The round trip -----------------------------------------------------------------------

  /** A key that survives a metadata line. */
  predicate GoodKey(key: string) {
    && key != "" && !IsSpace(key[0]) && key[0] != '#' && !IsSpace(key[|key| - 1])
    && forall i | 0 <= i < |key| :: key[i] != ':' && !IsBreak(key[i])
  }

  ghost predicate GoodMeta<J>(meta: Meta<J>) {
    && (forall i | 0 <= i < |meta| :: GoodKey(meta[i].0))
    && (forall i, j | 0 <= i < j < |meta| :: meta[i].0 != meta[j].0)
  }

  predicate HasDashes(s: string) { exists i: nat :: i < |s| && DashesAt(s, i) }

  /** Some rendered metadata line contains `---`. */
  ghost predicate DashedLine<J>(codec: Codec<J>, meta: Meta<J>) {
    exists i :: 0 <= i < |meta| && HasDashes(Line(codec, meta[i]))
  }

  /** Dashes never straddle a line break. */
  lemma DashesConcat(a: string, b: string)
    ensures HasDashes(a + "\n" + b) <==> HasDashes(a) || HasDashes(b)
  {
    var s := a + "\n" + b;
    assert s[|a|] == '\n';
    forall i: nat | i < |a| ensures DashesAt(s, i) <==> DashesAt(a, i) {
      if i + 3 <= |a| {
        assert s[i] == a[i] && s[i + 1] == a[i + 1] && s[i + 2] == a[i + 2];
      }
    }
    forall i: nat | i < |b| ensures DashesAt(s, |a| + 1 + i) <==> DashesAt(b, i) {
      if i + 3 <= |b| {
        assert s[|a| + 1 + i] == b[i] && s[|a| + 1 + i + 1] == b[i + 1] && s[|a| + 1 + i + 2] == b[i + 2];
      }
    }
    if HasDashes(s) {
      var i: nat :| i < |s| && DashesAt(s, i);
      if i < |a| {
        assert DashesAt(a, i);
      } else {
        assert DashesAt(b, i - |a| - 1);
      }
    }
  }

  lemma {:induction false} BlockDashes<J>(codec: Codec<J>, meta: Meta<J>)
    ensures HasDashes(Block(codec, meta)) <==> DashedLine(codec, meta)
    decreases |meta|
  {
    hide HasDashes, Line;
    if meta == [] {
      NoDashesInEmpty();
    } else {
      var rest := meta[1..];
      BlockDashes(codec, rest);
      DashesConcat(Line(codec, meta[0]), Block(codec, rest));
      assert forall i | 1 <= i < |meta| :: meta[i] == rest[i - 1];
      if DashedLine(codec, rest) {
        var i :| 0 <= i < |rest| && HasDashes(Line(codec, rest[i]));
        assert HasDashes(Line(codec, meta[i + 1]));
      }
    }
  }

  lemma NoDashesInEmpty()
    ensures !HasDashes("")
  {}

  /** The front matter as the parser sees it: after the opening dashes. */
  function Front<J>(codec: Codec<J>, meta: Meta<J>): string { "\n" + Block(codec, meta) }

  function Tail(content: string): string { "\n\n" + RStrip(content) + "\n" }

  lemma RenderShape<J>(codec: Codec<J>, meta: Meta<J>, content: string)
    ensures var text := Render(codec, meta, content);
      DashesAt(text, 0) && text[3..] == Front(codec, meta) + "---" + Tail(content)
  {
    var text := Render(codec, meta, content);
    assert text == "---" + (Front(codec, meta) + "---" + Tail(content));
  }

  lemma {:induction false} FrontEnds<J>(codec: Codec<J>, meta: Meta<J>)
    ensures Front(codec, meta) != "" && Front(codec, meta)[|Front(codec, meta)| - 1] == '\n'
    decreases |meta|
  {
    if meta != [] {
      FrontEnds(codec, meta[1..]);
      assert Front(codec, meta) == "\n" + Line(codec, meta[0]) + Front(codec, meta[1..]);
    }
  }

  lemma FrontDashes<J>(codec: Codec<J>, meta: Meta<J>)
    ensures HasDashes(Front(codec, meta)) <==> DashedLine(codec, meta)
  {
    BlockDashes(codec, meta);
    DashesConcat("", Block(codec, meta));
    assert "" + "\n" + Block(codec, meta) == Front(codec, meta);
  }

  /** The closing dashes are found exactly where they were put, unless a line has its own. */
  lemma WhereDashes(front: string, tail: string)
    requires front != "" && front[|front| - 1] == '\n'
    ensures var r := FindDashes(front + "---" + tail);
      && r.Some? && (HasDashes(front) ==> r.value + 3 <= |front|) && (!HasDashes(front) ==> r.value == |front|)
  {
    var s, n := front + "---" + tail, |front|;
    assert s[n] == '-' && s[n + 1] == '-' && s[n + 2] == '-' && s[n - 1] == '\n';
    assert DashesAt(s, n);
    forall i: nat | i < n ensures DashesAt(s, i) <==> DashesAt(front, i) {
      if i + 3 <= n { assert s[i] == front[i] && s[i + 1] == front[i + 1] && s[i + 2] == front[i + 2]; }
    }
    if HasDashes(front) {
      var i: nat :| i < |front| && DashesAt(front, i);
      assert DashesAt(s, i);
    }
  }

  lemma {:induction false} NewlinesAtLeast(x: string, t: string)
    requires t != "" && t[0] != '\n'
    ensures |LStripNewlines(x + t)| >= |t|
    decreases |x|
  {
    if x == "" {
      assert x + t == t;
    } else if x[0] == '\n' {
      assert (x + t)[1..] == x[1..] + t;
      NewlinesAtLeast(x[1..], t);
    }
  }

  lemma TailIsNorm(content: string)
    ensures LStripNewlines(Tail(content)) == Norm(content) && |Norm(content)| <= |RStrip(content)| + 1
  {
    var c := RStrip(content) + "\n";
    assert Tail(content) == "\n" + ("\n" + c);
    assert ("\n" + c)[1..] == c && ("\n" + ("\n" + c))[1..] == "\n" + c;
    NewlinesOnly(c);
  }

  // The metadata lines, one by one.

  predicate GoodLine(s: string) {
    && s != "" && !IsSpace(s[0]) && !IsSpace(s[|s| - 1]) && forall i | 0 <= i < |s| :: !IsBreak(s[i])
  }

  lemma CleanIs(s: string)
    requires CleanText(s)
    ensures GoodLine(s)
  {}

  lemma LineIsGood<J(!new)>(codec: Codec<J>, item: (string, J))
    requires Inverts(codec) && GoodKey(item.0)
    ensures GoodLine(Line(codec, item))
  {
    var k, v := item.0, codec.dumps(item.1);
    CleanIs(v);
    var s := Line(codec, item);
    assert s == k + ": " + v && s[|s| - 1] == v[|v| - 1] && s[0] == k[0];
    forall i | 0 <= i < |s| ensures !IsBreak(s[i]) {
      if i >= |k| + 2 { assert s[i] == v[i - |k| - 2]; }
    }
  }

  lemma StripsToItself(s: string)
    requires s != "" && !IsSpace(s[0]) && !IsSpace(s[|s| - 1])
    ensures Strip(s) == s && LStrip(s) == s && !Blank(s)
  {
    assert !IsSpace(s[0]);
  }

  lemma {:induction false} SetNew<J>(meta: Meta<J>, key: string, v: J)
    requires forall i | 0 <= i < |meta| :: meta[i].0 != key
    ensures Set(meta, key, v) == meta + [(key, v)]
    decreases |meta|
  {
    if meta != [] { SetNew(meta[1..], key, v); }
  }

  lemma ColonAt(k: string, v: string)
    requires forall i | 0 <= i < |k| :: k[i] != ':'
    ensures FirstColon(k + ": " + v) == |k|
  {
    var s := k + ": " + v;
    assert s[|k|] == ':' && forall i | 0 <= i < |k| :: s[i] == k[i];
  }

  lemma LineParses<J(!new)>(codec: Codec<J>, meta: Meta<J>, item: (string, J))
    requires Inverts(codec) && GoodKey(item.0)
    ensures ParseLine(codec, meta, Line(codec, item)) == Set(meta, item.0, item.1)
  {
    hide Set, Strip, LStrip, Blank;
    var k, v, s := item.0, codec.dumps(item.1), Line(codec, item);
    LineIsGood(codec, item);
    StripsToItself(s);
    StripsToItself(k);
    CleanIs(v);
    StripsToItself(v);
    ColonAt(k, v);
    assert s[..|k|] == k && s[|k| + 1..] == " " + v && s[0] == k[0];
    StripSpace(v);
  }

  // Files written by hand.

  lemma FrontFound(text: string)
    ensures DashesAt(text, 0) && FindDashes(text[3..]).Some? ==>
      (text[..3] == "---" && exists i, j :: 3 <= i && j == i + 3 <= |text| && text[i..j] == "---")
  {
    if DashesAt(text, 0) && FindDashes(text[3..]).Some? {
      var end := FindDashes(text[3..]).value;
      assert DashesAt(text[3..], end);
      assert text[end + 3..end + 6] == "---";
    }
  }

  /** Text that does not begin with three dashes, or has no second three, is all content. */
  lemma NoFrontMatter<J>(codec: Codec<J>, text: string)
    requires |text| < 3 || text[..3] != "---" || forall i, j | 3 <= i && j == i + 3 <= |text| :: text[i..j] != "---"
    ensures Parse(codec, text) == ([], text)
  {
    hide ParseLines;
    FrontFound(text);
  }

  /** A blank line, a comment and a line without a colon say nothing. */
  lemma IgnoredLines<J>(codec: Codec<J>, meta: Meta<J>, pad: string, rest: string)
    requires Blank(pad)
    ensures ParseLine(codec, meta, pad) == meta
    ensures ParseLine(codec, meta, pad + "#" + rest) == meta
    ensures ':' !in rest ==> ParseLine(codec, meta, rest) == meta
  {
    hide Strip, Set;
    LStripPad(pad, "#" + rest);
    assert pad + "#" + rest == pad + ("#" + rest);
  }

  lemma {:induction false} LStripPad(pad: string, s: string)
    requires Blank(pad) && s != "" && !IsSpace(s[0])
    ensures LStrip(pad + s) == s
    decreases |pad|
  {
    if pad == "" {
      assert pad + s == s;
    } else {
      assert (pad + s)[1..] == pad[1..] + s && (pad + s)[0] == pad[0];
      LStripPad(pad[1..], s);
    }
  }

  /** A value that does not load is kept as its own text. */
  lemma UnloadedLine<J(!new)>(codec: Codec<J>, meta: Meta<J>, k: string, v: string)
    requires GoodKey(k) && GoodLine(v) && codec.loads(v).None?
    ensures ParseLine(codec, meta, k + ": " + v) == Set(meta, k, codec.raw(v))
  {
    hide Set, Strip, LStrip, Blank;
    var s := k + ": " + v;
    assert s[0] == k[0] && s[|s| - 1] == v[|v| - 1];
    StripsToItself(s);
    StripsToItself(k);
    StripsToItself(v);
    ColonAt(k, v);
    assert s[..|k|] == k && s[|k| + 1..] == " " + v;
    StripSpace(v);
  }

  /** A repeated key keeps its place and takes the new value. */
  lemma {:induction false} SetOld<J>(meta: Meta<J>, key: string, v: J, k: nat)
    requires k < |meta| && meta[k].0 == key && forall i | 0 <= i < k :: meta[i].0 != key
    ensures Set(meta, key, v) == meta[k := (key, v)]
    decreases |meta|
  {
    if k > 0 { SetOld(meta[1..], key, v, k - 1); }
  }

  lemma StripSpace(v: string)
    requires GoodLine(v)
    ensures Strip(" " + v) == v
  {
    assert (" " + v)[1..] == v && IsSpace(' ');
    StripsToItself(v);
  }

  lemma LinesSplit<J>(codec: Codec<J>, meta: Meta<J>)
    requires meta != []
    ensures var n := |meta| - 1;
      Lines(codec, meta)[..n] == Lines(codec, meta[..n]) && Lines(codec, meta)[n] == Line(codec, meta[n])
  {
    hide Line;
  }

  lemma NoLines<J>(codec: Codec<J>)
    ensures Lines(codec, []) == []
  {}

  lemma {:induction false} LinesParse<J(!new)>(codec: Codec<J>, meta: Meta<J>)
    requires Inverts(codec) && GoodMeta(meta)
    ensures ParseLines(codec, Lines(codec, meta)) == meta
    decreases |meta|
  {
    hide Line, Inverts, GoodKey, ParseLine, Lines, Set;
    if meta != [] {
      var n := |meta| - 1;
      LinesParse(codec, meta[..n]);
      LinesSplit(codec, meta);
      LineParses(codec, meta[..n], meta[n]);
      SetNew(meta[..n], meta[n].0, meta[n].1);
      assert meta == meta[..n] + [meta[n]];
    } else {
      NoLines(codec);
    }
  }

  lemma BreakAt(a: string, rest: string)
    requires forall i | 0 <= i < |a| :: !IsBreak(a[i])
    ensures FirstBreak(a) == |a| && FirstBreak(a + "\n" + rest) == |a|
  {
    var s := a + "\n" + rest;
    assert s[|a|] == '\n' && forall i | 0 <= i < |a| :: s[i] == a[i];
  }

  function Breaks(): string { "\n\r\U{0B}\U{0C}\U{1C}\U{1D}\U{1E}\U{85}\U{2028}\U{2029}" }

  /** Any of the ten line breaks ends a line; a carriage return with its line feed ends one, not
      two; and text without a break is one line. */
  lemma SplitAt(a: string, c: char, rest: string)
    requires forall i | 0 <= i < |a| :: a[i] !in Breaks()
    ensures SplitLines(a + "\r\n" + rest) == [a] + SplitLines(rest)
    ensures c in Breaks() && !(c == '\r' && rest != "" && rest[0] == '\n') ==> SplitLines(a + [c] + rest) == [a] + SplitLines(rest)
    ensures a != "" ==> SplitLines(a) == [a]
  {
    hide Breaks, IsBreak, SplitLines;
    forall i | 0 <= i < |a| ensures !IsBreak(a[i]) { BreakChars(a[i]); }
    BreakChars(c);
    SplitFirst(a, "\r\n", rest);
    if c in Breaks() && !(c == '\r' && rest != "" && rest[0] == '\n') { SplitFirst(a, [c], rest); }
    if a != "" { SplitNone(a); }
  }

  lemma BreakChars(c: char)
    ensures IsBreak(c) <==> c in Breaks()
  {
    assert |Breaks()| == 10;
  }

  lemma FirstIs(a: string, t: string)
    requires t != "" && IsBreak(t[0]) && forall i | 0 <= i < |a| :: !IsBreak(a[i])
    ensures FirstBreak(a + t) == |a| && (a + t)[..|a|] == a
  {
    hide IsBreak;
    var s := a + t;
    assert s[|a|] == t[0] && forall i | 0 <= i < |a| :: s[i] == a[i];
  }

  lemma SplitNone(a: string)
    requires a != "" && forall i | 0 <= i < |a| :: !IsBreak(a[i])
    ensures SplitLines(a) == [a]
  {
    hide IsBreak;
  }

  lemma ReturnBreaks()
    ensures IsBreak('\r')
  {}

  lemma SplitFirst(a: string, b: string, rest: string)
    requires forall i | 0 <= i < |a| :: !IsBreak(a[i])
    requires b == "\r\n" || (|b| == 1 && IsBreak(b[0]) && !(b[0] == '\r' && rest != "" && rest[0] == '\n'))
    ensures SplitLines(a + b + rest) == [a] + SplitLines(rest)
  {
    hide IsBreak, FirstBreak;
    ReturnBreaks();
    var t := b + rest;
    FirstIs(a, t);
    assert a + b + rest == a + t;
    var s := a + t;
    assert s[|a|] == t[0] && (|t| > 1 ==> s[|a| + 1] == t[1]);
    assert s[|a| + |b|..] == rest;
  }

  lemma {:induction false} SplitsJoined(lines: seq<string>)
    requires forall i | 0 <= i < |lines| :: GoodLine(lines[i])
    ensures SplitLines(JoinLines(lines)) == lines
    decreases |lines|
  {
    if lines != [] {
      var a, rest := lines[0], lines[1..];
      assert GoodLine(a);
      BreakAt(a, JoinLines(rest));
      if rest != [] {
        SplitsJoined(rest);
        var s := a + "\n" + JoinLines(rest);
        assert s[..|a|] == a && s[|a| + 1..] == JoinLines(rest);
      }
    }
  }

  /** The joined lines begin and end without space. */
  lemma {:induction false} JoinedEnds(lines: seq<string>)
    requires lines != [] && forall i | 0 <= i < |lines| :: GoodLine(lines[i])
    ensures var s := JoinLines(lines); s != "" && !IsSpace(s[0]) && !IsSpace(s[|s| - 1])
    decreases |lines|
  {
    assert GoodLine(lines[0]);
    if |lines| > 1 {
      JoinedEnds(lines[1..]);
      var s, t := JoinLines(lines), JoinLines(lines[1..]);
      assert s[|s| - 1] == t[|t| - 1];
    }
  }

  lemma StripsFront<J(!new)>(codec: Codec<J>, meta: Meta<J>)
    requires Inverts(codec) && GoodMeta(meta)
    ensures Strip(Front(codec, meta)) == JoinLines(Lines(codec, meta))
  {
    hide IsSpace, GoodLine, Inverts, GoodKey, Line;
    var front, joined := Front(codec, meta), JoinLines(Lines(codec, meta));
    SpaceBreak();
    if meta == [] {
      assert front == "\n" && front[1..] == "";
      assert LStrip(front) == LStrip("") == "" && RStrip("") == "";
      NoLines(codec);
    } else {
      forall i | 0 <= i < |meta| ensures GoodLine(Lines(codec, meta)[i]) { LineIsGood(codec, meta[i]); }
      JoinedEnds(Lines(codec, meta));
      JoinedBlock(codec, meta, [""]);
      BlockIsJoined(codec, meta);
      assert front == "\n" + (joined + "\n");
      assert front[1..] == joined + "\n";
      var t := joined + "\n";
      assert t[0] == joined[0] && t[..|t| - 1] == joined && t[|t| - 1] == '\n' && front[0] == '\n';
      assert LStrip(front) == LStrip(t) == t;
      assert RStrip(t) == RStrip(joined) == joined;
    }
  }

  lemma SpaceBreak()
    ensures IsSpace('\n')
  {}

  lemma {:induction false} BlockIsJoined<J>(codec: Codec<J>, meta: Meta<J>)
    requires meta != []
    ensures Block(codec, meta) == JoinLines(Lines(codec, meta)) + "\n"
    decreases |meta|
  {
    if |meta| > 1 {
      BlockIsJoined(codec, meta[1..]);
      assert Lines(codec, meta)[1..] == Lines(codec, meta[1..]);
    } else {
      assert Block(codec, meta[1..]) == "";
    }
  }

  lemma FrontParses<J(!new)>(codec: Codec<J>, meta: Meta<J>)
    requires Inverts(codec) && GoodMeta(meta)
    ensures ParseLines(codec, SplitLines(Strip(Front(codec, meta)))) == meta
  {
    hide Line, Strip, SplitLines, ParseLines, JoinLines, Inverts;
    StripsFront(codec, meta);
    forall i | 0 <= i < |meta| ensures GoodLine(Lines(codec, meta)[i]) { LineIsGood(codec, meta[i]); }
    SplitsJoined(Lines(codec, meta));
    LinesParse(codec, meta);
  }

  /** Reading a rendered fact gives back its metadata and its content up to the space at the ends,
      if and only if no metadata line contains `---`. The content may contain anything. */
  lemma RoundTrip<J(!new)>(codec: Codec<J>, meta: Meta<J>, content: string)
    requires Inverts(codec) && GoodMeta(meta)
    ensures Parse(codec, Render(codec, meta, content)) == (meta, Norm(content)) <==> !DashedLine(codec, meta)
  {
    hide Render, FindDashes, Inverts, ParseLines, SplitLines, Strip, LStripNewlines, HasDashes, DashedLine, Front, Tail, Norm;
    var text, front, tail := Render(codec, meta, content), Front(codec, meta), Tail(content);
    RenderShape(codec, meta, content);
    FrontEnds(codec, meta);
    FrontDashes(codec, meta);
    WhereDashes(front, tail);
    TailIsNorm(content);
    var end := FindDashes(text[3..]).value;
    var s := text[3..];
    if DashedLine(codec, meta) {
      var x, t := front[end + 3..], "---" + tail;
      assert s[end + 3..] == x + t && t[0] == '-';
      NewlinesAtLeast(x, t);
      TailLength(content);
    } else {
      assert s[..end] == front && s[end + 3..] == tail;
      FrontParses(codec, meta);
    }
  }

  lemma TailLength(content: string)
    ensures |Tail(content)| == |RStrip(content)| + 3
  {}

  /** Writing back what was read and reading it again changes nothing, even when the content
      itself contains `---`. */
  lemma SecondRoundTrip<J(!new)>(codec: Codec<J>, meta: Meta<J>, content: string)
    requires Inverts(codec) && GoodMeta(meta) && !DashedLine(codec, meta)
    ensures var once := Parse(codec, Render(codec, meta, content));
      Parse(codec, Render(codec, once.0, once.1)) == once
  {
    hide Parse, Render, Norm, Inverts, GoodMeta, DashedLine;
    RoundTrip(codec, meta, content);
    RoundTrip(codec, meta, Norm(content));
    NormIdempotent(content);
  }
}
