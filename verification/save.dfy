/**
 * The preset writer of saveconf.c and what survives a save followed by a
 * load.  SaveConfig prints a comment header and one "key: value" line per
 * saved field, the key padded to a column of fifteen characters; fields
 * that do not matter to the current state (a random seed, an ignored
 * phase, the parameters of the colour sources not selected) are not
 * written.
 *
 * printf's conversions and GetGradientName are the fields of a Printer
 * value; the round trip is proved for any printer and host that read each
 * other's numbers back.
 */
module PresetSave {
  import opened Common
  import opened Text
  import opened Hex
  import opened Preset

  /** PRESET_HEADER. */
  const PRESET_HEADER: string := "# Felimage Noise Plugin"

  /** The longest printed value the proofs admit; it keeps every line inside fgets' buffer. */
  const MAX_VALUE := 900

  /**
   * The printf conversions SaveConfig uses ("%f" and "%i" under the "C"
   * numeric locale), PACKAGE_VERSION, and GetGradientName.
   */
  datatype Printer = Printer(
    decimal: real -> string, integer: int -> string, version: string, gradientName: Digest -> string)

  /** The first line: PRESET_HEADER " v" PACKAGE_VERSION " for the GIMP". */
  function Header(p: Printer): string {
    PRESET_HEADER + " v" + p.version + " for the GIMP"
  }

  /** A saved line: the key, ':', and the value starting in column 16. */
  function Line(key: string, value: string): (r: string)
    requires |key| <= 14
    ensures |r| == 15 + |value|
  {
    key + ":" + Spaces(14 - |key|) + value
  }

  /** The guint seed printed with "%i": values from 2^31 on come out negative. */
  function Signed32(u: int): (r: int)
    requires 0 <= u < W32
    ensures -0x8000_0000 <= r < 0x8000_0000
    ensures ToUnsigned(r) == u
  {
    if u < 0x8000_0000 then u else u - W32
  }

  /** The value written for a boolean. */
  function YesNo(b: bool): (r: string)
    ensures GetBool(r) == b
  {
    if b then "YES" else "NO"
  }

  /**
   * The edge_action line as written: edge_action_names[edge_action], a
   * table read from position 0 although edge_action holds GIMP's edge
   * modes, which start at EDGE_NONE; past the table there is no name.
   */
  function EdgeNameAsWritten(e: int): (r: Option<string>)
    ensures r.Some? <==> 0 <= e < |EDGE_NAMES|
    ensures r.Some? ==> r.value in EDGE_NAMES
  {
    if 0 <= e < |EDGE_NAMES| then Some(EDGE_NAMES[e]) else None
  }

  /** The edge_action name with the table read as naming the modes from EDGE_WRAP on. */
  function EdgeName(e: int): (r: string)
    requires EDGE_WRAP <= e <= EDGE_BACKGROUND
    ensures r in EDGE_NAMES
  {
    EDGE_NAMES[e - EDGE_WRAP]
  }

  /**
   * As written, the Background mode has no name to save, Wrap is saved as
   * "smear", and a file saying "warp" selects EDGE_NONE, which the dialog
   * does not offer.
   */
  lemma EdgeNamesAsWritten(prev: int)
    ensures EdgeNameAsWritten(EDGE_BACKGROUND) == None
    ensures EdgeNameAsWritten(EDGE_WRAP) == Some("smear")
    ensures EdgeValueAsWritten("warp", prev) == EDGE_NONE
  {
    assert GetByName("warp", prev, EDGE_NAMES) == 0 by {
      ColorEnds();
      ColorDistinct();
      GetByNameOfEntry(EDGE_NAMES, 0, prev);
    }
  }

  /** Each of the four modes the dialog offers is saved under a name that reads back as that mode. */
  lemma EdgeNameRoundTrip(e: int, prev: int)
    requires EDGE_WRAP <= e <= EDGE_BACKGROUND
    ensures EdgeValue(EdgeName(e), prev) == e
  {
    ColorEnds();
    ColorDistinct();
    FindNameOfEntry(EDGE_NAMES, e - EDGE_WRAP, EDGE_NAMES[e - EDGE_WRAP]);
  }

  /** As written, the modes 0..3 (none, wrap, smear, black) do survive a
      save and a load, each stored and read back as its table position;
      only background (4) has no name. */
  lemma EdgeRoundTripAsWritten(e: int, prev: int)
    requires EDGE_NONE <= e <= EDGE_BLACK
    ensures EdgeNameAsWritten(e).Some?
    ensures EdgeValueAsWritten(EdgeNameAsWritten(e).value, prev) == e
  {
    ColorEnds();
    ColorDistinct();
    FindNameOfEntry(EDGE_NAMES, e, EDGE_NAMES[e]);
  }

  /** A keyword index and the text written after it. */
  datatype Entry = Entry(k: int, value: string)

  /** The enumerations index their name tables, as SaveConfig's table reads need. */
  predicate Savable(s: PluginState) {
    0 <= s.seed < W32 && StyleInTables(s.style) && ColourInRange(s.colour)
  }

  lemma WellFormedSavable(s: PluginState)
    requires WellFormed(s)
    ensures Savable(s)
  {
  }

  /** Every entry names a keyword. */
  predicate Keyed(es: seq<Entry>) {
    forall i :: 0 <= i < |es| ==> 0 <= es[i].k < |KEYWORDS|
  }

  lemma KeyedAppend(a: seq<Entry>, b: seq<Entry>)
    requires Keyed(a) && Keyed(b)
    ensures Keyed(a + b)
  {
  }

  function SeedEntries(s: PluginState, p: Printer): (r: seq<Entry>)
    requires 0 <= s.seed < W32
    ensures Keyed(r)
  {
    if s.randomSeed then [] else [Entry(K_SEED, p.integer(Signed32(s.seed)))]
  }

  function ScaleEntries(sc: Scales, p: Printer): (r: seq<Entry>)
    ensures Keyed(r)
  {
    [Entry(K_SIZE_X, p.decimal(sc.sizeX)), Entry(K_SIZE_Y, p.decimal(sc.sizeY)),
     Entry(K_OCTAVES, p.decimal(sc.octaves)), Entry(K_LACUNARITY, p.decimal(sc.lacunarity)),
     Entry(K_HURST, p.decimal(sc.hurst)), Entry(K_FREQUENCY, p.decimal(sc.frequency)),
     Entry(K_SHIFT, p.decimal(sc.shift))]
  }

  function StyleEntries(st: Style): (r: seq<Entry>)
    requires StyleInTables(st)
    ensures Keyed(r)
  {
    [Entry(K_MAPPING, MAPPING_NAMES[st.mapping]), Entry(K_BASIS, BASIS_NAMES[st.basis]),
     Entry(K_REVERSE, YesNo(st.reverse)), Entry(K_FUNCTION, FUNCTION_NAMES[st.outFunction])]
  }

  function PhaseEntries(st: Style, p: Printer): (r: seq<Entry>)
    ensures Keyed(r)
  {
    if st.ignPhase then [] else [Entry(K_PHASE, p.decimal(st.phase))]
  }

  /** The multifractal and edge_action lines. */
  function ModeEntries(multifractal: int, edge: int): (r: seq<Entry>)
    requires 0 <= multifractal < |MULTIFRACTAL_NAMES| && EDGE_WRAP <= edge <= EDGE_BACKGROUND
    ensures Keyed(r)
  {
    [Entry(K_MULTIFRACTAL, MULTIFRACTAL_NAMES[multifractal]), Entry(K_EDGE_ACTION, EdgeName(edge))]
  }

  function LevelEntries(l: Levels, p: Printer): (r: seq<Entry>)
    ensures Keyed(r)
  {
    [Entry(K_PINCH, p.decimal(l.pinch)), Entry(K_BIAS, p.decimal(l.bias)), Entry(K_GAIN, p.decimal(l.gain))]
  }

  function ChannelEntries(ch: Channels): (r: seq<Entry>)
    requires ChannelsInTables(ch)
    ensures Keyed(r)
  {
    [Entry(K_CHANNEL_R, COLOR_CHANNEL_NAMES[ch.r]), Entry(K_CHANNEL_G, COLOR_CHANNEL_NAMES[ch.g]),
     Entry(K_CHANNEL_B, COLOR_CHANNEL_NAMES[ch.b]), Entry(K_CHANNEL_A, ALPHA_CHANNEL_NAMES[ch.a])]
  }

  function WarpEntries(w: Warp, p: Printer): (r: seq<Entry>)
    requires WarpInRange(w)
    ensures Keyed(r)
  {
    [Entry(K_WARP_SIZE_X, p.decimal(w.xSize)), Entry(K_WARP_SIZE_Y, p.decimal(w.ySize)),
     Entry(K_WARP_CAUSTICS, p.decimal(w.caustics)), Entry(K_WARP_QUALITY, WARP_QUALITY_NAMES[w.quality])]
  }

  /** The color_src line and the switch on it: only the selected source's parameters are written. */
  function SourceEntries(c: Colour, p: Printer): (r: seq<Entry>)
    requires ColourInRange(c)
    ensures Keyed(r)
  {
    [Entry(K_COLOR_SRC, COLOR_SRC_NAMES[c.source])] +
    if c.source == COL_GRADIENT then [Entry(K_GRADIENT, p.gradientName(c.gradient))]
    else if c.source == COL_CHANNELS then ChannelEntries(c.channel)
    else if c.source == COL_WARP then WarpEntries(c.warp, p)
    else []
  }

  /** The saved fields in the order SaveConfig writes them. */
  function Entries(s: PluginState, p: Printer): (r: seq<Entry>)
    requires Savable(s)
    ensures Keyed(r)
  {
    var a := SeedEntries(s, p) + ScaleEntries(s.scales, p);
    KeyedAppend(SeedEntries(s, p), ScaleEntries(s.scales, p));
    var b := a + StyleEntries(s.style);
    KeyedAppend(a, StyleEntries(s.style));
    var c := b + PhaseEntries(s.style, p);
    KeyedAppend(b, PhaseEntries(s.style, p));
    var d := c + ModeEntries(s.style.multifractal, s.colour.edgeAction);
    KeyedAppend(c, ModeEntries(s.style.multifractal, s.colour.edgeAction));
    var e := d + LevelEntries(s.levels, p);
    KeyedAppend(d, LevelEntries(s.levels, p));
    KeyedAppend(e, SourceEntries(s.colour, p));
    e + SourceEntries(s.colour, p)
  }

  function EntryLines(es: seq<Entry>): (r: seq<string>)
    requires forall i :: 0 <= i < |es| ==> 0 <= es[i].k < |KEYWORDS|
    ensures |r| == |es|
  {
    if es == [] then []
    else
      KeywordLengths();
      [Line(KEYWORDS[es[0].k], es[0].value)] + EntryLines(es[1..])
  }

  /** The lines of the file SaveConfig writes, without their line feeds. */
  function SavedLines(s: PluginState, p: Printer): seq<string>
    requires Savable(s)
  {
    [Header(p), "# Preset file", ""] + EntryLines(Entries(s, p)) + [""]
  }

  /** SaveConfig on a file that opened: the text it writes. */
  function SaveConfig(s: PluginState, p: Printer): (r: string)
    requires Savable(s)
    ensures |Header(p)| + 16 <= |r| && r[..|Header(p)| + 16] == Header(p) + "\n# Preset file\n\n"
    ensures r[|r| - 2..] == "\n\n"
  {
    FramedText(Header(p), EntryLines(Entries(s, p)));
    JoinLines(SavedLines(s, p))
  }

  /** The text of a preset: the header and comment lines first, a blank line last. */
  lemma FramedText(header: string, body: seq<string>)
    ensures var r := JoinLines([header, "# Preset file", ""] + body + [""]);
            && |header| + 16 <= |r| && r[..|header| + 16] == header + "\n# Preset file\n\n"
            && r[|r| - 2..] == "\n\n"
  {
    var lines := [header, "# Preset file", ""] + body + [""];
    var tail := body + [""];
    JoinLinesBlankLast(tail);
    assert lines[0] == header && lines[1..][0] == "# Preset file" && lines[1..][1..][0] == "";
    assert lines[1..][1..][1..] == tail;
    assert JoinLines(lines[1..][1..]) == "" + "\n" + JoinLines(tail);
    assert JoinLines(lines[1..]) == "# Preset file" + "\n" + JoinLines(lines[1..][1..]);
    assert JoinLines(lines) == header + "\n" + JoinLines(lines[1..]);
    assert header + "\n" + "# Preset file" + "\n" + "" + "\n" == header + "\n# Preset file\n\n";
  }

  /** Text whose last line is empty ends with a blank line. */
  lemma {:induction false} JoinLinesBlankLast(lines: seq<string>)
    requires |lines| >= 1 && lines[|lines| - 1] == ""
    ensures |JoinLines(lines)| >= 1 && JoinLines(lines)[|JoinLines(lines)| - 1] == '\n'
    ensures |lines| >= 2 ==> |JoinLines(lines)| >= 2 && JoinLines(lines)[|JoinLines(lines)| - 2..] == "\n\n"
  {
    if |lines| > 1 {
      JoinLinesBlankLast(lines[1..]);
      if |lines| == 2 {
        assert JoinLines(lines[1..]) == "\n";
      }
    } else {
      assert JoinLines(lines) == "\n";
    }
  }

  /**
   * What a saved preset keeps: the seed only when it is not random, the
   * phase only when it is not ignored, and the parameters of the selected
   * colour source only; everything unwritten has its default, and the
   * dialog's state is recomputed.
   */
  function Restored(s: PluginState): (r: PluginState)
    ensures WellFormed(s) ==> WellFormed(r)
    ensures Savable(s) ==> Savable(r)
    ensures !s.randomSeed ==> r.seed == s.seed
    ensures r.scales == s.scales && r.levels == s.levels && r.colour.source == s.colour.source
    ensures r.dialog == DEFAULTS.dialog
  {
    var d := DEFAULTS;
    var c := s.colour;
    PluginState(
      if s.randomSeed then d.seed else s.seed, s.randomSeed,
      s.scales,
      s.style.(phase := if s.style.ignPhase then d.style.phase else s.style.phase),
      Colour(c.source,
             if c.source == COL_CHANNELS then c.channel else d.colour.channel,
             if c.source == COL_WARP then c.warp else d.colour.warp,
             c.edgeAction,
             if c.source == COL_GRADIENT then c.gradient else d.colour.gradient),
      s.levels, d.dialog)
  }

  function Persisted(s: PluginState): PluginState {
    PostParse(Restored(s))
  }

  /**
   * A value the readers take whole: no surrounding whitespace, no
   * separator, and at most MAX_VALUE bytes once encoded, so that its line
   * fits fgets's buffer.
   */
  predicate Printable(v: string) {
    Trimmed(v) && Free(v, SEPARATORS) && ByteLength(v) <= MAX_VALUE
  }

  /** The version string is short and free of separators, and "%i" of every 32-bit integer is printable. */
  ghost predicate CleanPrinter(p: Printer) {
    Free(p.version, SEPARATORS) && ByteLength(p.version) <= MAX_VALUE &&
    (forall n :: -0x8000_0000 <= n < 0x8000_0000 ==> Printable(p.integer(n)))
  }

  /** atoi reads back whatever "%i" printed. */
  ghost predicate IntegersReadBack(p: Printer, h: Host) {
    forall n :: -0x8000_0000 <= n < 0x8000_0000 ==> h.atoi(p.integer(n)) == n
  }

  /** atof reads x back from its "%f" text, that is, x has at most six decimals. */
  predicate Exact(p: Printer, h: Host, x: real) {
    h.atof(p.decimal(x)) == x
  }

  /** A number the state writes: its "%f" text is printable and reads back as x. */
  predicate Written(p: Printer, h: Host, x: real) {
    Printable(p.decimal(x)) && Exact(p, h, x)
  }

  /** Every number and gradient name the state writes is printable and reads back as itself. */
  predicate ValuesReadBack(p: Printer, h: Host, s: PluginState) {
    var sc := s.scales;
    var w := s.colour.warp;
    Written(p, h, sc.sizeX) && Written(p, h, sc.sizeY) && Written(p, h, sc.octaves) && Written(p, h, sc.lacunarity) &&
    Written(p, h, sc.hurst) && Written(p, h, sc.frequency) && Written(p, h, sc.shift) &&
    (!s.style.ignPhase ==> Written(p, h, s.style.phase)) &&
    Written(p, h, s.levels.pinch) && Written(p, h, s.levels.bias) && Written(p, h, s.levels.gain) &&
    (s.colour.source == COL_WARP ==> Written(p, h, w.xSize) && Written(p, h, w.ySize) && Written(p, h, w.caustics)) &&
    (s.colour.source == COL_GRADIENT ==>
       Printable(p.gradientName(s.colour.gradient)) &&
       h.nameHash(p.gradientName(s.colour.gradient)) == s.colour.gradient)
  }

  ghost predicate Faithful(p: Printer, h: Host, s: PluginState) {
    CleanPrinter(p) && IntegersReadBack(p, h) && ValuesReadBack(p, h, s)
  }

  // ---------------------------------------------------------------------
  // Reading one saved line

  /** What a keyword never contains: whitespace, a separator, ':' or '#'. */
  const NOT_IN_KEY: set<char> := {':', ',', '\n', '#', ' ', '\t', '\r', '\U{B}', '\U{C}'}

  /** A keyword as it appears at the start of a saved line. */
  predicate Key(w: string) {
    1 <= |w| <= 14 && Free(w, NOT_IN_KEY)
  }

  lemma KeyFacts(w: string)
    requires Key(w)
    ensures Trimmed(w) && ':' !in w && w[0] != '#' && Free(w, SEPARATORS)
  {
    assert w[0] !in NOT_IN_KEY && w[|w| - 1] !in NOT_IN_KEY;
  }

  lemma KeywordLengths()
    ensures forall k :: 0 <= k < |KEYWORDS| ==> |KEYWORDS[k]| <= 14
  {
    KeywordsAreKeys();
  }

  lemma KeywordsAreKeys()
    ensures forall k :: 0 <= k < |KEYWORDS| ==> Key(KEYWORDS[k])
  {
    KeysFrom0();
    KeysFrom7();
    KeysFrom14();
    KeysFrom21();
  }

  lemma KeysFrom0() ensures forall k :: 0 <= k < 7 ==> Key(KEYWORDS[k]) {}
  lemma KeysFrom7() ensures forall k :: 7 <= k < 14 ==> Key(KEYWORDS[k]) {}
  lemma KeysFrom14() ensures forall k :: 14 <= k < 21 ==> Key(KEYWORDS[k]) {}
  lemma KeysFrom21() ensures forall k :: 21 <= k < 28 ==> Key(KEYWORDS[k]) {}

  lemma {:induction false} SplitAtKey(key: string, rest: string)
    requires ':' !in key
    ensures SplitAtFirst(key + [':'] + rest, ':') == (key, Some(rest))
  {
    var t := key + [':'] + rest;
    if key != [] {
      assert t[0] == key[0] && t[1..] == key[1..] + [':'] + rest;
      SplitAtKey(key[1..], rest);
      assert [key[0]] + key[1..] == key;
    } else {
      assert t[1..] == rest;
    }
  }

  /** A line ending in a non-space loses exactly its tail of line feed to g_strchomp. */
  lemma ChompTail(x: string, tail: string)
    requires x != [] && !IsSpace(x[|x| - 1])
    requires tail == [] || tail == "\n"
    ensures Chomp(x + tail) == x
  {
    if tail == "\n" {
      assert (x + tail)[..|x|] == x;
    } else {
      assert x + tail == x;
    }
  }

  /** SplitLine of a line whose trimmed text splits at its first ':' into k and v. */
  lemma SplitLineAt(line: string, k: string, v: string)
    requires Chug(line) != [] && Chug(line)[0] != '#'
    requires SplitAtFirst(Chomp(Chug(line)), ':') == (k, Some(v))
    ensures SplitLine(line) == Some((Strip(k), Some(Strip(v))))
  {
  }

  /** A saved line, with or without its line feed, is read as its key and value. */
  lemma SplitSavedLine(key: string, value: string, tail: string)
    requires Key(key) && Trimmed(value)
    requires tail == [] || tail == "\n"
    ensures SplitLine(Line(key, value) + tail) == Some((key, Some(value)))
  {
    KeyFacts(key);
    var rest := Spaces(14 - |key|) + value;
    var body := Line(key, value);
    var line := body + tail;
    assert body == key + [':'] + rest;
    assert Chug(line) == line by {
      assert line[0] == key[0];
    }
    assert Chomp(line) == body by {
      assert body[|body| - 1] == value[|value| - 1];
      ChompTail(body, tail);
    }
    SplitAtKey(key, rest);
    SplitLineAt(line, key, rest);
    StripTrimmed(key);
    StripPadded(14 - |key|, value);
  }

  /** A comment or blank line, with or without its line feed, is skipped. */
  lemma SkippedLine(line: string, tail: string)
    requires line == [] || line[0] == '#'
    requires tail == [] || tail == "\n"
    ensures SplitLine(line + tail) == None
  {
    if line != [] {
      assert (line + tail)[0] == '#';
    } else {
      assert line + tail == tail;
    }
  }

  /** Storing the entries one after another. */
  function ApplyAll(es: seq<Entry>, s: PluginState, h: Host): PluginState {
    if es == [] then s else ApplyAll(es[1..], Apply(es[0].k, es[0].value, s, h), h)
  }

  lemma {:induction false} ApplyAllAppend(a: seq<Entry>, b: seq<Entry>, s: PluginState, h: Host)
    ensures ApplyAll(a + b, s, h) == ApplyAll(b, ApplyAll(a, s, h), h)
  {
    if a != [] {
      assert (a + b)[0] == a[0] && (a + b)[1..] == a[1..] + b;
      ApplyAllAppend(a[1..], b, Apply(a[0].k, a[0].value, s, h), h);
    } else {
      assert a + b == b;
    }
  }

  /** Reading the saved lines of some entries is storing those entries. */
  lemma {:induction false} ParseEntryLines(es: seq<Entry>, tail: string, s: PluginState, h: Host)
    requires forall i :: 0 <= i < |es| ==> 0 <= es[i].k < |KEYWORDS| && Trimmed(es[i].value)
    requires tail == [] || tail == "\n"
    ensures ParseLines(Ended(EntryLines(es), tail), s, h) == ApplyAll(es, s, h)
  {
    if es != [] {
      var e := es[0];
      var key := KEYWORDS[e.k];
      KeywordLengths();
      var line := Line(key, e.value);
      assert EntryLines(es) == [line] + EntryLines(es[1..]);
      assert Ended(EntryLines(es), tail) == [line + tail] + Ended(EntryLines(es[1..]), tail);
      assert ParseIncremental(s, line + tail, h) == Apply(e.k, e.value, s, h) by {
        KeywordsAreKeys();
        SplitSavedLine(key, e.value, tail);
        assert GetByName(key, -1, KEYWORDS) == e.k by {
          KeywordTable();
          GetByNameOfEntry(KEYWORDS, e.k, -1);
        }
      }
      assert Step(h)(s, line + tail) == Apply(e.k, e.value, s, h);
      ParseEntryLines(es[1..], tail, Apply(e.k, e.value, s, h), h);
    }
  }

  lemma SeedRestored(s: PluginState, p: Printer, h: Host, t: PluginState)
    requires 0 <= s.seed < W32 && IntegersReadBack(p, h)
    ensures ApplyAll(SeedEntries(s, p), t, h) ==
            if s.randomSeed then t else t.(seed := s.seed, randomSeed := false)
  {
  }

  lemma ScalesRestored(sc: Scales, p: Printer, h: Host, t: PluginState)
    requires ScalesInRange(sc)
    requires Exact(p, h, sc.sizeX) && Exact(p, h, sc.sizeY) && Exact(p, h, sc.octaves) && Exact(p, h, sc.lacunarity)
    requires Exact(p, h, sc.hurst) && Exact(p, h, sc.frequency) && Exact(p, h, sc.shift)
    ensures ApplyAll(ScaleEntries(sc, p), t, h) == t.(scales := sc)
  {
    var es := ScaleEntries(sc, p);
    var t4 := t.(scales := t.scales.(sizeX := sc.sizeX, sizeY := sc.sizeY, octaves := sc.octaves, lacunarity := sc.lacunarity));
    ScalesFirst(sc, p, h, t);
    ScalesLast(sc, p, h, t4);
  }

  lemma ScalesFirst(sc: Scales, p: Printer, h: Host, t: PluginState)
    requires ScalesInRange(sc)
    requires Exact(p, h, sc.sizeX) && Exact(p, h, sc.sizeY) && Exact(p, h, sc.octaves) && Exact(p, h, sc.lacunarity)
    ensures ApplyAll(ScaleEntries(sc, p), t, h) ==
            ApplyAll(ScaleEntries(sc, p)[4..], t.(scales := t.scales.(sizeX := sc.sizeX, sizeY := sc.sizeY, octaves := sc.octaves, lacunarity := sc.lacunarity)), h)
  {
    var es := ScaleEntries(sc, p);
    var t1 := t.(scales := t.scales.(sizeX := sc.sizeX));
    var t2 := t1.(scales := t1.scales.(sizeY := sc.sizeY));
    var t3 := t2.(scales := t2.scales.(octaves := sc.octaves));
    Unroll(es, 0, t, h);
    Unroll(es, 1, t1, h);
    Unroll(es, 2, t2, h);
    Unroll(es, 3, t3, h);
  }

  lemma ScalesLast(sc: Scales, p: Printer, h: Host, t: PluginState)
    requires ScalesInRange(sc)
    requires Exact(p, h, sc.hurst) && Exact(p, h, sc.frequency) && Exact(p, h, sc.shift)
    requires t.scales.sizeX == sc.sizeX && t.scales.sizeY == sc.sizeY
    requires t.scales.octaves == sc.octaves && t.scales.lacunarity == sc.lacunarity
    ensures ApplyAll(ScaleEntries(sc, p)[4..], t, h) == t.(scales := sc)
  {
    var es := ScaleEntries(sc, p);
    var t5 := t.(scales := t.scales.(hurst := sc.hurst));
    var t6 := t5.(scales := t5.scales.(frequency := sc.frequency));
    var t7 := t6.(scales := t6.scales.(shift := sc.shift));
    Unroll(es, 4, t, h);
    Unroll(es, 5, t5, h);
    Unroll(es, 6, t6, h);
    assert es[7..] == [];
  }

  /** One step of ApplyAll from position i of a list of entries. */
  lemma Unroll(es: seq<Entry>, i: int, t: PluginState, h: Host)
    requires 0 <= i < |es|
    ensures ApplyAll(es[i..], t, h) == ApplyAll(es[i + 1..], Apply(es[i].k, es[i].value, t, h), h)
    ensures i == 0 ==> ApplyAll(es, t, h) == ApplyAll(es[1..], Apply(es[0].k, es[0].value, t, h), h)
  {
    assert es[i..][0] == es[i] && es[i..][1..] == es[i + 1..];
    assert es[0..] == es;
  }

  /** Every entry of a lookup table reads back as its own position, whatever the default. */
  lemma Lookups(names: seq<string>)
    requires Table(names)
    ensures forall i, def :: 0 <= i < |names| ==> GetByName(names[i], def, names) == i
  {
    forall i, def | 0 <= i < |names|
      ensures GetByName(names[i], def, names) == i
    {
      GetByNameOfEntry(names, i, def);
    }
  }

  lemma MappingLookup(i: int, def: int)
    requires 0 <= i < |MAPPING_NAMES|
    ensures GetByName(MAPPING_NAMES[i], def, MAPPING_NAMES) == i
  {
    PatternEnds();
    PatternDistinct();
    GetByNameOfEntry(MAPPING_NAMES, i, def);
  }

  lemma BasisLookup(i: int, def: int)
    requires 0 <= i < |BASIS_NAMES|
    ensures GetByName(BASIS_NAMES[i], def, BASIS_NAMES) == i
  {
    PatternEnds();
    PatternDistinct();
    GetByNameOfEntry(BASIS_NAMES, i, def);
  }

  lemma FunctionLookup(i: int, def: int)
    requires 0 <= i < |FUNCTION_NAMES|
    ensures GetByName(FUNCTION_NAMES[i], def, FUNCTION_NAMES) == i
  {
    PatternEnds();
    PatternDistinct();
    GetByNameOfEntry(FUNCTION_NAMES, i, def);
  }

  lemma MultifractalLookup(i: int, def: int)
    requires 0 <= i < |MULTIFRACTAL_NAMES|
    ensures GetByName(MULTIFRACTAL_NAMES[i], def, MULTIFRACTAL_NAMES) == i
  {
    PatternEnds();
    PatternDistinct();
    GetByNameOfEntry(MULTIFRACTAL_NAMES, i, def);
  }

  lemma ColorChannelLookup(i: int, def: int)
    requires 0 <= i < |COLOR_CHANNEL_NAMES|
    ensures GetByName(COLOR_CHANNEL_NAMES[i], def, COLOR_CHANNEL_NAMES) == i
  {
    ChannelEnds();
    ChannelDistinct();
    GetByNameOfEntry(COLOR_CHANNEL_NAMES, i, def);
  }

  lemma AlphaChannelLookup(i: int, def: int)
    requires 0 <= i < |ALPHA_CHANNEL_NAMES|
    ensures GetByName(ALPHA_CHANNEL_NAMES[i], def, ALPHA_CHANNEL_NAMES) == i
  {
    ChannelEnds();
    ChannelDistinct();
    GetByNameOfEntry(ALPHA_CHANNEL_NAMES, i, def);
  }

  lemma ColorSrcLookup(i: int, def: int)
    requires 0 <= i < |COLOR_SRC_NAMES|
    ensures GetByName(COLOR_SRC_NAMES[i], def, COLOR_SRC_NAMES) == i
  {
    ColorEnds();
    ColorDistinct();
    GetByNameOfEntry(COLOR_SRC_NAMES, i, def);
  }

  lemma WarpQualityLookup(i: int, def: int)
    requires 0 <= i < |WARP_QUALITY_NAMES|
    ensures GetByName(WARP_QUALITY_NAMES[i], def, WARP_QUALITY_NAMES) == i
  {
    ColorEnds();
    ColorDistinct();
    GetByNameOfEntry(WARP_QUALITY_NAMES, i, def);
  }

  // What one line of each name-valued keyword stores, for any value text.

  lemma StoreMapping(v: string, t: PluginState, h: Host)
    ensures Apply(K_MAPPING, v, t, h) == t.(style := t.style.(mapping := GetByName(v, t.style.mapping, MAPPING_NAMES)))
  {
  }

  lemma StoreBasis(v: string, t: PluginState, h: Host)
    ensures Apply(K_BASIS, v, t, h) == t.(style := t.style.(basis := GetByName(v, t.style.basis, BASIS_NAMES)))
  {
  }

  lemma StoreReverse(v: string, t: PluginState, h: Host)
    ensures Apply(K_REVERSE, v, t, h) == t.(style := t.style.(reverse := GetBool(v)))
  {
  }

  lemma StoreFunction(v: string, t: PluginState, h: Host)
    ensures Apply(K_FUNCTION, v, t, h) == t.(style := t.style.(outFunction := GetByName(v, t.style.outFunction, FUNCTION_NAMES)))
  {
  }

  lemma StoreMultifractal(v: string, t: PluginState, h: Host)
    ensures Apply(K_MULTIFRACTAL, v, t, h) ==
            t.(style := t.style.(multifractal := GetByName(v, t.style.multifractal, MULTIFRACTAL_NAMES)))
  {
  }

  lemma StoreEdge(v: string, t: PluginState, h: Host)
    ensures Apply(K_EDGE_ACTION, v, t, h) == t.(colour := t.colour.(edgeAction := EdgeValue(v, t.colour.edgeAction)))
  {
  }

  lemma StoreColorSrc(v: string, t: PluginState, h: Host)
    ensures Apply(K_COLOR_SRC, v, t, h) == t.(colour := t.colour.(source := GetByName(v, t.colour.source, COLOR_SRC_NAMES)))
  {
  }

  lemma StoreChannels(v: string, t: PluginState, h: Host)
    ensures var c := t.colour;
      Apply(K_CHANNEL_R, v, t, h) ==
        t.(colour := c.(channel := c.channel.(r := GetByName(v, c.channel.r, COLOR_CHANNEL_NAMES)), source := COL_CHANNELS)) &&
      Apply(K_CHANNEL_G, v, t, h) ==
        t.(colour := c.(channel := c.channel.(g := GetByName(v, c.channel.g, COLOR_CHANNEL_NAMES)), source := COL_CHANNELS)) &&
      Apply(K_CHANNEL_B, v, t, h) ==
        t.(colour := c.(channel := c.channel.(b := GetByName(v, c.channel.b, COLOR_CHANNEL_NAMES)), source := COL_CHANNELS)) &&
      Apply(K_CHANNEL_A, v, t, h) ==
        t.(colour := c.(channel := c.channel.(a := GetByName(v, c.channel.a, ALPHA_CHANNEL_NAMES)), source := COL_CHANNELS))
  {
  }

  lemma StoreWarpQuality(v: string, t: PluginState, h: Host)
    ensures Apply(K_WARP_QUALITY, v, t, h) ==
            t.(colour := t.colour.(warp := t.colour.warp.(quality := GetByName(v, t.colour.warp.quality, WARP_QUALITY_NAMES)),
                                   source := COL_WARP))
  {
  }

  lemma StyleRestored(st: Style, h: Host, t: PluginState)
    requires StyleInTables(st)
    ensures ApplyAll(StyleEntries(st), t, h) ==
            t.(style := t.style.(mapping := st.mapping, basis := st.basis, reverse := st.reverse, outFunction := st.outFunction))
  {
    var es := StyleEntries(st);
    var t1 := t.(style := t.style.(mapping := st.mapping));
    var t2 := t1.(style := t1.style.(basis := st.basis));
    var t3 := t2.(style := t2.style.(reverse := st.reverse));
    StoreMapping(es[0].value, t, h);
    MappingLookup(st.mapping, t.style.mapping);
    Unroll(es, 0, t, h);
    StoreBasis(es[1].value, t1, h);
    BasisLookup(st.basis, t1.style.basis);
    Unroll(es, 1, t1, h);
    StoreReverse(es[2].value, t2, h);
    Unroll(es, 2, t2, h);
    StoreFunction(es[3].value, t3, h);
    FunctionLookup(st.outFunction, t3.style.outFunction);
    Unroll(es, 3, t3, h);
    assert es[4..] == [];
  }

  lemma PhaseRestored(st: Style, p: Printer, h: Host, t: PluginState)
    requires !st.ignPhase ==> Exact(p, h, st.phase)
    ensures ApplyAll(PhaseEntries(st, p), t, h) ==
            if st.ignPhase then t else t.(style := t.style.(phase := st.phase, ignPhase := false))
  {
  }

  lemma ModeRestored(m: int, e: int, h: Host, t: PluginState)
    requires 0 <= m < |MULTIFRACTAL_NAMES| && EDGE_WRAP <= e <= EDGE_BACKGROUND
    ensures ApplyAll(ModeEntries(m, e), t, h) ==
            t.(style := t.style.(multifractal := m), colour := t.colour.(edgeAction := e))
  {
    var es := ModeEntries(m, e);
    var t1 := t.(style := t.style.(multifractal := m));
    StoreMultifractal(es[0].value, t, h);
    MultifractalLookup(m, t.style.multifractal);
    Unroll(es, 0, t, h);
    StoreEdge(es[1].value, t1, h);
    EdgeNameRoundTrip(e, t1.colour.edgeAction);
    Unroll(es, 1, t1, h);
    assert es[2..] == [];
  }

  lemma LevelsRestored(l: Levels, p: Printer, h: Host, t: PluginState)
    requires LevelsInRange(l) && Exact(p, h, l.pinch) && Exact(p, h, l.bias) && Exact(p, h, l.gain)
    ensures ApplyAll(LevelEntries(l, p), t, h) == t.(levels := l)
  {
    var es := LevelEntries(l, p);
    var t1 := t.(levels := t.levels.(pinch := l.pinch));
    var t2 := t1.(levels := t1.levels.(bias := l.bias));
    Unroll(es, 0, t, h);
    Unroll(es, 1, t1, h);
    Unroll(es, 2, t2, h);
    assert es[3..] == [];
  }

  lemma ChannelsRestored(ch: Channels, h: Host, t: PluginState)
    requires ChannelsInTables(ch)
    ensures ApplyAll(ChannelEntries(ch), t, h) == t.(colour := t.colour.(channel := ch, source := COL_CHANNELS))
  {
    var es := ChannelEntries(ch);
    var t1 := t.(colour := t.colour.(channel := t.colour.channel.(r := ch.r), source := COL_CHANNELS));
    var t2 := t1.(colour := t1.colour.(channel := t1.colour.channel.(g := ch.g)));
    var t3 := t2.(colour := t2.colour.(channel := t2.colour.channel.(b := ch.b)));
    StoreChannels(es[0].value, t, h);
    ColorChannelLookup(ch.r, t.colour.channel.r);
    Unroll(es, 0, t, h);
    StoreChannels(es[1].value, t1, h);
    ColorChannelLookup(ch.g, t1.colour.channel.g);
    Unroll(es, 1, t1, h);
    StoreChannels(es[2].value, t2, h);
    ColorChannelLookup(ch.b, t2.colour.channel.b);
    Unroll(es, 2, t2, h);
    StoreChannels(es[3].value, t3, h);
    AlphaChannelLookup(ch.a, t3.colour.channel.a);
    Unroll(es, 3, t3, h);
    assert es[4..] == [];
  }

  lemma WarpRestored(w: Warp, p: Printer, h: Host, t: PluginState)
    requires WarpInRange(w) && Exact(p, h, w.xSize) && Exact(p, h, w.ySize) && Exact(p, h, w.caustics)
    ensures ApplyAll(WarpEntries(w, p), t, h) == t.(colour := t.colour.(warp := w, source := COL_WARP))
  {
    var es := WarpEntries(w, p);
    var t1 := t.(colour := t.colour.(warp := t.colour.warp.(xSize := w.xSize), source := COL_WARP));
    var t2 := t1.(colour := t1.colour.(warp := t1.colour.warp.(ySize := w.ySize)));
    var t3 := t2.(colour := t2.colour.(warp := t2.colour.warp.(caustics := w.caustics)));
    Unroll(es, 0, t, h);
    Unroll(es, 1, t1, h);
    Unroll(es, 2, t2, h);
    StoreWarpQuality(es[3].value, t3, h);
    WarpQualityLookup(w.quality, t3.colour.warp.quality);
    Unroll(es, 3, t3, h);
    assert es[4..] == [];
  }

  /** The color_src line selects the source; the selected source's lines restore its parameters. */
  lemma SourceRestored(c: Colour, p: Printer, h: Host, t: PluginState)
    requires ColourInRange(c)
    requires c.source == COL_WARP ==> Exact(p, h, c.warp.xSize) && Exact(p, h, c.warp.ySize) && Exact(p, h, c.warp.caustics)
    requires c.source == COL_GRADIENT ==> h.nameHash(p.gradientName(c.gradient)) == c.gradient
    ensures ApplyAll(SourceEntries(c, p), t, h) ==
            t.(colour := Colour(c.source,
                                if c.source == COL_CHANNELS then c.channel else t.colour.channel,
                                if c.source == COL_WARP then c.warp else t.colour.warp,
                                t.colour.edgeAction,
                                if c.source == COL_GRADIENT then c.gradient else t.colour.gradient))
  {
    var es := SourceEntries(c, p);
    var rest := es[1..];
    assert es == es[..1] + rest;
    ApplyAllAppend(es[..1], rest, t, h);
    var t1 := t.(colour := t.colour.(source := c.source));
    assert ApplyAll(es[..1], t, h) == t1 by {
      StoreColorSrc(es[0].value, t, h);
      ColorSrcLookup(c.source, t.colour.source);
      Unroll(es[..1], 0, t, h);
    }
    if c.source == COL_CHANNELS {
      ChannelsRestored(c.channel, h, t1);
    } else if c.source == COL_WARP {
      WarpRestored(c.warp, p, h, t1);
    } else if c.source == COL_GRADIENT {
      Unroll(rest, 0, t1, h);
    }
  }
}
