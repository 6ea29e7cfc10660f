/**
 * The plug-in state as presets see it, its defaults and name tables
 * (main.c, main.h), and the preset reader of loadconf.c: "key: value"
 * lines, split at ',' and line feeds, each looked up in the keyword table
 * and stored with clamping or a case-insensitive name lookup.
 *
 * The C library's number conversions and GIMP's digest of a gradient name
 * are not modelled; they are the fields of a Host value.
 */
module Preset {
  import opened Common
  import opened Text
  import opened Hex

  // Colour sources, the COL_* enumeration.
  const COL_FG_BG := 0
  const COL_GRADIENT := 1
  const COL_CHANNELS := 2
  const COL_WARP := 3

  // GIMP's pixel-fetcher edge modes, the values edge_action holds.
  const EDGE_NONE := 0
  const EDGE_WRAP := 1
  const EDGE_SMEAR := 2
  const EDGE_BLACK := 3
  const EDGE_BACKGROUND := 4

  /** The channel[4] array: the source of red, green, blue and alpha. */
  datatype Channels = Channels(r: int, g: int, b: int, a: int)

  /** PluginState, with its fields grouped; reverse and ign_phase are booleans here. */
  datatype PluginState = PluginState(
    seed: int, randomSeed: bool,
    scales: Scales, style: Style, colour: Colour, levels: Levels, dialog: Dialog)

  /** Pattern size in pixels, fractal octaves, lacunarity and Hurst exponent, frequency and shift. */
  datatype Scales = Scales(
    sizeX: real, sizeY: real, octaves: real, lacunarity: real, hurst: real, frequency: real, shift: real)

  /** The enumerated choices of the pattern, and the output phase. */
  datatype Style = Style(
    mapping: int, basis: int, outFunction: int, reverse: bool, multifractal: int, phase: real, ignPhase: bool)

  /** The warp source's parameters. */
  datatype Warp = Warp(xSize: real, ySize: real, caustics: real, quality: int)

  /** The colour source and what each source reads. */
  datatype Colour = Colour(source: int, channel: Channels, warp: Warp, edgeAction: int, gradient: Digest)

  /** The tone levels. */
  datatype Levels = Levels(pinch: real, bias: real, gain: real)

  /** State of the dialog only: the size links and the preview toggle. */
  datatype Dialog = Dialog(linkedSizes: bool, linkedWarpSizes: bool, showPreview: bool)

  /** An MD5 digest: sixteen bytes. */
  type Digest = d: seq<Byte> | |d| == 16 witness [0, 0, 0, 0, 0, 0, 0, 0, 0, 0, 0, 0, 0, 0, 0, 0]

  function Zeros(n: nat): (r: seq<Byte>)
    ensures |r| == n && forall i :: 0 <= i < n ==> r[i] == 0
  {
    if n == 0 then [] else [0] + Zeros(n - 1)
  }

  /** default_state. */
  const DEFAULTS: PluginState := PluginState(
    0, true,
    Scales(10.0, 10.0, 3.0, 2.0, 0.5, 1.0, 0.0),
    Style(0, 0, 0, false, 0, 0.0, true),
    Colour(COL_FG_BG, Channels(0, 0, 0, 0), Warp(10.0, 10.0, 0.0, 0), EDGE_WRAP, Zeros(16)),
    Levels(0.0, 0.0, 0.0),
    Dialog(true, true, true))

  // The configuration name tables; an entry's position is the value it names.
  const MAPPING_NAMES: seq<string> := ["planar", "tileable", "spherical"]
  const BASIS_NAMES: seq<string> := ["lattice_noise", "lattice_turbulence", "sparse_noise", "sparse_turbulence",
                                     "skin", "puffy", "fractured", "crystals", "galvalized"]
  const COLOR_SRC_NAMES: seq<string> := ["fg_bg", "gradient", "channels", "warp"]
  const FUNCTION_NAMES: seq<string> := ["ramp", "triangle", "sine", "half_sine"]
  const MULTIFRACTAL_NAMES: seq<string> := ["fbm", "multifractal", "inv_multifractal"]
  const COLOR_CHANNEL_NAMES: seq<string> := ["1", "inv_1", "2", "inv_2", "3", "inv_3", "4", "inv_4",
                                             "light", "mid", "dark"]
  const ALPHA_CHANNEL_NAMES: seq<string> := ["1", "inv_1", "2", "inv_2", "3", "inv_3", "4", "inv_4", "solid"]
  const WARP_QUALITY_NAMES: seq<string> := ["faster", "better"]
  const EDGE_NAMES: seq<string> := ["warp", "smear", "black", "background"]

  /** The keywords of SetValue; a keyword's position selects its case. */
  const KEYWORDS: seq<string> := [
    "seed", "size_x", "size_y", "octaves", "lacunarity", "hurst", "frequency", "shift",
    "mapping", "basis", "color_src", "reverse", "function", "phase", "multifractal",
    "channel_r", "channel_g", "channel_b", "channel_a",
    "warp_size_x", "warp_size_y", "warp_caustics", "warp_quality", "edge_action",
    "gradient", "pinch", "bias", "gain"]

  const K_SEED := 0
  const K_SIZE_X := 1
  const K_SIZE_Y := 2
  const K_OCTAVES := 3
  const K_LACUNARITY := 4
  const K_HURST := 5
  const K_FREQUENCY := 6
  const K_SHIFT := 7
  const K_MAPPING := 8
  const K_BASIS := 9
  const K_COLOR_SRC := 10
  const K_REVERSE := 11
  const K_FUNCTION := 12
  const K_PHASE := 13
  const K_MULTIFRACTAL := 14
  const K_CHANNEL_R := 15
  const K_CHANNEL_G := 16
  const K_CHANNEL_B := 17
  const K_CHANNEL_A := 18
  const K_WARP_SIZE_X := 19
  const K_WARP_SIZE_Y := 20
  const K_WARP_CAUSTICS := 21
  const K_WARP_QUALITY := 22
  const K_EDGE_ACTION := 23
  const K_GRADIENT := 24
  const K_PINCH := 25
  const K_BIAS := 26
  const K_GAIN := 27

  /** Length, first and last character: a cheap witness that two entries differ. */
  function Fingerprint(s: string): (int, char, char) {
    if s == [] then (0, ' ', ' ') else (|s|, s[0], s[|s| - 1])
  }

  /** The ends of an entry are not upper-case letters, so strcasecmp sees them as they are. */
  predicate LowerEnds(s: string) {
    s != [] && !('A' <= s[0] <= 'Z') && !('A' <= s[|s| - 1] <= 'Z')
  }

  predicate AllLowerEnds(names: seq<string>) {
    forall i :: 0 <= i < |names| ==> LowerEnds(names[i])
  }

  predicate Distinct(names: seq<string>) {
    forall i, j :: 0 <= i < j < |names| ==> Fingerprint(names[i]) != Fingerprint(names[j])
  }

  /** A lookup table: no two entries could be taken for each other, whatever the letter case. */
  predicate Table(names: seq<string>) {
    AllLowerEnds(names) && Distinct(names)
  }

  /** Two entries both equal to one value up to case share their fingerprint. */
  lemma FingerprintOfMatches(a: string, b: string, value: string)
    requires LowerEnds(a) && LowerEnds(b)
    requires EqualsIgnoreCase(a, value) && EqualsIgnoreCase(value, b)
    ensures Fingerprint(a) == Fingerprint(b)
  {
    assert LowerChar(a[0]) == LowerChar(value[0]) == LowerChar(b[0]);
    var n := |a| - 1;
    assert LowerChar(a[n]) == LowerChar(value[n]) == LowerChar(b[n]);
  }

  lemma KeywordEnds() ensures AllLowerEnds(KEYWORDS) {}
  /** No entry at a position in [a, b) shares its fingerprint with a later entry at a position in [c, d). */
  predicate DistinctBetween(names: seq<string>, a: int, b: int, c: int, d: int)
    requires 0 <= a <= b <= |names| && 0 <= c <= d <= |names|
  {
    forall i, j :: a <= i < b && c <= j < d && i < j ==> Fingerprint(names[i]) != Fingerprint(names[j])
  }

  lemma KeywordsDistinct() ensures Distinct(KEYWORDS) {
    KeywordsDistinct00();
    KeywordsDistinct01();
    KeywordsDistinct02();
    KeywordsDistinct03();
    KeywordsDistinct11();
    KeywordsDistinct12();
    KeywordsDistinct13();
    KeywordsDistinct22();
    KeywordsDistinct23();
    KeywordsDistinct33();
  }
  lemma KeywordsDistinct00() ensures DistinctBetween(KEYWORDS, 0, 7, 0, 7) {}
  lemma KeywordsDistinct01() ensures DistinctBetween(KEYWORDS, 0, 7, 7, 14) {}
  lemma KeywordsDistinct02() ensures DistinctBetween(KEYWORDS, 0, 7, 14, 21) {}
  lemma KeywordsDistinct03() ensures DistinctBetween(KEYWORDS, 0, 7, 21, 28) {}
  lemma KeywordsDistinct11() ensures DistinctBetween(KEYWORDS, 7, 14, 7, 14) {}
  lemma KeywordsDistinct12() ensures DistinctBetween(KEYWORDS, 7, 14, 14, 21) {}
  lemma KeywordsDistinct13() ensures DistinctBetween(KEYWORDS, 7, 14, 21, 28) {}
  lemma KeywordsDistinct22() ensures DistinctBetween(KEYWORDS, 14, 21, 14, 21) {}
  lemma KeywordsDistinct23() ensures DistinctBetween(KEYWORDS, 14, 21, 21, 28) {}
  lemma KeywordsDistinct33() ensures DistinctBetween(KEYWORDS, 21, 28, 21, 28) {}
  lemma PatternEnds() ensures AllLowerEnds(MAPPING_NAMES) && AllLowerEnds(BASIS_NAMES) && AllLowerEnds(FUNCTION_NAMES) && AllLowerEnds(MULTIFRACTAL_NAMES) {}
  lemma PatternDistinct() ensures Distinct(MAPPING_NAMES) && Distinct(BASIS_NAMES) && Distinct(FUNCTION_NAMES) && Distinct(MULTIFRACTAL_NAMES) {
    BasisDistinct();
  }
  lemma BasisDistinct() ensures Distinct(BASIS_NAMES) {}
  lemma ChannelEnds() ensures AllLowerEnds(COLOR_CHANNEL_NAMES) && AllLowerEnds(ALPHA_CHANNEL_NAMES) {}
  lemma ChannelDistinct() ensures Distinct(COLOR_CHANNEL_NAMES) && Distinct(ALPHA_CHANNEL_NAMES) {
    ColorChannelDistinct();
  }
  lemma ColorChannelDistinct() ensures Distinct(COLOR_CHANNEL_NAMES) {}
  lemma ColorEnds() ensures AllLowerEnds(COLOR_SRC_NAMES) && AllLowerEnds(WARP_QUALITY_NAMES) && AllLowerEnds(EDGE_NAMES) {}
  lemma ColorDistinct() ensures Distinct(COLOR_SRC_NAMES) && Distinct(WARP_QUALITY_NAMES) && Distinct(EDGE_NAMES) {}

  lemma KeywordTable()
    ensures Table(KEYWORDS)
  {
    KeywordEnds();
    KeywordsDistinct();
  }

  /** Every name table of the preset format, and the keyword table, is a lookup table. */
  lemma TablesAreTables()
    ensures Table(KEYWORDS) && Table(MAPPING_NAMES) && Table(BASIS_NAMES) && Table(FUNCTION_NAMES)
    ensures Table(MULTIFRACTAL_NAMES) && Table(COLOR_CHANNEL_NAMES) && Table(ALPHA_CHANNEL_NAMES)
    ensures Table(COLOR_SRC_NAMES) && Table(WARP_QUALITY_NAMES) && Table(EDGE_NAMES)
  {
    KeywordEnds(); KeywordsDistinct(); PatternEnds(); PatternDistinct();
    ChannelEnds(); ChannelDistinct(); ColorEnds(); ColorDistinct();
  }

  /**
   * The C library and GIMP services the reader calls: atoi and atof under
   * the "C" numeric locale, and the MD5 digest of a gradient name after
   * g_utf8_strup.
   */
  datatype Host = Host(atoi: string -> int, atof: string -> real, nameHash: string -> Digest)


  /** The position of the first table entry equal to value, ignoring case. */
  function FindName(value: string, names: seq<string>): (r: Option<nat>)
    ensures r.Some? ==> r.value < |names|
  {
    if names == [] then None
    else if EqualsIgnoreCase(names[0], value) then Some(0)
    else match FindName(value, names[1..])
      case None => None
      case Some(i) => Some(i + 1)
  }

  /** The search stops at the first match and reports none only when no entry matches. */
  lemma {:induction false} FindNameFirstMatch(value: string, names: seq<string>)
    ensures var r := FindName(value, names);
      (r.Some? ==> EqualsIgnoreCase(names[r.value], value) &&
                   forall j :: 0 <= j < r.value ==> !EqualsIgnoreCase(names[j], value)) &&
      (r.None? ==> forall j :: 0 <= j < |names| ==> !EqualsIgnoreCase(names[j], value))
  {
    if names != [] && !EqualsIgnoreCase(names[0], value) {
      FindNameFirstMatch(value, names[1..]);
    }
  }

  /** GetByName: the index of the first case-insensitive match, else def. */
  function GetByName(value: string, def: int, names: seq<string>): (r: int)
    ensures 0 <= r < |names| || r == def
  {
    match FindName(value, names)
    case None => def
    case Some(i) => i
  }

  lemma GetByNameFirstMatch(value: string, def: int, names: seq<string>)
    ensures (exists j :: 0 <= j < |names| && EqualsIgnoreCase(names[j], value)) ==>
              var r := GetByName(value, def, names);
              0 <= r < |names| && EqualsIgnoreCase(names[r], value) &&
              forall j :: 0 <= j < r ==> !EqualsIgnoreCase(names[j], value)
    ensures (forall j :: 0 <= j < |names| ==> !EqualsIgnoreCase(names[j], value)) ==>
              GetByName(value, def, names) == def
  {
    FindNameFirstMatch(value, names);
  }

  /** Every entry of a table is found at its own position, whatever its letter case in the file. */
  lemma FindNameOfEntry(names: seq<string>, i: int, value: string)
    requires Table(names) && 0 <= i < |names|
    requires EqualsIgnoreCase(value, names[i])
    ensures FindName(value, names) == Some(i)
  {
    FindNameFirstMatch(value, names);
    var r := FindName(value, names);
    if r.None? {
      assert EqualsIgnoreCase(names[i], value);
    } else if r.value != i {
      FingerprintOfMatches(names[r.value], names[i], value);
      assert false;
    }
  }

  lemma GetByNameOfEntry(names: seq<string>, i: int, def: int)
    requires Table(names) && 0 <= i < |names|
    ensures GetByName(names[i], def, names) == i
  {
    FindNameOfEntry(names, i, names[i]);
  }

  /** GET_FLOAT: atof clamped to [lo, hi]. `atof` is a host function into
      the reals here, so it always yields a number; the NaN C's atof
      returns for "nan" fails both comparisons of the macro and would be
      stored unclamped. */
  function GetFloat(h: Host, value: string, lo: real, hi: real): (r: real)
    requires lo <= hi
    ensures lo <= r <= hi
    ensures lo <= h.atof(value) <= hi ==> r == h.atof(value)
    ensures h.atof(value) < lo ==> r == lo
    ensures h.atof(value) > hi ==> r == hi
  {
    Clamp(h.atof(value), lo, hi)
  }

  /** GET_INT: atoi clamped to [lo, hi]. */
  function GetInt(h: Host, value: string, lo: int, hi: int): (r: int)
    requires lo <= hi
    ensures lo <= r <= hi
    ensures lo <= h.atoi(value) <= hi ==> r == h.atoi(value)
    ensures h.atoi(value) < lo ==> r == lo
    ensures h.atoi(value) > hi ==> r == hi
  {
    ClampInt(h.atoi(value), lo, hi)
  }

  /** GET_BOOL: strchr ("yYtT1", value[0]) also finds the terminator of an empty value. */
  predicate GetBool(value: string) {
    value == [] || value[0] in "yYtT1"
  }

  /** The guint seed receives (int) atoi (...): the conversion keeps the value modulo 2^32. */
  function ToUnsigned(n: int): (r: int)
    ensures 0 <= r < W32
    ensures (r - n) % W32 == 0
  {
    n % W32
  }

  /** StoreGradientName: the digest of the upper-cased name, or sixteen zero bytes for NULL. */
  function StoreGradientName(name: Option<string>, h: Host): (r: Digest)
    ensures name.None? ==> forall i :: 0 <= i < 16 ==> r[i] == 0
  {
    match name
    case None => Zeros(16)
    case Some(n) => h.nameHash(n)
  }

  /**
   * The edge_action case, with the table read as naming GIMP's modes from
   * EDGE_WRAP on: "warp" is Wrap, ..., "background" is Background.
   */
  function EdgeValue(value: string, prev: int): (r: int)
    ensures FindName(value, EDGE_NAMES).Some? ==> EDGE_WRAP <= r <= EDGE_BACKGROUND
    ensures FindName(value, EDGE_NAMES).None? ==> r == prev
  {
    match FindName(value, EDGE_NAMES)
    case None => prev
    case Some(i) => EDGE_WRAP + i
  }

  /** The edge_action case as written: the table position itself is stored. */
  function EdgeValueAsWritten(value: string, prev: int): (r: int)
    ensures FindName(value, EDGE_NAMES).Some? ==> r == EdgeValue(value, prev) - EDGE_WRAP && EDGE_NONE <= r <= EDGE_BLACK
    ensures FindName(value, EDGE_NAMES).None? ==> r == prev
  {
    GetByName(value, prev, EDGE_NAMES)
  }

  /** The case of SetValue's switch selected by keyword index k; any other k stores nothing. */
  function Apply(k: int, value: string, s: PluginState, h: Host): (r: PluginState)
    ensures !(0 <= k < |KEYWORDS|) ==> r == s
    ensures r.dialog == s.dialog
  {
    if k < K_MAPPING then ApplyScales(k, value, s, h)
    else if k < K_CHANNEL_R then ApplyStyle(k, value, s, h)
    else if k < K_PINCH then ApplyColour(k, value, s, h)
    else ApplyLevels(k, value, s, h)
  }

  function ApplyScales(k: int, value: string, s: PluginState, h: Host): PluginState {
    var sc := s.scales;
    match k
    case 0 => s.(seed := ToUnsigned(h.atoi(value)), randomSeed := false)
    case 1 => s.(scales := sc.(sizeX := GetFloat(h, value, 1.0, 1000000.0)))
    case 2 => s.(scales := sc.(sizeY := GetFloat(h, value, 1.0, 1000000.0)))
    case 3 => s.(scales := sc.(octaves := GetFloat(h, value, 1.0, 15.0)))
    case 4 => s.(scales := sc.(lacunarity := GetFloat(h, value, 1.0, 10.0)))
    case 5 => s.(scales := sc.(hurst := GetFloat(h, value, 0.0, 2.0)))
    case 6 => s.(scales := sc.(frequency := GetFloat(h, value, 0.001, 1000.0)))
    case 7 => s.(scales := sc.(shift := GetFloat(h, value, 0.0, 100.0)))
    case _ => s
  }

  function ApplyStyle(k: int, value: string, s: PluginState, h: Host): PluginState {
    var st := s.style;
    var c := s.colour;
    match k
    case 8 => s.(style := st.(mapping := GetByName(value, st.mapping, MAPPING_NAMES)))
    case 9 => s.(style := st.(basis := GetByName(value, st.basis, BASIS_NAMES)))
    case 10 => s.(colour := c.(source := GetByName(value, c.source, COLOR_SRC_NAMES)))
    case 11 => s.(style := st.(reverse := GetBool(value)))
    case 12 => s.(style := st.(outFunction := GetByName(value, st.outFunction, FUNCTION_NAMES)))
    case 13 => s.(style := st.(phase := h.atof(value), ignPhase := false))
    case 14 => s.(style := st.(multifractal := GetByName(value, st.multifractal, MULTIFRACTAL_NAMES)))
    case _ => s
  }

  function ApplyColour(k: int, value: string, s: PluginState, h: Host): PluginState {
    var c := s.colour;
    var ch := c.channel;
    var w := c.warp;
    match k
    case 15 => s.(colour := c.(channel := ch.(r := GetByName(value, ch.r, COLOR_CHANNEL_NAMES)), source := COL_CHANNELS))
    case 16 => s.(colour := c.(channel := ch.(g := GetByName(value, ch.g, COLOR_CHANNEL_NAMES)), source := COL_CHANNELS))
    case 17 => s.(colour := c.(channel := ch.(b := GetByName(value, ch.b, COLOR_CHANNEL_NAMES)), source := COL_CHANNELS))
    case 18 => s.(colour := c.(channel := ch.(a := GetByName(value, ch.a, ALPHA_CHANNEL_NAMES)), source := COL_CHANNELS))
    case 19 => s.(colour := c.(warp := w.(xSize := GetFloat(h, value, 1.0, 1000000.0)), source := COL_WARP))
    case 20 => s.(colour := c.(warp := w.(ySize := GetFloat(h, value, 1.0, 1000000.0)), source := COL_WARP))
    case 21 => s.(colour := c.(warp := w.(caustics := GetFloat(h, value, -100.0, 100.0)), source := COL_WARP))
    case 22 => s.(colour := c.(warp := w.(quality := GetByName(value, w.quality, WARP_QUALITY_NAMES)), source := COL_WARP))
    case 23 => s.(colour := c.(edgeAction := EdgeValue(value, c.edgeAction)))
    case 24 => s.(colour := c.(gradient := StoreGradientName(Some(value), h), source := COL_GRADIENT))
    case _ => s
  }

  function ApplyLevels(k: int, value: string, s: PluginState, h: Host): PluginState {
    var l := s.levels;
    match k
    case 25 => s.(levels := l.(pinch := GetFloat(h, value, -1.0, 1.0)))
    case 26 => s.(levels := l.(bias := GetFloat(h, value, -1.0, 1.0)))
    case 27 => s.(levels := l.(gain := GetFloat(h, value, -1.0, 1.0)))
    case _ => s
  }

  /** SetValue: look the key up among the keywords and store the value. */
  function SetValue(key: string, value: string, s: PluginState, h: Host): (r: PluginState)
    ensures FindName(key, KEYWORDS).None? ==> r == s
    ensures r.dialog == s.dialog
  {
    Apply(GetByName(key, -1, KEYWORDS), value, s, h)
  }

  predicate ScalesInRange(sc: Scales) {
    1.0 <= sc.sizeX <= 1000000.0 && 1.0 <= sc.sizeY <= 1000000.0 &&
    1.0 <= sc.octaves <= 15.0 && 1.0 <= sc.lacunarity <= 10.0 && 0.0 <= sc.hurst <= 2.0 &&
    0.001 <= sc.frequency <= 1000.0 && 0.0 <= sc.shift <= 100.0
  }

  predicate StyleInTables(st: Style) {
    0 <= st.mapping < |MAPPING_NAMES| && 0 <= st.basis < |BASIS_NAMES| &&
    0 <= st.outFunction < |FUNCTION_NAMES| && 0 <= st.multifractal < |MULTIFRACTAL_NAMES|
  }

  predicate ChannelsInTables(ch: Channels) {
    0 <= ch.r < |COLOR_CHANNEL_NAMES| && 0 <= ch.g < |COLOR_CHANNEL_NAMES| &&
    0 <= ch.b < |COLOR_CHANNEL_NAMES| && 0 <= ch.a < |ALPHA_CHANNEL_NAMES|
  }

  predicate WarpInRange(w: Warp) {
    1.0 <= w.xSize <= 1000000.0 && 1.0 <= w.ySize <= 1000000.0 &&
    -100.0 <= w.caustics <= 100.0 && 0 <= w.quality < |WARP_QUALITY_NAMES|
  }

  predicate ColourInRange(c: Colour) {
    0 <= c.source < |COLOR_SRC_NAMES| && ChannelsInTables(c.channel) && WarpInRange(c.warp) &&
    EDGE_WRAP <= c.edgeAction <= EDGE_BACKGROUND
  }

  predicate LevelsInRange(l: Levels) {
    -1.0 <= l.pinch <= 1.0 && -1.0 <= l.bias <= 1.0 && -1.0 <= l.gain <= 1.0
  }

  /**
   * The state a preset can describe: every field inside the range its
   * reader clamps to, every enumeration inside its name table, and a
   * 32-bit seed.
   */
  predicate WellFormed(s: PluginState) {
    0 <= s.seed < W32 && ScalesInRange(s.scales) && StyleInTables(s.style) &&
    ColourInRange(s.colour) && LevelsInRange(s.levels)
  }

  lemma DefaultsWellFormed()
    ensures WellFormed(DEFAULTS)
  {
  }

  lemma ApplyWellFormed(k: int, value: string, s: PluginState, h: Host)
    requires WellFormed(s)
    ensures WellFormed(Apply(k, value, s, h))
  {
    match k
    case 0 =>
    case 1 =>
    case 2 =>
    case 3 =>
    case 4 =>
    case 5 =>
    case 6 =>
    case 7 =>
    case 8 =>
    case 9 =>
    case 10 =>
    case 11 =>
    case 12 =>
    case 13 =>
    case 14 =>
    case 15 =>
    case 16 =>
    case 17 =>
    case 18 =>
    case 19 =>
    case 20 =>
    case 21 =>
    case 22 =>
    case 23 =>
    case 24 =>
    case 25 =>
    case 26 =>
    case 27 =>
    case _ =>
  }

  /** Whatever number the text reads as, a stored value never leaves its
      field's range. A NaN from atof is not a number of this model. */
  lemma SetValueWellFormed(key: string, value: string, s: PluginState, h: Host)
    requires WellFormed(s)
    ensures WellFormed(SetValue(key, value, s, h))
  {
    ApplyWellFormed(GetByName(key, -1, KEYWORDS), value, s, h);
  }

  /**
   * The side effects of particular keywords: seed clears random_seed,
   * phase clears ign_phase, and the channel, warp and gradient keywords
   * switch the colour source.
   */
  lemma SetValueSideEffects(key: string, value: string, s: PluginState, h: Host)
    ensures var r := SetValue(key, value, s, h);
      var k := FindName(key, KEYWORDS);
      (k == Some(K_SEED) ==> !r.randomSeed && r.seed == ToUnsigned(h.atoi(value))) &&
      (k == Some(K_PHASE) ==> !r.style.ignPhase && r.style.phase == h.atof(value)) &&
      (k.Some? && K_CHANNEL_R <= k.value <= K_CHANNEL_A ==> r.colour.source == COL_CHANNELS) &&
      (k.Some? && K_WARP_SIZE_X <= k.value <= K_WARP_QUALITY ==> r.colour.source == COL_WARP) &&
      (k == Some(K_GRADIENT) ==> r.colour.source == COL_GRADIENT && r.colour.gradient == h.nameHash(value))
  {
  }

  /**
   * What ParseIncremental makes of a line before SetValue: None for a blank
   * or comment line, otherwise the stripped key and, when the line has a
   * ':', the stripped text after the first one.
   */
  function SplitLine(line: string): (r: Option<(string, Option<string>)>)
    ensures r.None? <==> Chug(line) == [] || Chug(line)[0] == '#'
    ensures r.Some? ==> ':' !in r.value.0
    ensures r.Some? ==> (r.value.1.None? <==> ':' !in line)
  {
    var l := Chug(line);
    if l == [] || l[0] == '#' then None
    else
      var t := SplitAtFirst(Chomp(l), ':');
      TrimKeepsColon(line);
      StripKeeps(t.0, ':');
      Some((Strip(t.0), match t.1 case None => None case Some(v) => Some(Strip(v))))
  }

  /** Trimming removes whitespace only, so the line has a ':' exactly when its trimmed text has. */
  lemma TrimKeepsColon(line: string)
    requires Chug(line) != []
    ensures ':' in Chomp(Chug(line)) <==> ':' in line
  {
    var c := Chug(line);
    if ':' in Chomp(c) {
      ChompFrom(c, ':');
      ChugFrom(line, ':');
    }
    if ':' in line {
      ColonSurvivesTrim(line);
    }
  }

  /** Stripping does not add characters. */
  lemma StripKeeps(s: string, x: char)
    requires x !in s
    ensures x !in Strip(s)
  {
  }

  /** ':' is not whitespace, so trimming the line keeps it. */
  lemma ColonSurvivesTrim(line: string)
    requires ':' in line && Chug(line) != []
    ensures ':' in Chomp(Chug(line))
  {
    ChugKeeps(line, ':');
    ChompKeeps(Chug(line), ':');
  }

  /** ParseIncremental, with a line that has no ':' skipped. */
  function ParseIncremental(s: PluginState, line: string, h: Host): (r: PluginState)
    ensures ':' !in line ==> r == s
    ensures r.dialog == s.dialog
  {
    match SplitLine(line)
    case Some((key, Some(value))) => SetValue(key, value, s, h)
    case _ => s
  }

  /**
   * SetValue as written when the value is missing (tokens[1] is NULL):
   * None stands for the NULL dereference in atoi, atof, strcasecmp or
   * GET_BOOL.  The gradient case hands NULL to StoreGradientName, which
   * zeroes the digest, and an unknown key touches nothing.
   */
  function SetValueAsWritten(key: string, value: Option<string>, s: PluginState, h: Host): (r: Option<PluginState>)
    ensures value.Some? ==> r == Some(SetValue(key, value.value, s, h))
    ensures value.None? ==> (r.None? <==> FindName(key, KEYWORDS).Some? && FindName(key, KEYWORDS).value != K_GRADIENT)
  {
    match value
    case Some(v) => Some(SetValue(key, v, s, h))
    case None =>
      var k := GetByName(key, -1, KEYWORDS);
      if k == K_GRADIENT then Some(s.(colour := s.colour.(gradient := StoreGradientName(None, h), source := COL_GRADIENT)))
      else if k == -1 then Some(s)
      else None
  }

  /** ParseIncremental as written: a line without ':' reaches SetValue with a NULL value. */
  function ParseIncrementalAsWritten(s: PluginState, line: string, h: Host): (r: Option<PluginState>)
    ensures ':' in line ==> r == Some(ParseIncremental(s, line, h))
    ensures r.None? ==> ':' !in line
  {
    match SplitLine(line)
    case None => Some(s)
    case Some((key, value)) => SetValueAsWritten(key, value, s, h)
  }

  /** The corrected reader skips a line without ':' and agrees with the written one on every other line. */
  lemma ParseIncrementalGuarded(s: PluginState, line: string, h: Host)
    ensures ':' !in line ==> ParseIncremental(s, line, h) == s
    ensures ':' in line ==> ParseIncrementalAsWritten(s, line, h) == Some(ParseIncremental(s, line, h))
  {
  }

  /** A trimmed word without ':' is a key with no value. */
  lemma SplitLineBare(word: string)
    requires Trimmed(word) && ':' !in word && word[0] != '#'
    ensures SplitLine(word) == Some((word, None))
  {
    StripTrimmed(word);
  }

  /** A bare "seed" line: as written the reader dereferences NULL; corrected, the line is skipped. */
  lemma BareSeedLine(s: PluginState, h: Host)
    ensures ParseIncrementalAsWritten(s, "seed", h) == None
    ensures ParseIncremental(s, "seed", h) == s
  {
    SplitLineBare("seed");
    assert GetByName("seed", -1, KEYWORDS) == K_SEED by {
      KeywordTable();
      GetByNameOfEntry(KEYWORDS, K_SEED, -1);
    }
  }

  /** A bare "gradient" line: as written it zeroes the digest and selects the gradient source. */
  lemma BareGradientLine(s: PluginState, h: Host)
    ensures ParseIncrementalAsWritten(s, "gradient", h) ==
            Some(s.(colour := s.colour.(gradient := Zeros(16), source := COL_GRADIENT)))
    ensures ParseIncremental(s, "gradient", h) == s
  {
    SplitLineBare("gradient");
    assert GetByName("gradient", -1, KEYWORDS) == K_GRADIENT by {
      KeywordTable();
      GetByNameOfEntry(KEYWORDS, K_GRADIENT, -1);
    }
  }

  /** The lines in order, each read into the state the previous ones left. */
  function Fold(lines: seq<string>, s: PluginState, step: (PluginState, string) -> PluginState): PluginState {
    if lines == [] then s else Fold(lines[1..], step(s, lines[0]), step)
  }

  lemma {:induction false} FoldAppend(a: seq<string>, b: seq<string>, s: PluginState,
                                      step: (PluginState, string) -> PluginState)
    ensures Fold(a + b, s, step) == Fold(b, Fold(a, s, step), step)
  {
    if a != [] {
      assert (a + b)[0] == a[0] && (a + b)[1..] == a[1..] + b;
      FoldAppend(a[1..], b, step(s, a[0]), step);
      assert Fold(a + b, s, step) == Fold(a[1..] + b, step(s, a[0]), step);
    } else {
      assert a + b == b;
    }
  }

  /** One reader step per line. */
  function Step(h: Host): (PluginState, string) -> PluginState {
    (s: PluginState, line: string) => ParseIncremental(s, line, h)
  }

  function ParseLines(lines: seq<string>, s: PluginState, h: Host): PluginState {
    Fold(lines, s, Step(h))
  }

  /** PostParse: the size links of the dialog follow from equal sizes. */
  function PostParse(s: PluginState): (r: PluginState)
    ensures r.dialog.linkedSizes <==> s.scales.sizeX == s.scales.sizeY
    ensures r.dialog.linkedWarpSizes <==> s.colour.warp.xSize == s.colour.warp.ySize
    ensures r.(dialog := s.dialog) == s
  {
    s.(dialog := s.dialog.(linkedSizes := s.scales.sizeX == s.scales.sizeY,
                           linkedWarpSizes := s.colour.warp.xSize == s.colour.warp.ySize))
  }

  /** The separators ParseConfig splits a parameter string at. */
  const SEPARATORS: set<char> := {',', '\n'}

  /** ParseConfig: defaults, then every piece of the text, then the size links. */
  function ParseConfig(cfg: string, h: Host): (r: PluginState)
    ensures WellFormed(r)
    ensures r.dialog.linkedSizes <==> r.scales.sizeX == r.scales.sizeY
    ensures r.dialog.linkedWarpSizes <==> r.colour.warp.xSize == r.colour.warp.ySize
    ensures cfg == [] ==> r == DEFAULTS
  {
    ReadPieces(SplitSet(cfg, SEPARATORS), h)
  }

  lemma ParseIncrementalWellFormed(s: PluginState, line: string, h: Host)
    requires WellFormed(s)
    ensures WellFormed(ParseIncremental(s, line, h))
    ensures ParseIncremental(s, line, h).dialog == s.dialog
  {
    match SplitLine(line)
    case Some((key, Some(value))) =>
      SetValueWellFormed(key, value, s, h);
    case _ =>
  }

  lemma {:induction false} ParseLinesWellFormed(lines: seq<string>, s: PluginState, h: Host)
    requires WellFormed(s)
    ensures WellFormed(ParseLines(lines, s, h))
    ensures ParseLines(lines, s, h).dialog == s.dialog
  {
    if lines != [] {
      ParseIncrementalWellFormed(s, lines[0], h);
      assert Step(h)(s, lines[0]) == ParseIncremental(s, lines[0], h);
      ParseLinesWellFormed(lines[1..], ParseIncremental(s, lines[0], h), h);
    }
  }

  /** The size of LoadConfig's line buffer; fgets stores at most one character less. */
  const LINE_BUFFER := 1024

  /**
   * The length of what one fgets call takes from the front of text: up to
   * and including the first line feed, but never more than room characters.
   * fgets counts bytes; the two counts agree on ASCII text (`ByteLengthIsLength`).
   */
  function PieceLength(text: string, room: nat): (n: nat)
    ensures n <= |text| && n <= room
    ensures text != [] && room > 0 ==> n >= 1
    ensures n >= 1 ==> '\n' !in text[..n - 1]
    ensures n < |text| && n < room ==> n >= 1 && text[n - 1] == '\n'
  {
    if text == [] || room == 0 then 0
    else if text[0] == '\n' then 1
    else
      var n := PieceLength(text[1..], room - 1);
      assert n >= 1 ==> text[1..][..n - 1] == text[1..n];
      1 + n
  }

  /** The pieces successive fgets (buffer, 1024, file) calls return until the end of the file. */
  function Fgets(text: string): (r: seq<string>)
    ensures forall i :: 0 <= i < |r| ==> 1 <= |r[i]| <= LINE_BUFFER - 1
    decreases |text|
  {
    if text == [] then []
    else
      var n := PieceLength(text, LINE_BUFFER - 1);
      [text[..n]] + Fgets(text[n..])
  }

  /** Every line followed by tail. */
  function Ended(lines: seq<string>, tail: string): (r: seq<string>)
    ensures |r| == |lines|
    ensures forall i :: 0 <= i < |lines| ==> r[i] == lines[i] + tail
  {
    if lines == [] then [] else [lines[0] + tail] + Ended(lines[1..], tail)
  }

  lemma {:induction false} PieceOfLine(line: string, rest: string)
    requires Free(line, {'\n'}) && |line| < LINE_BUFFER - 1
    ensures PieceLength(line + "\n" + rest, LINE_BUFFER - 1) == |line| + 1
  {
    PieceOfLineRoom(line, rest, LINE_BUFFER - 1);
  }

  lemma {:induction false} PieceOfLineRoom(line: string, rest: string, room: nat)
    requires Free(line, {'\n'}) && |line| < room
    ensures PieceLength(line + "\n" + rest, room) == |line| + 1
  {
    var t := line + "\n" + rest;
    if line != [] {
      assert t[0] == line[0] && t[0] != '\n';
      assert t[1..] == line[1..] + "\n" + rest;
      PieceOfLineRoom(line[1..], rest, room - 1);
    }
  }

  /** Lines short enough for the buffer come back one per fgets call, each with its line feed. */
  lemma {:induction false} FgetsJoinLines(lines: seq<string>)
    requires forall i :: 0 <= i < |lines| ==> Free(lines[i], {'\n'}) && |lines[i]| < LINE_BUFFER - 1
    ensures Fgets(JoinLines(lines)) == Ended(lines, "\n")
  {
    if lines != [] {
      var rest := JoinLines(lines[1..]);
      var t := JoinLines(lines);
      assert t == lines[0] + "\n" + rest;
      PieceOfLine(lines[0], rest);
      var n := |lines[0]| + 1;
      assert t[..n] == lines[0] + "\n";
      assert t[n..] == rest;
      FgetsJoinLines(lines[1..]);
    }
  }

  /** The state the readers leave after the given pieces of text. */
  function ReadPieces(pieces: seq<string>, h: Host): (r: PluginState)
    ensures WellFormed(r)
    ensures r.dialog.linkedSizes <==> r.scales.sizeX == r.scales.sizeY
    ensures r.dialog.linkedWarpSizes <==> r.colour.warp.xSize == r.colour.warp.ySize
    ensures r.dialog.showPreview == DEFAULTS.dialog.showPreview
  {
    ParseLinesWellFormed(pieces, DEFAULTS, h);
    PostParse(ParseLines(pieces, DEFAULTS, h))
  }

  /**
   * LoadConfig on a file that opened: defaults, then every piece fgets
   * returns, then the size links.  Unlike ParseConfig it does not split at
   * ','.
   */
  function LoadConfig(text: string, h: Host): (r: PluginState)
    ensures WellFormed(r)
    ensures r.dialog.linkedSizes <==> r.scales.sizeX == r.scales.sizeY
    ensures r.dialog.linkedWarpSizes <==> r.colour.warp.xSize == r.colour.warp.ySize
  {
    ReadPieces(Fgets(text), h)
  }

  /** An empty parameter string gives the defaults. */
  lemma ParseEmpty(h: Host)
    ensures ParseConfig([], h) == DEFAULTS
  {
  }
}
