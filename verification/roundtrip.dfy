/**
 * Saving a preset and loading it again: the lines SaveConfig writes are
 * read by LoadConfig (and by ParseConfig, given the same text) into the
 * state that was saved, up to what the file format keeps.
 */
module PresetRoundTrip {
  import opened Common
  import opened Text
  import opened Preset
  import opened PresetSave

  /** Storing the saved entries over the defaults gives back what the format keeps of the state. */
  lemma EntriesRestored(s: PluginState, p: Printer, h: Host)
    requires WellFormed(s) && IntegersReadBack(p, h) && ValuesReadBack(p, h, s)
    ensures ApplyAll(Entries(s, p), DEFAULTS, h) == Restored(s)
  {
    var sd := SeedEntries(s, p);
    var sc := ScaleEntries(s.scales, p);
    var st := StyleEntries(s.style);
    var ph := PhaseEntries(s.style, p);
    var md := ModeEntries(s.style.multifractal, s.colour.edgeAction);
    var lv := LevelEntries(s.levels, p);
    var src := SourceEntries(s.colour, p);
    var a := sd + sc;
    var b := a + st;
    var c := b + ph;
    var d := c + md;
    var e := d + lv;
    assert Entries(s, p) == e + src;

    var t0 := DEFAULTS;
    SeedRestored(s, p, h, t0);
    var t1 := ApplyAll(sd, t0, h);
    ApplyAllAppend(sd, sc, t0, h);
    ScalesRestored(s.scales, p, h, t1);
    var t2 := t1.(scales := s.scales);
    ApplyAllAppend(a, st, t0, h);
    StyleRestored(s.style, h, t2);
    var t3 := t2.(style := t2.style.(mapping := s.style.mapping, basis := s.style.basis,
                                     reverse := s.style.reverse, outFunction := s.style.outFunction));
    ApplyAllAppend(b, ph, t0, h);
    PhaseRestored(s.style, p, h, t3);
    var t4 := if s.style.ignPhase then t3 else t3.(style := t3.style.(phase := s.style.phase, ignPhase := false));
    ApplyAllAppend(c, md, t0, h);
    ModeRestored(s.style.multifractal, s.colour.edgeAction, h, t4);
    var t5 := t4.(style := t4.style.(multifractal := s.style.multifractal),
                  colour := t4.colour.(edgeAction := s.colour.edgeAction));
    ApplyAllAppend(d, lv, t0, h);
    LevelsRestored(s.levels, p, h, t5);
    var t6 := t5.(levels := s.levels);
    ApplyAllAppend(e, src, t0, h);
    SourceRestored(s.colour, p, h, t6);
  }

  // ---------------------------------------------------------------------
  // What SaveConfig writes can be read back line by line

  /** Every value of the entries is printable. */
  predicate AllPrintable(es: seq<Entry>) {
    forall i :: 0 <= i < |es| ==> Printable(es[i].value)
  }

  lemma PrintableAppend(a: seq<Entry>, b: seq<Entry>)
    requires AllPrintable(a) && AllPrintable(b)
    ensures AllPrintable(a + b)
  {
  }

  /** The names of a table are printable when each is trimmed, free of separators and short. */
  lemma TablePrintable(t: seq<string>)
    requires forall i :: 0 <= i < |t| ==> Trimmed(t[i]) && Free(t[i], SEPARATORS) && |t[i]| <= MAX_VALUE / 4
    ensures forall i :: 0 <= i < |t| ==> Printable(t[i])
  {
  }

  lemma PrintableTwo(x: Entry, y: Entry)
    requires Printable(x.value) && Printable(y.value)
    ensures AllPrintable([x, y])
  {
  }

  /** Four entries whose values are each printable. */
  lemma PrintableFour(es: seq<Entry>)
    requires |es| == 4
    requires Printable(es[0].value) && Printable(es[1].value) && Printable(es[2].value) && Printable(es[3].value)
    ensures AllPrintable(es)
  {
  }

  lemma PatternNamesPrintable()
    ensures forall i :: 0 <= i < |MAPPING_NAMES| ==> Printable(MAPPING_NAMES[i])
    ensures forall i :: 0 <= i < |FUNCTION_NAMES| ==> Printable(FUNCTION_NAMES[i])
    ensures forall i :: 0 <= i < |MULTIFRACTAL_NAMES| ==> Printable(MULTIFRACTAL_NAMES[i])
  {
    TablePrintable(MAPPING_NAMES);
    TablePrintable(FUNCTION_NAMES);
    TablePrintable(MULTIFRACTAL_NAMES);
  }

  lemma BasisNamesPrintable()
    ensures forall i :: 0 <= i < |BASIS_NAMES| ==> Printable(BASIS_NAMES[i])
  {
    TablePrintable(BASIS_NAMES);
  }

  lemma ChannelNamesPrintable()
    ensures forall i :: 0 <= i < |COLOR_CHANNEL_NAMES| ==> Printable(COLOR_CHANNEL_NAMES[i])
    ensures forall i :: 0 <= i < |ALPHA_CHANNEL_NAMES| ==> Printable(ALPHA_CHANNEL_NAMES[i])
  {
    TablePrintable(COLOR_CHANNEL_NAMES);
    TablePrintable(ALPHA_CHANNEL_NAMES);
  }

  lemma ColourNamesPrintable()
    ensures forall i :: 0 <= i < |COLOR_SRC_NAMES| ==> Printable(COLOR_SRC_NAMES[i])
    ensures forall i :: 0 <= i < |WARP_QUALITY_NAMES| ==> Printable(WARP_QUALITY_NAMES[i])
    ensures forall i :: 0 <= i < |EDGE_NAMES| ==> Printable(EDGE_NAMES[i])
    ensures Printable(YesNo(true)) && Printable(YesNo(false))
  {
    TablePrintable(COLOR_SRC_NAMES);
    TablePrintable(WARP_QUALITY_NAMES);
    TablePrintable(EDGE_NAMES);
    TablePrintable([YesNo(true), YesNo(false)]);
    assert [YesNo(true), YesNo(false)][1] == YesNo(false);
  }

  lemma StylePrintable(st: Style)
    requires StyleInTables(st)
    ensures AllPrintable(StyleEntries(st))
  {
    PatternNamesPrintable();
    BasisNamesPrintable();
    ColourNamesPrintable();
    PrintableFour(StyleEntries(st));
  }

  lemma ModePrintable(m: int, e: int)
    requires 0 <= m < |MULTIFRACTAL_NAMES| && EDGE_WRAP <= e <= EDGE_BACKGROUND
    ensures AllPrintable(ModeEntries(m, e))
  {
    var a := MULTIFRACTAL_NAMES[m];
    var b := EdgeName(e);
    assert Printable(a) by { PatternNamesPrintable(); }
    assert Printable(b) by { ColourNamesPrintable(); }
    PrintableTwo(Entry(K_MULTIFRACTAL, a), Entry(K_EDGE_ACTION, b));
  }

  lemma SourcePrintable(c: Colour, p: Printer)
    requires ColourInRange(c)
    requires c.source == COL_GRADIENT ==> Printable(p.gradientName(c.gradient))
    requires c.source == COL_WARP ==>
      Printable(p.decimal(c.warp.xSize)) && Printable(p.decimal(c.warp.ySize)) && Printable(p.decimal(c.warp.caustics))
    ensures AllPrintable(SourceEntries(c, p))
  {
    var es := SourceEntries(c, p);
    var head := [Entry(K_COLOR_SRC, COLOR_SRC_NAMES[c.source])];
    assert AllPrintable(head) by { ColourNamesPrintable(); }
    var tail := es[1..];
    if c.source == COL_CHANNELS {
      assert tail == ChannelEntries(c.channel);
      ChannelNamesPrintable();
      PrintableFour(tail);
    } else if c.source == COL_WARP {
      assert tail == WarpEntries(c.warp, p);
      assert Printable(tail[3].value) by { ColourNamesPrintable(); }
      PrintableFour(tail);
    }
    assert AllPrintable(tail);
    assert es == head + tail;
    PrintableAppend(head, tail);
  }

  /** The numbers and the seed come from the printer. */
  lemma NumbersPrintable(s: PluginState, p: Printer, h: Host)
    requires 0 <= s.seed < W32 && CleanPrinter(p) && ValuesReadBack(p, h, s)
    ensures AllPrintable(SeedEntries(s, p)) && AllPrintable(ScaleEntries(s.scales, p))
    ensures AllPrintable(PhaseEntries(s.style, p)) && AllPrintable(LevelEntries(s.levels, p))
  {
  }

  /** Every value SaveConfig writes is printable when the printer's numbers and the gradient name are. */
  lemma EntriesPrintable(s: PluginState, p: Printer, h: Host)
    requires WellFormed(s) && CleanPrinter(p) && ValuesReadBack(p, h, s)
    ensures AllPrintable(Entries(s, p))
  {
    var sd := SeedEntries(s, p);
    var sc := ScaleEntries(s.scales, p);
    var st := StyleEntries(s.style);
    var ph := PhaseEntries(s.style, p);
    var md := ModeEntries(s.style.multifractal, s.colour.edgeAction);
    var lv := LevelEntries(s.levels, p);
    var src := SourceEntries(s.colour, p);
    assert Entries(s, p) == sd + sc + st + ph + md + lv + src;
    NumbersPrintable(s, p, h);
    StylePrintable(s.style);
    ModePrintable(s.style.multifractal, s.colour.edgeAction);
    SourcePrintable(s.colour, p);
    PrintableAppend(sd, sc);
    PrintableAppend(sd + sc, st);
    PrintableAppend(sd + sc + st, ph);
    PrintableAppend(sd + sc + st + ph, md);
    PrintableAppend(sd + sc + st + ph + md, lv);
    PrintableAppend(sd + sc + st + ph + md + lv, src);
  }

  /**
   * A line fgets returns whole and neither reader splits: no separator,
   * and room in the 1024-byte buffer for its bytes and its line feed.
   */
  predicate Clean(line: string) {
    Free(line, SEPARATORS) && ByteLength(line) < LINE_BUFFER - 1
  }

  lemma LineClean(key: string, value: string)
    requires Key(key) && Printable(value)
    ensures Clean(Line(key, value))
  {
    KeyFacts(key);
    var line := Line(key, value);
    var n := 14 - |key|;
    var pad := key + ":" + Spaces(n);
    assert line == pad + value;
    ByteLengthAppend(pad, value);
    forall i | 0 <= i < |line| ensures line[i] !in SEPARATORS {
      if i < |key| {
        assert line[i] == key[i];
      } else if i < |key| + 1 + n {
        assert line[i] == ':' || line[i] == ' ';
      } else {
        assert line[i] == value[i - |key| - 1 - n];
      }
    }
  }

  lemma {:induction false} EntryLinesClean(es: seq<Entry>)
    requires Keyed(es) && AllPrintable(es)
    ensures forall i :: 0 <= i < |es| ==> Clean(EntryLines(es)[i])
  {
    if es != [] {
      KeywordsAreKeys();
      LineClean(KEYWORDS[es[0].k], es[0].value);
      EntryLinesClean(es[1..]);
      assert EntryLines(es) == [Line(KEYWORDS[es[0].k], es[0].value)] + EntryLines(es[1..]);
    }
  }

  /** A value between two ASCII pieces: each of their characters takes one byte. */
  lemma FramedValue(a: string, b: string, c: string)
    requires forall i :: 0 <= i < |a| ==> a[i] < '\U{80}'
    requires forall i :: 0 <= i < |c| ==> c[i] < '\U{80}'
    requires Free(a, SEPARATORS) && Free(b, SEPARATORS) && Free(c, SEPARATORS)
    ensures Free(a + b + c, SEPARATORS)
    ensures ByteLength(a + b + c) == |a| + ByteLength(b) + |c|
  {
    ByteLengthIsLength(a);
    ByteLengthIsLength(c);
    ByteLengthAppend(a, b);
    ByteLengthAppend(a + b, c);
    var line := a + b + c;
    forall i | 0 <= i < |line| ensures line[i] !in SEPARATORS {
      if i < |a| {
        assert line[i] == a[i];
      } else if i < |a| + |b| {
        assert line[i] == b[i - |a|];
      } else {
        assert line[i] == c[i - |a| - |b|];
      }
    }
  }

  lemma HeaderClean(p: Printer)
    requires Free(p.version, SEPARATORS) && ByteLength(p.version) <= MAX_VALUE
    ensures Clean(Header(p)) && Header(p)[0] == '#'
  {
    var head := PRESET_HEADER + " v";
    var tail := " for the GIMP";
    assert Header(p) == head + p.version + tail;
    FramedValue(head, p.version, tail);
  }

  /** The comment lines and the blank lines around the entries are clean. */
  lemma FramedClean(header: string, body: seq<string>)
    requires Clean(header)
    requires forall i :: 0 <= i < |body| ==> Clean(body[i])
    ensures forall i :: 0 <= i < 4 + |body| ==> Clean(([header, "# Preset file", ""] + body + [""])[i])
  {
    var lines := [header, "# Preset file", ""] + body + [""];
    forall i | 0 <= i < |lines| ensures Clean(lines[i]) {
      if 3 <= i < 3 + |body| {
        assert lines[i] == body[i - 3];
      }
    }
  }

  /** Every line SaveConfig writes is clean. */
  lemma SavedLinesClean(s: PluginState, p: Printer, h: Host)
    requires WellFormed(s) && CleanPrinter(p) && ValuesReadBack(p, h, s)
    ensures forall i :: 0 <= i < |SavedLines(s, p)| ==> Clean(SavedLines(s, p)[i])
  {
    var es := Entries(s, p);
    EntriesPrintable(s, p, h);
    EntryLinesClean(es);
    HeaderClean(p);
    FramedClean(Header(p), EntryLines(es));
  }

  lemma {:induction false} EndedAppend(a: seq<string>, b: seq<string>, tail: string)
    ensures Ended(a + b, tail) == Ended(a, tail) + Ended(b, tail)
  {
  }

  lemma EndedNothing(lines: seq<string>)
    ensures Ended(lines, []) == lines
  {
    assert forall i :: 0 <= i < |lines| ==> lines[i] + [] == lines[i];
  }

  /** Lines the reader finds no key in leave the state as it was. */
  lemma {:induction false} Skipped(lines: seq<string>, s: PluginState, h: Host)
    requires forall i :: 0 <= i < |lines| ==> SplitLine(lines[i]) == None
    ensures ParseLines(lines, s, h) == s
  {
    if lines != [] {
      assert Step(h)(s, lines[0]) == ParseIncremental(s, lines[0], h) == s;
      Skipped(lines[1..], s, h);
    }
  }

  /** The comment lines and the blank line in front of the entries change nothing. */
  lemma CommentsSkipped(header: string, tail: string, s: PluginState, h: Host)
    requires header != [] && header[0] == '#'
    requires tail == [] || tail == "\n"
    ensures ParseLines(Ended([header, "# Preset file", ""], tail), s, h) == s
  {
    var lines := Ended([header, "# Preset file", ""], tail);
    SkippedLine(header, tail);
    SkippedLine("# Preset file", tail);
    SkippedLine("", tail);
    Skipped(lines, s, h);
  }

  /** The blank line after the entries changes nothing. */
  lemma BlankSkipped(tail: string, s: PluginState, h: Host)
    requires tail == [] || tail == "\n"
    ensures ParseLines(Ended([""], tail), s, h) == s
  {
    SkippedLine("", tail);
    Skipped(Ended([""], tail), s, h);
  }

  /** Around lines that read as r, the comment header and the blank lines change nothing. */
  lemma FramedRead(header: string, body: seq<string>, tail: string, s: PluginState, h: Host, r: PluginState)
    requires header != [] && header[0] == '#'
    requires tail == [] || tail == "\n"
    requires ParseLines(Ended(body, tail), s, h) == r
    ensures ParseLines(Ended([header, "# Preset file", ""] + body + [""], tail), s, h) == r
  {
    var head := [header, "# Preset file", ""];
    EndedAppend(head + body, [""], tail);
    EndedAppend(head, body, tail);
    var step := Step(h);
    FoldAppend(Ended(head, tail) + Ended(body, tail), Ended([""], tail), s, step);
    FoldAppend(Ended(head, tail), Ended(body, tail), s, step);
    CommentsSkipped(header, tail, s, h);
    BlankSkipped(tail, r, h);
  }

  /** The entry lines alone read as the restored state. */
  lemma EntryLinesRead(s: PluginState, p: Printer, h: Host, tail: string)
    requires WellFormed(s) && Faithful(p, h, s)
    requires tail == [] || tail == "\n"
    ensures ParseLines(Ended(EntryLines(Entries(s, p)), tail), DEFAULTS, h) == Restored(s)
  {
    EntriesPrintable(s, p, h);
    ParseEntryLines(Entries(s, p), tail, DEFAULTS, h);
    EntriesRestored(s, p, h);
  }

  /**
   * Reading the lines SaveConfig writes, each with or without its line
   * feed, over the defaults gives what the format keeps of the saved state.
   */
  lemma SavedLinesRead(s: PluginState, p: Printer, h: Host, tail: string)
    requires WellFormed(s) && Faithful(p, h, s)
    requires tail == [] || tail == "\n"
    ensures ParseLines(Ended(SavedLines(s, p), tail), DEFAULTS, h) == Restored(s)
  {
    EntryLinesRead(s, p, h, tail);
    HeaderClean(p);
    FramedRead(Header(p), EntryLines(Entries(s, p)), tail, DEFAULTS, h, Restored(s));
  }

  /** Clean lines written one after another split back at the separators, with an empty last piece. */
  lemma SplitWritten(lines: seq<string>)
    requires lines != []
    requires forall i :: 0 <= i < |lines| ==> Clean(lines[i])
    ensures SplitSet(JoinLines(lines), SEPARATORS) == lines + [[]]
  {
    SplitJoinLines(lines, SEPARATORS);
    assert JoinLines(lines) == lines[0] + "\n" + JoinLines(lines[1..]);
  }

  /** An empty last piece is skipped. */
  lemma EmptyPieceSkipped(lines: seq<string>, s: PluginState, h: Host)
    ensures ParseLines(lines + [[]], s, h) == ParseLines(lines, s, h)
  {
    FoldAppend(lines, [[]], s, Step(h));
    SkippedLine([], []);
    Skipped([[]], ParseLines(lines, s, h), h);
  }

  /**
   * The parameter string SaveConfig's text would make: ParseConfig splits
   * it at the line feeds into the saved lines and one empty piece.
   */
  lemma ParseConfigRoundTrip(s: PluginState, p: Printer, h: Host)
    requires WellFormed(s) && Faithful(p, h, s)
    ensures ParseConfig(SaveConfig(s, p), h) == Persisted(s)
  {
    var lines := SavedLines(s, p);
    SavedLinesClean(s, p, h);
    SplitWritten(lines);
    EmptyPieceSkipped(lines, DEFAULTS, h);
    EndedNothing(lines);
    SavedLinesRead(s, p, h, []);
  }

  /** fgets returns clean lines written one after another one by one, each with its line feed. */
  lemma FgetsWritten(lines: seq<string>)
    requires forall i :: 0 <= i < |lines| ==> Clean(lines[i])
    ensures Fgets(JoinLines(lines)) == Ended(lines, "\n")
  {
    assert forall i :: 0 <= i < |lines| ==> Free(lines[i], {'\n'}) && |lines[i]| <= ByteLength(lines[i]) < LINE_BUFFER - 1;
    FgetsJoinLines(lines);
  }

  /** Loading the file SaveConfig wrote gives the saved state, up to what the format keeps. */
  lemma LoadConfigRoundTrip(s: PluginState, p: Printer, h: Host)
    requires WellFormed(s) && Faithful(p, h, s)
    ensures LoadConfig(SaveConfig(s, p), h) == Persisted(s)
  {
    var lines := SavedLines(s, p);
    SavedLinesClean(s, p, h);
    FgetsWritten(lines);
    SavedLinesRead(s, p, h, "\n");
  }

  // ---------------------------------------------------------------------
  // What the format keeps

  /** Keeping what the format keeps a second time changes nothing. */
  lemma RestoredIdempotent(s: PluginState)
    ensures Restored(Restored(s)) == Restored(s)
  {
  }

  /** A loaded state saves to the same text: SaveConfig only writes what Restored keeps. */
  lemma EntriesOfRestored(s: PluginState, p: Printer)
    requires Savable(s)
    ensures Savable(Restored(s))
    ensures Entries(Restored(s), p) == Entries(s, p)
  {
  }

  lemma SaveRestored(s: PluginState, p: Printer)
    requires Savable(s)
    ensures Savable(Persisted(s))
    ensures SaveConfig(Persisted(s), p) == SaveConfig(s, p)
  {
    EntriesOfRestored(s, p);
  }

  /** Saving, loading and saving again writes the text written the first time. */
  lemma SaveLoadSave(s: PluginState, p: Printer, h: Host)
    requires WellFormed(s) && Faithful(p, h, s)
    ensures Savable(LoadConfig(SaveConfig(s, p), h))
    ensures SaveConfig(LoadConfig(SaveConfig(s, p), h), p) == SaveConfig(s, p)
  {
    LoadConfigRoundTrip(s, p, h);
    SaveRestored(s, p);
  }
}
