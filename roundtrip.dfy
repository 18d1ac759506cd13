/** What the reader makes of the lines the writer produces, one data line at a time: a written
    note, starpower phrase, chart event, tempo, anchor, time signature, section or event reads
    back as the object written, at the written tick and with the written lengths, when its text
    fits the format. The lemmas on spaced titles and on flag lines in drum charts pin down where
    the format loses information. */
module RoundTrip {
  import opened Wrappers
  import opened Text
  import opened Notes
  import opened Tempo
  import opened SongObjects
  import opened Songs
  import opened ChartReader
  import opened ChartWriter

  // ================================================================ words

  /** A printed number is one word that neither starts nor ends with white space. */
  lemma NumberWord(n: nat)
    ensures var s := NatToString(n);
      ' ' !in s && s[0] !in WHITESPACE && s[|s| - 1] !in WHITESPACE
  {
    var s := NatToString(n);
    forall k | 0 <= k < |s|
      ensures s[k] != ' ' && s[k] !in WHITESPACE
    {
      assert IsDigit(s[k]);
    }
  }

  lemma IntWord(i: int)
    ensures var s := IntToString(i);
      ' ' !in s && s[|s| - 1] !in WHITESPACE
  {
    if i < 0 {
      NumberWord(-i);
      var s := IntToString(i);
      assert s[|s| - 1] == NatToString(-i)[|NatToString(-i)| - 1];
    } else {
      NumberWord(i);
    }
  }

  lemma SplitWords5(a: string, b: string, c: string, d: string, e: string)
    requires ' ' !in a && ' ' !in b && ' ' !in c && ' ' !in d && ' ' !in e
    ensures Split(a + [' '] + b + [' '] + c + [' '] + d + [' '] + e, ' ') == [a, b, c, d, e]
  {
    var rest := b + [' '] + c + [' '] + d + [' '] + e;
    assert a + [' '] + b + [' '] + c + [' '] + d + [' '] + e == a + [' '] + rest;
    SplitAfterPiece(a, ' ', rest);
    SplitWords4(b, c, d, e);
  }

  /** The first four words of a line, then whatever follows. */
  lemma SplitAfterFour(a: string, b: string, c: string, d: string, rest: string)
    requires ' ' !in a && ' ' !in b && ' ' !in c && ' ' !in d
    ensures Split(a + [' '] + b + [' '] + c + [' '] + d + [' '] + rest, ' ') == [a, b, c, d] + Split(rest, ' ')
  {
    var dr := d + [' '] + rest;
    var cdr := c + [' '] + dr;
    var bcdr := b + [' '] + cdr;
    assert a + [' '] + b + [' '] + c + [' '] + d + [' '] + rest == a + [' '] + bcdr;
    SplitAfterPiece(a, ' ', bcdr);
    SplitAfterPiece(b, ' ', cdr);
    SplitAfterPiece(c, ' ', dr);
    SplitAfterPiece(d, ' ', rest);
  }

  /** A written line starts with its tick's digits, so trimming can only remove a trailing
      space. */
  lemma TrimWritten(t: nat, body: string)
    requires |body| > 0 && body[|body| - 1] !in WHITESPACE
    ensures Trim(NatToString(t) + body) == NatToString(t) + body
  {
    NumberWord(t);
    var line := NatToString(t) + body;
    assert line[0] == NatToString(t)[0] && line[|line| - 1] == body[|body| - 1];
    TrimCharsUnchanged(line, WHITESPACE);
  }

  /** The reader trims a written line before parsing it; that changes nothing. */
  lemma ChartReadTrimmed(tick: nat, body: string, instrument: Instrument)
    requires |body| > 0 && body[|body| - 1] !in WHITESPACE
    ensures ParseChartLine(Trim(NatToString(tick) + body), instrument) == ParseChartLine(NatToString(tick) + body, instrument)
  {
    TrimWritten(tick, body);
  }

  lemma GlobalsReadTrimmed(tick: nat, body: string)
    requires |body| > 0 && body[|body| - 1] !in WHITESPACE
    ensures ParseGlobalsLine(Trim(NatToString(tick) + body)) == ParseGlobalsLine(NatToString(tick) + body)
  {
    TrimWritten(tick, body);
  }

  lemma ChartReadTrailingSpace(line: string, instrument: Instrument)
    requires |line| > 0 && line[0] !in WHITESPACE && line[|line| - 1] !in WHITESPACE
    ensures ParseChartLine(Trim(line + " "), instrument) == ParseChartLine(line, instrument)
  {
    TrimTrailingSpace(line);
  }

  // ================================================================ chart blocks

  /** A note line reads back as the note written: at the written tick, with the written sustain,
      its fret recovered from the chart's table, and no flags (those travel on their own
      lines). The note must be a fret of its chart, and a raw value of an unrecognised chart
      must fit an `int`. */
  lemma NoteLineReadsBack(tick: uint32, n: Note, ctx: Context)
    requires IsFretOf(ctx.instrument, n.rawNote) && -(INT_LIMIT as int) <= n.rawNote < INT_LIMIT
    ensures ParseChartLine(Trim(NatToString(tick) + NoteBody(n, ctx)), ReadInstrument(ctx.instrument))
      == AddObject(NoteObject(Note(tick, n.rawNote, ScaledLength(n.sustain, ctx), NONE)))
  {
    var code := SaveNoteNumber(ctx.instrument, n.rawNote);
    assert -(INT_LIMIT as int) <= code < INT_LIMIT;
    var length := ScaledLength(n.sustain, ctx);
    var body := NoteBody(n, ctx);
    assert body == " = N " + IntToString(code) + " " + NatToString(length);
    NumberWord(length);
    ChartReadTrimmed(tick, body, ReadInstrument(ctx.instrument));
    NoteWords(tick, code, length, ReadInstrument(ctx.instrument));
    SaveNumberRoundTrip(ctx.instrument, n.rawNote, code);
  }

  /** The reader's parse of a note line `<tick> = N <code> <length>`. */
  lemma NoteWords(tick: uint32, code: int, length: uint32, instrument: Instrument)
    requires -(INT_LIMIT as int) <= code < INT_LIMIT
    ensures ParseChartLine(NatToString(tick) + (" = N " + IntToString(code) + " " + NatToString(length)), instrument)
      == NoteLine(instrument, tick, code, length)
  {
    var t, c, l := NatToString(tick), IntToString(code), NatToString(length);
    NumberWord(tick);
    NumberWord(length);
    IntWord(code);
    SplitNoteWords(t, c, l);
    ParseUIntOfNatToString(tick);
    ParseIntOfIntToString(code);
    ParseUIntOfNatToString(length);
    assert ToLower("N") == "n";
  }

  lemma SplitNoteWords(t: string, c: string, l: string)
    requires ' ' !in t && ' ' !in c && ' ' !in l
    ensures Split(t + (" = N " + c + " " + l), ' ') == [t, "=", "N", c, l]
  {
    calc {
      Split(t + (" = N " + c + " " + l), ' ');
      { NoteLineShape(t, c, l); }
      Split(t + [' '] + "=" + [' '] + "N" + [' '] + c + [' '] + l, ' ');
      { SplitWords5(t, "=", "N", c, l); }
      [t, "=", "N", c, l];
    }
  }

  lemma NoteLineShape(t: string, c: string, l: string)
    ensures t + (" = N " + c + " " + l) == t + [' '] + "=" + [' '] + "N" + [' '] + c + [' '] + l
  {
  }

  /** Trimming removes the one trailing space of a flag line. */
  lemma TrimTrailingSpace(line: string)
    requires |line| > 0 && line[0] !in WHITESPACE && line[|line| - 1] !in WHITESPACE
    ensures Trim(line + " ") == line
  {
    var spaced := line + " ";
    assert spaced[0] == line[0];
    assert TrimStart(spaced, WHITESPACE) == spaced;
    assert spaced[..|spaced| - 1] == line;
    assert TrimEnd(spaced, WHITESPACE) == TrimEnd(line, WHITESPACE);
    assert TrimEnd(line, WHITESPACE) == line;
  }

  /** A flag line is read as a note line of code 5 or 6 and length 0. */
  lemma FlagLineWords(tick: uint32, code: int, instrument: Instrument)
    requires code == 5 || code == 6
    ensures ParseChartLine(Trim(NatToString(tick) + (if code == 5 then FORCED_BODY else TAP_BODY)), instrument)
      == NoteLine(instrument, tick, code, 0)
  {
    SmallNumbers();
    FlagLineTrimmed(tick, IntToString(code), instrument);
    NoteWords(tick, code, 0, instrument);
  }

  lemma FlagLineTrimmed(tick: uint32, c: string, instrument: Instrument)
    requires c == "5" || c == "6"
    ensures ParseChartLine(Trim(NatToString(tick) + (if c == "5" then FORCED_BODY else TAP_BODY)), instrument)
      == ParseChartLine(NatToString(tick) + (" = N " + c + " " + "0"), instrument)
  {
    var t := NatToString(tick);
    var line := t + (" = N " + c + " " + "0");
    FlagBodyShape(t, c);
    NumberWord(tick);
    assert line[0] == t[0] && line[|line| - 1] == '0';
    ChartReadTrailingSpace(line, instrument);
  }

  lemma SmallNumbers()
    ensures IntToString(5) == "5" && IntToString(6) == "6" && NatToString(0) == "0"
  {
  }

  lemma FlagBodyShape(t: string, c: string)
    requires c == "5" || c == "6"
    ensures t + (if c == "5" then FORCED_BODY else TAP_BODY) == (t + (" = N " + c + " " + "0")) + " "
  {
  }

  /** A chord's FORCED line sets the flag on every note at its tick in five-fret and GH Live
      charts; a drum chart reads it as a green drum note and an unrecognised chart as a note of
      raw value 5. */
  lemma ForcedLineReadsBack(tick: uint32, instrument: Instrument)
    ensures var r := ParseChartLine(Trim(NatToString(tick) + FORCED_BODY), ReadInstrument(instrument));
      && (instrument != Instrument.Unrecognised && instrument != Instrument.Drums ==> r == AddFlag(tick, FORCED))
      && (instrument == Instrument.Drums ==> r == AddObject(NoteObject(Note(tick, DRUM_GREEN, 0, NONE))))
      && (instrument == Instrument.Unrecognised ==> r == AddObject(NoteObject(Note(tick, 5, 0, NONE))))
  {
    assert ParseChartLine(Trim(NatToString(tick) + FORCED_BODY), ReadInstrument(instrument))
      == NoteLine(ReadInstrument(instrument), tick, 5, 0) by {
      FlagLineWords(tick, 5, ReadInstrument(instrument));
    }
    ForcedNoteLine(tick, instrument);
  }

  /** Code 5 of length 0 in each kind of chart. */
  lemma ForcedNoteLine(tick: uint32, instrument: Instrument)
    ensures var r := NoteLine(ReadInstrument(instrument), tick, 5, 0);
      && (instrument != Instrument.Unrecognised && instrument != Instrument.Drums ==> r == AddFlag(tick, FORCED))
      && (instrument == Instrument.Drums ==> r == AddObject(NoteObject(Note(tick, DRUM_GREEN, 0, NONE))))
      && (instrument == Instrument.Unrecognised ==> r == AddObject(NoteObject(Note(tick, 5, 0, NONE))))
  {
    if instrument == Instrument.Drums {
      assert ReadInstrument(instrument) == Instrument.Drums;
    } else if instrument != Instrument.Unrecognised {
      FlagCodes(ReadInstrument(instrument), 5);
    }
  }

  /** A chord's TAP line sets the flag in five-fret and GH Live charts; a drum chart skips it and
      an unrecognised chart reads it as a note of raw value 6. */
  lemma TapLineReadsBack(tick: uint32, instrument: Instrument)
    ensures var r := ParseChartLine(Trim(NatToString(tick) + TAP_BODY), ReadInstrument(instrument));
      && (instrument != Instrument.Unrecognised && instrument != Instrument.Drums ==> r == AddFlag(tick, TAP))
      && (instrument == Instrument.Drums ==> r == SkipLine)
      && (instrument == Instrument.Unrecognised ==> r == AddObject(NoteObject(Note(tick, 6, 0, NONE))))
  {
    assert ParseChartLine(Trim(NatToString(tick) + TAP_BODY), ReadInstrument(instrument))
      == NoteLine(ReadInstrument(instrument), tick, 6, 0) by {
      FlagLineWords(tick, 6, ReadInstrument(instrument));
    }
    TapNoteLine(tick, instrument);
  }

  /** Code 6 of length 0 in each kind of chart. */
  lemma TapNoteLine(tick: uint32, instrument: Instrument)
    ensures var r := NoteLine(ReadInstrument(instrument), tick, 6, 0);
      && (instrument != Instrument.Unrecognised && instrument != Instrument.Drums ==> r == AddFlag(tick, TAP))
      && (instrument == Instrument.Drums ==> r == SkipLine)
      && (instrument == Instrument.Unrecognised ==> r == AddObject(NoteObject(Note(tick, 6, 0, NONE))))
  {
    if instrument == Instrument.Drums {
      assert ReadInstrument(instrument) == Instrument.Drums;
      assert DrumNoteCode(6) == NoCode;
    } else if instrument != Instrument.Unrecognised {
      FlagCodes(ReadInstrument(instrument), 6);
    }
  }

  /** A starpower line reads back as the phrase at the written tick with its scaled length, in
      every chart. */
  lemma StarpowerLineReadsBack(tick: uint32, position: uint32, length: uint32, ctx: Context, instrument: Instrument)
    ensures ParseChartLine(Trim(NatToString(tick) + ChartItemBody(Starpower(position, length), ctx)), instrument)
      == AddObject(Starpower(tick, ScaledLength(length, ctx)))
  {
    var l := ScaledLength(length, ctx);
    var body := ChartItemBody(Starpower(position, length), ctx);
    assert body == " = S 2 " + NatToString(l);
    NumberWord(l);
    ChartReadTrimmed(tick, body, instrument);
    StarpowerWords(tick, l, instrument);
  }

  lemma StarpowerWords(tick: uint32, length: uint32, instrument: Instrument)
    ensures ParseChartLine(NatToString(tick) + (" = S 2 " + NatToString(length)), instrument) == AddObject(Starpower(tick, length))
  {
    var t, l := NatToString(tick), NatToString(length);
    NumberWord(tick);
    NumberWord(length);
    SplitStarpowerWords(t, l);
    ParseUIntOfNatToString(tick);
    ParseUIntOfNatToString(length);
    assert ParseInt("2") == Some(2);
    assert ToLower("S") == "s";
  }

  lemma SplitStarpowerWords(t: string, l: string)
    requires ' ' !in t && ' ' !in l
    ensures Split(t + (" = S 2 " + l), ' ') == [t, "=", "S", "2", l]
  {
    calc {
      Split(t + (" = S 2 " + l), ' ');
      { StarpowerLineShape(t, l); }
      Split(t + [' '] + "=" + [' '] + "S" + [' '] + "2" + [' '] + l, ' ');
      { SplitWords5(t, "=", "S", "2", l); }
      [t, "=", "S", "2", l];
    }
  }

  lemma StarpowerLineShape(t: string, l: string)
    ensures t + (" = S 2 " + l) == t + [' '] + "=" + [' '] + "S" + [' '] + "2" + [' '] + l
  {
  }

  /** `<t> = <kind> <rest>`: four words when `rest` is one, otherwise the first three and the
      words of `rest`. */
  lemma SplitKindWords(t: string, kind: string, rest: string)
    requires ' ' !in t && ' ' !in kind
    ensures Split(t + (" = " + kind + " " + rest), ' ') == [t, "=", kind] + Split(rest, ' ')
  {
    var kr := kind + [' '] + rest;
    var x := "=" + [' '] + kr;
    var sr := Split(rest, ' ');
    assert Split(kr, ' ') == [kind] + sr by {
      SplitAfterPiece(kind, ' ', rest);
    }
    assert Split(x, ' ') == ["="] + ([kind] + sr) by {
      SplitAfterPiece("=", ' ', kr);
    }
    assert Split(t + [' '] + x, ' ') == [t] + (["="] + ([kind] + sr)) by {
      SplitAfterPiece(t, ' ', x);
    }
    assert t + (" = " + kind + " " + rest) == t + [' '] + x by {
      KindLineShape(t, kind, rest);
    }
    ThreeCons(t, "=", kind, sr);
  }

  lemma ThreeCons<T>(a: T, b: T, c: T, s: seq<T>)
    ensures [a] + ([b] + ([c] + s)) == [a, b, c] + s
  {
  }

  lemma KindLineShape(t: string, kind: string, rest: string)
    ensures t + (" = " + kind + " " + rest) == t + [' '] + ("=" + [' '] + (kind + [' '] + rest))
  {
  }

  /** The words of a one-word `rest`. */
  lemma SplitOneWord(t: string, kind: string, w: string)
    requires ' ' !in t && ' ' !in kind && ' ' !in w
    ensures Split(t + (" = " + kind + " " + w), ' ') == [t, "=", kind, w]
  {
    SplitKindWords(t, kind, w);
    SplitNoSeparator(w, ' ');
  }

  /** A chart event reads back under its own name when the name is one non-empty word. */
  lemma ChartEventLineReadsBack(tick: uint32, position: uint32, name: string, ctx: Context, instrument: Instrument)
    requires |name| > 0 && ' ' !in name && name[|name| - 1] !in WHITESPACE
    ensures ParseChartLine(Trim(NatToString(tick) + ChartItemBody(ChartEvent(position, name), ctx)), instrument)
      == AddObject(ChartEvent(tick, name))
  {
    ChartEventLineTrimmed(tick, position, name, ctx);
    ChartEventWords(tick, name, instrument);
    SplitNoSeparator(name, ' ');
  }

  lemma ChartEventLineTrimmed(tick: uint32, position: uint32, name: string, ctx: Context)
    requires |name| > 0 && name[|name| - 1] !in WHITESPACE
    ensures Trim(NatToString(tick) + ChartItemBody(ChartEvent(position, name), ctx)) == NatToString(tick) + (" = " + "E" + " " + name)
  {
    var body := ChartItemBody(ChartEvent(position, name), ctx);
    assert body == " = " + "E" + " " + name;
    assert body[|body| - 1] == name[|name| - 1];
    TrimWritten(tick, body);
  }

  /** A chart event whose name has a space reads back under its first word only. */
  lemma SpacedChartEventKeepsFirstWord(tick: uint32, position: uint32, word: string, rest: string, ctx: Context, instrument: Instrument)
    requires |rest| > 0 && rest[|rest| - 1] !in WHITESPACE && ' ' !in word
    ensures ParseChartLine(Trim(NatToString(tick) + ChartItemBody(ChartEvent(position, word + " " + rest), ctx)), instrument)
      == AddObject(ChartEvent(tick, word))
  {
    var body := ChartItemBody(ChartEvent(position, word + " " + rest), ctx);
    assert body == " = " + "E" + " " + (word + [' '] + rest);
    ChartReadTrimmed(tick, body, instrument);
    ChartEventWords(tick, word + [' '] + rest, instrument);
    SplitAfterPiece(word, ' ', rest);
  }

  /** The reader's parse of `<tick> = E <rest>` in a chart block: an event named by the first
      word of `rest`. */
  lemma ChartEventWords(tick: uint32, rest: string, instrument: Instrument)
    ensures ParseChartLine(NatToString(tick) + (" = " + "E" + " " + rest), instrument) == AddObject(ChartEvent(tick, Split(rest, ' ')[0]))
  {
    var t := NatToString(tick);
    NumberWord(tick);
    assert ' ' !in "E";
    SplitKindWords(t, "E", rest);
    ParseUIntOfNatToString(tick);
    assert ToLower("E") == "e";
  }

  // ================================================================ [SyncTrack]

  /** The reader's parse of `<tick> = <kind> <number>` for the tempo and anchor kinds. */
  lemma NumberLineWords(tick: uint32, kind: string, value: uint32)
    requires kind == "B" || kind == "A"
    ensures ParseGlobalsLine(NatToString(tick) + (" = " + kind + " " + NatToString(value)))
      == if kind == "B" then SyncLine(BpmObject(NewBpm(tick, value))) else AnchorEntry(Anchor(tick, value))
  {
    var t, v := NatToString(tick), NatToString(value);
    NumberWord(tick);
    NumberWord(value);
    SplitOneWord(t, kind, v);
    ParseUIntOfNatToString(tick);
    ParseUIntOfNatToString(value);
    ParseULongOfNatToString(value);
    assert ToLower("B") == "b" && ToLower("A") == "a";
  }

  /** A tempo's `B` line reads back as a tempo of the written value at the written tick, without
      an anchor. */
  lemma TempoLineReadsBack(tick: uint32, value: uint32)
    ensures ParseGlobalsLine(Trim(NatToString(tick) + TempoBody(value))) == SyncLine(BpmObject(NewBpm(tick, value)))
  {
    assert TempoBody(value) == " = " + "B" + " " + NatToString(value);
    NumberBodyReads(tick, "B", value);
  }

  /** A tempo's `A` line reads back as an anchor of the written microseconds at the written
      tick. */
  lemma AnchorLineReadsBack(tick: uint32, micros: nat)
    ensures ParseGlobalsLine(Trim(NatToString(tick) + AnchorBody(micros))) == AnchorEntry(Anchor(tick, CastUInt(micros)))
  {
    AnchorLineTrimmed(tick, micros);
    NumberLineWords(tick, "A", CastUInt(micros));
  }

  lemma AnchorLineTrimmed(tick: uint32, micros: nat)
    ensures Trim(NatToString(tick) + AnchorBody(micros)) == NatToString(tick) + (" = " + "A" + " " + NatToString(CastUInt(micros)))
  {
    var n := NatToString(CastUInt(micros));
    NumberWord(CastUInt(micros));
    assert (" = A " + n)[|" = A " + n| - 1] == n[|n| - 1];
    TrimWritten(tick, " = A " + n);
    AnchorBodyShape(n);
  }

  lemma AnchorBodyShape(n: string)
    ensures " = A " + n == " = " + "A" + " " + n
  {
  }

  lemma NumberBodyReads(tick: uint32, kind: string, value: uint32)
    requires kind == "B" || kind == "A"
    ensures ParseGlobalsLine(Trim(NatToString(tick) + (" = " + kind + " " + NatToString(value))))
      == if kind == "B" then SyncLine(BpmObject(NewBpm(tick, value))) else AnchorEntry(Anchor(tick, value))
  {
    NumberWord(value);
    GlobalsReadTrimmed(tick, " = " + kind + " " + NatToString(value));
    NumberLineWords(tick, kind, value);
  }

  /** A time signature line reads back with the written numerator, and with the denominator the
      reader raises 2 to the written exponent for. */
  lemma TimeSignatureLineReads(tick: uint32, ts: TimeSignature)
    ensures ParseGlobalsLine(Trim(NatToString(tick) + TimeSignatureBody(ts)))
      == SyncLine(TimeSignatureObject(TimeSignature(tick, ts.numerator, if ts.denominator == 4 then 4 else Pow2Cast(Log2(ts.denominator)))))
  {
    if ts.denominator == 4 {
      QuarterBodyReads(tick, ts.numerator);
    } else {
      Log2Below(ts.denominator);
      var e: uint32 := Log2(ts.denominator);
      ExponentBodyShape(NatToString(ts.numerator), NatToString(e));
      ExponentBodyReads(tick, ts.numerator, e);
    }
  }

  lemma ExponentBodyShape(n: string, e: string)
    ensures " = TS " + n + " " + e == " = " + "TS" + " " + (n + [' '] + e)
  {
  }

  lemma QuarterBodyReads(tick: uint32, numerator: uint32)
    ensures ParseGlobalsLine(Trim(NatToString(tick) + (" = TS " + NatToString(numerator))))
      == SyncLine(TimeSignatureObject(TimeSignature(tick, numerator, 4)))
  {
    NumberWord(numerator);
    GlobalsReadTrimmed(tick, " = TS " + NatToString(numerator));
    QuarterWords(tick, numerator);
  }

  lemma QuarterWords(tick: uint32, numerator: uint32)
    ensures ParseGlobalsLine(NatToString(tick) + (" = TS " + NatToString(numerator)))
      == SyncLine(TimeSignatureObject(TimeSignature(tick, numerator, 4)))
  {
    assert NatToString(tick) + (" = TS " + NatToString(numerator)) == NatToString(tick) + " = TS " + NatToString(numerator);
    TimeSignatureDefaultsToQuarters(tick, numerator);
  }

  lemma ExponentBodyReads(tick: uint32, numerator: uint32, exponent: uint32)
    ensures ParseGlobalsLine(Trim(NatToString(tick) + (" = " + "TS" + " " + (NatToString(numerator) + [' '] + NatToString(exponent)))))
      == SyncLine(TimeSignatureObject(TimeSignature(tick, numerator, Pow2Cast(exponent))))
  {
    NumberWord(exponent);
    GlobalsReadTrimmed(tick, " = " + "TS" + " " + (NatToString(numerator) + [' '] + NatToString(exponent)));
    ExponentWords(tick, numerator, exponent);
  }

  /** The reader's parse of `<tick> = TS <numerator> <exponent>`. */
  lemma ExponentWords(tick: uint32, numerator: uint32, exponent: uint32)
    ensures ParseGlobalsLine(NatToString(tick) + (" = " + "TS" + " " + (NatToString(numerator) + [' '] + NatToString(exponent))))
      == SyncLine(TimeSignatureObject(TimeSignature(tick, numerator, Pow2Cast(exponent))))
  {
    var t, n, e := NatToString(tick), NatToString(numerator), NatToString(exponent);
    NumberWord(tick);
    NumberWord(numerator);
    NumberWord(exponent);
    SplitKindWords(t, "TS", n + [' '] + e);
    SplitAfterPiece(n, ' ', e);
    SplitNoSeparator(e, ' ');
    ParseUIntOfNatToString(tick);
    ParseUIntOfNatToString(numerator);
    ParseUIntOfNatToString(exponent);
    assert ToLower("TS") == "ts";
  }

  lemma {:induction false} Log2Below(d: nat)
    ensures Log2(d) <= d
  {
    if d > 1 {
      Log2Below(d / 2);
    }
  }

  /** Every power-of-two denominator below 2^32 survives the round trip. */
  lemma TimeSignatureReadsBack(tick: uint32, ts: TimeSignature, k: nat)
    requires k < 32 && ts.denominator == Pow2(k)
    ensures ParseGlobalsLine(Trim(NatToString(tick) + TimeSignatureBody(ts)))
      == SyncLine(TimeSignatureObject(ts.(position := tick)))
  {
    TimeSignatureLineReads(tick, ts);
    Log2OfPow2(k);
  }

  /** At the song's own resolution without an offset, a tempo's lines are those of its own
      `GetSaveString`. */
  lemma TempoLinesAgree(b: Bpm, ctx: Context)
    requires ctx.options.targetResolution == ctx.resolution && ctx.options.tickOffset == 0
    requires b.anchor.Some? ==> b.anchor.value < UINT_LIMIT
    ensures Indented(ObjectLines([SyncSaved(BpmObject(b))], 0, ctx)) == SaveLines(b)
  {
    var t := NatToString(b.position);
    TempoObjectLines(b, ctx);
    match b.anchor
    case Some(m) =>
      IndentedAtTickTwo(t, AnchorBody(m), TempoBody(b.value));
      AppendAssoc(TABSPACE, t, AnchorBody(m));
      AppendAssoc(TABSPACE, t, TempoBody(b.value));
      AppendAssoc(TABSPACE + t, " = A ", NatToString(m));
      AppendAssoc(TABSPACE + t, " = B ", NatToString(b.value));
    case None =>
      IndentedAtTickOne(t, TempoBody(b.value));
      AppendAssoc(TABSPACE, t, TempoBody(b.value));
      AppendAssoc(TABSPACE + t, " = B ", NatToString(b.value));
  }

  lemma AppendAssoc(a: string, b: string, c: string)
    ensures a + (b + c) == a + b + c
  {
  }

  lemma IndentedAtTickOne(t: string, x: string)
    ensures Indented(AtTick(t, [x])) == [TABSPACE + (t + x)]
  {
  }

  lemma IndentedAtTickTwo(t: string, x: string, y: string)
    ensures Indented(AtTick(t, [x, y])) == [TABSPACE + (t + x), TABSPACE + (t + y)]
  {
  }

  /** The one tempo written at the song's own resolution, before indentation. */
  lemma TempoObjectLines(b: Bpm, ctx: Context)
    requires ctx.options.targetResolution == ctx.resolution && ctx.options.tickOffset == 0
    ensures ObjectLines([SyncSaved(BpmObject(b))], 0, ctx) == AtTick(NatToString(b.position), SyncBodies(BpmObject(b)))
  {
    TickAtOwnResolution(b.position, 0, ctx);
  }

  // ================================================================ [Events]

  const QUOTE: set<char> := {'"'}

  /** Trimming quotes from a quoted word, or from a word with a closing quote, gives the word. */
  lemma TrimQuotes(w: string)
    requires '"' !in w
    ensures TrimChars(w + "\"", QUOTE) == w
    ensures TrimChars("\"" + w + "\"", QUOTE) == w
    ensures TrimChars("\"" + w, QUOTE) == w
  {
    var closed := w + "\"";
    assert closed[..|w|] == w;
    assert TrimEnd(closed, QUOTE) == TrimEnd(w, QUOTE);
    assert TrimEnd(w, QUOTE) == w;
    assert TrimStart(w, QUOTE) == w;
    if |w| > 0 {
      assert w[0] == closed[0];
      assert TrimStart(closed, QUOTE) == closed;
    } else {
      assert TrimStart(closed, QUOTE) == TrimStart(closed[1..], QUOTE);
      assert closed[1..] == [];
    }
    assert ("\"" + w + "\"")[1..] == closed;
    assert ("\"" + w)[1..] == w;
  }

  /** A character absent from a string is absent from its pieces. */
  lemma {:induction false} SplitKeepsAbsent(s: string, sep: char, x: char)
    requires x !in s
    ensures forall k :: 0 <= k < |Split(s, sep)| ==> x !in Split(s, sep)[k]
    decreases |s|
  {
    if |s| > 0 {
      SplitKeepsAbsent(s[1..], sep, x);
      assert x != s[0];
    }
  }

  /** Appending a non-separator extends the last piece. */
  lemma {:induction false} SplitAppendChar(s: string, sep: char, c: char)
    requires c != sep
    ensures ExtendsLast(Split(s, sep), Split(s + [c], sep), c)
    decreases |s|
  {
    if |s| == 0 {
      assert s + [c] == [c];
      SplitNoSeparator([c], sep);
    } else {
      SplitAppendChar(s[1..], sep, c);
      assert (s + [c])[1..] == s[1..] + [c];
      assert (s + [c])[0] == s[0];
      if s[0] == sep {
        ExtendsLastCons([""], Split(s[1..], sep), Split(s[1..] + [c], sep), c);
      } else {
        ExtendsLastJoin([s[0]], Split(s[1..], sep), Split(s[1..] + [c], sep), c);
      }
    }
  }

  /** `longer` is `pieces` with `c` appended to the last piece. */
  predicate ExtendsLast(pieces: seq<string>, longer: seq<string>, c: char)
  {
    |pieces| > 0 && longer == pieces[..|pieces| - 1] + [pieces[|pieces| - 1] + [c]]
  }

  lemma ExtendsLastCons(first: seq<string>, r: seq<string>, x: seq<string>, c: char)
    requires ExtendsLast(r, x, c)
    ensures ExtendsLast(first + r, first + x, c)
  {
    assert (first + r)[..|first + r| - 1] == first + r[..|r| - 1];
  }

  lemma ExtendsLastJoin(head: string, r: seq<string>, x: seq<string>, c: char)
    requires ExtendsLast(r, x, c)
    ensures ExtendsLast([head + r[0]] + r[1..], [head + x[0]] + x[1..], c)
  {
    if |r| == 1 {
      assert x == [r[0] + [c]];
      assert head + (r[0] + [c]) == (head + r[0]) + [c];
    } else {
      assert x[0] == r[0];
      assert x[1..] == r[1..|r| - 1] + [r[|r| - 1] + [c]];
      var w := [head + r[0]] + r[1..];
      assert w[..|w| - 1] == [head + r[0]] + r[1..|r| - 1];
    }
  }

  /** The words after `"section`, quotes trimmed and joined again, give back a title without
      quotes. */
  lemma SectionWords(title: string)
    requires '"' !in title
    ensures SectionTitle(Split(title + "\"", ' ')) == title
  {
    var w := Split(title, ' ');
    SplitAppendChar(title, ' ', '"');
    assert ExtendsLast(w, Split(title + "\"", ' '), '"');
    SplitKeepsAbsent(title, ' ', '"');
    var words := Split(title + "\"", ' ');
    var trimmed := seq(|words|, k requires 0 <= k < |words| => TrimChars(words[k], QUOTE));
    forall k | 0 <= k < |w|
      ensures trimmed[k] == w[k]
    {
      if k < |w| - 1 {
        assert words[k] == w[k];
        TrimCharsUnchanged(w[k], QUOTE);
      } else {
        assert words[k] == w[k] + "\"";
        TrimQuotes(w[k]);
      }
    }
    assert trimmed == w;
    JoinSplit(title, ' ');
  }

  /** A section line reads back as the section written when its title has no quotes. */
  lemma SectionLineReadsBack(tick: uint32, position: uint32, title: string)
    requires '"' !in title
    ensures ParseGlobalsLine(Trim(NatToString(tick) + EventBody(Section(position, title)))) == EventLine(Section(tick, title))
  {
    SectionLineTrimmed(tick, position, title);
    SectionWordsRead(tick, title);
  }

  lemma SectionLineTrimmed(tick: uint32, position: uint32, title: string)
    ensures Trim(NatToString(tick) + EventBody(Section(position, title)))
      == NatToString(tick) + (" = " + "E" + " " + ("\"section" + [' '] + (title + "\"")))
  {
    var body := EventBody(Section(position, title));
    assert body == " = " + "E" + " " + ("\"section" + [' '] + (title + "\""));
    assert body[|body| - 1] == '"';
    TrimWritten(tick, body);
  }

  lemma SectionWordsRead(tick: uint32, title: string)
    requires '"' !in title
    ensures ParseGlobalsLine(NatToString(tick) + (" = " + "E" + " " + ("\"section" + [' '] + (title + "\""))))
      == EventLine(Section(tick, title))
  {
    var t, rest := NatToString(tick), title + "\"";
    var more := Split(rest, ' ');
    NumberWord(tick);
    SplitKindWords(t, "E", "\"section" + [' '] + rest);
    assert Split("\"section" + [' '] + rest, ' ') == ["\"section"] + more by {
      SplitAfterPiece("\"section", ' ', rest);
    }
    ThreeConsAppend(t, "=", "E", "\"section", more);
    ParseSectionWords(t + (" = " + "E" + " " + ("\"section" + [' '] + rest)), tick, more);
    SectionWords(title);
  }

  lemma ThreeConsAppend<T>(a: T, b: T, c: T, d: T, s: seq<T>)
    ensures [a, b, c] + ([d] + s) == [a, b, c, d] + s
  {
  }

  /** The reader's parse of an `E` line of `[Events]` whose fourth word is `"section`. */
  lemma ParseSectionWords(line: string, tick: uint32, more: seq<string>)
    requires Split(line, ' ') == [NatToString(tick), "=", "E", "\"section"] + more && |more| > 0
    ensures ParseGlobalsLine(line) == EventLine(Section(tick, SectionTitle(more)))
  {
    var words := [NatToString(tick), "=", "E", "\"section"] + more;
    assert words[4..] == more;
    ParseUIntOfNatToString(tick);
    assert ToLower("E") == "e";
  }

  /** An event line reads back as the event written when its title is one word without quotes. */
  lemma EventLineReadsBack(tick: uint32, position: uint32, title: string)
    requires ' ' !in title && '"' !in title
    ensures ParseGlobalsLine(Trim(NatToString(tick) + EventBody(Event(position, title)))) == EventLine(Event(tick, title))
  {
    EventLineTrimmed(tick, position, title);
    EventWords(tick, title);
  }

  lemma EventLineTrimmed(tick: uint32, position: uint32, title: string)
    ensures Trim(NatToString(tick) + EventBody(Event(position, title)))
      == NatToString(tick) + (" = " + "E" + " " + ("\"" + title + "\""))
  {
    var body := EventBody(Event(position, title));
    assert body == " = " + "E" + " " + ("\"" + title + "\"");
    assert body[|body| - 1] == '"';
    TrimWritten(tick, body);
  }

  lemma EventWords(tick: uint32, title: string)
    requires ' ' !in title && '"' !in title
    ensures ParseGlobalsLine(NatToString(tick) + (" = " + "E" + " " + ("\"" + title + "\""))) == EventLine(Event(tick, title))
  {
    var t, w := NatToString(tick), "\"" + title + "\"";
    NumberWord(tick);
    SplitOneWord(t, "E", w);
    AppendNothing([t, "=", "E", w]);
    QuotedTitleIsNotSection(title);
    ParseEventWords(t + (" = " + "E" + " " + w), tick, w, []);
    TrimQuotes(title);
  }

  lemma AppendNothing<T>(s: seq<T>)
    ensures s == s + []
  {
  }

  lemma QuotedTitleIsNotSection(title: string)
    requires '"' !in title
    ensures "\"" + title + "\"" != "\"section"
  {
    var w := "\"" + title + "\"";
    if |w| == |"\"section"| {
      assert w[|w| - 1] == '"';
      assert "\"section"[7] == 'n';
    }
  }

  /** An event whose title has a space reads back under its first word only (unless that word is
      `section`, below). */
  lemma SpacedEventKeepsFirstWord(tick: uint32, position: uint32, word: string, rest: string)
    requires ' ' !in word && '"' !in word && word != "section"
    ensures ParseGlobalsLine(Trim(NatToString(tick) + EventBody(Event(position, word + " " + rest)))) == EventLine(Event(tick, word))
  {
    var body := EventBody(Event(position, word + " " + rest));
    assert body == " = " + "E" + " " + (("\"" + word) + [' '] + (rest + "\""));
    GlobalsReadTrimmed(tick, body);
    SpacedEventWords(tick, word, rest);
  }

  lemma SpacedEventWords(tick: uint32, word: string, rest: string)
    requires ' ' !in word && '"' !in word && word != "section"
    ensures ParseGlobalsLine(NatToString(tick) + (" = " + "E" + " " + (("\"" + word) + [' '] + (rest + "\""))))
      == EventLine(Event(tick, word))
  {
    var t := NatToString(tick);
    var line := t + (" = " + "E" + " " + (("\"" + word) + [' '] + (rest + "\"")));
    NumberWord(tick);
    SplitKindWords(t, "E", ("\"" + word) + [' '] + (rest + "\""));
    SplitAfterPiece("\"" + word, ' ', rest + "\"");
    assert Split(line, ' ') == [t, "=", "E", "\"" + word] + Split(rest + "\"", ' ');
    QuotedWordIsNotSection(word);
    ParseEventWords(line, tick, "\"" + word, Split(rest + "\"", ' '));
    TrimQuotes(word);
  }

  /** The reader's parse of an `E` line of `[Events]` whose fourth word is not `"section`. */
  lemma ParseEventWords(line: string, tick: uint32, w: string, more: seq<string>)
    requires Split(line, ' ') == [NatToString(tick), "=", "E", w] + more && w != "\"section"
    ensures ParseGlobalsLine(line) == EventLine(Event(tick, TrimChars(w, {'"'})))
  {
    ParseUIntOfNatToString(tick);
    assert ToLower("E") == "e";
  }

  lemma QuotedWordIsNotSection(word: string)
    requires word != "section"
    ensures "\"" + word != "\"section"
  {
    assert ("\"" + word)[1..] == word;
    assert "\"section"[1..] == "section";
  }

  /** An event titled `section <rest>` is written exactly like a section titled `rest`, and is
      read back as that section. */
  lemma SectionPrefixedEventIsSection(tick: uint32, position: uint32, rest: string)
    requires '"' !in rest
    ensures EventBody(Event(position, "section " + rest)) == EventBody(Section(position, rest))
    ensures ParseGlobalsLine(Trim(NatToString(tick) + EventBody(Event(position, "section " + rest)))) == EventLine(Section(tick, rest))
  {
    assert EventBody(Event(position, "section " + rest)) == EventBody(Section(position, rest));
    SectionLineReadsBack(tick, position, rest);
  }
}
