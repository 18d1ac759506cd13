/** `ChartReader`: the `.chart` text decoder. The file arrives as its lines; the tokenizer cuts
    them into `[Header] { … }` blocks, each block goes to the song properties, the global
    sync/event lists, a chart slot or the list of unrecognised charts, and chart blocks are
    read line by line with their FORCED/TAP flags applied in a second pass. */
module ChartReader {
  import opened Wrappers
  import opened Text
  import opened Notes
  import opened Tempo
  import opened SongObjects
  import opened Songs

  // ================================================================ tokenizer

  /** A block as the tokenizer submits it: the header line and the trimmed data lines. */
  datatype Block = Block(name: string, data: seq<string>)

  /** The state of the tokenizer loop of `LoadChart(Song, path)`, with the blocks submitted so
      far. */
  datatype Tokenizer = Tokenizer(open: bool, dataName: string, dataStrings: seq<string>, blocks: seq<Block>)

  const START: Tokenizer := Tokenizer(false, "", [], [])

  /** A trimmed line that starts with `[` and ends with `]` names the next block. */
  predicate IsHeader(line: string)
  {
    |line| > 0 && line[0] == '[' && line[|line| - 1] == ']'
  }

  /** One turn of the tokenizer loop on a raw line. */
  function Step(t: Tokenizer, raw: string): Tokenizer
  {
    var line := Trim(raw);
    if |line| == 0 then t
    else if IsHeader(line) then t.(dataName := line)
    else if line == "{" then t.(open := true)
    else if line == "}" then Tokenizer(false, "", [], t.blocks + [Block(t.dataName, t.dataStrings)])
    else if t.open then t.(dataStrings := t.dataStrings + [line])
    else if |t.dataStrings| > 0 && t.dataName != "" then
      Tokenizer(t.open, "", [], t.blocks + [Block(t.dataName, t.dataStrings)])
    else t
  }

  /** The tokenizer run over a sequence of lines. */
  function Run(t: Tokenizer, lines: seq<string>): Tokenizer
    decreases |lines|
  {
    if |lines| == 0 then t else Run(Step(t, lines[0]), lines[1..])
  }

  /** The tokenizer loop: gathers the lines between `{` and `}` under the latest header and
      submits one block per `}`. */
  method GatherBlocks(lines: seq<string>) returns (blocks: seq<Block>)
    ensures blocks == Run(START, lines).blocks
  {
    var open := false;
    var dataName := "";
    var dataStrings: seq<string> := [];
    blocks := [];
    for i := 0 to |lines|
      invariant Run(Tokenizer(open, dataName, dataStrings, blocks), lines[i..]) == Run(START, lines)
    {
      assert lines[i..][1..] == lines[i + 1..];
      var line := Trim(lines[i]);
      if |line| == 0 {
        continue;
      }
      if line[0] == '[' && line[|line| - 1] == ']' {
        dataName := line;
      } else if line == "{" {
        open := true;
      } else if line == "}" {
        open := false;
        blocks := blocks + [Block(dataName, dataStrings)];
        dataName := "";
        dataStrings := [];
      } else if open {
        dataStrings := dataStrings + [line];
      } else if |dataStrings| > 0 && dataName != "" {
        blocks := blocks + [Block(dataName, dataStrings)];
        dataName := "";
        dataStrings := [];
      }
    }
  }

  /** Running over a concatenation runs over the parts in turn. */
  lemma {:induction false} RunAppend(t: Tokenizer, a: seq<string>, b: seq<string>)
    ensures Run(t, a + b) == Run(Run(t, a), b)
    decreases |a|
  {
    if |a| == 0 {
      assert a + b == b;
    } else {
      RunAppend(Step(t, a[0]), a[1..], b);
      TailOfAppend(a, b);
    }
  }

  lemma TailOfAppend<T>(a: seq<T>, b: seq<T>)
    requires |a| > 0
    ensures (a + b)[0] == a[0] && (a + b)[1..] == a[1..] + b
  {
  }

  /** Data is only ever pending inside braces. */
  predicate ClosedIsEmpty(t: Tokenizer)
  {
    !t.open ==> t.dataStrings == []
  }

  /** The branch that submits pending data on a line outside braces can never fire: while the
      tokenizer is outside braces it holds no data. */
  lemma {:induction false} NoDataOutsideBraces(t: Tokenizer, lines: seq<string>)
    requires ClosedIsEmpty(t)
    ensures ClosedIsEmpty(Run(t, lines))
    ensures !Run(t, lines).open ==> Run(t, lines).dataStrings == []
    decreases |lines|
  {
    if |lines| > 0 {
      NoDataOutsideBraces(Step(t, lines[0]), lines[1..]);
    }
  }

  // ---------------------------------------------------------------- written blocks

  /** A data line the writer can produce: once trimmed, not empty, a brace or a header. */
  predicate ReadableLine(d: string)
  {
    var t := Trim(d);
    |t| > 0 && t != "{" && t != "}" && !IsHeader(t)
  }

  /** A block the writer can produce: a trimmed header and readable data lines. */
  predicate WritableBlock(b: Block)
  {
    IsHeader(b.name) && b.name[0] !in WHITESPACE && b.name[|b.name| - 1] !in WHITESPACE
    && forall k :: 0 <= k < |b.data| ==> ReadableLine(b.data[k])
  }

  /** The data lines as the tokenizer keeps them. */
  function Trimmed(data: seq<string>): (r: seq<string>)
    ensures |r| == |data|
    ensures forall k :: 0 <= k < |r| ==> r[k] == Trim(data[k])
  {
    seq(|data|, k requires 0 <= k < |data| => Trim(data[k]))
  }

  /** A written block as read back: the same header and its trimmed data. */
  function ReadBack(b: Block): Block
  {
    Block(b.name, Trimmed(b.data))
  }

  /** The data lines as written, each indented by TABSPACE. */
  function Indented(data: seq<string>): (r: seq<string>)
    ensures |r| == |data|
    ensures forall k :: 0 <= k < |r| ==> r[k] == TABSPACE + data[k]
  {
    seq(|data|, k requires 0 <= k < |data| => TABSPACE + data[k])
  }

  /** The lines of one written block: header, `{`, the indented data, `}`. */
  function BlockLines(b: Block): seq<string>
  {
    [b.name, "{"] + Indented(b.data) + ["}"]
  }

  /** The lines of a sequence of written blocks. */
  function BlocksLines(bs: seq<Block>): seq<string>
    decreases |bs|
  {
    if |bs| == 0 then [] else BlockLines(bs[0]) + BlocksLines(bs[1..])
  }

  /** Indented data lines inside braces are collected, trimmed, in order. */
  lemma {:induction false} CollectsData(name: string, pre: seq<string>, data: seq<string>, done: seq<Block>)
    requires forall k :: 0 <= k < |data| ==> ReadableLine(data[k])
    ensures Run(Tokenizer(true, name, pre, done), Indented(data)) == Tokenizer(true, name, pre + Trimmed(data), done)
    decreases |data|
  {
    if |data| == 0 {
      assert pre + Trimmed(data) == pre;
    } else {
      var t := Tokenizer(true, name, pre, done);
      calc {
        Run(t, Indented(data));
        { IndentedCons(data); RunCons(t, TABSPACE + data[0], Indented(data[1..])); }
        Run(Step(t, TABSPACE + data[0]), Indented(data[1..]));
        { StepData(t, data[0]); }
        Run(Tokenizer(true, name, pre + [Trim(data[0])], done), Indented(data[1..]));
        { CollectsData(name, pre + [Trim(data[0])], data[1..], done); }
        Tokenizer(true, name, pre + [Trim(data[0])] + Trimmed(data[1..]), done);
        { TrimmedCons(pre, data); }
        Tokenizer(true, name, pre + Trimmed(data), done);
      }
    }
  }

  lemma IndentedCons(data: seq<string>)
    requires |data| > 0
    ensures Indented(data) == [TABSPACE + data[0]] + Indented(data[1..])
  {
  }

  lemma TrimmedCons(pre: seq<string>, data: seq<string>)
    requires |data| > 0
    ensures pre + [Trim(data[0])] + Trimmed(data[1..]) == pre + Trimmed(data)
  {
    TrimmedSplit(data);
    ConsAssoc(pre, Trim(data[0]), Trimmed(data[1..]));
  }

  lemma TrimmedSplit(data: seq<string>)
    requires |data| > 0
    ensures Trimmed(data) == [Trim(data[0])] + Trimmed(data[1..])
  {
    var r := Trimmed(data);
    var t := [Trim(data[0])] + Trimmed(data[1..]);
    forall k | 0 <= k < |r|
      ensures r[k] == t[k]
    {
      if k > 0 {
        assert t[k] == Trimmed(data[1..])[k - 1];
      }
    }
  }

  lemma ConsAssoc<T>(pre: seq<T>, x: T, rest: seq<T>)
    ensures pre + [x] + rest == pre + ([x] + rest)
  {
  }

  /** Inside braces, an indented data line is kept trimmed. */
  lemma StepData(t: Tokenizer, d: string)
    requires t.open && ReadableLine(d)
    ensures Step(t, TABSPACE + d) == t.(dataStrings := t.dataStrings + [Trim(d)])
  {
    TrimIndented(d);
  }

  /** The tokenizer, outside braces and with no data pending, reads a written block back. */
  lemma ReadsBlock(name: string, b: Block, done: seq<Block>)
    requires WritableBlock(b)
    ensures Run(Tokenizer(false, name, [], done), BlockLines(b)) == Tokenizer(false, "", [], done + [ReadBack(b)])
  {
    var body := Indented(b.data) + ["}"];
    calc {
      Run(Tokenizer(false, name, [], done), BlockLines(b));
      { BlockLinesShape(b); }
      Run(Tokenizer(false, name, [], done), [b.name] + (["{"] + body));
      { ReadsHeader(name, b.name, done, body); }
      Run(Tokenizer(true, b.name, [], done), body);
      { ReadsBody(b, done); }
      Tokenizer(false, "", [], done + [ReadBack(b)]);
    }
  }

  lemma BlockLinesShape(b: Block)
    ensures BlockLines(b) == [b.name] + (["{"] + (Indented(b.data) + ["}"]))
  {
  }

  /** A header and an opening brace open a block under that header. */
  lemma ReadsHeader(name: string, header: string, done: seq<Block>, rest: seq<string>)
    requires IsHeader(header) && header[0] !in WHITESPACE && header[|header| - 1] !in WHITESPACE
    ensures Run(Tokenizer(false, name, [], done), [header] + (["{"] + rest))
         == Run(Tokenizer(true, header, [], done), rest)
  {
    var t := Tokenizer(false, name, [], done);
    calc {
      Run(t, [header] + (["{"] + rest));
      { RunCons(t, header, ["{"] + rest); }
      Run(Step(t, header), ["{"] + rest);
      { StepHeader(t, header); }
      Run(Tokenizer(false, header, [], done), ["{"] + rest);
      { RunCons(Tokenizer(false, header, [], done), "{", rest); }
      Run(Step(Tokenizer(false, header, [], done), "{"), rest);
      { StepOpen(Tokenizer(false, header, [], done)); }
      Run(Tokenizer(true, header, [], done), rest);
    }
  }

  /** A header line names the next block. */
  lemma StepHeader(t: Tokenizer, header: string)
    requires IsHeader(header) && header[0] !in WHITESPACE && header[|header| - 1] !in WHITESPACE
    ensures Step(t, header) == t.(dataName := header)
  {
    TrimCharsUnchanged(header, WHITESPACE);
  }

  /** An opening brace opens the block. */
  lemma StepOpen(t: Tokenizer)
    ensures Step(t, "{") == t.(open := true)
  {
    assert Trim("{") == "{";
  }

  /** Inside an open block, the data lines and the closing brace submit the block. */
  lemma ReadsBody(b: Block, done: seq<Block>)
    requires forall k :: 0 <= k < |b.data| ==> ReadableLine(b.data[k])
    ensures Run(Tokenizer(true, b.name, [], done), Indented(b.data) + ["}"]) == Tokenizer(false, "", [], done + [ReadBack(b)])
  {
    var t := Tokenizer(true, b.name, [], done);
    calc {
      Run(t, Indented(b.data) + ["}"]);
      { RunAppend(t, Indented(b.data), ["}"]); }
      Run(Run(t, Indented(b.data)), ["}"]);
      { CollectsData(b.name, [], b.data, done); assert [] + Trimmed(b.data) == Trimmed(b.data); }
      Run(Tokenizer(true, b.name, Trimmed(b.data), done), ["}"]);
      { RunCons(Tokenizer(true, b.name, Trimmed(b.data), done), "}", []); assert ["}"] + [] == ["}"]; }
      Run(Step(Tokenizer(true, b.name, Trimmed(b.data), done), "}"), []);
      { StepClose(Tokenizer(true, b.name, Trimmed(b.data), done)); }
      Tokenizer(false, "", [], done + [ReadBack(b)]);
    }
  }

  /** A closing brace submits the pending block. */
  lemma StepClose(t: Tokenizer)
    ensures Step(t, "}") == Tokenizer(false, "", [], t.blocks + [Block(t.dataName, t.dataStrings)])
  {
    assert Trim("}") == "}";
  }

  /** Running over a line and then the rest. */
  lemma RunCons(t: Tokenizer, x: string, rest: seq<string>)
    ensures Run(t, [x] + rest) == Run(Step(t, x), rest)
  {
    TailOfAppend([x], rest);
  }

  /** Written blocks are read back exactly: the tokenizer submits the same headers with the
      same data, in the same order. */
  lemma {:induction false} ReadsWrittenBlocks(bs: seq<Block>, done: seq<Block>)
    requires forall k :: 0 <= k < |bs| ==> WritableBlock(bs[k])
    ensures Run(Tokenizer(false, "", [], done), BlocksLines(bs)) == Tokenizer(false, "", [], done + ReadBacks(bs))
    decreases |bs|
  {
    if |bs| == 0 {
      assert done + ReadBacks(bs) == done;
    } else {
      var t0 := Tokenizer(false, "", [], done);
      var first, rest := BlockLines(bs[0]), BlocksLines(bs[1..]);
      calc {
        Run(t0, BlocksLines(bs));
        { assert BlocksLines(bs) == first + rest; }
        Run(t0, first + rest);
        { RunAppend(t0, first, rest); }
        Run(Run(t0, first), rest);
        { ReadsBlock("", bs[0], done); }
        Run(Tokenizer(false, "", [], done + [ReadBack(bs[0])]), rest);
        { ReadsWrittenBlocks(bs[1..], done + [ReadBack(bs[0])]); }
        Tokenizer(false, "", [], done + [ReadBack(bs[0])] + ReadBacks(bs[1..]));
        { ReadBacksCons(done, bs); }
        Tokenizer(false, "", [], done + ReadBacks(bs));
      }
    }
  }

  lemma ReadBacksCons(done: seq<Block>, bs: seq<Block>)
    requires |bs| > 0
    ensures done + [ReadBack(bs[0])] + ReadBacks(bs[1..]) == done + ReadBacks(bs)
  {
  }

  /** Written blocks as read back. */
  function ReadBacks(bs: seq<Block>): (r: seq<Block>)
    ensures |r| == |bs| && forall k :: 0 <= k < |bs| ==> r[k] == ReadBack(bs[k])
  {
    seq(|bs|, k requires 0 <= k < |bs| => ReadBack(bs[k]))
  }

  /** A file made of written blocks yields exactly those blocks, with their data lines trimmed. */
  lemma RoundTripBlocks(bs: seq<Block>)
    requires forall k :: 0 <= k < |bs| ==> WritableBlock(bs[k])
    ensures Run(START, BlocksLines(bs)).blocks == ReadBacks(bs)
  {
    ReadsWrittenBlocks(bs, []);
    EmptyPrefix(ReadBacks(bs));
  }

  lemma EmptyPrefix<T>(s: seq<T>)
    ensures [] + s == s
  {
  }

  // ================================================================ header dispatch

  /** Where `SubmitChartData` sends a block. */
  datatype Target =
    | SongSection
    | GlobalsSection
    | ChartSlot(instrument: Instrument, difficulty: Difficulty)
    | UnrecognisedSection(name: string)

  /** `s.Substring(start, length)`, `None` where it throws. */
  function Substring(s: string, start: nat, length: int): (r: Option<string>)
    ensures r.Some? <==> 0 <= length && start + length <= |s|
    ensures r.Some? ==> r.value == s[start..start + length]
  {
    if length < 0 || start + length > |s| then None else Some(s[start..start + length])
  }

  /** The instrument part of a recognised header. */
  function InstrumentOfSaveName(name: string): (r: Option<Instrument>)
    ensures r != Some(Instrument.Unrecognised)
  {
    if name == "Single" then Some(Instrument.Guitar)
    else if name == "DoubleGuitar" then Some(GuitarCoop)
    else if name == "DoubleBass" then Some(Bass)
    else if name == "DoubleRhythm" then Some(Rhythm)
    else if name == "Drums" then Some(Instrument.Drums)
    else if name == "Keyboard" then Some(Keys)
    else if name == "GHLGuitar" then Some(GHLiveGuitar)
    else if name == "GHLBass" then Some(GHLiveBass)
    else None
  }

  /** `LoadUnrecognisedChart`'s name: the header without its leading `[`s and trailing `]`s. */
  function UnbracketedName(dataName: string): string
  {
    TrimEnd(TrimStart(dataName, {'['}), {']'})
  }

  /** The instrument switch of `SubmitChartData`, after the difficulty prefix ending at `offset`. */
  function SlotTarget(dataName: string, d: Difficulty, offset: nat): Option<Target>
  {
    match Substring(dataName, offset, |dataName| - offset - 1)
    case None => None
    case Some(rest) =>
      match InstrumentOfSaveName(rest)
      case Some(i) => Some(ChartSlot(i, d))
      case None => Some(UnrecognisedSection(UnbracketedName(dataName)))
  }

  /** `SubmitChartData`'s dispatch on the header; `None` where a `Substring` throws, which fails
      the whole read. The four difficulty tests run in the source's order. */
  function HeaderTarget(dataName: string): Option<Target>
  {
    if dataName == "[Song]" then Some(SongSection)
    else if dataName == "[SyncTrack]" || dataName == "[Events]" then Some(GlobalsSection)
    else
      match Substring(dataName, 1, 4)
      case None => None
      case Some(four) =>
        if four == "Easy" then SlotTarget(dataName, Easy, 5)
        else
          match Substring(dataName, 1, 6)
          case None => None
          case Some(six) =>
            if six == "Medium" then SlotTarget(dataName, Medium, 7)
            else if four == "Hard" then SlotTarget(dataName, Hard, 5)
            else if six == "Expert" then SlotTarget(dataName, Expert, 7)
            else Some(UnrecognisedSection(UnbracketedName(dataName)))
  }

  /** A header shorter than five characters that is not a known section fails the read, and so
      does a non-difficulty header shorter than seven (such as `[Foo]`). */
  lemma ShortHeadersFail(dataName: string)
    requires dataName != "[Song]" && dataName != "[SyncTrack]" && dataName != "[Events]"
    ensures |dataName| < 5 ==> HeaderTarget(dataName) == None
    ensures 5 <= |dataName| < 7 && dataName[1..5] != "Easy" ==> HeaderTarget(dataName) == None
  {
  }

  /** The block submitted for a `}` with no header before it fails the read. */
  lemma EmptyHeaderFails()
    ensures HeaderTarget("") == None
  {
  }

  /** Known sections, and unknown headers long enough for every prefix test, never fail; an
      unknown header loads as an unrecognised chart named without its brackets. */
  lemma UnknownHeaderIsUnrecognised(dataName: string)
    requires |dataName| >= 7
    requires dataName != "[Song]" && dataName != "[SyncTrack]" && dataName != "[Events]"
    requires dataName[1..5] != "Easy" && dataName[1..5] != "Hard"
    requires dataName[1..7] != "Medium" && dataName[1..7] != "Expert"
    ensures HeaderTarget(dataName) == Some(UnrecognisedSection(UnbracketedName(dataName)))
  {
  }

  // ================================================================ fret tables

  /** What a note code of a chart block stands for. */
  datatype NoteCode = Fret(rawNote: int) | FlagCode(flag: Flags) | NoCode

  /** `LoadStandardNote`: 0–4 are the five frets, 5 and 6 the FORCED and TAP flags, 7 open. */
  function StandardNoteCode(code: int): NoteCode
  {
    if 0 <= code <= 4 then Fret(code)
    else if code == 5 then FlagCode(FORCED)
    else if code == 6 then FlagCode(TAP)
    else if code == 7 then Fret(OPEN)
    else NoCode
  }

  /** `LoadDrumNote`: 0 kick, then red, yellow, blue, orange, green; no flags. */
  function DrumNoteCode(code: int): NoteCode
  {
    if code == 0 then Fret(DRUM_KICK)
    else if code == 1 then Fret(DRUM_RED)
    else if code == 2 then Fret(DRUM_YELLOW)
    else if code == 3 then Fret(DRUM_BLUE)
    else if code == 4 then Fret(DRUM_ORANGE)
    else if code == 5 then Fret(DRUM_GREEN)
    else NoCode
  }

  /** `LoadGHLiveNote`: 0–2 the white frets, 3–4 black 1–2, 5/6 the flags, 7 open, 8 black 3. */
  function GHLNoteCode(code: int): NoteCode
  {
    if code == 0 then Fret(GHL_WHITE_1)
    else if code == 1 then Fret(GHL_WHITE_2)
    else if code == 2 then Fret(GHL_WHITE_3)
    else if code == 3 then Fret(GHL_BLACK_1)
    else if code == 4 then Fret(GHL_BLACK_2)
    else if code == 5 then FlagCode(FORCED)
    else if code == 6 then FlagCode(TAP)
    else if code == 7 then Fret(GHL_OPEN)
    else if code == 8 then Fret(GHL_BLACK_3)
    else NoCode
  }

  predicate IsGHLInstrument(instrument: Instrument)
  {
    instrument == GHLiveGuitar || instrument == GHLiveBass
  }

  /** The table `LoadChart(Chart, …)` reads a note code with: unrecognised blocks keep the raw
      code, drum blocks the drum table, GH Live blocks the GH Live table, and every other
      instrument (the default argument is Guitar) the standard table. */
  function NoteCodeFor(instrument: Instrument, code: int): NoteCode
  {
    if instrument == Instrument.Unrecognised then Fret(code)
    else if instrument == Instrument.Drums then DrumNoteCode(code)
    else if IsGHLInstrument(instrument) then GHLNoteCode(code)
    else StandardNoteCode(code)
  }

  /** Each table is one-to-one: two codes that give a note give different notes, and the notes
      are valid fret values of the table's game mode. */
  lemma TablesAreInjective(a: int, b: int)
    ensures StandardNoteCode(a).Fret? && StandardNoteCode(a) == StandardNoteCode(b) ==> a == b
    ensures DrumNoteCode(a).Fret? && DrumNoteCode(a) == DrumNoteCode(b) ==> a == b
    ensures GHLNoteCode(a).Fret? && GHLNoteCode(a) == GHLNoteCode(b) ==> a == b
    ensures StandardNoteCode(a).Fret? ==> GREEN <= StandardNoteCode(a).rawNote <= OPEN
    ensures DrumNoteCode(a).Fret? ==> GREEN <= DrumNoteCode(a).rawNote <= OPEN
    ensures GHLNoteCode(a).Fret? ==> GHL_BLACK_1 <= GHLNoteCode(a).rawNote <= GHL_OPEN
  {
  }

  /** Codes 5 and 6 are flags, not notes, in standard and GH Live blocks; drum blocks never
      produce a flag. */
  lemma FlagCodes(instrument: Instrument, code: int)
    ensures instrument != Instrument.Unrecognised && instrument != Instrument.Drums ==>
      (NoteCodeFor(instrument, code).FlagCode? <==> code == 5 || code == 6)
    ensures NoteCodeFor(instrument, 5) == FlagCode(FORCED) <==> instrument != Instrument.Unrecognised && instrument != Instrument.Drums
    ensures NoteCodeFor(instrument, 6) == FlagCode(TAP) <==> instrument != Instrument.Unrecognised && instrument != Instrument.Drums
    ensures instrument == Instrument.Drums || instrument == Instrument.Unrecognised ==> !NoteCodeFor(instrument, code).FlagCode?
  {
  }

  // ================================================================ chart blocks

  /** What one line of a chart block contributes. */
  datatype ChartLine = AddObject(o: ChartObject) | AddFlag(position: uint32, flag: Flags) | SkipLine

  /** The `n` case: a note, a deferred flag, or nothing. */
  function NoteLine(instrument: Instrument, position: uint32, code: int, length: uint32): ChartLine
  {
    match NoteCodeFor(instrument, code)
    case Fret(f) => AddObject(NoteObject(Note(position, f, length, NONE)))
    case FlagCode(flag) => AddFlag(position, flag)
    case NoCode => SkipLine
  }

  /** The body of the per-line `try` of `LoadChart(Chart, …)`; every parse that throws, and
      every index past the end of the split line, skips the line. */
  function ParseChartLine(line: string, instrument: Instrument): ChartLine
  {
    var t := Split(line, ' ');
    match ParseUInt(t[0])
    case None => SkipLine
    case Some(position) =>
      if |t| < 3 then SkipLine
      else
        var kind := ToLower(t[2]);
        if kind == "n" then
          if |t| < 4 then SkipLine
          else
            match ParseInt(t[3])
            case None => SkipLine
            case Some(code) =>
              if |t| < 5 then SkipLine
              else
                match ParseUInt(t[4])
                case None => SkipLine
                case Some(length) => NoteLine(instrument, position, code, length)
        else if kind == "s" then
          if |t| < 4 then SkipLine
          else
            match ParseInt(t[3])
            case None => SkipLine
            case Some(code) =>
              if code != 2 || |t| < 5 then SkipLine
              else
                match ParseUInt(t[4])
                case None => SkipLine
                case Some(length) => AddObject(Starpower(position, length))
        else if kind == "e" then
          if |t| < 4 then SkipLine else AddObject(ChartEvent(position, t[3]))
        else SkipLine
  }

  /** A flag the first pass defers: OR `flag` into every note at `position`. */
  datatype NoteFlag = NoteFlag(position: uint32, flag: Flags)

  /** The first pass over a chart block: the chart with every object added, and the deferred
      flags in order. */
  function Collect(c: Chart, data: seq<string>, instrument: Instrument): (r: (Chart, seq<NoteFlag>))
    ensures r.0.name == c.name && r.0.gameMode == c.gameMode
    decreases |data|
  {
    if |data| == 0 then (c, [])
    else
      var (c', flags) := Collect(c, data[..|data| - 1], instrument);
      match ParseChartLine(data[|data| - 1], instrument)
      case AddObject(o) => (ChartAdd(c', o), flags)
      case AddFlag(p, f) => (c', flags + [NoteFlag(p, f)])
      case SkipLine => (c', flags)
  }

  /** The union of the deferred flags given at tick `p`. */
  function FlagsAt(flags: seq<NoteFlag>, p: uint32): Flags
    decreases |flags|
  {
    if |flags| == 0 then NONE
    else
      var before := FlagsAt(flags[..|flags| - 1], p);
      if flags[|flags| - 1].position == p then before.Union(flags[|flags| - 1].flag) else before
  }

  /** A note after the second pass: its own flags and every flag deferred to its tick. */
  function Flagged(n: Note, flags: seq<NoteFlag>): Note
  {
    n.(flags := n.flags.Union(FlagsAt(flags, n.position)))
  }

  /** A tick no flag line names keeps its notes as they are. */
  lemma {:induction false} UnflaggedTick(flags: seq<NoteFlag>, p: uint32)
    requires forall k :: 0 <= k < |flags| ==> flags[k].position != p
    ensures FlagsAt(flags, p) == NONE
    decreases |flags|
  {
    if |flags| > 0 {
      UnflaggedTick(flags[..|flags| - 1], p);
    }
  }

  /** A tick gets FORCED (TAP) exactly when some flag line at that tick gives it. */
  lemma {:induction false} FlagsAtMeaning(flags: seq<NoteFlag>, p: uint32)
    ensures FlagsAt(flags, p).forced <==> exists k :: 0 <= k < |flags| && flags[k].position == p && flags[k].flag.forced
    ensures FlagsAt(flags, p).tap <==> exists k :: 0 <= k < |flags| && flags[k].position == p && flags[k].flag.tap
    decreases |flags|
  {
    if |flags| > 0 {
      var init := flags[..|flags| - 1];
      FlagsAtMeaning(init, p);
      assert forall k :: 0 <= k < |init| ==> init[k] == flags[k];
    }
  }

  /** Drum and unrecognised blocks collect no flags. */
  lemma {:induction false} NoFlagsWithoutFlagCodes(c: Chart, data: seq<string>, instrument: Instrument)
    requires instrument == Instrument.Drums || instrument == Instrument.Unrecognised
    ensures Collect(c, data, instrument).1 == []
    decreases |data|
  {
    if |data| > 0 {
      NoFlagsWithoutFlagCodes(c, data[..|data| - 1], instrument);
      var line := data[|data| - 1];
      var t := Split(line, ' ');
      if ParseChartLine(line, instrument).AddFlag? {
        FlagCodes(instrument, ParseInt(t[3]).value);
      }
    }
  }

  /** The first pass keeps the chart's object list sorted. */
  lemma {:induction false} CollectKeepsSorted(c: Chart, data: seq<string>, instrument: Instrument)
    requires Sorted(c.objects, ChartKey)
    ensures Sorted(Collect(c, data, instrument).0.objects, ChartKey)
    decreases |data|
  {
    if |data| > 0 {
      CollectKeepsSorted(c, data[..|data| - 1], instrument);
    }
  }

  /** The notes with every deferred flag applied. */
  function FlaggedNotes(ns: seq<Note>, flags: seq<NoteFlag>): (r: seq<Note>)
    ensures |r| == |ns| && forall k :: 0 <= k < |ns| ==> r[k] == Flagged(ns[k], flags)
  {
    seq(|ns|, k requires 0 <= k < |ns| => Flagged(ns[k], flags))
  }

  /** The chart `LoadChart(Chart, …)` leaves: the first pass's chart with each deferred flag
      ORed into every note at its tick. Objects other than notes, and the notes' ticks, frets
      and sustains, are those of the first pass. */
  function LoadedChart(chart: Chart, data: seq<string>, instrument: Instrument): (r: Chart)
    ensures var (c, flags) := Collect(chart, data, instrument);
      && r.name == c.name && r.gameMode == c.gameMode
      && |r.objects| == |c.objects|
      && (forall k :: 0 <= k < |c.objects| ==>
            if c.objects[k].NoteObject? then r.objects[k].NoteObject? else r.objects[k] == c.objects[k])
      && |NotesOf(r.objects)| == |NotesOf(c.objects)|
      && forall k :: 0 <= k < |NotesOf(c.objects)| ==>
           NotesOf(r.objects)[k] == Flagged(NotesOf(c.objects)[k], flags)
  {
    var (c, flags) := Collect(chart, data, instrument);
    c.(objects := WithNotes(c.objects, FlaggedNotes(NotesOf(c.objects), flags)))
  }

  /** A loaded note is FORCED (TAP) exactly when the first pass gave it that flag or a flag
      line at its tick did. */
  lemma LoadedNoteFlags(chart: Chart, data: seq<string>, instrument: Instrument, k: nat)
    requires k < |NotesOf(Collect(chart, data, instrument).0.objects)|
    ensures var (c, flags) := Collect(chart, data, instrument);
      var n := NotesOf(c.objects)[k];
      var m := NotesOf(LoadedChart(chart, data, instrument).objects)[k];
      && m.position == n.position && m.rawNote == n.rawNote && m.sustain == n.sustain
      && (m.flags.forced <==> n.flags.forced || exists j :: 0 <= j < |flags| && flags[j].position == n.position && flags[j].flag.forced)
      && (m.flags.tap <==> n.flags.tap || exists j :: 0 <= j < |flags| && flags[j].position == n.position && flags[j].flag.tap)
  {
    var (c, flags) := Collect(chart, data, instrument);
    FlagsAtMeaning(flags, NotesOf(c.objects)[k].position);
  }

  /** `LoadChart(Chart, string[], instrument)`: every line is parsed and its object added, flag
      lines are deferred, and once the notes cache is rebuilt each deferred flag is ORed into
      every note at its tick. */
  method LoadChart(chart: Chart, data: seq<string>, instrument: Instrument) returns (loaded: Chart)
    ensures loaded == LoadedChart(chart, data, instrument)
  {
    var c := chart;
    var flags: seq<NoteFlag> := [];
    for i := 0 to |data|
      invariant (c, flags) == Collect(chart, data[..i], instrument)
    {
      assert data[..i + 1][..i] == data[..i];
      match ParseChartLine(data[i], instrument)
      case AddObject(o) =>
        c := ChartAdd(c, o);
      case AddFlag(p, f) =>
        flags := flags + [NoteFlag(p, f)];
      case SkipLine =>
    }
    assert data[..|data|] == data;

    // chart.UpdateCache(): the notes cache shares its notes with the object list.
    var ns := NotesOf(c.objects);
    var notes := new Note[|ns|](k requires 0 <= k < |ns| => ns[k]);
    for j := 0 to |flags|
      invariant forall k :: 0 <= k < |ns| ==> notes[k] == Flagged(ns[k], flags[..j])
    {
      assert flags[..j + 1][..j] == flags[..j];
      var at := FindObjectsAtPosition(flags[j].position, notes[..]);
      if |at| > 0 {
        GroupAddFlags(notes, at, flags[j].flag);
      }
    }
    assert flags[..|flags|] == flags;
    assert notes[..] == FlaggedNotes(ns, flags);
    loaded := c.(objects := WithNotes(c.objects, notes[..]));
  }

  // ================================================================ [SyncTrack] and [Events]

  /** A `[SyncTrack]` `A` line: the tempo at `position` is anchored `micros` microseconds in. */
  datatype Anchor = Anchor(position: uint32, micros: nat)

  /** What one line of a globals block contributes. */
  datatype GlobalsLine =
    | SyncLine(o: SyncObject)
    | EventLine(e: GlobalEvent)
    | AnchorEntry(a: Anchor)
    | IgnoredLine

  function Pow2(d: nat): (r: nat)
    ensures r > 0
  {
    if d == 0 then 1 else 2 * Pow2(d - 1)
  }

  /** `(uint)Math.Pow(2, d)`: exact below 2^32; wider results are out of range of the cast. */
  function Pow2Cast(d: nat): (r: uint32)
    ensures d < 32 ==> r == Pow2(d)
  {
    if d < 32 then
      Pow2Below(d);
      Pow2(d)
    else 0
  }

  lemma Pow2Below(d: nat)
    requires d < 32
    ensures Pow2(d) < UINT_LIMIT
  {
    assert Pow2(4) == 16;
    Pow2Add(4, 4);
    assert Pow2(8) == 256;
    Pow2Add(8, 8);
    assert Pow2(16) == 65536;
    Pow2Add(16, 16);
    assert Pow2(32) == UINT_LIMIT;
    Pow2Grows(d, 32);
  }

  lemma {:induction false} Pow2Add(a: nat, b: nat)
    ensures Pow2(a + b) == Pow2(a) * Pow2(b)
    decreases a
  {
    if a > 0 {
      Pow2Add(a - 1, b);
    }
  }

  lemma {:induction false} Pow2Grows(a: nat, b: nat)
    requires a < b
    ensures Pow2(a) < Pow2(b)
    decreases b - a
  {
    if a + 1 < b {
      Pow2Grows(a + 1, b);
    }
  }

  /** A section title: the words after `"section`, each with its quotes trimmed, joined by
      single spaces. */
  function SectionTitle(words: seq<string>): string
    requires |words| > 0
  {
    Join(seq(|words|, k requires 0 <= k < |words| => TrimChars(words[k], {'"'})), ' ')
  }

  /** The body of the per-line loop of `SubmitDataGlobals`: lines of fewer than four words, or
      whose tick does not parse, are skipped, and so are lines whose numbers do not parse. */
  function ParseGlobalsLine(line: string): GlobalsLine
  {
    var t := Split(line, ' ');
    if |t| <= 3 then IgnoredLine
    else
      match ParseUInt(t[0])
      case None => IgnoredLine
      case Some(position) =>
        var kind := ToLower(t[2]);
        if kind == "ts" then
          match ParseUInt(t[3])
          case None => IgnoredLine
          case Some(numerator) =>
            match (if |t| > 4 then ParseUInt(t[4]) else Some(2))
            case None => IgnoredLine
            case Some(d) => SyncLine(TimeSignatureObject(TimeSignature(position, numerator, Pow2Cast(d))))
        else if kind == "b" then
          match ParseUInt(t[3])
          case None => IgnoredLine
          case Some(value) => SyncLine(BpmObject(NewBpm(position, value)))
        else if kind == "e" then
          if |t| > 4 && t[3] == "\"section" then EventLine(Section(position, SectionTitle(t[4..])))
          else EventLine(Event(position, TrimChars(t[3], {'"'})))
        else if kind == "a" then
          match ParseULong(t[3])
          case None => IgnoredLine
          case Some(micros) => AnchorEntry(Anchor(position, micros))
        else IgnoredLine
  }

  /** A time signature line without a denominator is in quarter notes. */
  lemma TimeSignatureDefaultsToQuarters(position: nat, numerator: nat)
    requires position < UINT_LIMIT && numerator < UINT_LIMIT
    ensures ParseGlobalsLine(NatToString(position) + " = TS " + NatToString(numerator)) ==
      SyncLine(TimeSignatureObject(TimeSignature(position, numerator, 4)))
  {
    var line := NatToString(position) + " = TS " + NatToString(numerator);
    var p, n := NatToString(position), NatToString(numerator);
    assert line == p + [' '] + "=" + [' '] + "TS" + [' '] + n;
    SplitWords4(p, "=", "TS", n);
    ParseUIntOfNatToString(position);
    ParseUIntOfNatToString(numerator);
    assert ToLower("TS") == "ts";
  }

  /** Four space-free words joined by single spaces split back into those words. */
  lemma SplitWords4(a: string, b: string, c: string, d: string)
    requires ' ' !in a && ' ' !in b && ' ' !in c && ' ' !in d
    ensures Split(a + [' '] + b + [' '] + c + [' '] + d, ' ') == [a, b, c, d]
  {
    var cd := c + [' '] + d;
    var bcd := b + [' '] + cd;
    calc {
      Split(a + [' '] + b + [' '] + c + [' '] + d, ' ');
      { assert a + [' '] + b + [' '] + c + [' '] + d == a + [' '] + bcd; }
      Split(a + [' '] + bcd, ' ');
      { SplitAfterPiece(a, ' ', bcd); }
      [a] + Split(bcd, ' ');
      { SplitAfterPiece(b, ' ', cd); }
      [a] + ([b] + Split(cd, ' '));
      { SplitAfterPiece(c, ' ', d); SplitNoSeparator(d, ' '); }
      [a] + ([b] + ([c] + [d]));
    }
  }

  // ---------------------------------------------------------------- the globals pass

  /** The first loop of `SubmitDataGlobals`: tempos and time signatures are added to the sync
      track, events and sections to the event list, and anchors are set aside in order. */
  function CollectGlobals(sync: seq<SyncObject>, events: seq<GlobalEvent>, data: seq<string>)
    : (seq<SyncObject>, seq<GlobalEvent>, seq<Anchor>)
    decreases |data|
  {
    if |data| == 0 then (sync, events, [])
    else
      var (s, e, a) := CollectGlobals(sync, events, data[..|data| - 1]);
      match ParseGlobalsLine(data[|data| - 1])
      case SyncLine(o) => (Insert(s, o, SyncKey, SameSync), e, a)
      case EventLine(ev) => (s, Insert(e, ev, EventKey, SameEvent), a)
      case AnchorEntry(an) => (s, e, a + [an])
      case IgnoredLine => (s, e, a)
  }

  /** The first pass keeps both lists sorted and tick 0's tempo and time signature. */
  lemma {:induction false} CollectGlobalsKeepsOrder(sync: seq<SyncObject>, events: seq<GlobalEvent>, data: seq<string>)
    requires Sorted(sync, SyncKey) && Sorted(events, EventKey) && HasZeroSync(sync)
    ensures var (s, e, _) := CollectGlobals(sync, events, data);
      Sorted(s, SyncKey) && Sorted(e, EventKey) && HasZeroSync(s)
    decreases |data|
  {
    if |data| > 0 {
      CollectGlobalsKeepsOrder(sync, events, data[..|data| - 1]);
      var (s, e, a) := CollectGlobals(sync, events, data[..|data| - 1]);
      if ParseGlobalsLine(data[|data| - 1]).SyncLine? {
        InsertKeepsZeroSync(s, ParseGlobalsLine(data[|data| - 1]).o);
      }
    }
  }

  /** The tempo ticks, in order. */
  function BpmPositions(bpms: seq<Bpm>): (r: seq<uint32>)
    ensures |r| == |bpms| && forall k :: 0 <= k < |bpms| ==> r[k] == bpms[k].position
  {
    seq(|bpms|, k requires 0 <= k < |bpms| => bpms[k].position)
  }

  /** The tempo an anchor at tick `p` is written into: the one `FindClosestPosition` picks, when
      it is at `p`; there is none exactly when no tempo is at `p`. */
  function AnchorTarget(positions: seq<uint32>, p: uint32): (r: Option<nat>)
    ensures r.Some? ==> r.value < |positions| && positions[r.value] == p
    ensures r.None? <==> forall k :: 0 <= k < |positions| ==> positions[k] != p
  {
    match FindClosestPosition(p, positions)
    case None => None
    case Some(k) =>
      ClosestIsExact(p, positions);
      if positions[k] == p then Some(k) else None
  }

  /** Two sync tracks that differ at most in the anchors of their tempos. */
  predicate SameShape(a: seq<SyncObject>, b: seq<SyncObject>)
  {
    |a| == |b|
    && forall i :: 0 <= i < |a| ==>
         if a[i].BpmObject? then b[i].BpmObject? && b[i].bpm.position == a[i].bpm.position && b[i].bpm.value == a[i].bpm.value
         else b[i] == a[i]
  }

  /** Setting an anchor keeps the track sorted and keeps its tick-0 entries. */
  lemma SameShapeKeepsValid(a: seq<SyncObject>, b: seq<SyncObject>)
    requires SameShape(a, b) && Sorted(a, SyncKey) && HasZeroSync(a)
    ensures Sorted(b, SyncKey) && HasZeroSync(b)
  {
    assert forall i :: 0 <= i < |a| ==> SyncKey(b[i]) == SyncKey(a[i]);
    var tb :| BpmObject(tb) in a && tb.position == 0;
    var i :| 0 <= i < |a| && a[i] == BpmObject(tb);
    assert BpmObject(b[i].bpm) in b;
  }

  /** `bpms[k].anchor = …`: the `k`-th tempo of the track gets the anchor. */
  function SetBpmAnchor(sync: seq<SyncObject>, k: nat, micros: nat): (r: seq<SyncObject>)
    requires k < |BpmsOf(sync)|
    ensures |r| == |sync|
    decreases |sync|
  {
    match sync[0]
    case BpmObject(b) =>
      if k == 0 then [BpmObject(b.(anchor := Some(micros)))] + sync[1..]
      else [sync[0]] + SetBpmAnchor(sync[1..], k - 1, micros)
    case TimeSignatureObject(_) => [sync[0]] + SetBpmAnchor(sync[1..], k, micros)
  }

  /** Setting an anchor changes that tempo's anchor and nothing else. */
  lemma SetBpmAnchorChangesOneTempo(sync: seq<SyncObject>, k: nat, micros: nat)
    requires k < |BpmsOf(sync)|
    ensures SameShape(sync, SetBpmAnchor(sync, k, micros))
    ensures BpmsOf(SetBpmAnchor(sync, k, micros)) == BpmsOf(sync)[k := BpmsOf(sync)[k].(anchor := Some(micros))]
  {
    SetBpmAnchorKeepsShape(sync, k, micros);
    SetBpmAnchorTempos(sync, k, micros);
  }

  lemma {:induction false} SetBpmAnchorKeepsShape(sync: seq<SyncObject>, k: nat, micros: nat)
    requires k < |BpmsOf(sync)|
    ensures SameShape(sync, SetBpmAnchor(sync, k, micros))
    decreases |sync|
  {
    assert sync == [sync[0]] + sync[1..];
    match sync[0]
    case BpmObject(b) =>
      if k == 0 {
        SameShapeRefl(sync[1..]);
        SameShapeCons(sync[0], BpmObject(b.(anchor := Some(micros))), sync[1..], sync[1..]);
      } else {
        SetBpmAnchorKeepsShape(sync[1..], k - 1, micros);
        SameShapeCons(sync[0], sync[0], sync[1..], SetBpmAnchor(sync[1..], k - 1, micros));
      }
    case TimeSignatureObject(_) =>
      SetBpmAnchorKeepsShape(sync[1..], k, micros);
      SameShapeCons(sync[0], sync[0], sync[1..], SetBpmAnchor(sync[1..], k, micros));
  }

  lemma SameShapeRefl(a: seq<SyncObject>)
    ensures SameShape(a, a)
  {
  }

  /** Two tracks have the same shape when their first entries and their tails do. */
  lemma SameShapeCons(x: SyncObject, y: SyncObject, a: seq<SyncObject>, b: seq<SyncObject>)
    requires SameShape(a, b)
    requires if x.BpmObject? then y.BpmObject? && y.bpm.position == x.bpm.position && y.bpm.value == x.bpm.value
             else y == x
    ensures SameShape([x] + a, [y] + b)
  {
    var a', b' := [x] + a, [y] + b;
    forall i | 1 <= i < |a'|
      ensures if a'[i].BpmObject? then b'[i].BpmObject? && b'[i].bpm.position == a'[i].bpm.position && b'[i].bpm.value == a'[i].bpm.value
              else b'[i] == a'[i]
    {
      assert a'[i] == a[i - 1] && b'[i] == b[i - 1];
    }
  }

  lemma {:induction false} SetBpmAnchorTempos(sync: seq<SyncObject>, k: nat, micros: nat)
    requires k < |BpmsOf(sync)|
    ensures BpmsOf(SetBpmAnchor(sync, k, micros)) == BpmsOf(sync)[k := BpmsOf(sync)[k].(anchor := Some(micros))]
    decreases |sync|
  {
    var r := SetBpmAnchor(sync, k, micros);
    var tail := sync[1..];
    assert sync == [sync[0]] + tail;
    match sync[0]
    case BpmObject(b) =>
      var b' := b.(anchor := Some(micros));
      BpmsOfCons(b, tail);
      if k == 0 {
        assert r == [BpmObject(b')] + tail;
        calc {
          BpmsOf(r);
          { BpmsOfCons(b', tail); }
          [b'] + BpmsOf(tail);
          { UpdateHead(b, BpmsOf(tail), b'); }
          ([b] + BpmsOf(tail))[0 := b'];
        }
      } else {
        var rt := SetBpmAnchor(tail, k - 1, micros);
        var v := BpmsOf(tail)[k - 1].(anchor := Some(micros));
        assert r == [BpmObject(b)] + rt;
        calc {
          BpmsOf(r);
          { BpmsOfCons(b, rt); }
          [b] + BpmsOf(rt);
          { SetBpmAnchorTempos(tail, k - 1, micros); }
          [b] + BpmsOf(tail)[k - 1 := v];
          { UpdateCons(b, BpmsOf(tail), k, v); }
          ([b] + BpmsOf(tail))[k := v];
        }
      }
    case TimeSignatureObject(ts) =>
      var rt := SetBpmAnchor(tail, k, micros);
      assert r == [TimeSignatureObject(ts)] + rt;
      calc {
        BpmsOf(r);
        { BpmsOfSkips(ts, rt); }
        BpmsOf(rt);
        { SetBpmAnchorTempos(tail, k, micros); }
        BpmsOf(tail)[k := BpmsOf(tail)[k].(anchor := Some(micros))];
        { BpmsOfSkips(ts, tail); }
        BpmsOf(sync)[k := BpmsOf(sync)[k].(anchor := Some(micros))];
      }
  }

  lemma BpmsOfCons(b: Bpm, rest: seq<SyncObject>)
    ensures BpmsOf([BpmObject(b)] + rest) == [b] + BpmsOf(rest)
  {
    assert ([BpmObject(b)] + rest)[1..] == rest;
  }

  lemma BpmsOfSkips(ts: TimeSignature, rest: seq<SyncObject>)
    ensures BpmsOf([TimeSignatureObject(ts)] + rest) == BpmsOf(rest)
  {
    assert ([TimeSignatureObject(ts)] + rest)[1..] == rest;
  }

  lemma UpdateHead<T>(x: T, s: seq<T>, v: T)
    ensures ([x] + s)[0 := v] == [v] + s
  {
  }

  lemma UpdateCons<T>(x: T, s: seq<T>, k: nat, v: T)
    requires 0 < k <= |s|
    ensures ([x] + s)[k := v] == [x] + s[k - 1 := v]
  {
  }

  /** The anchor loop of `SubmitDataGlobals`, anchor by anchor. An anchor at a tick with no
      tempo builds a tempo that is never added, so it changes nothing. */
  function ApplyAnchors(sync: seq<SyncObject>, anchors: seq<Anchor>): (r: seq<SyncObject>)
    ensures BpmPositions(BpmsOf(r)) == BpmPositions(BpmsOf(sync))
    decreases |anchors|
  {
    if |anchors| == 0 then sync
    else
      var s := ApplyAnchors(sync, anchors[..|anchors| - 1]);
      var a := anchors[|anchors| - 1];
      match AnchorTarget(BpmPositions(BpmsOf(s)), a.position)
      case None => s
      case Some(k) =>
        var r := SetBpmAnchor(s, k, a.micros);
        SetBpmAnchorChangesOneTempo(s, k, a.micros);
        assert BpmPositions(BpmsOf(r)) == BpmPositions(BpmsOf(s));
        r
  }

  /** The anchor loop changes anchors and nothing else. */
  lemma {:induction false} ApplyAnchorsKeepsShape(sync: seq<SyncObject>, anchors: seq<Anchor>)
    ensures SameShape(sync, ApplyAnchors(sync, anchors))
    decreases |anchors|
  {
    if |anchors| > 0 {
      var s := ApplyAnchors(sync, anchors[..|anchors| - 1]);
      ApplyAnchorsKeepsShape(sync, anchors[..|anchors| - 1]);
      var a := anchors[|anchors| - 1];
      var target := AnchorTarget(BpmPositions(BpmsOf(s)), a.position);
      if target.Some? {
        SetBpmAnchorChangesOneTempo(s, target.value, a.micros);
      }
    }
  }

  /** The micros of the last anchor given at tick `p`, if any. */
  function LastAnchorAt(anchors: seq<Anchor>, p: uint32): (r: Option<nat>)
    ensures r.None? <==> forall j :: 0 <= j < |anchors| ==> anchors[j].position != p
    ensures r.Some? ==> exists j :: 0 <= j < |anchors| && anchors[j] == Anchor(p, r.value)
                          && (forall i :: j < i < |anchors| ==> anchors[i].position != p)
    decreases |anchors|
  {
    if |anchors| == 0 then None
    else if anchors[|anchors| - 1].position == p then Some(anchors[|anchors| - 1].micros)
    else
      var r := LastAnchorAt(anchors[..|anchors| - 1], p);
      assert forall j :: 0 <= j < |anchors| - 1 ==> anchors[..|anchors| - 1][j] == anchors[j];
      r
  }

  /** After the anchor loop, the tempo an anchor's tick selects carries the last anchor given
      for that tick; every other tempo keeps the anchor it had. */
  lemma {:induction false} LastAnchorWins(sync: seq<SyncObject>, anchors: seq<Anchor>, k: nat)
    requires k < |BpmsOf(sync)|
    ensures var p := BpmsOf(sync)[k].position;
      BpmsOf(ApplyAnchors(sync, anchors))[k].anchor ==
        if AnchorTarget(BpmPositions(BpmsOf(sync)), p) == Some(k) && LastAnchorAt(anchors, p).Some?
        then LastAnchorAt(anchors, p)
        else BpmsOf(sync)[k].anchor
    decreases |anchors|
  {
    if |anchors| > 0 {
      var init := anchors[..|anchors| - 1];
      LastAnchorWins(sync, init, k);
      var p := BpmsOf(sync)[k].position;
      var positions := BpmPositions(BpmsOf(sync));
      assert positions[k] == p;
      var s := ApplyAnchors(sync, init);
      var a := anchors[|anchors| - 1];
      var target := AnchorTarget(BpmPositions(BpmsOf(s)), a.position);
      if target.Some? {
        SetBpmAnchorChangesOneTempo(s, target.value, a.micros);
      }
      if a.position != p {
        assert LastAnchorAt(anchors, p) == LastAnchorAt(init, p);
      }
    }
  }

  /** One more anchor: the track as `ApplyAnchors` leaves it, decided on the tempo ticks the
      loop started from. */
  lemma AnchorStep(sync: seq<SyncObject>, anchors: seq<Anchor>, i: nat)
    requires i < |anchors|
    ensures var s := ApplyAnchors(sync, anchors[..i]);
      var k := FindClosestPosition(anchors[i].position, BpmPositions(BpmsOf(sync)));
      ApplyAnchors(sync, anchors[..i + 1]) ==
        if k.Some? && BpmsOf(sync)[k.value].position == anchors[i].position
        then SetBpmAnchor(s, k.value, anchors[i].micros)
        else s
  {
    assert anchors[..i + 1][..i] == anchors[..i];
  }

  /** In a sorted track with a tempo at tick 0, the first tempo is at tick 0. */
  lemma {:induction false} FirstBpmAtZero(sync: seq<SyncObject>, zero: Bpm)
    requires Sorted(sync, SyncKey) && BpmObject(zero) in sync && zero.position == 0
    ensures |BpmsOf(sync)| > 0 && BpmsOf(sync)[0].position == 0
    decreases |sync|
  {
    var j :| 0 <= j < |sync| && sync[j] == BpmObject(zero);
    if sync[0].BpmObject? {
      assert KeyLe(SyncKey(sync[0]), SyncKey(sync[j]));
    } else {
      assert sync[1..][j - 1] == sync[j];
      FirstBpmAtZero(sync[1..], zero);
    }
  }

  /** `SubmitDataGlobals`: the lines of a `[SyncTrack]` or `[Events]` block are added to the
      song without refreshing its caches, then each anchor is written into the tempo at its
      tick. The song stays valid and nothing but its two lists changes. */
  method SubmitDataGlobals(song: Song, data: seq<string>)
    requires song.Valid()
    modifies song
    ensures song.Valid() && song.KeepsSettings() && song.unrecognisedCharts == old(song.unrecognisedCharts)
    ensures song.events == CollectGlobals(old(song.syncTrack), old(song.events), data).1
    ensures song.syncTrack == ApplyAnchors(CollectGlobals(old(song.syncTrack), old(song.events), data).0,
                                           CollectGlobals(old(song.syncTrack), old(song.events), data).2)
  {
    var anchors := AddGlobals(song, data);
    var track := AnchoredTrack(song.syncTrack, anchors);
    song.syncTrack := track;
  }

  /** The per-line loop of `SubmitDataGlobals`. */
  method AddGlobals(song: Song, data: seq<string>) returns (anchors: seq<Anchor>)
    requires song.Valid()
    modifies song
    ensures song.Valid() && song.KeepsSettings() && song.unrecognisedCharts == old(song.unrecognisedCharts)
    ensures (song.syncTrack, song.events, anchors) == CollectGlobals(old(song.syncTrack), old(song.events), data)
  {
    anchors := [];
    for i := 0 to |data|
      invariant song.Valid() && song.KeepsSettings() && song.unrecognisedCharts == old(song.unrecognisedCharts)
      invariant (song.syncTrack, song.events, anchors) == CollectGlobals(old(song.syncTrack), old(song.events), data[..i])
    {
      assert data[..i + 1][..i] == data[..i];
      match ParseGlobalsLine(data[i])
      case SyncLine(o) =>
        var _ := song.AddNewSync(o);
      case EventLine(e) =>
        var _ := song.AddNewEvent(e);
      case AnchorEntry(a) =>
        anchors := anchors + [a];
      case IgnoredLine =>
    }
    assert data[..|data|] == data;
  }

  /** The anchor loop over the tempos as they were before it: an anchor whose nearest tempo is
      at its tick sets that tempo's anchor; otherwise the tempo in force at the anchor's tick
      is looked up, and the anchored tempo built from it is dropped. */
  method AnchoredTrack(sync: seq<SyncObject>, anchors: seq<Anchor>) returns (track: seq<SyncObject>)
    requires Sorted(sync, SyncKey) && HasZeroSync(sync)
    ensures track == ApplyAnchors(sync, anchors)
    ensures Sorted(track, SyncKey) && HasZeroSync(track)
  {
    var bpms := BpmsOf(sync);
    var positions := BpmPositions(bpms);
    var zero :| BpmObject(zero) in sync && zero.position == 0;
    FirstBpmAtZero(sync, zero);
    track := sync;
    for i := 0 to |anchors|
      invariant track == ApplyAnchors(sync, anchors[..i])
    {
      AnchorStep(sync, anchors, i);
      var a := anchors[i];
      var k := FindClosestPosition(a.position, positions).value;
      if bpms[k].position == a.position {
        track := SetBpmAnchor(track, k, a.micros);
      } else {
        var value := if bpms[k].position > a.position then bpms[k - 1].value else bpms[k].value;
        var anchored := Bpm(a.position, value, Some(a.micros));
      }
    }
    assert anchors[..|anchors|] == anchors;
    ApplyAnchorsKeepsShape(sync, anchors);
    SameShapeKeepsValid(sync, track);
  }

  // ================================================================ submitting blocks

  /** What reading changes in a song: its two lists, its chart grid and its unrecognised
      charts. */
  datatype SongLists = SongLists(
    syncTrack: seq<SyncObject>, events: seq<GlobalEvent>, charts: seq<Chart>, unrecognisedCharts: seq<Chart>)

  function ListsOf(song: Song): SongLists
    reads song, song.charts
  {
    SongLists(song.syncTrack, song.events, song.charts[..], song.unrecognisedCharts)
  }

  /** The lists of `new Song()`. */
  function NewSongLists(): (r: SongLists)
    ensures |r.charts| == CHART_COUNT
  {
    SongLists(
      [TimeSignatureObject(DEFAULT_TIME_SIGNATURE), BpmObject(NewBpm())], [],
      seq(CHART_COUNT, k requires 0 <= k < CHART_COUNT => Chart(SlotName(k), SlotGameMode(k), [])), [])
  }

  /** The instrument argument `SubmitChartData` passes to `LoadChart`: drum and GH Live charts
      pass their own, every other chart the default, Guitar, whose table is its own. */
  function LoadInstrument(i: Instrument): (r: Instrument)
    ensures r == Instrument.Guitar || r == Instrument.Drums || IsGHLInstrument(r)
    ensures i != Instrument.Unrecognised ==> forall code :: NoteCodeFor(r, code) == NoteCodeFor(i, code)
  {
    if i == Instrument.Drums || IsGHLInstrument(i) then i else Instrument.Guitar
  }

  /** The chart `LoadUnrecognisedChart` appends. */
  function UnrecognisedChart(name: string, data: seq<string>): Chart
  {
    LoadedChart(Chart(name, GameMode.Unrecognised, []), data, Instrument.Unrecognised)
  }

  /** `SubmitChartData` on the lists: `None` when the header dispatch throws. The `[Song]`
      block sets properties this model leaves out. */
  function Submit(st: SongLists, b: Block): (r: Option<SongLists>)
    requires |st.charts| == CHART_COUNT
    ensures r.Some? ==> |r.value.charts| == CHART_COUNT
  {
    match HeaderTarget(b.name)
    case None => None
    case Some(SongSection) => Some(st)
    case Some(GlobalsSection) =>
      var g := CollectGlobals(st.syncTrack, st.events, b.data);
      Some(st.(syncTrack := ApplyAnchors(g.0, g.2), events := g.1))
    case Some(ChartSlot(i, d)) =>
      var k := ChartIndex(i, d);
      Some(st.(charts := st.charts[k := LoadedChart(st.charts[k], b.data, LoadInstrument(i))]))
    case Some(UnrecognisedSection(name)) =>
      Some(st.(unrecognisedCharts := st.unrecognisedCharts + [UnrecognisedChart(name, b.data)]))
  }

  /** Submitting every block in order; the first failing header fails the read. */
  function SubmitAll(st: SongLists, blocks: seq<Block>): (r: Option<SongLists>)
    requires |st.charts| == CHART_COUNT
    ensures r.Some? ==> |r.value.charts| == CHART_COUNT
    decreases |blocks|
  {
    if |blocks| == 0 then Some(st)
    else
      match SubmitAll(st, blocks[..|blocks| - 1])
      case None => None
      case Some(s) => Submit(s, blocks[|blocks| - 1])
  }

  /** Reading fails exactly when some block's header makes the dispatch throw. */
  lemma {:induction false} SubmitAllFails(st: SongLists, blocks: seq<Block>)
    requires |st.charts| == CHART_COUNT
    ensures SubmitAll(st, blocks).None? <==> exists k :: 0 <= k < |blocks| && HeaderTarget(blocks[k].name).None?
    decreases |blocks|
  {
    if |blocks| > 0 {
      SubmitAllFails(st, blocks[..|blocks| - 1]);
      if SubmitAll(st, blocks[..|blocks| - 1]).None? {
        FailsAfterFailure(st, blocks);
      } else {
        FailsAfterSuccess(st, blocks);
      }
    }
  }

  /** Once a block has failed, the read stays failed. */
  lemma FailsAfterFailure(st: SongLists, blocks: seq<Block>)
    requires |st.charts| == CHART_COUNT && |blocks| > 0
    requires var init := blocks[..|blocks| - 1];
      SubmitAll(st, init).None? && exists k :: 0 <= k < |init| && HeaderTarget(init[k].name).None?
    ensures SubmitAll(st, blocks).None? && exists k :: 0 <= k < |blocks| && HeaderTarget(blocks[k].name).None?
  {
    var init := blocks[..|blocks| - 1];
    var k :| 0 <= k < |init| && HeaderTarget(init[k].name).None?;
    assert blocks[k] == init[k];
  }

  /** After the blocks before it succeeded, the read fails exactly when the last block does. */
  lemma FailsAfterSuccess(st: SongLists, blocks: seq<Block>)
    requires |st.charts| == CHART_COUNT && |blocks| > 0
    requires var init := blocks[..|blocks| - 1];
      SubmitAll(st, init).Some? && forall k :: 0 <= k < |init| ==> HeaderTarget(init[k].name).Some?
    ensures SubmitAll(st, blocks).None? <==> exists k :: 0 <= k < |blocks| && HeaderTarget(blocks[k].name).None?
  {
    var init := blocks[..|blocks| - 1];
    var last := blocks[|blocks| - 1];
    SubmitFails(SubmitAll(st, init).value, last);
    if HeaderTarget(last.name).Some? {
      forall k | 0 <= k < |blocks|
        ensures HeaderTarget(blocks[k].name).Some?
      {
        if k < |init| {
          assert blocks[k] == init[k];
        }
      }
    }
  }

  /** Submitting one block fails exactly when its header makes the dispatch throw. */
  lemma SubmitFails(st: SongLists, b: Block)
    requires |st.charts| == CHART_COUNT
    ensures Submit(st, b).None? <==> HeaderTarget(b.name).None?
  {
  }

  /** A chart block changes its own slot and nothing else; a globals block changes only the
      two lists; an unrecognised block appends one chart. */
  lemma SubmitChangesItsTarget(st: SongLists, b: Block)
    requires |st.charts| == CHART_COUNT && HeaderTarget(b.name).Some?
    ensures var r := Submit(st, b).value;
      match HeaderTarget(b.name).value
      case SongSection => r == st
      case GlobalsSection => r.charts == st.charts && r.unrecognisedCharts == st.unrecognisedCharts
      case ChartSlot(i, d) =>
        && r.syncTrack == st.syncTrack && r.events == st.events && r.unrecognisedCharts == st.unrecognisedCharts
        && (forall k :: 0 <= k < CHART_COUNT && k != ChartIndex(i, d) ==> r.charts[k] == st.charts[k])
        && r.charts[ChartIndex(i, d)].name == st.charts[ChartIndex(i, d)].name
      case UnrecognisedSection(name) =>
        && r.syncTrack == st.syncTrack && r.events == st.events && r.charts == st.charts
        && |r.unrecognisedCharts| == |st.unrecognisedCharts| + 1
        && r.unrecognisedCharts[|st.unrecognisedCharts|].name == name
        && r.unrecognisedCharts[|st.unrecognisedCharts|].gameMode == GameMode.Unrecognised
  {
  }

  /** `SubmitChartData(song, dataName, stringData)`: `false` where the header dispatch throws. */
  method SubmitChartData(song: Song, b: Block) returns (ok: bool)
    requires song.Valid()
    modifies song, song.charts
    ensures song.Valid() && song.KeepsSettings()
    ensures ok <==> Submit(old(ListsOf(song)), b).Some?
    ensures ok ==> ListsOf(song) == Submit(old(ListsOf(song)), b).value
  {
    match HeaderTarget(b.name)
    case None =>
      ok := false;
    case Some(SongSection) =>
      ok := true;
    case Some(GlobalsSection) =>
      SubmitDataGlobals(song, b.data);
      ok := true;
    case Some(ChartSlot(i, d)) =>
      var k := ChartIndex(i, d);
      var loaded := LoadChart(song.charts[k], b.data, LoadInstrument(i));
      song.charts[k] := loaded;
      ok := true;
    case Some(UnrecognisedSection(name)) =>
      var loaded := LoadChart(Chart(name, GameMode.Unrecognised, []), b.data, Instrument.Unrecognised);
      song.unrecognisedCharts := song.unrecognisedCharts + [loaded];
      ok := true;
  }

  /** The tokenizer's submissions, in order, stopping at the first that throws. */
  method SubmitBlocks(song: Song, blocks: seq<Block>) returns (ok: bool)
    requires song.Valid()
    modifies song, song.charts
    ensures song.Valid() && song.KeepsSettings()
    ensures ok <==> SubmitAll(old(ListsOf(song)), blocks).Some?
    ensures ok ==> Some(ListsOf(song)) == SubmitAll(old(ListsOf(song)), blocks)
  {
    ghost var start := ListsOf(song);
    for i := 0 to |blocks|
      invariant song.Valid() && song.KeepsSettings()
      invariant Some(ListsOf(song)) == SubmitAll(start, blocks[..i])
    {
      assert blocks[..i + 1][..i] == blocks[..i];
      ok := SubmitChartData(song, blocks[i]);
      if !ok {
        FailureStops(start, blocks, i + 1);
        return;
      }
    }
    assert blocks[..|blocks|] == blocks;
    ok := true;
  }

  /** Once a prefix fails, the whole sequence fails. */
  lemma {:induction false} FailureStops(st: SongLists, blocks: seq<Block>, n: nat)
    requires |st.charts| == CHART_COUNT && n <= |blocks|
    requires SubmitAll(st, blocks[..n]).None?
    ensures SubmitAll(st, blocks).None?
    decreases |blocks| - n
  {
    if n < |blocks| {
      assert blocks[..n + 1][..n] == blocks[..n];
      FailureStops(st, blocks, n + 1);
    } else {
      assert blocks[..n] == blocks;
    }
  }

  /** `ReadChart` over the lines of a `.chart` file: a new song, every block the tokenizer
      submits, and the caches rebuilt at the end. Any failure becomes "Could not open file". */
  method ReadChart(lines: seq<string>) returns (r: Result<Song>)
    ensures var blocks := Run(START, lines).blocks;
      r.Err? <==> exists k :: 0 <= k < |blocks| && HeaderTarget(blocks[k].name).None?
    ensures r.Err? ==> r.message == "Could not open file"
    ensures r.Ok? ==> fresh(r.value) && r.value.Valid() && r.value.CacheFresh()
    ensures r.Ok? ==> Some(ListsOf(r.value)) == SubmitAll(NewSongLists(), Run(START, lines).blocks)
  {
    var song := new Song();
    assert song.charts[..] == NewSongLists().charts;
    var blocks := GatherBlocks(lines);
    SubmitAllFails(NewSongLists(), blocks);
    var ok := SubmitBlocks(song, blocks);
    if !ok {
      return Err("Could not open file");
    }
    song.UpdateCache();
    r := Ok(song);
  }
}
