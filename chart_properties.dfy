/**
 * What the chart loader of src/BeatMapHandler.cpp guarantees about the
 * beatmap it builds, stated over the specification `RunLines` and proved
 * once for every chart: tokens reach only the notes of their own line, a
 * finished line is never touched again, every note is declared by a note
 * keyword on a tokenised line, notes carry the tempo of their line, and the
 * name and the tempo come from the directives that set them.
 */
module ChartProperties {
  import opened ChartText
  import opened Notes
  import opened BeatMapHandler

  /** The tokens `setNoteParameters` takes from a tokenised line. */
  function LineTokens(raw: string, keys: Keys): (toks: seq<string>)
    requires keys.Valid()
    ensures |toks| >= 1
  {
    Tokens(RemoveSpaces(raw), keys.delimiter)
  }

  /** The delimiter-terminated tokens: the only ones the keyword tests see. */
  function Heads(raw: string, keys: Keys): seq<string>
    requires keys.Valid()
  {
    var toks := LineTokens(raw, keys);
    toks[..|toks| - 1]
  }

  /** The text left after the last delimiter. */
  function LastToken(raw: string, keys: Keys): string
    requires keys.Valid()
  {
    var toks := LineTokens(raw, keys);
    toks[|toks| - 1]
  }

  /** The number of tokens that begin with the note keyword. */
  function NoteDecls(toks: seq<string>, keys: Keys): nat
    decreases |toks|
  {
    if toks == [] then 0
    else NoteDecls(toks[..|toks| - 1], keys) + (if Classify(toks[|toks| - 1], keys) == NoteDecl then 1 else 0)
  }

  /** The notes a line declares. */
  function LineNotes(raw: string, keys: Keys): nat
    requires keys.Valid()
  {
    if IsContent(raw, keys.cmtPrefix) then NoteDecls(Heads(raw, keys), keys) else 0
  }

  /** The notes a chart declares. */
  function ChartNotes(lines: seq<string>, keys: Keys): nat
    requires keys.Valid()
    decreases |lines|
  {
    if lines == [] then 0
    else ChartNotes(lines[..|lines| - 1], keys) + LineNotes(lines[|lines| - 1], keys)
  }

  /** A tokenised line with a delimiter-terminated token that begins with the name keyword. */
  predicate NameDirective(raw: string, keys: Keys)
    requires keys.Valid()
  {
    IsContent(raw, keys.cmtPrefix) && exists t :: t in Heads(raw, keys) && Classify(t, keys) == NameDecl
  }

  /** A tokenised line with a delimiter-terminated token that begins with the bpm keyword. */
  predicate BpmDirective(raw: string, keys: Keys)
    requires keys.Valid()
  {
    IsContent(raw, keys.cmtPrefix) && exists t :: t in Heads(raw, keys) && Classify(t, keys) == BpmDecl
  }

  /**
   * The tempo a note of a line may carry, where `tempo` is the default tempo
   * in force when the line is read: 0 until the note is converted, the tempo
   * once it is, and a note whose arguments were released was converted.
   */
  predicate TempoConsistent(n: Note, tempo: int)
  {
    (n.bpm == 0 || n.bpm == tempo) && (n.args == [] ==> n.bpm == tempo)
  }

  /** The default tempo in force when line `lineNum` (counting from 1) is read. */
  function TempoAt(lines: seq<string>, lineNum: int, ctx: ParseContext): int
    requires ctx.keys.Valid()
    requires 1 <= lineNum <= |lines| + 1
  {
    RunLines(lines[..lineNum - 1], ctx).defbpm
  }

  /**
   * `pb_Element` on one note: the line number never changes; the eighth
   * argument stamps the tempo and converts the note, releasing its
   * arguments; a shorter argument list just grows by the token.
   */
  lemma FeedShape(n: Note, tok: string, defbpm: int, ctx: ParseContext)
    ensures var r := Feed(n, tok, defbpm, ctx);
      && r.lineNum == n.lineNum
      && (|n.args| >= 7 ==> r.args == [] && r.bpm == defbpm)
      && (|n.args| >= 7 ==> r == Converted(n.(args := n.args + [tok], bpm := defbpm), ctx.lastNum, ctx.num).note)
      && (|n.args| < 7 ==> r == n.(args := n.args + [tok]))
  {
    var a := n.(args := n.args + [tok], bpm := defbpm);
    if |n.args| >= 7 {
      ConvertFieldMapping(a, ctx.lastNum, ctx.num);
      ConvertKeeps(a, ctx.lastNum, ctx.num);
    }
  }

  /** Feeding keeps a note consistent with the tempo of its line. */
  lemma FeedKeepsTempo(n: Note, tok: string, defbpm: int, ctx: ParseContext)
    requires n.bpm == 0 || n.bpm == defbpm
    ensures TempoConsistent(Feed(n, tok, defbpm, ctx), defbpm)
  {
    FeedShape(n, tok, defbpm, ctx);
  }

  /** `pb_Element` on the note list: same length, line numbers kept, notes of other lines untouched. */
  lemma RoutedShape(notes: seq<Note>, lineNum: int, defbpm: int, tok: string, ctx: ParseContext)
    ensures var r := Routed(notes, lineNum, defbpm, tok, ctx);
      && |r| == |notes|
      && (forall j :: 0 <= j < |r| ==> r[j].lineNum == notes[j].lineNum)
      && (forall j :: 0 <= j < |r| && notes[j].lineNum != lineNum ==> r[j] == notes[j])
      && (forall j :: 0 <= j < |r| && notes[j].lineNum == lineNum ==> r[j] == Feed(notes[j], tok, defbpm, ctx))
  {
    var r := Routed(notes, lineNum, defbpm, tok, ctx);
    forall j | 0 <= j < |r|
      ensures r[j].lineNum == notes[j].lineNum
    {
      FeedShape(notes[j], tok, defbpm, ctx);
    }
  }

  /** Routing keeps every note of the line consistent with the line's tempo. */
  lemma RoutedKeepsTempo(notes: seq<Note>, lineNum: int, defbpm: int, tok: string, ctx: ParseContext)
    requires forall j :: 0 <= j < |notes| && notes[j].lineNum == lineNum ==> notes[j].bpm == 0 || notes[j].bpm == defbpm
    ensures var r := Routed(notes, lineNum, defbpm, tok, ctx);
      forall j :: 0 <= j < |r| && r[j].lineNum == lineNum ==> TempoConsistent(r[j], defbpm)
  {
    RoutedShape(notes, lineNum, defbpm, tok, ctx);
    var r := Routed(notes, lineNum, defbpm, tok, ctx);
    forall j | 0 <= j < |r| && r[j].lineNum == lineNum
      ensures TempoConsistent(r[j], defbpm)
    {
      FeedKeepsTempo(notes[j], tok, defbpm, ctx);
    }
  }

  /**
   * The delimiter-terminated tokens of a line: one new note per note
   * keyword, appended with the line's number; notes of other lines
   * untouched; the line's notes consistent with its tempo.
   */
  lemma {:induction false} DeclaredShape(ls: LineState, toks: seq<string>, lineNum: int, defbpm: int, ctx: ParseContext)
    requires forall j :: 0 <= j < |ls.notes| && ls.notes[j].lineNum == lineNum ==> TempoConsistent(ls.notes[j], defbpm)
    ensures var r := Declared(ls, toks, lineNum, defbpm, ctx);
      && |r.notes| == |ls.notes| + NoteDecls(toks, ctx.keys)
      && (forall j :: 0 <= j < |ls.notes| ==> r.notes[j].lineNum == ls.notes[j].lineNum)
      && (forall j :: 0 <= j < |ls.notes| && ls.notes[j].lineNum != lineNum ==> r.notes[j] == ls.notes[j])
      && (forall j :: |ls.notes| <= j < |r.notes| ==> r.notes[j].lineNum == lineNum)
      && (forall j :: 0 <= j < |r.notes| && r.notes[j].lineNum == lineNum ==> TempoConsistent(r.notes[j], defbpm))
    decreases |toks|
  {
    if toks != [] {
      var front, tok := toks[..|toks| - 1], toks[|toks| - 1];
      assert toks == front + [tok];
      DeclaredShape(ls, front, lineNum, defbpm, ctx);
      var r0 := Declared(ls, front, lineNum, defbpm, ctx);
      var kind := Classify(tok, ctx.keys);
      var notes := if kind == NoteDecl then r0.notes + [NewNote(lineNum)] else r0.notes;
      RoutedShape(notes, lineNum, defbpm, tok, ctx);
      RoutedKeepsTempo(notes, lineNum, defbpm, tok, ctx);
    }
  }

  /** Each flag is set exactly when some delimiter-terminated token begins with its keyword. */
  lemma {:induction false} DeclaredFlags(ls: LineState, toks: seq<string>, lineNum: int, defbpm: int, ctx: ParseContext)
    ensures var r := Declared(ls, toks, lineNum, defbpm, ctx);
      && (r.nameSet <==> ls.nameSet || exists t :: t in toks && Classify(t, ctx.keys) == NameDecl)
      && (r.bpmSet <==> ls.bpmSet || exists t :: t in toks && Classify(t, ctx.keys) == BpmDecl)
    decreases |toks|
  {
    if toks != [] {
      var front, tok := toks[..|toks| - 1], toks[|toks| - 1];
      assert toks == front + [tok];
      DeclaredFlags(ls, front, lineNum, defbpm, ctx);
    }
  }

  /**
   * Notes of earlier lines, in order of their lines: the state between two
   * lines that every step keeps.
   */
  predicate Settled(st: ParserState)
  {
    var notes := st.result.noteParams;
    && st.lineNum >= 1
    && (forall j :: 0 <= j < |notes| ==> 1 <= notes[j].lineNum < st.lineNum)
    && (forall i, j :: 0 <= i < j < |notes| ==> notes[i].lineNum <= notes[j].lineNum)
  }

  /**
   * The notes after a tokenised line: the notes of earlier lines stay
   * exactly as they were, and the line appends one note per note keyword,
   * each numbered with the line and consistent with the tempo in force.
   */
  lemma ContentLineNotes(st: ParserState, raw: string, ctx: ParseContext)
    requires ctx.keys.Valid() && Settled(st) && IsContent(raw, ctx.keys.cmtPrefix)
    ensures var notes, notes' := st.result.noteParams, LineStep(st, raw, ctx).result.noteParams;
      && |notes'| == |notes| + NoteDecls(Heads(raw, ctx.keys), ctx.keys)
      && notes <= notes'
      && (forall j :: |notes| <= j < |notes'| ==> notes'[j].lineNum == st.lineNum && TempoConsistent(notes'[j], st.defbpm))
  {
    var notes := st.result.noteParams;
    var ls0 := LineState(notes, false, false);
    var last := LastToken(raw, ctx.keys);
    DeclaredShape(ls0, Heads(raw, ctx.keys), st.lineNum, st.defbpm, ctx);
    var ls := Declared(ls0, Heads(raw, ctx.keys), st.lineNum, st.defbpm, ctx);
    RoutedShape(ls.notes, st.lineNum, st.defbpm, last, ctx);
    RoutedKeepsTempo(ls.notes, st.lineNum, st.defbpm, last, ctx);
    var notes' := Routed(ls.notes, st.lineNum, st.defbpm, last, ctx);
    assert LineStep(st, raw, ctx).result.noteParams == notes';
    assert notes == notes'[..|notes|];
  }

  /**
   * One line: the counter advances; the notes of earlier lines stay exactly
   * as they were; the line appends one note per note keyword, each numbered
   * with the line and consistent with the tempo in force; a skipped line
   * changes nothing else.
   */
  lemma LineStepExtends(st: ParserState, raw: string, ctx: ParseContext)
    requires ctx.keys.Valid() && Settled(st)
    ensures var st' := LineStep(st, raw, ctx);
      var notes, notes' := st.result.noteParams, st'.result.noteParams;
      && st'.lineNum == st.lineNum + 1
      && Settled(st')
      && |notes'| == |notes| + LineNotes(raw, ctx.keys)
      && notes <= notes'
      && (forall j :: |notes| <= j < |notes'| ==> notes'[j].lineNum == st.lineNum && TempoConsistent(notes'[j], st.defbpm))
      && (!IsContent(raw, ctx.keys.cmtPrefix) ==> st' == st.(lineNum := st.lineNum + 1))
  {
    if IsContent(raw, ctx.keys.cmtPrefix) {
      ContentLineNotes(st, raw, ctx);
      var notes, notes' := st.result.noteParams, LineStep(st, raw, ctx).result.noteParams;
      assert forall j :: 0 <= j < |notes| ==> notes'[j] == notes[j];
    }
  }

  /** After the chart, the counter is one past the last line, the notes are settled and there is one per note keyword. */
  lemma {:induction false} RunLinesShape(lines: seq<string>, ctx: ParseContext)
    requires ctx.keys.Valid()
    ensures var st := RunLines(lines, ctx);
      && st.lineNum == |lines| + 1
      && Settled(st)
      && |st.result.noteParams| == ChartNotes(lines, ctx.keys)
    decreases |lines|
  {
    if lines != [] {
      RunLinesShape(lines[..|lines| - 1], ctx);
      LineStepExtends(RunLines(lines[..|lines| - 1], ctx), lines[|lines| - 1], ctx);
    }
  }

  /** Each line advances the counter, skipped lines included: line `k` (from 0) is read with counter `k + 1`. */
  lemma LineCounter(lines: seq<string>, ctx: ParseContext)
    requires ctx.keys.Valid()
    ensures RunLines(lines, ctx).lineNum == |lines| + 1
  {
    RunLinesShape(lines, ctx);
  }

  /** The notes of the lines read so far are never changed by the lines after them. */
  lemma {:induction false} FinishedLinesAreFinal(lines: seq<string>, k: nat, ctx: ParseContext)
    requires ctx.keys.Valid() && k <= |lines|
    ensures Parse(lines[..k], ctx).noteParams <= Parse(lines, ctx).noteParams
    decreases |lines| - k
  {
    if k < |lines| {
      FinishedLinesAreFinal(lines, k + 1, ctx);
      assert lines[..k + 1][..k] == lines[..k];
      RunLinesShape(lines[..k], ctx);
      LineStepExtends(RunLines(lines[..k], ctx), lines[k], ctx);
    } else {
      assert lines[..k] == lines;
    }
  }

  /**
   * A note that belongs to tokenised line `lineNum` of the chart and is
   * consistent with the tempo in force when that line was read.
   */
  predicate NoteFits(lines: seq<string>, n: Note, ctx: ParseContext)
    requires ctx.keys.Valid()
  {
    && 1 <= n.lineNum <= |lines|
    && IsContent(lines[n.lineNum - 1], ctx.keys.cmtPrefix)
    && TempoConsistent(n, TempoAt(lines, n.lineNum, ctx))
  }

  /** Reading further lines does not change what a note of an earlier line fits. */
  lemma NoteFitsLater(lines: seq<string>, n: Note, ctx: ParseContext)
    requires ctx.keys.Valid() && lines != []
    requires NoteFits(lines[..|lines| - 1], n, ctx)
    ensures NoteFits(lines, n, ctx)
  {
    var front := lines[..|lines| - 1];
    var l := n.lineNum;
    assert lines[..l - 1] == front[..l - 1];
    assert lines[l - 1] == front[l - 1];
  }

  /**
   * Every note of the beatmap belongs to a tokenised line of the chart,
   * carries that line's number, and is consistent with the tempo in force
   * when its line was read.
   */
  lemma {:induction false} NotesComeFromTheirLines(lines: seq<string>, ctx: ParseContext)
    requires ctx.keys.Valid()
    ensures var notes := Parse(lines, ctx).noteParams;
      forall j :: 0 <= j < |notes| ==> NoteFits(lines, notes[j], ctx)
    decreases |lines|
  {
    if lines != [] {
      var front := lines[..|lines| - 1];
      var raw := lines[|lines| - 1];
      NotesComeFromTheirLines(front, ctx);
      RunLinesShape(front, ctx);
      var st := RunLines(front, ctx);
      LineStepExtends(st, raw, ctx);
      var notes0, notes := st.result.noteParams, Parse(lines, ctx).noteParams;
      forall j | 0 <= j < |notes|
        ensures NoteFits(lines, notes[j], ctx)
      {
        if j < |notes0| {
          assert notes[j] == notes0[j];
          NoteFitsLater(lines, notes[j], ctx);
        } else {
          assert lines[..|lines| - 1] == front;
        }
      }
    }
  }

  /** On a tokenised line the two flags the keyword tests raise are the line's two directives. */
  lemma LineFlags(st: ParserState, raw: string, ctx: ParseContext)
    requires ctx.keys.Valid() && IsContent(raw, ctx.keys.cmtPrefix)
    ensures var ls := Declared(LineState(st.result.noteParams, false, false), Heads(raw, ctx.keys), st.lineNum, st.defbpm, ctx);
      && (ls.nameSet <==> NameDirective(raw, ctx.keys))
      && (ls.bpmSet <==> BpmDirective(raw, ctx.keys))
  {
    DeclaredFlags(LineState(st.result.noteParams, false, false), Heads(raw, ctx.keys), st.lineNum, st.defbpm, ctx);
  }

  /** A line changes the name exactly when it holds a name directive, and the name is then its last token, spaced. */
  lemma LineStepName(st: ParserState, raw: string, ctx: ParseContext)
    requires ctx.keys.Valid()
    ensures NameDirective(raw, ctx.keys) ==> LineStep(st, raw, ctx).result.name == Spaced(LastToken(raw, ctx.keys))
    ensures !NameDirective(raw, ctx.keys) ==> LineStep(st, raw, ctx).result.name == st.result.name
  {
    if IsContent(raw, ctx.keys.cmtPrefix) {
      LineFlags(st, raw, ctx);
      var ls := Declared(LineState(st.result.noteParams, false, false), Heads(raw, ctx.keys), st.lineNum, st.defbpm, ctx);
      assert LineStep(st, raw, ctx).result.name == if ls.nameSet then Spaced(LastToken(raw, ctx.keys)) else st.result.name;
    }
  }

  /** The text a bpm directive reads: the last token, spaced first when the line also holds a name directive. */
  function BpmText(raw: string, keys: Keys): string
    requires keys.Valid()
  {
    if NameDirective(raw, keys) then Spaced(LastToken(raw, keys)) else LastToken(raw, keys)
  }

  /** A line changes the default tempo exactly when it holds a bpm directive, to its bpm text read as an integer. */
  lemma LineStepTempo(st: ParserState, raw: string, ctx: ParseContext)
    requires ctx.keys.Valid()
    ensures BpmDirective(raw, ctx.keys) ==> LineStep(st, raw, ctx).defbpm == ctx.num.toInt(BpmText(raw, ctx.keys))
    ensures !BpmDirective(raw, ctx.keys) ==> LineStep(st, raw, ctx).defbpm == st.defbpm
  {
    if IsContent(raw, ctx.keys.cmtPrefix) {
      LineFlags(st, raw, ctx);
      var ls := Declared(LineState(st.result.noteParams, false, false), Heads(raw, ctx.keys), st.lineNum, st.defbpm, ctx);
      var last := LastToken(raw, ctx.keys);
      assert LineStep(st, raw, ctx).defbpm == if ls.bpmSet then ctx.num.toInt(if ls.nameSet then Spaced(last) else last) else st.defbpm;
    }
  }

  /** Without a name directive the beatmap's name stays empty. */
  lemma {:induction false} NameNeedsDirective(lines: seq<string>, ctx: ParseContext)
    requires ctx.keys.Valid()
    requires forall k :: 0 <= k < |lines| ==> !NameDirective(lines[k], ctx.keys)
    ensures Parse(lines, ctx).name == ""
    decreases |lines|
  {
    if lines != [] {
      var front := lines[..|lines| - 1];
      assert forall k :: 0 <= k < |front| ==> front[k] == lines[k];
      NameNeedsDirective(front, ctx);
      LineStepName(RunLines(front, ctx), lines[|lines| - 1], ctx);
    }
  }

  /** The name is set by the last name directive of the chart: its last token, spaced. */
  lemma {:induction false} LastNameDirectiveWins(lines: seq<string>, k: nat, ctx: ParseContext)
    requires ctx.keys.Valid()
    requires k < |lines| && NameDirective(lines[k], ctx.keys)
    requires forall m :: k < m < |lines| ==> !NameDirective(lines[m], ctx.keys)
    ensures Parse(lines, ctx).name == Spaced(LastToken(lines[k], ctx.keys))
    decreases |lines|
  {
    var front := lines[..|lines| - 1];
    LineStepName(RunLines(front, ctx), lines[|lines| - 1], ctx);
    if k < |lines| - 1 {
      assert forall m :: k < m < |front| ==> front[m] == lines[m];
      LastNameDirectiveWins(front, k, ctx);
    }
  }
}
