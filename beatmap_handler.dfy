/**
 * The chart loader of src/BeatMapHandler.cpp: `setNoteParameters` reads a
 * chart line by line and builds one beatmap (a name and the notes declared in
 * it); `beatMapMenu` picks one of the loaded beatmaps by its 1-based number.
 *
 * The loader is specified by `RunLines`, a fold of `LineStep` over the lines,
 * and `SetNoteParameters` is proved to compute it. The chart file arrives as
 * its sequence of lines; the keyword constants come from a header that is not
 * part of this model and are a `Keys` value; `ofToInt`/`ofToFloat` are the
 * `Numerics` of the context.
 */
module BeatMapHandler {
  import opened Wrappers
  import opened ChartText
  import opened Notes

  /** The comment prefix, the field delimiter and the note, name and bpm keywords. */
  datatype Keys = Keys(cmtPrefix: string, delimiter: string, noteKey: string, nameKey: string, bpmKey: string)
  {
    predicate Valid()
    {
      cmtPrefix != [] && delimiter != [] && noteKey != [] && nameKey != [] && bpmKey != []
    }
  }

  /**
   * What the loader depends on besides the chart text. `lastNum` is the
   * running position handed to every conversion: the loader calls `convert()`
   * without an argument on a record type whose declaration is not part of
   * this model, so the value it passes is not known.
   */
  datatype ParseContext = ParseContext(keys: Keys, num: Numerics, lastNum: real)

  /** `beatMap`: a name and the notes in the order they were declared. */
  datatype BeatMap = BeatMap(name: string, noteParams: seq<Note>)

  /** The tempo every chart starts with (`defbpm`). */
  const DefaultBpm: int := 30

  /** A line is tokenised when it holds a non-space character and does not start with the comment prefix; both tests read the raw line. */
  predicate IsContent(raw: string, cmtPrefix: string)
  {
    HasNonSpace(raw) && !StartsWith(raw, cmtPrefix)
  }

  datatype TokenKind = NoteDecl | NameDecl | BpmDecl | Plain

  /** The keyword tests on a delimiter-terminated token, in the order the loader makes them. */
  function Classify(tok: string, keys: Keys): TokenKind
  {
    if StartsWith(tok, keys.noteKey) then NoteDecl
    else if StartsWith(tok, keys.nameKey) then NameDecl
    else if StartsWith(tok, keys.bpmKey) then BpmDecl
    else Plain
  }

  /**
   * What `pb_Element` does to a note of the current line: append the token to
   * its arguments and, once it holds more than seven, stamp the current
   * default tempo on it and convert it.
   */
  function Feed(n: Note, tok: string, defbpm: int, ctx: ParseContext): Note
  {
    var a := n.(args := n.args + [tok]);
    if |a.args| > 7 then Converted(a.(bpm := defbpm), ctx.lastNum, ctx.num).note else a
  }

  /** `pb_Element(tok)` on the whole note list: only the notes of line `lineNum` are fed. */
  function Routed(notes: seq<Note>, lineNum: int, defbpm: int, tok: string, ctx: ParseContext): seq<Note>
  {
    seq(|notes|, j requires 0 <= j < |notes| =>
      if notes[j].lineNum == lineNum then Feed(notes[j], tok, defbpm, ctx) else notes[j])
  }

  /** The `pb_Element` lambda: it walks the notes and updates those of the current line in place. */
  method PushElement(notes: seq<Note>, lineNum: int, defbpm: int, str: string, ctx: ParseContext)
    returns (r: seq<Note>)
    ensures r == Routed(notes, lineNum, defbpm, str, ctx)
  {
    r := notes;
    if |r| > 0 {
      var j := 0;
      while j < |r|
        invariant 0 <= j <= |r| == |notes|
        invariant forall k :: 0 <= k < j ==> r[k] == Routed(notes, lineNum, defbpm, str, ctx)[k]
        invariant forall k :: j <= k < |r| ==> r[k] == notes[k]
      {
        if r[j].lineNum == lineNum {
          var a := r[j].(args := r[j].args + [str]);
          if |a.args| > 7 {
            a := a.(bpm := defbpm);
            a := Converted(a, ctx.lastNum, ctx.num).note;
          }
          r := r[j := a];
        }
        j := j + 1;
      }
    }
  }

  /** The state a line's tokens act on: the notes, and the one-shot name and bpm flags. */
  datatype LineState = LineState(notes: seq<Note>, nameSet: bool, bpmSet: bool)

  /** One delimiter-terminated token: classify it (a note keyword declares a new note first), then push it. */
  function TakeToken(ls: LineState, tok: string, lineNum: int, defbpm: int, ctx: ParseContext): LineState
  {
    var kind := Classify(tok, ctx.keys);
    var notes := if kind == NoteDecl then ls.notes + [NewNote(lineNum)] else ls.notes;
    LineState(Routed(notes, lineNum, defbpm, tok, ctx), ls.nameSet || kind == NameDecl, ls.bpmSet || kind == BpmDecl)
  }

  /** The delimiter-terminated tokens of a line, taken in order. */
  function Declared(ls: LineState, toks: seq<string>, lineNum: int, defbpm: int, ctx: ParseContext): LineState
    decreases |toks|
  {
    if toks == [] then ls
    else TakeToken(Declared(ls, toks[..|toks| - 1], lineNum, defbpm, ctx), toks[|toks| - 1], lineNum, defbpm, ctx)
  }

  /** Taking one more token of a line. */
  lemma DeclaredAppend(ls: LineState, toks: seq<string>, tok: string, lineNum: int, defbpm: int, ctx: ParseContext)
    ensures Declared(ls, toks + [tok], lineNum, defbpm, ctx)
         == TakeToken(Declared(ls, toks, lineNum, defbpm, ctx), tok, lineNum, defbpm, ctx)
  {
    assert (toks + [tok])[..|toks|] == toks;
  }

  /** The loader's variables between two lines. */
  datatype ParserState = ParserState(lineNum: int, defbpm: int, result: BeatMap)

  function Initial(): ParserState
  {
    ParserState(1, DefaultBpm, BeatMap("", []))
  }

  /**
   * One iteration of the line loop. A tokenised line: strip its spaces,
   * classify and push every delimiter-terminated token, push the remaining
   * text, then apply the name flag (the spaced remaining text becomes the
   * name) and the bpm flag (the remaining text, spaced if the name flag was
   * also set, read as an integer becomes the default tempo). Every line,
   * skipped or not, advances the line counter.
   */
  function LineStep(st: ParserState, raw: string, ctx: ParseContext): ParserState
    requires ctx.keys.Valid()
  {
    if !IsContent(raw, ctx.keys.cmtPrefix) then st.(lineNum := st.lineNum + 1)
    else
      var toks := Tokens(RemoveSpaces(raw), ctx.keys.delimiter);
      var last := toks[|toks| - 1];
      var ls := Declared(LineState(st.result.noteParams, false, false), toks[..|toks| - 1], st.lineNum, st.defbpm, ctx);
      var notes := Routed(ls.notes, st.lineNum, st.defbpm, last, ctx);
      var text := if ls.nameSet then Spaced(last) else last;
      ParserState(
        st.lineNum + 1,
        if ls.bpmSet then ctx.num.toInt(text) else st.defbpm,
        BeatMap(if ls.nameSet then text else st.result.name, notes))
  }

  /** The loader's state after the given lines. */
  function RunLines(lines: seq<string>, ctx: ParseContext): ParserState
    requires ctx.keys.Valid()
    decreases |lines|
  {
    if lines == [] then Initial()
    else LineStep(RunLines(lines[..|lines| - 1], ctx), lines[|lines| - 1], ctx)
  }

  /** The beatmap a chart yields. */
  function Parse(lines: seq<string>, ctx: ParseContext): BeatMap
    requires ctx.keys.Valid()
  {
    RunLines(lines, ctx).result
  }

  /** The space-removal loop: at the first space it erases every space of the line. */
  method StripSpaces(text: string) returns (t: string)
    ensures t == RemoveSpaces(text)
  {
    t := text;
    var i := 0;
    while i < |t|
      invariant t == text || t == RemoveSpaces(text)
      invariant t == text ==> i <= |t| && forall j :: 0 <= j < i ==> t[j] != ' '
      decreases |t| - i
    {
      if t[i] == ' ' {
        t := RemoveSpaces(t);
      }
      i := i + 1;
    }
    if t == text {
      RemoveSpacesOfSpaceless(text);
    }
  }

  /** One step of the name loop, in terms of the prefix of the name already transformed. */
  lemma NameLoopStep(text: string, k: nat, t: string, i: nat)
    requires k < |text| && i < |t|
    requires t[..i] == Spaced(text[..k]) && t[i..] == text[k..]
    ensures IsUpper(t[i]) && i != 0 ==>
      var t' := t[..i] + " " + t[i..];
      t'[..i + 2] == Spaced(text[..k + 1]) && t'[i + 2..] == text[k + 1..]
    ensures !(IsUpper(t[i]) && i != 0) ==>
      t[..i + 1] == Spaced(text[..k + 1]) && t[i + 1..] == text[k + 1..]
  {
    assert k == 0 ==> text[..k] == [];
    SpacedLength(text[..k]);
    SpacedPrefixStep(text, k);
    var c := t[i];
    assert c == text[k];
    assert t[i + 1..] == text[k + 1..];
    if IsUpper(c) && i != 0 {
      var t' := t[..i] + " " + t[i..];
      assert t'[..i + 2] == t[..i] + [' ', c];
      assert t'[i + 2..] == t[i + 1..];
    } else {
      assert t[..i + 1] == t[..i] + [c];
    }
  }

  /** The name loop: insert a space before each upper-case character past the first position, stepping over it. */
  method InsertNameSpaces(text: string) returns (t: string)
    ensures t == Spaced(text)
  {
    t := text;
    var i := 0;
    ghost var k := 0;
    while i < |t|
      invariant 0 <= k <= |text| && i <= |t|
      invariant t[..i] == Spaced(text[..k])
      invariant t[i..] == text[k..]
      decreases |text| - k
    {
      NameLoopStep(text, k, t, i);
      if IsUpper(t[i]) && i != 0 {
        t := t[..i] + " " + t[i..];
        i := i + 1;
      }
      i := i + 1;
      k := k + 1;
    }
    assert text[..k] == text;
  }

  /** The body of the tokenizer loop for the token `tok`: the keyword tests, then `pb_Element(tok)`. */
  method ProcessToken(notes: seq<Note>, nameSet: bool, bpmSet: bool, tok: string, lineNum: int, defbpm: int, ctx: ParseContext)
    returns (notes': seq<Note>, nameSet': bool, bpmSet': bool)
    ensures LineState(notes', nameSet', bpmSet') == TakeToken(LineState(notes, nameSet, bpmSet), tok, lineNum, defbpm, ctx)
  {
    notes', nameSet', bpmSet' := notes, nameSet, bpmSet;
    if StartsWith(tok, ctx.keys.noteKey) {
      notes' := notes' + [NewNote(lineNum)];
    } else if StartsWith(tok, ctx.keys.nameKey) {
      nameSet' := true;
    } else if StartsWith(tok, ctx.keys.bpmKey) {
      bpmSet' := true;
    }
    notes' := PushElement(notes', lineNum, defbpm, tok, ctx);
  }

  /**
   * The tokenizer loop of one stripped line: while the delimiter occurs, the
   * text before it is classified and pushed and the text up to the end of the
   * delimiter is erased. Returns the notes, the two flags and the text left.
   */
  method ScanLine(text: string, notes: seq<Note>, lineNum: int, defbpm: int, ctx: ParseContext)
    returns (notes': seq<Note>, nameSet: bool, bpmSet: bool, rest: string)
    requires ctx.keys.Valid()
    ensures var toks := Tokens(text, ctx.keys.delimiter);
      && rest == toks[|toks| - 1]
      && LineState(notes', nameSet, bpmSet) == Declared(LineState(notes, false, false), toks[..|toks| - 1], lineNum, defbpm, ctx)
  {
    notes', nameSet, bpmSet, rest := notes, false, false, text;
    ghost var ls0 := LineState(notes, false, false);
    ghost var taken: seq<string> := [];
    while Find(rest, ctx.keys.delimiter).Some?
      invariant Tokens(text, ctx.keys.delimiter) == taken + Tokens(rest, ctx.keys.delimiter)
      invariant LineState(notes', nameSet, bpmSet) == Declared(ls0, taken, lineNum, defbpm, ctx)
      decreases |rest|
    {
      var pos := Find(rest, ctx.keys.delimiter).value;
      TokensAfter(text, ctx.keys.delimiter, taken, rest, pos);
      DeclaredAppend(ls0, taken, rest[..pos], lineNum, defbpm, ctx);
      notes', nameSet, bpmSet := ProcessToken(notes', nameSet, bpmSet, rest[..pos], lineNum, defbpm, ctx);
      taken := taken + [rest[..pos]];
      rest := rest[pos + |ctx.keys.delimiter|..];
    }
    TokensAtEnd(text, ctx.keys.delimiter, taken, rest);
  }

  /** `setNoteParameters`: the chart's lines in, its beatmap out. */
  method SetNoteParameters(lines: seq<string>, ctx: ParseContext) returns (result: BeatMap)
    requires ctx.keys.Valid()
    ensures result == Parse(lines, ctx)
  {
    var lineNum := 1;
    var defbpm := DefaultBpm;
    result := BeatMap("", []);
    var k := 0;
    while k < |lines|
      invariant 0 <= k <= |lines|
      invariant RunLines(lines[..k], ctx) == ParserState(lineNum, defbpm, result)
    {
      var rawText := lines[k];
      if IsContent(rawText, ctx.keys.cmtPrefix) {
        rawText := StripSpaces(rawText);
        var notes, nameSet, bpmSet, rest := ScanLine(rawText, result.noteParams, lineNum, defbpm, ctx);
        notes := PushElement(notes, lineNum, defbpm, rest, ctx);
        result := result.(noteParams := notes);
        if nameSet {
          rest := InsertNameSpaces(rest);
          result := result.(name := rest);
        }
        if bpmSet {
          defbpm := ctx.num.toInt(rest);
        }
      }
      lineNum := lineNum + 1;
      assert lines[..k + 1][..k] == lines[..k];
      k := k + 1;
    }
    assert lines[..k] == lines;
  }

  /** `BeatMapHandler`: the beatmaps loaded at start-up. */
  class BeatMapHandler {
    var beatMaps: seq<BeatMap>

    /** Loads one beatmap per chart, in the order the charts are given. */
    constructor (charts: seq<seq<string>>, ctx: ParseContext)
      requires ctx.keys.Valid()
      ensures |beatMaps| == |charts|
      ensures forall i :: 0 <= i < |charts| ==> beatMaps[i] == Parse(charts[i], ctx)
    {
      var maps: seq<BeatMap> := [];
      for i := 0 to |charts|
        invariant |maps| == i
        invariant forall j :: 0 <= j < i ==> maps[j] == Parse(charts[j], ctx)
      {
        var bm := SetNoteParameters(charts[i], ctx);
        maps := maps + [bm];
      }
      beatMaps := maps;
    }

    /**
     * The selection step of `beatMapMenu` for the number the user entered:
     * None when the number is rejected (the menu asks again), otherwise the
     * beatmap it numbers, counting from 1.
     */
    method BeatMapMenu(i: int) returns (chosen: Option<BeatMap>)
      ensures chosen.Some? <==> 1 <= i <= |beatMaps|
      ensures chosen.Some? ==> chosen.value == beatMaps[i - 1]
    {
      if i > |beatMaps| || i < 1 {
        return None;
      }
      var j := 0;
      while j < |beatMaps|
        invariant 0 <= j <= |beatMaps|
        invariant j < i
      {
        if i == j + 1 {
          return Some(beatMaps[j]);
        }
        j := j + 1;
      }
      assert false;
      chosen := None;
    }
  }
}
