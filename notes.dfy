/**
 * The note record of include/NoteInfo.h: the two enumerations, the record's
 * fields, its constructors, `convert` (raw string arguments to typed fields)
 * and the copy assignment.
 *
 * `ofToInt` and `ofToFloat` belong to openFrameworks and are not part of this
 * model; they are the two fields of a `Numerics` value passed in. Floating
 * point is modelled by `real`, so there is no rounding and no `float`/`double`
 * narrowing.
 */
module Notes {
  import opened Wrappers

  /** `enum NoteType`: a button note or an axis (stick or trigger) note. */
  datatype NoteType = Button | Axis

  function NoteTypeOrdinal(t: NoteType): (k: nat)
    ensures k <= 1
  {
    match t
    case Button => 0
    case Axis => 1
  }

  /** The enumerator with ordinal `k`, if there is one. */
  function NoteTypeOf(k: int): Option<NoteType>
  {
    if k == 0 then Some(Button) else if k == 1 then Some(Axis) else None
  }

  /** `BUTTON` is 0 and `AXIS` is 1, and no other integer names a note type. */
  lemma NoteTypeOrdinals(k: int, t: NoteType)
    ensures NoteTypeOf(k) == Some(t) <==> NoteTypeOrdinal(t) == k
    ensures NoteTypeOf(k).Some? <==> 0 <= k <= 1
  {
  }

  /** `enum NoteButton`, in declaration order. */
  datatype NoteButton =
    | ButtonA | ButtonB | ButtonX | ButtonY
    | ButtonLBumper | ButtonRBumper | ButtonBack | ButtonStart
    | ButtonLJoy | ButtonRJoy
    | ButtonDPadUp | ButtonDPadRight | ButtonDPadDown | ButtonDPadLeft
    | ButtonEmpty

  const ButtonsInOrder: seq<NoteButton> := [
    ButtonA, ButtonB, ButtonX, ButtonY,
    ButtonLBumper, ButtonRBumper, ButtonBack, ButtonStart,
    ButtonLJoy, ButtonRJoy,
    ButtonDPadUp, ButtonDPadRight, ButtonDPadDown, ButtonDPadLeft,
    ButtonEmpty]

  function NoteButtonOrdinal(b: NoteButton): (k: nat)
    ensures k < |ButtonsInOrder| && ButtonsInOrder[k] == b
  {
    match b
    case ButtonA => 0
    case ButtonB => 1
    case ButtonX => 2
    case ButtonY => 3
    case ButtonLBumper => 4
    case ButtonRBumper => 5
    case ButtonBack => 6
    case ButtonStart => 7
    case ButtonLJoy => 8
    case ButtonRJoy => 9
    case ButtonDPadUp => 10
    case ButtonDPadRight => 11
    case ButtonDPadDown => 12
    case ButtonDPadLeft => 13
    case ButtonEmpty => 14
  }

  /** The enumerator with ordinal `k`, if there is one. */
  function NoteButtonOf(k: int): Option<NoteButton>
  {
    if 0 <= k < |ButtonsInOrder| then Some(ButtonsInOrder[k]) else None
  }

  /** `BUTTON_A` is 0 through `BUTTON_EMPTY`, which is 14, each ordinal naming one button. */
  lemma NoteButtonOrdinals(k: int, b: NoteButton)
    ensures NoteButtonOf(k) == Some(b) <==> NoteButtonOrdinal(b) == k
    ensures NoteButtonOf(k).Some? <==> 0 <= k <= 14
  {
    if NoteButtonOf(k) == Some(b) {
      assert ButtonsInOrder[k] == b;
      assert NoteButtonOrdinal(ButtonsInOrder[k]) == k;
    }
  }

  /** `ofToInt` and `ofToFloat`. */
  datatype Numerics = Numerics(toInt: string -> int, toFloat: string -> real)

  /**
   * The fields of a `NoteInfo`, as a value. `noteType` and `button` hold the
   * integer that `convert` casts to the enumeration (the cast keeps any
   * value; `NoteTypeOf` and `NoteButtonOf` name it when it is in range).
   */
  datatype Note = Note(
    frac: real,
    noteNum: real,
    lineNum: int,
    bpm: int,
    offset: int,
    xS: real,
    yS: real,
    angle: real,
    targetBeat: real,
    rest: bool,
    restSize: int,
    noteType: int,
    button: int,
    args: seq<string>)

  /**
   * `1.0f / d`. A zero divisor is not guarded in the source (it gives an
   * infinity); the model gives 0.0 there and states nothing about that case.
   */
  function Reciprocal(d: real): (r: real)
    ensures d != 0.0 ==> r * d == 1.0
  {
    if d == 0.0 then 0.0 else 1.0 / d
  }

  /**
   * The outcome of `convert`: either it ran to the end, or `args.at(index)`
   * threw `std::out_of_range`, leaving the fields assigned before that
   * statement changed and the rest as they were.
   */
  datatype Conversion = Complete(note: Note) | OutOfRange(index: nat, note: Note)

  /**
   * `NoteInfo::convert(lastNum)`. It assigns the fields in the order of the
   * arguments it reads, so when `args.at(k)` throws, exactly the fields read
   * from indices below `k` have been assigned.
   */
  function Converted(n: Note, lastNum: real, num: Numerics): Conversion
  {
    var a := n.args;
    var k := |a|;
    var frac := if k > 1 then Reciprocal(num.toFloat(a[1])) else n.frac;
    var r := Note(
      frac,
      if k > 1 then frac + lastNum else n.noteNum,
      n.lineNum,
      n.bpm,
      if k > 2 then num.toInt(a[2]) else n.offset,
      if k > 5 then num.toFloat(a[5]) else n.xS,
      if k > 6 then num.toFloat(a[6]) else n.yS,
      if k > 7 then num.toFloat(a[7]) else n.angle,
      n.targetBeat,
      n.rest,
      n.restSize,
      if k > 3 then num.toInt(a[3]) else n.noteType,
      if k > 4 then num.toInt(a[4]) else n.button,
      if k > 7 then [] else a);
    if k > 7 then Complete(r) else OutOfRange(if k <= 1 then 1 else k, r)
  }

  /**
   * `convert` completes exactly when there are at least eight arguments;
   * otherwise the first index it reads that is missing is reported.
   */
  lemma ConvertNeedsEightArgs(n: Note, lastNum: real, num: Numerics)
    ensures Converted(n, lastNum, num).Complete? <==> |n.args| >= 8
    ensures Converted(n, lastNum, num).OutOfRange? ==>
              Converted(n, lastNum, num).index == if |n.args| <= 1 then 1 else |n.args|
  {
  }

  /**
   * The field mapping of a complete conversion: argument 1 is the divisor of
   * `frac`, the running position is `frac + lastNum`, arguments 2 to 7 give the
   * offset, the two ordinals and the three shadow floats, and the arguments
   * are released.
   */
  lemma ConvertFieldMapping(n: Note, lastNum: real, num: Numerics)
    requires |n.args| >= 8
    ensures var r := Converted(n, lastNum, num).note;
      && (num.toFloat(n.args[1]) != 0.0 ==> r.frac * num.toFloat(n.args[1]) == 1.0)
      && r.noteNum == r.frac + lastNum
      && r.offset == num.toInt(n.args[2])
      && r.noteType == num.toInt(n.args[3])
      && r.button == num.toInt(n.args[4])
      && r.xS == num.toFloat(n.args[5])
      && r.yS == num.toFloat(n.args[6])
      && r.angle == num.toFloat(n.args[7])
      && r.args == []
  {
  }

  /**
   * Whether it completes or not, `convert` leaves the line number, the bpm,
   * the rest fields and the target beat alone, and it keeps the arguments
   * unless it completes.
   */
  lemma ConvertKeeps(n: Note, lastNum: real, num: Numerics)
    ensures var r := Converted(n, lastNum, num).note;
      && r.lineNum == n.lineNum && r.bpm == n.bpm
      && r.rest == n.rest && r.restSize == n.restSize
      && r.targetBeat == n.targetBeat
      && (Converted(n, lastNum, num).OutOfRange? ==> r.args == n.args)
  {
  }

  /** The record as `NoteInfo(lineNumber)` leaves it, with 0 for the fields the C++ leaves uninitialised. */
  function NewNote(lineNum: int): (n: Note)
    ensures n.lineNum == lineNum && n.args == []
    ensures n.frac == 1.0 && !n.rest && n.restSize == 1
  {
    Note(1.0, 0.0, lineNum, 0, 0, 0.0, 0.0, 0.0, 0.0, false, 1, 0, 0, [])
  }

  /** `struct NoteInfo`. The C++ field `type` is called `noteType` here. */
  class NoteInfo {
    var frac: real
    var noteNum: real
    var lineNum: int
    var bpm: int
    var offset: int
    var xS: real
    var yS: real
    var angle: real
    var targetBeat: real
    var rest: bool
    var restSize: int
    var noteType: int
    var button: int
    var args: seq<string>

    /** The fields as one value. */
    function View(): Note
      reads this
    {
      Note(frac, noteNum, lineNum, bpm, offset, xS, yS, angle, targetBeat,
           rest, restSize, noteType, button, args)
    }

    /** `NoteInfo()`: only the fields with initialisers are set. */
    constructor Empty()
      ensures frac == 1.0 && !rest && restSize == 1 && args == []
    {
      frac := 1.0;
      rest := false;
      restSize := 1;
      args := [];
    }

    /** `NoteInfo(lineNumber)`. */
    constructor (lineNumber: int)
      ensures lineNum == lineNumber
      ensures frac == 1.0 && !rest && restSize == 1 && args == []
    {
      frac := 1.0;
      rest := false;
      restSize := 1;
      args := [];
      lineNum := lineNumber;
    }

    /**
     * `convert(lastNum)`. `ok` is false when an `args.at` threw; the fields
     * assigned before that stay assigned.
     */
    method Convert(lastNum: real, num: Numerics) returns (ok: bool)
      modifies this
      ensures ok <==> |old(args)| >= 8
      // each field is the one the conversion specification gives
      ensures frac == Converted(old(View()), lastNum, num).note.frac
      ensures noteNum == Converted(old(View()), lastNum, num).note.noteNum
      ensures lineNum == Converted(old(View()), lastNum, num).note.lineNum
      ensures bpm == Converted(old(View()), lastNum, num).note.bpm
      ensures offset == Converted(old(View()), lastNum, num).note.offset
      ensures xS == Converted(old(View()), lastNum, num).note.xS
      ensures yS == Converted(old(View()), lastNum, num).note.yS
      ensures angle == Converted(old(View()), lastNum, num).note.angle
      ensures targetBeat == Converted(old(View()), lastNum, num).note.targetBeat
      ensures rest == Converted(old(View()), lastNum, num).note.rest
      ensures restSize == Converted(old(View()), lastNum, num).note.restSize
      ensures noteType == Converted(old(View()), lastNum, num).note.noteType
      ensures button == Converted(old(View()), lastNum, num).note.button
      ensures args == Converted(old(View()), lastNum, num).note.args
    {
      var a := args;
      if |a| <= 1 { return false; }
      frac := Reciprocal(num.toFloat(a[1]));
      noteNum := frac + lastNum;
      if |a| <= 2 { return false; }
      offset := num.toInt(a[2]);
      if |a| <= 3 { return false; }
      noteType := num.toInt(a[3]);
      if |a| <= 4 { return false; }
      button := num.toInt(a[4]);
      if |a| <= 5 { return false; }
      xS := num.toFloat(a[5]);
      if |a| <= 6 { return false; }
      yS := num.toFloat(a[6]);
      if |a| <= 7 { return false; }
      angle := num.toFloat(a[7]);
      args := [];
      return true;
    }

    /** `operator=`: copies twelve fields; `targetBeat` and `args` keep their values. */
    method Assign(a: NoteInfo)
      modifies this
      ensures View() == old(a.View()).(targetBeat := old(targetBeat), args := old(args))
    {
      // the fields are read from a snapshot of `a`; on self-assignment each field is copied onto itself
      var v := a.View();
      lineNum, offset, noteType, button := v.lineNum, v.offset, v.noteType, v.button;
      xS, yS, angle := v.xS, v.yS, v.angle;
      rest, restSize := v.rest, v.restSize;
      bpm, noteNum, frac := v.bpm, v.noteNum, v.frac;
    }
  }
}
