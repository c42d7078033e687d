/**
 * The line-oriented G-code dialect of RepRap/Marlin-family firmware as far as the Prusa backend
 * uses it: the command text move_to builds, and a small model of how firmware executes a line
 * (G90, G91, G1, G28, M112). The firmware model is the partner against which the command text is
 * proved to honour the MotionBackend contract.
 */
module Gcode {
  import opened Results
  import opened Text
  import opened MotionBackend

  /** A rendered number: non-empty and free of whitespace, as Python's float formatting is. */
  predicate IsToken(s: string) {
    s != [] && forall i | 0 <= i < |s| :: !IsSpace(s[i])
  }

  /**
   * How the host renders a number inside a G-code word (Python's f"{x}"). The model does not fix
   * the digits; it only relies on the rendering being one whitespace-free token.
   */
  type NumberText = f: real -> string | forall v :: IsToken(f(v)) witness (v: real) => "0"

  /** One address word of a motion line: a letter and its number. */
  datatype Word = Word(letter: char, value: real)

  function OptWord(letter: char, arg: Option<real>): seq<Word> {
    match arg
    case None => []
    case Some(v) => [Word(letter, v)]
  }

  /** The words of move_to, only for the arguments that are not None, in the fixed order X, Y, Z, F. */
  function MoveWords(x: Option<real>, y: Option<real>, z: Option<real>, feedrate: Option<real>): seq<Word> {
    OptWord('X', x) + OptWord('Y', y) + OptWord('Z', z) + OptWord('F', feedrate)
  }

  function WordText(w: Word, render: NumberText): string {
    [w.letter] + render(w.value)
  }

  function WordTexts(ws: seq<Word>, render: NumberText): (r: seq<string>)
    ensures |r| == |ws|
    ensures forall i | 0 <= i < |ws| :: r[i] == WordText(ws[i], render)
  {
    if ws == [] then [] else [WordText(ws[0], render)] + WordTexts(ws[1..], render)
  }

  /** The command line move_to sends: "G1" and the words, separated by single spaces. */
  function MoveCommand(x: Option<real>, y: Option<real>, z: Option<real>, feedrate: Option<real>,
                       render: NumberText): string
  {
    JoinSpace(["G1"] + WordTexts(MoveWords(x, y, z, feedrate), render))
  }

  const HomeCommand: string := "G28"
  const AbsoluteModeCommand: string := "G90"
  const EmergencyStopCommand: string := "M112"

  // ---------------------------------------------------------------------------------------
  // Firmware execution model

  /** The machine behind the serial line: axis state, G90/G91 positioning mode, M112 halt. */
  datatype Machine = Machine(pos: Axes, absolute: bool, halted: bool)

  function SetAxis(m: Machine, letter: char, v: real): Machine {
    var p := m.pos;
    var q :=
      if letter == 'X' then p.(x := if m.absolute then v else p.x + v)
      else if letter == 'Y' then p.(y := if m.absolute then v else p.y + v)
      else if letter == 'Z' then p.(z := if m.absolute then v else p.z + v)
      else if letter == 'F' then p.(feedrate := v)
      else p;
    m.(pos := q)
  }

  /** Executes the address words of a G1 line in order; an unknown or empty word is ignored. */
  function ApplyWords(m: Machine, words: seq<string>, parse: string -> real): Machine
    decreases |words|
  {
    if words == [] then m
    else
      var w := words[0];
      var m' := if |w| >= 1 then SetAxis(m, w[0], parse(w[1..])) else m;
      ApplyWords(m', words[1..], parse)
  }

  /** What firmware does with one received line. A halted machine ignores everything. */
  function ExecuteLine(m: Machine, line: string, parse: string -> real): Machine {
    var tokens := SplitSpace(line);
    if m.halted then m
    else if tokens[0] == "G90" then m.(absolute := true)
    else if tokens[0] == "G91" then m.(absolute := false)
    else if tokens[0] == "G1" then ApplyWords(m, tokens[1..], parse)
    else if tokens[0] == "G28" && |tokens| == 1 then m.(pos := m.pos.(x := 0.0, y := 0.0, z := 0.0))
    else if tokens[0] == "M112" then m.(halted := true)
    else m
  }

  // ---------------------------------------------------------------------------------------
  // Properties of the command text

  lemma {:induction false} WordTextsAppend(a: seq<Word>, b: seq<Word>, render: NumberText)
    ensures WordTexts(a + b, render) == WordTexts(a, render) + WordTexts(b, render)
  {
    if a != [] {
      assert (a + b)[1..] == a[1..] + b;
      WordTextsAppend(a[1..], b, render);
    }
  }

  lemma {:induction false} ApplyWordsAppend(m: Machine, a: seq<string>, b: seq<string>, parse: string -> real)
    ensures ApplyWords(m, a + b, parse) == ApplyWords(ApplyWords(m, a, parse), b, parse)
    decreases |a|
  {
    if a != [] {
      assert (a + b)[0] == a[0];
      assert (a + b)[1..] == a[1..] + b;
      var m' := if |a[0]| >= 1 then SetAxis(m, a[0][0], parse(a[0][1..])) else m;
      ApplyWordsAppend(m', a[1..], b, parse);
    } else {
      assert a + b == b;
    }
  }

  lemma WordTextIsToken(w: Word, render: NumberText)
    requires w.letter in "XYZF"
    ensures IsToken(WordText(w, render))
    ensures ' ' !in WordText(w, render) && Trimmed(WordText(w, render))
  {
    var t := WordText(w, render);
    var r := render(w.value);
    assert IsToken(r);
    forall i | 0 <= i < |t| ensures !IsSpace(t[i]) {
      if i > 0 { assert t[i] == r[i - 1]; }
    }
  }

  lemma MoveWordLetters(x: Option<real>, y: Option<real>, z: Option<real>, feedrate: Option<real>)
    ensures forall i | 0 <= i < |MoveWords(x, y, z, feedrate)| :: MoveWords(x, y, z, feedrate)[i].letter in "XYZF"
  {
  }

  /** The move line is a single-space-separated list: "G1" and then one token per word. */
  lemma MoveCommandTokens(x: Option<real>, y: Option<real>, z: Option<real>, feedrate: Option<real>,
                          render: NumberText)
    ensures SplitSpace(MoveCommand(x, y, z, feedrate, render))
            == ["G1"] + WordTexts(MoveWords(x, y, z, feedrate), render)
    ensures Trimmed(MoveCommand(x, y, z, feedrate, render))
    ensures x.None? && y.None? && z.None? && feedrate.None? ==> MoveCommand(x, y, z, feedrate, render) == "G1"
  {
    var ws := MoveWords(x, y, z, feedrate);
    MoveWordLetters(x, y, z, feedrate);
    var parts := ["G1"] + WordTexts(ws, render);
    forall i | 0 <= i < |parts| ensures ' ' !in parts[i] && parts[i] != [] && Trimmed(parts[i])
    {
      if i > 0 {
        WordTextIsToken(ws[i - 1], render);
      }
    }
    SplitJoin(parts);
    JoinTrimmed(parts);
  }

  lemma {:induction false} JoinTrimmed(parts: seq<string>)
    requires |parts| >= 1
    requires forall i | 0 <= i < |parts| :: Trimmed(parts[i]) && parts[i] != []
    ensures Trimmed(JoinSpace(parts))
    ensures JoinSpace(parts) != []
  {
    if |parts| > 1 {
      var rest := JoinSpace(parts[1..]);
      JoinTrimmed(parts[1..]);
      assert Trimmed(parts[0]) && parts[0] != [];
      var j := parts[0] + " " + rest;
      assert j[0] == parts[0][0];
      assert j[|j| - 1] == rest[|rest| - 1];
    }
  }

  lemma SplitSingle(p: string)
    requires ' ' !in p
    ensures SplitSpace(p) == [p]
  {
    SplitNoSpace(p, []);
    assert p + [] == p;
  }

  // ---------------------------------------------------------------------------------------
  // The G-code backend honours the MotionBackend contract

  /** An argument of move_to applied to the machine: the axis is set when given and untouched when None. */
  function SetOptional(m: Machine, letter: char, arg: Option<real>): Machine {
    if arg.Some? then SetAxis(m, letter, arg.value) else m
  }

  /** Executing the text of one optional word is SetOptional. */
  lemma OptWordApplies(m: Machine, letter: char, arg: Option<real>, render: NumberText, parse: string -> real)
    requires forall v :: parse(render(v)) == v
    ensures ApplyWords(m, WordTexts(OptWord(letter, arg), render), parse) == SetOptional(m, letter, arg)
  {
    if arg.Some? {
      var t := WordTexts(OptWord(letter, arg), render);
      assert t == [[letter] + render(arg.value)];
      assert t[0][0] == letter && t[0][1..] == render(arg.value);
    }
  }

  /** A G1 line from move_to is its words applied in order. */
  lemma ExecuteMoveLine(m: Machine, x: Option<real>, y: Option<real>, z: Option<real>,
                        feedrate: Option<real>, render: NumberText, parse: string -> real)
    requires !m.halted
    ensures ExecuteLine(m, MoveCommand(x, y, z, feedrate, render), parse)
            == ApplyWords(m, WordTexts(MoveWords(x, y, z, feedrate), render), parse)
  {
    MoveCommandTokens(x, y, z, feedrate, render);
    var tokens := SplitSpace(MoveCommand(x, y, z, feedrate, render));
    assert tokens[0] == "G1";
    assert tokens[1..] == WordTexts(MoveWords(x, y, z, feedrate), render);
  }

  /** The words of move_to, applied in order, set X, Y, Z and F in turn, each only when given. */
  lemma ApplyMoveWords(m: Machine, x: Option<real>, y: Option<real>, z: Option<real>,
                       feedrate: Option<real>, render: NumberText, parse: string -> real)
    requires forall v :: parse(render(v)) == v
    ensures ApplyWords(m, WordTexts(MoveWords(x, y, z, feedrate), render), parse)
            == SetOptional(SetOptional(SetOptional(SetOptional(m, 'X', x), 'Y', y), 'Z', z), 'F', feedrate)
  {
    var tx, ty, tz, tf := WordTexts(OptWord('X', x), render), WordTexts(OptWord('Y', y), render),
                          WordTexts(OptWord('Z', z), render), WordTexts(OptWord('F', feedrate), render);
    WordTextsAppend(OptWord('X', x), OptWord('Y', y), render);
    WordTextsAppend(OptWord('X', x) + OptWord('Y', y), OptWord('Z', z), render);
    WordTextsAppend(OptWord('X', x) + OptWord('Y', y) + OptWord('Z', z), OptWord('F', feedrate), render);
    assert WordTexts(MoveWords(x, y, z, feedrate), render) == tx + ty + tz + tf;
    ApplyWordsAppend(m, tx + ty + tz, tf, parse);
    ApplyWordsAppend(m, tx + ty, tz, parse);
    ApplyWordsAppend(m, tx, ty, parse);
    var m1 := ApplyWords(m, tx, parse);
    var m2 := ApplyWords(m1, ty, parse);
    var m3 := ApplyWords(m2, tz, parse);
    OptWordApplies(m, 'X', x, render, parse);
    OptWordApplies(m1, 'Y', y, render, parse);
    OptWordApplies(m2, 'Z', z, render, parse);
    OptWordApplies(m3, 'F', feedrate, render, parse);
  }

  /**
   * Once the firmware is in absolute mode, executing the line move_to sends moves exactly the axes
   * that were given and keeps every axis passed as None, provided the firmware reads back the
   * numbers the host rendered.
   */
  lemma MoveCommandHonoursContract(m: Machine, x: Option<real>, y: Option<real>, z: Option<real>,
                                   feedrate: Option<real>, render: NumberText, parse: string -> real)
    requires m.absolute && !m.halted
    requires forall v :: parse(render(v)) == v
    ensures HonoursMoveTo(m.pos, ExecuteLine(m, MoveCommand(x, y, z, feedrate, render), parse).pos,
                          x, y, z, feedrate)
    ensures ExecuteLine(m, MoveCommand(x, y, z, feedrate, render), parse).absolute
  {
    ExecuteMoveLine(m, x, y, z, feedrate, render, parse);
    ApplyMoveWords(m, x, y, z, feedrate, render, parse);
  }

  /** connect() sends G90 first, so a later move is absolute whatever mode the firmware was in. */
  lemma MoveAfterAbsoluteMode(m: Machine, x: Option<real>, y: Option<real>, z: Option<real>,
                              feedrate: Option<real>, render: NumberText, parse: string -> real)
    requires !m.halted
    requires forall v :: parse(render(v)) == v
    ensures var m' := ExecuteLine(m, AbsoluteModeCommand, parse);
            HonoursMoveTo(m.pos, ExecuteLine(m', MoveCommand(x, y, z, feedrate, render), parse).pos,
                          x, y, z, feedrate)
  {
    SplitSingle(AbsoluteModeCommand);
    assert SplitSpace(AbsoluteModeCommand) == ["G90"];
    MoveCommandHonoursContract(ExecuteLine(m, AbsoluteModeCommand, parse), x, y, z, feedrate, render, parse);
  }

  /**
   * A check on the firmware model below, not a property of home() itself: the G28 line home()
   * sends parses as one word with no axis letter, so the model homes every axis.
   */
  lemma HomeCommandHomesAll(m: Machine, parse: string -> real)
    requires !m.halted
    ensures HomedAll(m.pos, ExecuteLine(m, HomeCommand, parse).pos)
  {
    SplitSingle(HomeCommand);
    assert SplitSpace(HomeCommand) == ["G28"];
  }

  /**
   * A check on the firmware model below, not a property of emergency_stop() itself: the M112 line
   * parses as the halt word, and afterwards no further line of the model has any effect.
   */
  lemma EmergencyStopHalts(m: Machine, later: seq<string>, parse: string -> real)
    ensures var h := ExecuteLine(m, EmergencyStopCommand, parse);
            h.halted && h.pos == m.pos && ExecuteAll(h, later, parse) == h
  {
    SplitSingle(EmergencyStopCommand);
    assert SplitSpace(EmergencyStopCommand) == ["M112"];
    var h := ExecuteLine(m, EmergencyStopCommand, parse);
    HaltedIgnoresAll(h, later, parse);
  }

  function ExecuteAll(m: Machine, lines: seq<string>, parse: string -> real): Machine
    decreases |lines|
  {
    if lines == [] then m else ExecuteAll(ExecuteLine(m, lines[0], parse), lines[1..], parse)
  }

  /** In the firmware model, a halted machine stays as it is over any sequence of lines. */
  lemma {:induction false} HaltedIgnoresAll(m: Machine, lines: seq<string>, parse: string -> real)
    requires m.halted
    ensures ExecuteAll(m, lines, parse) == m
    decreases |lines|
  {
    if lines != [] {
      HaltedIgnoresAll(m, lines[1..], parse);
    }
  }
}
