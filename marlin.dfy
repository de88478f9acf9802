/** The Marlin renderings: the pen is a virtual Z axis moved by the rapid
    `LinearMove` rendering, homing lists the requested axes after G28, and
    steppers are switched with M18 (off) and M17 (on) lines. */
module Marlin {
  import opened Wrappers
  import opened Text
  import opened Gcode
  import Generic

  const END_PROGRAM := "M5"

  /** `MachineType::preamble` for Marlin: no operations. */
  function Preamble(): (ops: seq<Op>)
    ensures |ops| == 0
  {
    []
  }

  // ---- Activate / Deactivate ----

  const ACTIVATE_TARGET := Vec3(Some(ZERO), Some(ZERO), Some(MINUS_FIVE))
  const DEACTIVATE_TARGET := Vec3(Some(ZERO), Some(ZERO), Some(FIVE))

  /** Activate renders as the Marlin `LinearMove` to x = 0, y = 0, z = -5
      with no feedrate. */
  function ActivateText(num: Fmt): string
  {
    Generic.LinearText("G0", None, ACTIVATE_TARGET, num).value
  }

  /** Deactivate renders as the same move to z = +5. */
  function DeactivateText(num: Fmt): string
  {
    Generic.LinearText("G0", None, DEACTIVATE_TARGET, num).value
  }

  /** The rapid rendering without a feedrate is "G0 " before the position text. */
  lemma RapidText(target: Vec3, num: Fmt)
    requires !target.NoAxis()
    ensures Generic.LinearText("G0", None, target, num).value == "G0 " + PositionText(target, num).value
  {
    var p := PositionText(target, num).value;
    assert ["G0"] + Generic.FeedWord(None) + [p] == ["G0"] + [p];
    JoinCons("G0", [p], ' ');
  }

  /** A position with all three axes is "G92 X.. Y.. Z..". */
  lemma FullPositionText(a: F32, b: F32, c: F32, num: Fmt)
    ensures PositionText(Vec3(Some(a), Some(b), Some(c)), num).value ==
            "G92 X" + num(a) + " Y" + num(b) + " Z" + num(c)
  {
    var x, y, z := "X" + num(a), "Y" + num(b), "Z" + num(c);
    assert PositionWords(Vec3(Some(a), Some(b), Some(c)), num) == ["G92", x, y, z];
    assert Join([z], ' ') == z;
    JoinCons(y, [z], ' ');
    assert [y] + [z] == [y, z];
    JoinCons(x, [y, z], ' ');
    assert [x] + [y, z] == [x, y, z];
    JoinCons("G92", [x, y, z], ' ');
    assert ["G92"] + [x, y, z] == ["G92", x, y, z];
  }

  /** Activate, written out: a rapid to X0 Y0 Z-5 (pen down). */
  lemma ActivateMove(num: Fmt)
    ensures ActivateText(num) == "G0 G92 X" + num(ZERO) + " Y" + num(ZERO) + " Z" + num(MINUS_FIVE)
  {
    RapidText(ACTIVATE_TARGET, num);
    FullPositionText(ZERO, ZERO, MINUS_FIVE, num);
  }

  /** Deactivate, written out: the same rapid with Z+5 (pen up); nothing but
      the Z value differs from Activate. */
  lemma DeactivateMove(num: Fmt)
    ensures DeactivateText(num) == "G0 G92 X" + num(ZERO) + " Y" + num(ZERO) + " Z" + num(FIVE)
  {
    RapidText(DEACTIVATE_TARGET, num);
    FullPositionText(ZERO, ZERO, FIVE, num);
  }

  /** With Rust's formatting of 0.0 and -5.0 the pen-down line is
      "G0 G92 X0 Y0 Z-5". */
  lemma ActivateExample(num: Fmt)
    requires num(ZERO) == "0" && num(MINUS_FIVE) == "-5"
    ensures ActivateText(num) == "G0 G92 X0 Y0 Z-5"
  {
    ActivateMove(num);
  }

  // ---- Home ----

  function Flag(b: bool): Option<string> { if b then Some("") else None }

  /** The `Home` rendering: "G28" followed by the letter of each requested axis. */
  function HomeText(x: bool, y: bool, z: bool): string
  {
    Join(["G28"] + AxisWords(Flag(x), Flag(y), Flag(z)), ' ')
  }

  /** `Home::render` as written: push "G28", push each requested letter, join. */
  method RenderHome(x: bool, y: bool, z: bool) returns (r: string)
    ensures r == HomeText(x, y, z)
  {
    var parts: seq<string> := ["G28"];
    if x {
      parts := parts + ["X"];
    }
    if y {
      parts := parts + ["Y"];
    }
    if z {
      parts := parts + ["Z"];
    }
    assert ['X'] + "" == "X" && ['Y'] + "" == "Y" && ['Z'] + "" == "Z";
    assert parts == ["G28"] + AxisWords(Flag(x), Flag(y), Flag(z));
    r := Join(parts, ' ');
  }

  /** The homing request a G28 line names: the axes whose letters follow it. */
  function ReadHome(line: string): Option<Op>
  {
    var w := Words(line);
    if w[0] != "G28" then None
    else Some(Home(WordValue(w[1..], 'X').Some?, WordValue(w[1..], 'Y').Some?, WordValue(w[1..], 'Z').Some?))
  }

  lemma HomeWords(x: bool, y: bool, z: bool)
    ensures Words(HomeText(x, y, z)) == ["G28"] + AxisWords(Flag(x), Flag(y), Flag(z))
  {
    var aw := AxisWords(Flag(x), Flag(y), Flag(z));
    AxisWordsFree(Flag(x), Flag(y), Flag(z), ' ');
    var ws := ["G28"] + aw;
    assert Free(ws, ' ') by {
      forall i | 1 <= i < |ws| ensures ' ' !in ws[i] { assert ws[i] == aw[i - 1]; }
    }
    SplitJoin(ws, ' ');
  }

  /** A homing line lists exactly the requested axes, each once, in X, Y, Z
      order, each by its bare letter; with no axis requested it is "G28". */
  lemma HomeShape(x: bool, y: bool, z: bool)
    ensures var w := Words(HomeText(x, y, z));
      w[0] == "G28" &&
      |w| == 1 + (if x then 1 else 0) + (if y then 1 else 0) + (if z then 1 else 0) &&
      (forall i :: 1 <= i < |w| ==> |w[i]| == 1) &&
      OnlyAxisWords(w[1..]) && Ascending(w[1..]) &&
      WordValue(w[1..], 'X').Some? == x &&
      WordValue(w[1..], 'Y').Some? == y &&
      WordValue(w[1..], 'Z').Some? == z
    ensures !x && !y && !z ==> HomeText(x, y, z) == "G28"
  {
    HomeWords(x, y, z);
    var aw := AxisWords(Flag(x), Flag(y), Flag(z));
    AxisWordsRead(Flag(x), Flag(y), Flag(z));
    assert (["G28"] + aw)[1..] == aw;
    forall i | 0 <= i < |aw| ensures |aw[i]| == 1 { }
  }

  /** Reading a homing line back gives the requested axes. */
  lemma HomeRoundTrip(x: bool, y: bool, z: bool)
    ensures ReadHome(HomeText(x, y, z)) == Some(Home(x, y, z))
  {
    HomeWords(x, y, z);
    var aw := AxisWords(Flag(x), Flag(y), Flag(z));
    AxisWordsRead(Flag(x), Flag(y), Flag(z));
    assert (["G28"] + aw)[1..] == aw;
  }

  // ---- StepperControl ----

  function InState(s: StepperState, want: StepperState): Option<string>
  {
    if s == want then Some("") else None
  }

  /** The letter of an axis, if its state is the group's. */
  function Member(letter: string, st: StepperState, want: StepperState): seq<string>
  {
    if st == want then [letter] else []
  }

  /** A group line's words: the code, then the letter of each axis in the
      group's state. */
  function GroupWords(code: string, s: Steppers, want: StepperState): seq<string>
  {
    [code] + Member("X", s.x, want) + Member("Y", s.y, want) + Member("Z", s.z, want)
  }

  /** A group's axis letters are the axis words of a position whose present
      axes carry empty values. */
  lemma GroupAxisWords(code: string, s: Steppers, want: StepperState)
    ensures GroupWords(code, s, want) ==
      [code] + AxisWords(InState(s.x, want), InState(s.y, want), InState(s.z, want))
  {
    assert ['X'] + "" == "X" && ['Y'] + "" == "Y" && ['Z'] + "" == "Z";
  }

  /** The M18 line's words: every disabled axis. */
  function DisableWords(s: Steppers): seq<string> { GroupWords("M18", s, Disabled) }

  /** The M17 line's words: every enabled axis. */
  function EnableWords(s: Steppers): seq<string> { GroupWords("M17", s, Enabled) }

  /** The `StepperControl` rendering: the M18 line if some axis is disabled,
      then the M17 line if some axis is enabled, separated by '\n'. */
  function StepperText(s: Steppers): string
  {
    var disable, enable := Join(DisableWords(s), ' '), Join(EnableWords(s), ' ');
    if |DisableWords(s)| == 1 then enable
    else if |EnableWords(s)| == 1 then disable
    else disable + "\n" + enable
  }

  /** `StepperControl::render` as written: sort each axis into the enable or
      the disable group, then push each group that has an axis. */
  method RenderStepperControl(s: Steppers) returns (r: string)
    ensures r == StepperText(s)
  {
    var enable: seq<string> := ["M17"];
    var disable: seq<string> := ["M18"];
    match s.x {
      case Enabled => enable := enable + ["X"];
      case Disabled => disable := disable + ["X"];
    }
    assert enable == ["M17"] + Member("X", s.x, Enabled);
    assert disable == ["M18"] + Member("X", s.x, Disabled);
    match s.y {
      case Enabled => enable := enable + ["Y"];
      case Disabled => disable := disable + ["Y"];
    }
    assert enable == ["M17"] + Member("X", s.x, Enabled) + Member("Y", s.y, Enabled);
    assert disable == ["M18"] + Member("X", s.x, Disabled) + Member("Y", s.y, Disabled);
    match s.z {
      case Enabled => enable := enable + ["Z"];
      case Disabled => disable := disable + ["Z"];
    }
    assert enable == EnableWords(s) && disable == DisableWords(s);
    var lines: seq<string> := [];
    if |disable| > 1 {
      lines := lines + [Join(disable, ' ')];
    }
    if |enable| > 1 {
      lines := lines + [Join(enable, ' ')];
    }
    assert lines == (if |disable| > 1 then [Join(disable, ' ')] else []) +
      (if |enable| > 1 then [Join(enable, ' ')] else []);
    r := Join(lines, '\n');
    StepperTextPushed(s);
  }

  /** The StepperControl text is the join of the group lines that hold an
      axis. */
  lemma StepperTextPushed(s: Steppers)
    ensures var d, e := DisableWords(s), EnableWords(s);
      StepperText(s) ==
        Join((if |d| > 1 then [Join(d, ' ')] else []) + (if |e| > 1 then [Join(e, ' ')] else []), '\n')
  {
    GroupSizes(s);
    var d, e := DisableWords(s), EnableWords(s);
    JoinGroups(Join(d, ' '), Join(e, ' '), |d| > 1, |e| > 1);
  }

  /** Joining the pushed group lines, at least one of them, with '\n'. */
  lemma JoinGroups(d: string, e: string, hasD: bool, hasE: bool)
    requires hasD || hasE
    ensures Join((if hasD then [d] else []) + (if hasE then [e] else []), '\n') ==
      if !hasD then e else if !hasE then d else d + "\n" + e
  {
    if hasD && hasE {
      JoinCons(d, [e], '\n');
      assert [d] + [e] == [d, e];
    } else if hasD {
      assert [d] + [] == [d];
    } else {
      assert [] + [e] == [e];
    }
  }

  /** The state one line sets for the axis `letter`, if it lists it after an
      M17 (enable) or M18 (disable) code. */
  function LineState(line: string, letter: char): Option<StepperState>
  {
    var w := Words(line);
    if (w[0] == "M17" || w[0] == "M18") && WordValue(w[1..], letter).Some? then
      Some(if w[0] == "M17" then Enabled else Disabled)
    else None
  }

  /** Whether a line lists the axis `letter` after its code. */
  predicate Listed(line: string, letter: char)
  {
    WordValue(Words(line)[1..], letter).Some?
  }

  /** The state the first line that sets one gives the axis `letter`. */
  function StateOf(lines: seq<string>, letter: char): Option<StepperState>
  {
    if lines == [] then None
    else if LineState(lines[0], letter).Some? then LineState(lines[0], letter)
    else StateOf(lines[1..], letter)
  }

  /** How many lines list the axis `letter`. */
  function Listings(lines: seq<string>, letter: char): nat
  {
    if lines == [] then 0
    else (if Listed(lines[0], letter) then 1 else 0) + Listings(lines[1..], letter)
  }

  /** The steppers a StepperControl text switches, if it says something for
      every axis. */
  function ReadSteppers(text: string): Option<Steppers>
  {
    var ls := Lines(text);
    match (StateOf(ls, 'X'), StateOf(ls, 'Y'), StateOf(ls, 'Z'))
    case (Some(x), Some(y), Some(z)) => Some(Steppers(x, y, z))
    case _ => None
  }

  lemma GroupLine(ws: seq<string>, code: string, x: Option<string>, y: Option<string>, z: Option<string>)
    requires ws == [code] + AxisWords(x, y, z) && ' ' !in code && '\n' !in code
    requires x.Some? ==> x.value == ""
    requires y.Some? ==> y.value == ""
    requires z.Some? ==> z.value == ""
    ensures Words(Join(ws, ' ')) == ws
    ensures '\n' !in Join(ws, ' ')
    ensures ws[1..] == AxisWords(x, y, z)
  {
    AxisWordsFree(x, y, z, ' ');
    AxisWordsFree(x, y, z, '\n');
    assert Free(ws, ' ') && Free(ws, '\n') by {
      forall i | 1 <= i < |ws| ensures ws[i] == AxisWords(x, y, z)[i - 1] { }
    }
    SplitJoin(ws, ' ');
    JoinAvoids(ws, ' ', '\n');
  }

  /** Every axis is in exactly one of the M18 and M17 groups, so the two
      hold five words between them. */
  lemma GroupSizes(s: Steppers)
    ensures |DisableWords(s)| + |EnableWords(s)| == 5
    ensures ("X" in DisableWords(s)[1..]) != ("X" in EnableWords(s)[1..])
    ensures ("Y" in DisableWords(s)[1..]) != ("Y" in EnableWords(s)[1..])
    ensures ("Z" in DisableWords(s)[1..]) != ("Z" in EnableWords(s)[1..])
  {
    assert DisableWords(s)[1..] ==
      Member("X", s.x, Disabled) + Member("Y", s.y, Disabled) + Member("Z", s.z, Disabled);
    assert EnableWords(s)[1..] ==
      Member("X", s.x, Enabled) + Member("Y", s.y, Enabled) + Member("Z", s.z, Enabled);
    assert "X"[0] != "Y"[0] && "X"[0] != "Z"[0] && "Y"[0] != "Z"[0];
  }

  /** The lines of a StepperControl text: the M18 line when some axis is
      disabled, then the M17 line when some axis is enabled. */
  lemma StepperLines(s: Steppers)
    ensures var d, e := DisableWords(s), EnableWords(s);
      Lines(StepperText(s)) ==
        if |d| == 1 then [Join(e, ' ')]
        else if |e| == 1 then [Join(d, ' ')]
        else [Join(d, ' '), Join(e, ' ')]
    ensures Words(Join(DisableWords(s), ' ')) == DisableWords(s)
    ensures Words(Join(EnableWords(s), ' ')) == EnableWords(s)
  {
    var d, e := DisableWords(s), EnableWords(s);
    GroupAxisWords("M18", s, Disabled);
    GroupAxisWords("M17", s, Enabled);
    GroupLine(d, "M18", InState(s.x, Disabled), InState(s.y, Disabled), InState(s.z, Disabled));
    GroupLine(e, "M17", InState(s.x, Enabled), InState(s.y, Enabled), InState(s.z, Enabled));
    var jd, je := Join(d, ' '), Join(e, ' ');
    if |d| == 1 {
      SplitFree(je, '\n');
    } else if |e| == 1 {
      SplitFree(jd, '\n');
    } else {
      SplitAfter(jd, '\n', je);
      SplitFree(je, '\n');
      assert jd + "\n" + je == jd + ['\n'] + je;
    }
  }

  lemma GroupRead(code: string, s: Steppers, want: StepperState)
    ensures var g := GroupWords(code, s, want);
      g[0] == code && OnlyAxisWords(g[1..]) && Ascending(g[1..]) &&
      |g| == 1 + Count(InState(s.x, want)) + Count(InState(s.y, want)) + Count(InState(s.z, want)) &&
      WordValue(g[1..], 'X') == InState(s.x, want) &&
      WordValue(g[1..], 'Y') == InState(s.y, want) &&
      WordValue(g[1..], 'Z') == InState(s.z, want)
  {
    var x, y, z := InState(s.x, want), InState(s.y, want), InState(s.z, want);
    AxisWordsRead(x, y, z);
    GroupAxisWords(code, s, want);
    assert GroupWords(code, s, want)[1..] == AxisWords(x, y, z);
  }

  lemma GroupsRead(s: Steppers)
    ensures var d, e := DisableWords(s), EnableWords(s);
      d[0] == "M18" && e[0] == "M17" &&
      OnlyAxisWords(d[1..]) && Ascending(d[1..]) && OnlyAxisWords(e[1..]) && Ascending(e[1..]) &&
      |d| + |e| == 5 &&
      WordValue(d[1..], 'X') == InState(s.x, Disabled) && WordValue(e[1..], 'X') == InState(s.x, Enabled) &&
      WordValue(d[1..], 'Y') == InState(s.y, Disabled) && WordValue(e[1..], 'Y') == InState(s.y, Enabled) &&
      WordValue(d[1..], 'Z') == InState(s.z, Disabled) && WordValue(e[1..], 'Z') == InState(s.z, Enabled)
  {
    GroupRead("M18", s, Disabled);
    GroupRead("M17", s, Enabled);
  }

  /** StepperControl output is one or two lines, never empty; when there are
      two, the M18 line comes first. Every line is an M17 or M18 code
      followed by axis letters in X, Y, Z order. */
  lemma StepperShape(s: Steppers)
    ensures var ls := Lines(StepperText(s));
      1 <= |ls| <= 2 && StepperText(s) != [] &&
      (|ls| == 2 ==> Words(ls[0])[0] == "M18" && Words(ls[1])[0] == "M17") &&
      (forall i :: 0 <= i < |ls| ==> var w := Words(ls[i]);
         (w[0] == "M17" || w[0] == "M18") && OnlyAxisWords(w[1..]) && Ascending(w[1..]))
  {
    StepperLines(s);
    GroupsRead(s);
    var d, e := DisableWords(s), EnableWords(s);
  }

  /** The state the steppers request for the axis with letter `letter`. */
  function StateAt(s: Steppers, letter: char): StepperState
  {
    if letter == 'X' then s.x else if letter == 'Y' then s.y else s.z
  }

  lemma GroupReadLetter(code: string, s: Steppers, want: StepperState, letter: char)
    requires letter == 'X' || letter == 'Y' || letter == 'Z'
    ensures WordValue(GroupWords(code, s, want)[1..], letter) == InState(StateAt(s, letter), want)
  {
    GroupRead(code, s, want);
  }

  /** A group line sets, and lists, exactly the axes in the group's state. */
  lemma GroupLineState(code: string, want: StepperState, s: Steppers, letter: char)
    requires (code == "M18" && want == Disabled) || (code == "M17" && want == Enabled)
    requires letter == 'X' || letter == 'Y' || letter == 'Z'
    ensures var line := Join(GroupWords(code, s, want), ' ');
      LineState(line, letter) == (if StateAt(s, letter) == want then Some(want) else None) &&
      Listed(line, letter) == (StateAt(s, letter) == want)
  {
    var g := GroupWords(code, s, want);
    GroupAxisWords(code, s, want);
    GroupLine(g, code, InState(s.x, want), InState(s.y, want), InState(s.z, want));
    GroupReadLetter(code, s, want, letter);
  }

  /** Reading one axis from the lines of a StepperControl text, given what
      each group line says about it. */
  lemma ReadGroupLines(ls: seq<string>, jd: string, je: string, letter: char,
                       st: StepperState, hasD: bool, hasE: bool)
    requires LineState(jd, letter) == (if st == Disabled then Some(Disabled) else None)
    requires Listed(jd, letter) == (st == Disabled)
    requires LineState(je, letter) == (if st == Enabled then Some(Enabled) else None)
    requires Listed(je, letter) == (st == Enabled)
    requires hasD || hasE
    requires !hasD ==> st == Enabled
    requires !hasE ==> st == Disabled
    requires ls == if !hasD then [je] else if !hasE then [jd] else [jd, je]
    ensures Listings(ls, letter) == 1 && StateOf(ls, letter) == Some(st)
  {
    if hasD && hasE {
      assert ls[1..] == [je];
      assert ls[1..][1..] == [];
      assert Listings(ls, letter) ==
        (if Listed(jd, letter) then 1 else 0) + (if Listed(je, letter) then 1 else 0);
      assert StateOf(ls, letter) ==
        if LineState(jd, letter).Some? then LineState(jd, letter) else LineState(je, letter);
    } else {
      assert ls[1..] == [];
    }
  }

  /** One axis is listed on exactly one line, the line of its state. */
  lemma LetterPartition(s: Steppers, letter: char)
    requires letter == 'X' || letter == 'Y' || letter == 'Z'
    ensures var ls := Lines(StepperText(s));
      Listings(ls, letter) == 1 && StateOf(ls, letter) == Some(StateAt(s, letter))
  {
    StepperLines(s);
    GroupSizes(s);
    var d, e := DisableWords(s), EnableWords(s);
    GroupLineState("M18", Disabled, s, letter);
    GroupLineState("M17", Enabled, s, letter);
    GroupReadLetter("M18", s, Disabled, letter);
    GroupReadLetter("M17", s, Enabled, letter);
    assert |d| == 1 ==> d[1..] == [];
    assert |e| == 1 ==> e[1..] == [];
    ReadGroupLines(Lines(StepperText(s)), Join(d, ' '), Join(e, ' '), letter,
                   StateAt(s, letter), |d| > 1, |e| > 1);
  }

  /** Each of X, Y and Z is listed on exactly one line: the M18 line if it is
      disabled, the M17 line if it is enabled; so reading the text back gives
      the requested state of every axis. */
  lemma StepperPartition(s: Steppers)
    ensures var ls := Lines(StepperText(s));
      Listings(ls, 'X') == 1 && Listings(ls, 'Y') == 1 && Listings(ls, 'Z') == 1 &&
      ReadSteppers(StepperText(s)) == Some(s)
  {
    LetterPartition(s, 'X');
    LetterPartition(s, 'Y');
    LetterPartition(s, 'Z');
  }
}
