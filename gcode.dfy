/** The data model of the G-code crate root: the `f32` coordinates, the
    optional-axis position `Vec3` and its text, the small enums, the
    operation structs gathered into one tagged `Op`, and the flavour. */
module Gcode {
  import opened Wrappers
  import opened Text

  type Bits32 = b: int | 0 <= b < 0x1_0000_0000

  /** An `f32`, identified by its IEEE-754 bit pattern. No arithmetic on it
      is modelled. */
  datatype F32 = F32(bits: Bits32)

  const ZERO := F32(0x0000_0000)
  const FIVE := F32(0x40A0_0000)
  const MINUS_FIVE := F32(0xC0A0_0000)

  /** Rust's `{}` formatting of an `f32`. Its digits are not modelled: every
      operation that prints a coordinate takes the formatter as a parameter. */
  type Fmt = F32 -> string

  /** What the renderer's layout relies on: a formatted number is one word on
      one line (Rust prints digits, '.', '-', "inf" or "NaN"). */
  ghost predicate WordFmt(num: Fmt)
  {
    forall v :: ' ' !in num(v) && '\n' !in num(v)
  }

  datatype Position = Absolute | Relative

  datatype Units = Inches | Millimeters

  datatype StepperState = Enabled | Disabled

  /** `crate::Flavor`: the controller dialect. */
  datatype Flavor = Grbl | Marlin

  datatype Vec3 = Vec3(x: Option<F32>, y: Option<F32>, z: Option<F32>)
  {
    predicate NoAxis() { x.None? && y.None? && z.None? }
  }

  /** The per-axis fields of `StepperControl`. */
  datatype Steppers = Steppers(x: StepperState, y: StepperState, z: StepperState)

  /** The operation structs, one variant each. */
  datatype Op =
    | LinearMove(target: Vec3, feedrate: Option<U32>)
    | LinearDraw(target: Vec3, feedrate: Option<U32>)
    | Pause(ms: U32)
    | SetPositionMode(positioning: Position)
    | SetCurrentPosition(current: Vec3)
    | Activate
    | Deactivate
    | SetUnits(units: Units)
    | Home(x: bool, y: bool, z: bool)
    | StepperControl(steppers: Steppers)
    | EndProgram
    | SetXY

  /** Why rendering an operation fails: `unwrap` on the text of a position
      with no axis panics, and a flavour may have no rendering for an
      operation at all. */
  datatype RenderError = IncompletePosition | UnsupportedOperation

  // ---- axis words ----

  /** Position of an axis letter in the order X, Y, Z; 3 for any other letter. */
  function AxisRank(c: char): nat
  {
    if c == 'X' then 0 else if c == 'Y' then 1 else if c == 'Z' then 2 else 3
  }

  /** Every word starts with an axis letter. */
  predicate OnlyAxisWords(ws: seq<string>)
  {
    forall i :: 0 <= i < |ws| ==> |ws[i]| > 0 && AxisRank(ws[i][0]) < 3
  }

  /** The words' axis letters strictly increase: X before Y before Z, none twice. */
  predicate Ascending(ws: seq<string>)
  {
    forall i, j :: 0 <= i < j < |ws| && |ws[i]| > 0 && |ws[j]| > 0 ==>
      AxisRank(ws[i][0]) < AxisRank(ws[j][0])
  }

  function Count(o: Option<string>): nat { if o.Some? then 1 else 0 }

  function AxisWord(letter: char, o: Option<string>): seq<string>
  {
    if o.Some? then [[letter] + o.value] else []
  }

  /** One word per present axis, letter then value, in X, Y, Z order. */
  function AxisWords(x: Option<string>, y: Option<string>, z: Option<string>): seq<string>
  {
    AxisWord('X', x) + AxisWord('Y', y) + AxisWord('Z', z)
  }

  lemma AxisWordRead(letter: char, o: Option<string>, other: char)
    requires other != letter
    ensures WordValue(AxisWord(letter, o), letter) == o
    ensures WordValue(AxisWord(letter, o), other) == None
  {
    if o.Some? {
      assert AxisWord(letter, o)[0][0] == letter;
    }
  }

  lemma AxisWordsValues(x: Option<string>, y: Option<string>, z: Option<string>)
    ensures var ws := AxisWords(x, y, z);
      WordValue(ws, 'X') == x && WordValue(ws, 'Y') == y && WordValue(ws, 'Z') == z
  {
    var wx, wy, wz := AxisWord('X', x), AxisWord('Y', y), AxisWord('Z', z);
    AxisWordRead('X', x, 'Y'); AxisWordRead('X', x, 'Z');
    AxisWordRead('Y', y, 'X'); AxisWordRead('Y', y, 'Z');
    AxisWordRead('Z', z, 'X'); AxisWordRead('Z', z, 'Y');
    WordValueAppend(wx + wy, wz, 'X'); WordValueAppend(wx, wy, 'X');
    WordValueAppend(wx + wy, wz, 'Y'); WordValueAppend(wx, wy, 'Y');
    WordValueAppend(wx + wy, wz, 'Z'); WordValueAppend(wx, wy, 'Z');
  }

  /** Two axis words, of axes a before b. */
  lemma AscendingPair(a: string, b: string)
    requires |a| > 0 && |b| > 0 && AxisRank(a[0]) < AxisRank(b[0]) < 3
    ensures OnlyAxisWords([a, b]) && Ascending([a, b])
  {
  }

  lemma AxisWordsOrder(x: Option<string>, y: Option<string>, z: Option<string>)
    ensures var ws := AxisWords(x, y, z);
      |ws| == Count(x) + Count(y) + Count(z) && OnlyAxisWords(ws) && Ascending(ws)
  {
    var ws := AxisWords(x, y, z);
    var a, b, c := AxisWord('X', x), AxisWord('Y', y), AxisWord('Z', z);
    assert ws == a + b + c;
    if x.Some? && y.Some? && z.Some? {
      var p, q, r := a[0], b[0], c[0];
      assert ws == [p, q, r];
      assert p[0] == 'X' && q[0] == 'Y' && r[0] == 'Z';
    } else if x.Some? && y.Some? {
      assert ws == [a[0], b[0]];
      AscendingPair(a[0], b[0]);
    } else if x.Some? && z.Some? {
      assert ws == [a[0], c[0]];
      AscendingPair(a[0], c[0]);
    } else if y.Some? && z.Some? {
      assert ws == [b[0], c[0]];
      AscendingPair(b[0], c[0]);
    } else if x.Some? {
      assert ws == a;
    } else if y.Some? {
      assert ws == b;
    } else if z.Some? {
      assert ws == c;
    } else {
      assert ws == [];
    }
  }

  /** Reading the axis words back gives each axis's value; they come in X, Y,
      Z order, one per present axis. */
  lemma AxisWordsRead(x: Option<string>, y: Option<string>, z: Option<string>)
    ensures var ws := AxisWords(x, y, z);
      |ws| == Count(x) + Count(y) + Count(z) &&
      OnlyAxisWords(ws) && Ascending(ws) &&
      WordValue(ws, 'X') == x && WordValue(ws, 'Y') == y && WordValue(ws, 'Z') == z
  {
    AxisWordsValues(x, y, z);
    AxisWordsOrder(x, y, z);
  }

  /** Every axis word is free of a character its value is free of. */
  lemma AxisWordsFree(x: Option<string>, y: Option<string>, z: Option<string>, c: char)
    requires c != 'X' && c != 'Y' && c != 'Z'
    requires x.Some? ==> c !in x.value
    requires y.Some? ==> c !in y.value
    requires z.Some? ==> c !in z.value
    ensures Free(AxisWords(x, y, z), c)
  {
  }

  // ---- Vec3::to_string ----

  const NO_DIMENSION := "At least one dimension must be provided"

  /** The parts `Vec3::to_string` joins: "G92", then the axis words. */
  function PositionWords(v: Vec3, num: Fmt): seq<string>
  {
    ["G92"] + AxisWords(MapOption(v.x, num), MapOption(v.y, num), MapOption(v.z, num))
  }

  /** `Vec3::to_string`: an error exactly when no axis is given. */
  function PositionText(v: Vec3, num: Fmt): (r: Result<string, string>)
    ensures r.Err? <==> v.NoAxis()
    ensures r.Err? ==> r.error == NO_DIMENSION
  {
    if v.NoAxis() then Err(NO_DIMENSION) else Ok(Join(PositionWords(v, num), ' '))
  }

  /** `Vec3::to_string` as written: push "G92", push a word per present axis,
      join with spaces. */
  method ToString(v: Vec3, num: Fmt) returns (r: Result<string, string>)
    ensures r == PositionText(v, num)
  {
    if v.x.None? && v.y.None? && v.z.None? {
      return Err(NO_DIMENSION);
    }
    var parts: seq<string> := [];
    parts := parts + ["G92"];
    if v.x.Some? {
      parts := parts + [['X'] + num(v.x.value)];
    }
    if v.y.Some? {
      parts := parts + [['Y'] + num(v.y.value)];
    }
    if v.z.Some? {
      parts := parts + [['Z'] + num(v.z.value)];
    }
    assert parts == PositionWords(v, num);
    r := Ok(Join(parts, ' '));
  }

  function Present(v: Vec3): nat
  {
    (if v.x.Some? then 1 else 0) + (if v.y.Some? then 1 else 0) + (if v.z.Some? then 1 else 0)
  }

  /** The words of the position text, for a formatter that prints one word. */
  lemma PositionWordsSplit(v: Vec3, num: Fmt)
    requires WordFmt(num) && !v.NoAxis()
    ensures Words(PositionText(v, num).value) == PositionWords(v, num)
    ensures '\n' !in PositionText(v, num).value
  {
    var mx, my, mz := MapOption(v.x, num), MapOption(v.y, num), MapOption(v.z, num);
    AxisWordsFree(mx, my, mz, ' ');
    AxisWordsFree(mx, my, mz, '\n');
    var ws := PositionWords(v, num);
    assert Free(ws, ' ') && Free(ws, '\n') by {
      forall i | 1 <= i < |ws| ensures ws[i] == AxisWords(mx, my, mz)[i - 1] { }
    }
    SplitJoin(ws, ' ');
    JoinAvoids(ws, ' ', '\n');
  }

  /** A position renders as "G92" followed by exactly one word per present
      axis, the axis letter and its formatted value, in X, Y, Z order. */
  lemma {:induction false} PositionTextShape(v: Vec3, num: Fmt)
    requires WordFmt(num) && !v.NoAxis()
    ensures var w := Words(PositionText(v, num).value);
      |w| == 1 + Present(v) && w[0] == "G92" &&
      OnlyAxisWords(w[1..]) && Ascending(w[1..]) &&
      WordValue(w[1..], 'X') == MapOption(v.x, num) &&
      WordValue(w[1..], 'Y') == MapOption(v.y, num) &&
      WordValue(w[1..], 'Z') == MapOption(v.z, num)
  {
    PositionWordsSplit(v, num);
    var mx, my, mz := MapOption(v.x, num), MapOption(v.y, num), MapOption(v.z, num);
    AxisWordsRead(mx, my, mz);
    assert PositionWords(v, num)[1..] == AxisWords(mx, my, mz);
  }
}
