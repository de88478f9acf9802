/** The renderings every flavour shares: plane selection, the two linear
    motions, dwell, setting the current position, distance mode and units. */
module Generic {
  import opened Wrappers
  import opened Text
  import opened Gcode

  /** `SetXY` renders the XY-plane selection code. */
  const SET_XY := "G17"

  /** The optional feedrate word of a linear motion. */
  function FeedWord(feedrate: Option<U32>): seq<string>
  {
    if feedrate.Some? then ["F" + Decimal(feedrate.value)] else []
  }

  /** The `LinearDraw` (code "G1") and `LinearMove` (code "G0") rendering:
      the motion code, the feedrate word when one is given, then the position
      text; the `unwrap` of a position with no axis is the error. */
  function LinearText(code: string, feedrate: Option<U32>, target: Vec3, num: Fmt): (r: Result<string, RenderError>)
    ensures r.Err? <==> target.NoAxis()
    ensures r.Err? ==> r.error == IncompletePosition
  {
    match PositionText(target, num)
    case Err(_) => Err(IncompletePosition)
    case Ok(p) => Ok(Join([code] + FeedWord(feedrate) + [p], ' '))
  }

  /** The linear renders as written: push the code, push the feedrate word if
      any, push the unwrapped position text, join with spaces. */
  method RenderLinear(code: string, feedrate: Option<U32>, target: Vec3, num: Fmt)
    returns (r: Result<string, RenderError>)
    ensures r == LinearText(code, feedrate, target, num)
  {
    var parts: seq<string> := [];
    parts := parts + [code];
    if feedrate.Some? {
      parts := parts + ["F" + Decimal(feedrate.value)];
    }
    var position := ToString(target, num);
    if position.Err? {
      return Err(IncompletePosition);
    }
    parts := parts + [position.value];
    assert parts == [code] + FeedWord(feedrate) + [position.value];
    r := Ok(Join(parts, ' '));
  }

  lemma LinearWords(code: string, feedrate: Option<U32>, target: Vec3, num: Fmt)
    requires WordFmt(num) && !target.NoAxis() && ' ' !in code
    ensures Words(LinearText(code, feedrate, target, num).value) ==
            [code] + FeedWord(feedrate) + PositionWords(target, num)
  {
    var pw := PositionWords(target, num);
    PositionWordsSplit(target, num);
    var head := [code] + FeedWord(feedrate);
    JoinFlatten(head, pw, ' ');
    DecimalIsWord(if feedrate.Some? then feedrate.value else 0);
    assert Free(head, ' ');
    var ws := head + pw;
    assert Free(ws, ' ') by {
      forall i | 0 <= i < |ws| ensures ' ' !in ws[i] {
        if i >= |head| {
          assert ws[i] == pw[i - |head|];
        }
      }
    }
    SplitJoin(ws, ' ');
  }

  lemma NoFeedInPosition(target: Vec3, num: Fmt)
    ensures WordValue(PositionWords(target, num), 'F') == None
  {
    var mx, my, mz := MapOption(target.x, num), MapOption(target.y, num), MapOption(target.z, num);
    AxisWordsRead(mx, my, mz);
    WordValueAppend(["G92"], AxisWords(mx, my, mz), 'F');
    WordValueAbsent(AxisWords(mx, my, mz), 'F');
  }

  /** A linear motion is the motion code, then the feedrate word exactly when
      a feedrate is given (with the feedrate in decimal), then the words of
      the position text. */
  lemma LinearTextShape(code: string, feedrate: Option<U32>, target: Vec3, num: Fmt)
    requires WordFmt(num) && !target.NoAxis()
    requires ' ' !in code && code != [] && code[0] != 'F'
    ensures var w := Words(LinearText(code, feedrate, target, num).value);
      var k := if feedrate.Some? then 1 else 0;
      |w| > 1 + k && w[0] == code &&
      (feedrate.Some? ==> w[1] == "F" + Decimal(feedrate.value) &&
                          WordValue(w, 'F') == Some(Decimal(feedrate.value))) &&
      (feedrate.None? ==> WordValue(w, 'F') == None) &&
      w[1 + k..] == Words(PositionText(target, num).value)
  {
    LinearWords(code, feedrate, target, num);
    PositionWordsSplit(target, num);
    var pw := PositionWords(target, num);
    var head := [code] + FeedWord(feedrate);
    assert (head + pw)[|head|..] == pw;
    NoFeedInPosition(target, num);
    WordValueAppend(head, pw, 'F');
    WordValueAppend([code], FeedWord(feedrate), 'F');
  }

  /** A `LinearMove` and a `LinearDraw` with the same fields render the same
      text after their motion codes "G0" and "G1". */
  lemma MoveIsDrawWithRapidCode(feedrate: Option<U32>, target: Vec3, num: Fmt)
    requires !target.NoAxis()
    ensures var move, draw := LinearText("G0", feedrate, target, num), LinearText("G1", feedrate, target, num);
      move.Ok? && draw.Ok? &&
      move.value[..2] == "G0" && draw.value[..2] == "G1" && move.value[2..] == draw.value[2..]
  {
    var rest := FeedWord(feedrate) + [PositionText(target, num).value];
    assert ["G0"] + FeedWord(feedrate) + [PositionText(target, num).value] == ["G0"] + rest;
    assert ["G1"] + FeedWord(feedrate) + [PositionText(target, num).value] == ["G1"] + rest;
    assert (["G0"] + rest)[1..] == rest && (["G1"] + rest)[1..] == rest;
  }

  /** `Pause` renders as the dwell code with the milliseconds as its P word. */
  function PauseText(ms: U32): string
  {
    "G4 P" + Decimal(ms)
  }

  /** The dwell line is two words, "G4" and a P word from which the
      milliseconds parse back. */
  lemma PauseRoundTrip(ms: U32)
    ensures var w := Words(PauseText(ms));
      |w| == 2 && w[0] == "G4" && |w[1]| > 0 && w[1][0] == 'P' && ParseU32(w[1][1..]) == Some(ms)
  {
    DecimalIsWord(ms);
    assert PauseText(ms) == Join(["G4", "P" + Decimal(ms)], ' ');
    SplitJoin(["G4", "P" + Decimal(ms)], ' ');
    assert ("P" + Decimal(ms))[1..] == Decimal(ms);
    DecimalRoundTrip(ms);
  }

  /** `SetCurrentPosition`: "G92 " before the position text, whose own first
      word is again "G92"; the `unwrap` of an axis-less position is the error. */
  function SetCurrentPositionText(current: Vec3, num: Fmt): (r: Result<string, RenderError>)
    ensures r.Err? <==> current.NoAxis()
    ensures r.Err? ==> r.error == IncompletePosition
  {
    match PositionText(current, num)
    case Err(_) => Err(IncompletePosition)
    case Ok(p) => Ok("G92 " + p)
  }

  /** The words of a current-position line are "G92" and then the words of
      the position text, so the line starts "G92 G92". */
  lemma SetCurrentPositionShape(current: Vec3, num: Fmt)
    requires WordFmt(num) && !current.NoAxis()
    ensures var w := Words(SetCurrentPositionText(current, num).value);
      w == ["G92"] + Words(PositionText(current, num).value) && w[1] == "G92"
  {
    var p := PositionText(current, num).value;
    PositionWordsSplit(current, num);
    assert "G92 " + p == "G92" + [' '] + p;
    SplitAfter("G92", ' ', p);
  }

  function PositionModeText(positioning: Position): string
  {
    match positioning
    case Absolute => "G90"
    case Relative => "G91"
  }

  function UnitsText(units: Units): string
  {
    match units
    case Inches => "G20"
    case Millimeters => "G21"
  }

  /** The distance mode a line selects, as section 3.5 of the NIST RS274NGC
      Interpreter (version 3) defines G90 and G91. */
  function ReadPositionMode(line: string): Option<Position>
  {
    if line == "G90" then Some(Absolute) else if line == "G91" then Some(Relative) else None
  }

  /** The length unit a line selects, as the same section defines G20 and G21. */
  function ReadUnits(line: string): Option<Units>
  {
    if line == "G20" then Some(Inches) else if line == "G21" then Some(Millimeters) else None
  }

  /** `SetPositionMode` renders the code that selects its distance mode. */
  lemma PositionModeRoundTrip(positioning: Position)
    ensures ReadPositionMode(PositionModeText(positioning)) == Some(positioning)
  {
  }

  /** `SetUnits` renders the code that selects its units. */
  lemma UnitsRoundTrip(units: Units)
    ensures ReadUnits(UnitsText(units)) == Some(units)
  {
  }
}
