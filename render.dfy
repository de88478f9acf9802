/** Rendering an operation for a machine flavour: the generic renderings are
    shared by both flavours, the pen, homing, stepper and end-of-program
    operations are flavour specific, and GRBL has no stepper control. */
module Render {
  import opened Wrappers
  import opened Text
  import opened Gcode
  import Generic
  import G = Grbl
  import M = Marlin

  /** `MachineType::preamble` of the flavour. */
  function Preamble(f: Flavor): (ops: seq<Op>)
    ensures |ops| == 0
  {
    if f == Grbl then G.Preamble() else M.Preamble()
  }

  /** The operations whose rendering does not depend on the flavour. */
  predicate IsGeneric(op: Op)
  {
    op.LinearMove? || op.LinearDraw? || op.Pause? || op.SetPositionMode? ||
    op.SetCurrentPosition? || op.SetUnits? || op.SetXY?
  }

  /** When rendering fails: a flavour without an implementation for the
      operation (GRBL stepper control), or a position with no axis where the
      rendering unwraps one. */
  predicate Fails(f: Flavor, op: Op)
  {
    (f == Grbl && op.StepperControl?) ||
    ((op.LinearMove? || op.LinearDraw?) && op.target.NoAxis()) ||
    (op.SetCurrentPosition? && op.current.NoAxis())
  }

  /** The text the flavour's `GCode::render` gives for an operation, or why
      there is none. */
  function Render(f: Flavor, op: Op, num: Fmt): (r: Result<string, RenderError>)
    ensures r.Err? <==> Fails(f, op)
    ensures r.Err? ==> r.error == (if op.StepperControl? then UnsupportedOperation else IncompletePosition)
  {
    match op
    case LinearMove(target, feedrate) => Generic.LinearText("G0", feedrate, target, num)
    case LinearDraw(target, feedrate) => Generic.LinearText("G1", feedrate, target, num)
    case Pause(ms) => Ok(Generic.PauseText(ms))
    case SetPositionMode(positioning) => Ok(Generic.PositionModeText(positioning))
    case SetCurrentPosition(current) => Generic.SetCurrentPositionText(current, num)
    case Activate => Ok(if f == Grbl then G.ACTIVATE else M.ActivateText(num))
    case Deactivate => Ok(if f == Grbl then G.DEACTIVATE else M.DeactivateText(num))
    case SetUnits(units) => Ok(Generic.UnitsText(units))
    case Home(x, y, z) => Ok(if f == Grbl then G.HOME else M.HomeText(x, y, z))
    case StepperControl(steppers) =>
      if f == Grbl then Err(UnsupportedOperation) else Ok(M.StepperText(steppers))
    case EndProgram => Ok(if f == Grbl then G.END_PROGRAM else M.END_PROGRAM)
    case SetXY => Ok(Generic.SET_XY)
  }

  /** The generic renderings are the same for every flavour. */
  lemma FlavorIndependent(op: Op, num: Fmt)
    requires IsGeneric(op)
    ensures Render(Grbl, op, num) == Render(Marlin, op, num)
  {
  }

  /** Every generic rendering that succeeds is a single line. */
  lemma GenericSingleLine(f: Flavor, op: Op, num: Fmt)
    requires WordFmt(num) && IsGeneric(op) && !Fails(f, op)
    ensures '\n' !in Render(f, op, num).value
  {
    match op {
      case LinearMove(target, feedrate) => LinearSingleLine("G0", feedrate, target, num);
      case LinearDraw(target, feedrate) => LinearSingleLine("G1", feedrate, target, num);
      case Pause(ms) => DecimalIsWord(ms);
      case SetPositionMode(_) =>
      case SetCurrentPosition(current) => PositionWordsSplit(current, num);
      case SetUnits(_) =>
      case SetXY =>
    }
  }

  lemma LinearSingleLine(code: string, feedrate: Option<U32>, target: Vec3, num: Fmt)
    requires WordFmt(num) && !target.NoAxis() && '\n' !in code
    ensures '\n' !in Generic.LinearText(code, feedrate, target, num).value
  {
    PositionWordsSplit(target, num);
    DecimalIsWord(if feedrate.Some? then feedrate.value else 0);
    var parts := [code] + Generic.FeedWord(feedrate) + [PositionText(target, num).value];
    assert forall i :: 0 <= i < |parts| ==> '\n' !in parts[i];
    JoinAvoids(parts, ' ', '\n');
  }

  /** `SetXY` renders "G17" for every flavour. */
  lemma SetXYEveryFlavor(f: Flavor, num: Fmt)
    ensures Render(f, SetXY, num) == Ok("G17")
  {
  }

  /** GRBL homing is the "$H" cycle whatever axes are requested. */
  lemma GrblHomeIgnoresFlags(x: bool, y: bool, z: bool, num: Fmt)
    ensures Render(Grbl, Home(x, y, z), num) == Ok("$H")
  {
  }

  /** A program ends with spindle-off and program-end on GRBL, with only
      M5 on Marlin. */
  lemma EndProgramTexts(num: Fmt)
    ensures Render(Grbl, EndProgram, num) == Ok("M5\nM2")
    ensures Render(Marlin, EndProgram, num) == Ok("M5")
  {
  }

  /** On Marlin the pen operations render exactly as the rapid move to the
      pen position with no feedrate. */
  lemma MarlinPenIsMove(num: Fmt)
    ensures Render(Marlin, Activate, num) == Render(Marlin, LinearMove(M.ACTIVATE_TARGET, None), num)
    ensures Render(Marlin, Deactivate, num) == Render(Marlin, LinearMove(M.DEACTIVATE_TARGET, None), num)
  {
  }

  /** Reading a Marlin homing line back gives the operation. */
  lemma MarlinHomeRoundTrip(x: bool, y: bool, z: bool, num: Fmt)
    ensures M.ReadHome(Render(Marlin, Home(x, y, z), num).value) == Some(Home(x, y, z))
  {
    M.HomeRoundTrip(x, y, z);
  }

  /** Reading a Marlin stepper-control text back gives the requested state of
      every axis. */
  lemma MarlinStepperRoundTrip(s: Steppers, num: Fmt)
    ensures M.ReadSteppers(Render(Marlin, StepperControl(s), num).value) == Some(s)
  {
    assert Render(Marlin, StepperControl(s), num).value == M.StepperText(s);
    M.StepperPartition(s);
  }

  /** Reading a dwell, distance-mode or units line back gives the operation. */
  lemma GenericRoundTrips(f: Flavor, ms: U32, positioning: Position, units: Units, num: Fmt)
    ensures var w := Words(Render(f, Pause(ms), num).value);
      |w| == 2 && w[0] == "G4" && |w[1]| > 0 && ParseU32(w[1][1..]) == Some(ms)
    ensures Generic.ReadPositionMode(Render(f, SetPositionMode(positioning), num).value) == Some(positioning)
    ensures Generic.ReadUnits(Render(f, SetUnits(units), num).value) == Some(units)
  {
    Generic.PauseRoundTrip(ms);
    Generic.PositionModeRoundTrip(positioning);
    Generic.UnitsRoundTrip(units);
  }
}
