/** The GRBL renderings: the pen is a spindle-style output switched with M3
    at two duty values followed by a fixed dwell, homing is the `$H` cycle,
    and a program ends with spindle-off and program-end. */
module Grbl {
  import opened Wrappers
  import opened Text
  import opened Gcode
  import Generic

  const ACTIVATE := "M3 S254\nG4 P300"
  const DEACTIVATE := "M3 S65\nG4 P300"
  const HOME := "$H"
  const END_PROGRAM := "M5\nM2"

  /** `MachineType::preamble` for GRBL: no operations. */
  function Preamble(): (ops: seq<Op>)
    ensures |ops| == 0
  {
    []
  }

  lemma TwoLines(a: string, b: string)
    requires '\n' !in a && '\n' !in b
    ensures Lines(a + "\n" + b) == [a, b]
  {
    SplitJoin([a, b], '\n');
    assert Join([a, b], '\n') == a + "\n" + b;
  }

  lemma TwoWords(a: string, b: string)
    requires ' ' !in a && ' ' !in b
    ensures Words(a + " " + b) == [a, b]
  {
    SplitJoin([a, b], ' ');
    assert Join([a, b], ' ') == a + " " + b;
  }

  lemma Decimals()
    ensures Decimal(300) == "300" && Decimal(254) == "254" && Decimal(65) == "65"
  {
    assert Decimal(30) == "30" by { assert Decimal(3) == "3"; }
    assert Decimal(25) == "25" by { assert Decimal(2) == "2"; }
    assert Decimal(6) == "6";
  }

  /** Activate is two lines: M3 with duty value 254 (pen down), then a
      300 ms dwell. */
  lemma ActivateLines()
    ensures Lines(ACTIVATE) == ["M3 S254", "G4 P300"]
  {
    var down, dwell := "M3 S254", "G4 P300";
    assert '\n' !in down && '\n' !in dwell;
    TwoLines(down, dwell);
    assert down + "\n" + dwell == ACTIVATE;
  }

  /** Deactivate differs from Activate only in the duty value, 65 (pen up);
      the dwell line is the same. */
  lemma DeactivateLines()
    ensures Lines(DEACTIVATE) == ["M3 S65", "G4 P300"]
  {
    var up, dwell := "M3 S65", "G4 P300";
    assert '\n' !in up && '\n' !in dwell;
    TwoLines(up, dwell);
    assert up + "\n" + dwell == DEACTIVATE;
  }

  /** The shared second line is the dwell `Pause` renders for 300 ms. */
  lemma PenDwell()
    ensures Generic.PauseText(300) == "G4 P300"
  {
    Decimals();
  }

  /** The shape of both pen commands: M3 with the S word of a duty value,
      then a dwell. */
  function PenCommand(duty: U32, dwell: U32): string
  {
    "M3 S" + Decimal(duty) + "\n" + Generic.PauseText(dwell)
  }

  /** A pen command reads back as two lines: an M3 line whose S word parses
      to the duty value, and the dwell `Pause` renders. */
  lemma PenCommandRead(duty: U32, dwell: U32)
    ensures var ls := Lines(PenCommand(duty, dwell));
      |ls| == 2 && ls[1] == Generic.PauseText(dwell) &&
      var w := Words(ls[0]);
      |w| == 2 && w[0] == "M3" && |w[1]| > 0 && w[1][0] == 'S' && ParseU32(w[1][1..]) == Some(duty)
  {
    DecimalIsWord(duty);
    DecimalIsWord(dwell);
    var word := "S" + Decimal(duty);
    var line := "M3" + " " + word;
    assert ' ' !in word && '\n' !in line;
    assert '\n' !in Generic.PauseText(dwell);
    TwoLines(line, Generic.PauseText(dwell));
    assert PenCommand(duty, dwell) == line + "\n" + Generic.PauseText(dwell);
    TwoWords("M3", word);
    assert word[1..] == Decimal(duty);
    DecimalRoundTrip(duty);
  }

  /** Activate is the pen command for duty value 254 (pen down) and a 300 ms
      dwell. */
  lemma ActivateDuty()
    ensures ACTIVATE == PenCommand(254, 300)
  {
    Decimals();
  }

  /** Deactivate is the pen command for duty value 65 (pen up) and the same
      dwell. */
  lemma DeactivateDuty()
    ensures DEACTIVATE == PenCommand(65, 300)
  {
    Decimals();
  }

  /** EndProgram is the two lines spindle-off then program-end. */
  lemma EndProgramLines()
    ensures Lines(END_PROGRAM) == ["M5", "M2"]
  {
    var off, end := "M5", "M2";
    assert '\n' !in off && '\n' !in end;
    TwoLines(off, end);
    assert off + "\n" + end == END_PROGRAM;
  }
}
