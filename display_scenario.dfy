/** A client of the display helper: the temperature line of a 16 x 2 character display. */
module DisplayScenarios {
  import opened Displays

  /** A 16 x 2 display with range 0 reserved as line 0, cells 0 to 15: updating range 0
      with a reading of at most 16 characters and drawing shows the reading padded with
      spaces on line 0, and leaves line 1 blank. */
  method TemperatureLineScenario(reading: string) returns (line0: string, line1: string)
    requires |reading| <= 16
    requires forall i :: 0 <= i < |reading| ==> reading[i] != '\0'
    ensures line0 == reading + Spaces(16 - |reading|)
    ensures line1 == Spaces(16)
  {
    var d := new Display(16, 2, 2);
    d.Reserve(0, 0, 0, 15);
    assert d.ranges[0] == Range(0, 0, 15);
    ghost var before := d.Cells();
    d.Update(0, reading);
    var frame, w, h := d.Draw();
    assert frame == Overwrite(before, Range(0, 0, 15), reading);
    line0 := frame[0][..16];
    line1 := frame[1][..16];
    FitShortText(reading, 16);
    assert forall c :: 0 <= c < 16 ==> line0[c] == Fit(reading, 16)[c];
    assert forall c :: 0 <= c < 16 ==> line1[c] == ' ';
  }

  /** The reading "Temp 23.40*C" has no NUL and is 12 characters long. */
  lemma TemperatureReadingIsPlain()
    ensures |"Temp 23.40*C"| == 12
    ensures forall i :: 0 <= i < 12 ==> "Temp 23.40*C"[i] != '\0'
  {
  }

  /** With the reading "Temp 23.40*C", line 0 reads "Temp 23.40*C    ": 12 characters
      and four spaces. */
  lemma TemperatureLinePadded()
    ensures "Temp 23.40*C" + Spaces(16 - 12) == "Temp 23.40*C    "
  {
    assert Spaces(4) == "    ";
  }

  /** The concrete reading: line 0 shows "Temp 23.40*C    " and line 1 is blank. */
  method TemperatureReadingScenario() returns (line0: string, line1: string)
    ensures line0 == "Temp 23.40*C    "
    ensures line1 == "                "
  {
    TemperatureReadingIsPlain();
    line0, line1 := TemperatureLineScenario("Temp 23.40*C");
    TemperatureLinePadded();
    assert Spaces(16) == "                ";
  }
}
