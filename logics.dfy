/**
  The cross-channel limiter: the one piece of domain logic of the firmware.

  Each side carries a normalised input, a desired output (setpoint) and the
  real output the limiter allows. A side's real output is capped by the
  OPPOSITE side's input: an idle opposite side (input below 1.0) leaves the
  setpoint through, an opposite input below the setpoint becomes the output,
  and anything else cuts the output to 0.0.

  Arithmetic is over `real`; the single-precision rounding of the firmware
  is not modelled. Setpoints are integers in half-units (see DesiredOutput).
 */
module Logics {
  import opened Types

  /** Setpoints in half-units: a setpoint `h` stands for `h / 2` volts-equivalent. */
  datatype DesiredOutput = DesiredOutput(dac0: int, dac1: int)

  const DefaultDesired: DesiredOutput := DesiredOutput(0, 0)

  /** The value, in volts-equivalent units, of a setpoint held in half-units. */
  function Volts(halfUnits: int): (v: real)
    ensures v + v == halfUnits as real
  {
    halfUnits as real / 2.0
  }

  datatype Side = Side(input: real, desiredOutput: real, realOutput: real)
  {
    /**
      The output `want` may have, given that this side's input is the
      limiting one. The flag is false exactly in the cutoff case.
     */
    function OutputFor(want: Side): (r: (real, bool))
      ensures input < 1.0 ==> r == (want.desiredOutput, true)
      ensures 1.0 <= input < want.desiredOutput ==> r == (input, true)
      ensures !r.1 <==> 1.0 <= input && want.desiredOutput <= input
      ensures !r.1 ==> r.0 == 0.0
    {
      if input < 1.0 then
        (want.desiredOutput, true)
      else if input < want.desiredOutput then
        (input, true)
      else
        (0.0, false)
    }
  }

  const DefaultSide: Side := Side(0.0, 0.0, 0.0)

  datatype State = State(left: Side, right: Side)
  {
    /**
      One control cycle: raw sample a0 feeds the left side, a1 the right;
      setpoint dac0 is the left side's desired output, dac1 the right's.
      The right side is limited by the left input and the left side by the
      right input.
     */
    static function From(inputs: InputValues, desired: DesiredOutput): (s: State)
      ensures s.left.input == AdcConvert(inputs.rawAdcA0).1
      ensures s.right.input == AdcConvert(inputs.rawAdcA1).1
      ensures s.left.desiredOutput == Volts(desired.dac0)
      ensures s.right.desiredOutput == Volts(desired.dac1)
      ensures s.right.realOutput == s.left.OutputFor(s.right).0
      ensures s.left.realOutput == s.right.OutputFor(s.left).0
    {
      var left := Side(AdcConvert(inputs.rawAdcA0).1, Volts(desired.dac0), 0.0);
      var right := Side(AdcConvert(inputs.rawAdcA1).1, Volts(desired.dac1), 0.0);
      var right' := right.(realOutput := left.OutputFor(right).0);
      var left' := left.(realOutput := right'.OutputFor(left).0);
      State(left', right')
    }

    /**
      The actuation codes of this state. The channels cross: code dac0
      carries the RIGHT side's real output and code dac1 the LEFT side's.
     */
    function GetOutputLevel(): (out: OutputValues)
      ensures right.realOutput <= 20.0 ==> out.dac0 <= 4096
      ensures left.realOutput <= 20.0 ==> out.dac1 <= 4096
      ensures right.realOutput <= 0.0 ==> out.dac0 == 0
      ensures left.realOutput <= 0.0 ==> out.dac1 == 0
      ensures right.realOutput <= left.realOutput ==> out.dac0 <= out.dac1
      ensures left.realOutput <= right.realOutput ==> out.dac1 <= out.dac0
    {
      OutputValues(DacConvert(right.realOutput), DacConvert(left.realOutput))
    }

    /**
      Raw sample to (volts at the pin, scaled input), taking 4096 as full
      scale. The scaled input divides by the 3/3.3 voltage ratio and
      multiplies by the output range 20. There is no range check on `raw`:
      input 0 is sampled at 16-bit resolution, so it can exceed 4096.
     */
    static function AdcConvert(raw: u16): (r: (real, real))
      ensures r.0 == raw as real * 33.0 / 40960.0
      ensures r.1 == raw as real * 11.0 / 2048.0
      ensures 0.0 <= r.0 && 0.0 <= r.1
      ensures raw == 0 ==> r == (0.0, 0.0)
    {
      var maxVoltageRatio := 3.0 / 3.3;
      var percent := raw as real / 4096.0;
      var volt := percent * 3.3;
      var scaled := (percent / maxVoltageRatio) * 20.0;
      (volt, scaled)
    }

    /**
      Scaled output to a 16-bit actuation code: `outVoltage / 20 * 4096`
      truncated toward zero. The float-to-u16 cast saturates, so negative
      values give 0 and values of 65536 or more give 65535.
     */
    static function DacConvert(outVoltage: real): (code: u16)
      ensures outVoltage <= 0.0 ==> code == 0
      ensures 0.0 <= outVoltage && outVoltage * 4096.0 / 20.0 < 65536.0 ==>
                code as real <= outVoltage * 4096.0 / 20.0 < code as real + 1.0
      ensures 65536.0 <= outVoltage * 4096.0 / 20.0 ==> code == U16_MAX
    {
      var scaled := (outVoltage / 20.0) * 4096.0;
      if scaled < 0.0 then 0
      else if scaled >= 65536.0 then U16_MAX
      else scaled.Floor as u16
    }
  }

  const DefaultState: State := State(DefaultSide, DefaultSide)

  /**
    With a non-negative limiting input and setpoint, the allowed output lies
    between 0 and the setpoint, is one of the setpoint, the limiting input or
    0, and never exceeds an active (at least 1.0) limiting input.
   */
  lemma OutputForBounds(limiter: Side, want: Side)
    requires 0.0 <= limiter.input && 0.0 <= want.desiredOutput
    ensures var r := limiter.OutputFor(want).0;
      && 0.0 <= r <= want.desiredOutput
      && (r == want.desiredOutput || r == limiter.input || r == 0.0)
      && (1.0 <= limiter.input ==> r <= limiter.input)
  {
  }

  /** Both real outputs of a control cycle lie between 0 and their own setpoint. */
  lemma FromOutputsBounded(inputs: InputValues, desired: DesiredOutput)
    requires 0 <= desired.dac0 && 0 <= desired.dac1
    ensures var s := State.From(inputs, desired);
      && 0.0 <= s.left.realOutput <= s.left.desiredOutput
      && 0.0 <= s.right.realOutput <= s.right.desiredOutput
  {
    var s := State.From(inputs, desired);
    OutputForBounds(s.left, s.right);
    OutputForBounds(s.right, s.left);
  }

  /** The scaled input grows with the raw sample. */
  lemma AdcConvertMonotone(a: u16, b: u16)
    requires a <= b
    ensures State.AdcConvert(a).1 <= State.AdcConvert(b).1
  {
  }

  /** Truncation never decreases when the scaled output grows. */
  lemma DacConvertMonotone(v: real, w: real)
    requires v <= w
    ensures State.DacConvert(v) <= State.DacConvert(w)
  {
  }

  /** Every setpoint in [0, 20] maps to a code of at most 4096, and 0 to 0. */
  lemma DacConvertRange(v: real)
    requires v <= 20.0
    ensures State.DacConvert(v) <= 4096
    ensures v == 0.0 ==> State.DacConvert(v) == 0
  {
  }

  /**
    Converting a raw sample to the scaled input and back to a code does NOT
    give the sample back: the 3/3.3 voltage ratio makes it floor(11 * raw / 10),
    saturated at 65535 for samples above 59578.
   */
  lemma AdcDacRoundTrip(raw: u16)
    ensures var q := (11 * raw as int) / 10;
      State.DacConvert(State.AdcConvert(raw).1) as int == if q < 0x1_0000 then q else 0xFFFF
  {
    var x := State.AdcConvert(raw).1 * 4096.0 / 20.0;
    assert x == raw as real * 11.0 / 10.0;
    var q := (11 * raw as int) / 10;
    assert q as real <= x < q as real + 1.0;
  }

  /**
    End to end for one control cycle: code dac0 is the right setpoint limited
    by input a0, and code dac1 the left setpoint limited by input a1.
   */
  lemma OutputLevelsCrossed(inputs: InputValues, desired: DesiredOutput)
    ensures var a0, a1 := State.AdcConvert(inputs.rawAdcA0).1, State.AdcConvert(inputs.rawAdcA1).1;
      var d0, d1 := Volts(desired.dac0), Volts(desired.dac1);
      var out := State.From(inputs, desired).GetOutputLevel();
      && out.dac0 == State.DacConvert(if a0 < 1.0 then d1 else if a0 < d1 then a0 else 0.0)
      && out.dac1 == State.DacConvert(if a1 < 1.0 then d0 else if a1 < d0 then a1 else 0.0)
  {
  }

  /** With setpoints in [0, 20], neither actuation code exceeds 4096. */
  lemma OutputLevelsBounded(inputs: InputValues, desired: DesiredOutput)
    requires 0 <= desired.dac0 <= 40 && 0 <= desired.dac1 <= 40
    ensures var out := State.From(inputs, desired).GetOutputLevel();
      out.dac0 <= 4096 && out.dac1 <= 4096
  {
    var s := State.From(inputs, desired);
    FromOutputsBounded(inputs, desired);
    DacConvertRange(s.right.realOutput);
    DacConvertRange(s.left.realOutput);
  }

  /**
    The three limiter cases on a right setpoint of 10.0: left idle (raw 0),
    left input about 5.0 (raw 931) limiting, left input about 15.0 (raw 2793)
    cutting off.
   */
  lemma LimiterScenarios()
    ensures State.From(InputValues(0, 0), DesiredOutput(0, 20)).right.realOutput == 10.0
    ensures var s := State.From(InputValues(931, 0), DesiredOutput(0, 20));
      5.0 < s.right.realOutput < 5.01 && s.right.realOutput == s.left.input
    ensures State.From(InputValues(2793, 0), DesiredOutput(0, 20)).right.realOutput == 0.0
  {
  }
}
