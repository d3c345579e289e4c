/**
  The application's shared stores and the bodies of the tasks that use them.

  The tasks are modelled as sequential methods on one App object; which task
  runs when (priorities, periods, interrupts) is not part of this model.
  Setpoints are integers in half-units: the guards `> 1.0` and `< 20.0` of
  the button task become `> 2` and `< 40`, and each 0.5 step becomes 1.
 */
module App {
  import opened Types
  import opened Logics
  import Dac

  datatype Button = TopLeft | TopMiddle | Left | Right | Down | Up | Click

  /** A decoded button transition; `down` is true for a press. */
  datatype ButtonEvent = ButtonEvent(button: Button, down: bool)

  /** The reachable setpoints: both in [0, 20] volts-equivalent. */
  predicate InRange(d: DesiredOutput)
  {
    0 <= d.dac0 <= 40 && 0 <= d.dac1 <= 40
  }

  /**
    The setpoints after the button task handles `e`. TopLeft and TopMiddle
    press lower and raise dac0, Down and Up press lower and raise dac1, by
    one half-unit, lowering only above 1.0 and raising only below 20.0.
    Releases and the other buttons change nothing.
   */
  function ApplyButton(d: DesiredOutput, e: ButtonEvent): (r: DesiredOutput)
    ensures e.button in {TopLeft, TopMiddle} ==> r.dac1 == d.dac1
    ensures e.button in {Down, Up} ==> r.dac0 == d.dac0
    ensures !e.down || e.button in {Left, Right, Click} ==> r == d
    ensures e.down && e.button == TopLeft ==> (r.dac0 == d.dac0 - 1 <==> d.dac0 > 2) && (r.dac0 == d.dac0 <==> d.dac0 <= 2)
    ensures e.down && e.button == TopMiddle ==> (r.dac0 == d.dac0 + 1 <==> d.dac0 < 40) && (r.dac0 == d.dac0 <==> d.dac0 >= 40)
    ensures e.down && e.button == Down ==> (r.dac1 == d.dac1 - 1 <==> d.dac1 > 2) && (r.dac1 == d.dac1 <==> d.dac1 <= 2)
    ensures e.down && e.button == Up ==> (r.dac1 == d.dac1 + 1 <==> d.dac1 < 40) && (r.dac1 == d.dac1 <==> d.dac1 >= 40)
  {
    if !e.down then d
    else
      match e.button
      case TopLeft => if d.dac0 > 2 then d.(dac0 := d.dac0 - 1) else d
      case TopMiddle => if d.dac0 < 40 then d.(dac0 := d.dac0 + 1) else d
      case Down => if d.dac1 > 2 then d.(dac1 := d.dac1 - 1) else d
      case Up => if d.dac1 < 40 then d.(dac1 := d.dac1 + 1) else d
      case _ => d
  }

  /** The setpoints after the button task has handled `events`, oldest first. */
  function ApplyButtons(d: DesiredOutput, events: seq<ButtonEvent>): DesiredOutput
  {
    if events == [] then d
    else ApplyButton(ApplyButtons(d, events[..|events| - 1]), events[|events| - 1])
  }

  /** One button event keeps the setpoints in [0, 20]. */
  lemma ButtonKeepsRange(d: DesiredOutput, e: ButtonEvent)
    requires InRange(d)
    ensures InRange(ApplyButton(d, e))
  {
  }

  /**
    Any sequence of button events keeps in-range setpoints in range, and a
    setpoint that has reached 1.0 never drops below it again.
   */
  lemma {:induction false} ButtonsKeepRange(d: DesiredOutput, events: seq<ButtonEvent>)
    requires InRange(d)
    ensures var r := ApplyButtons(d, events);
      && InRange(r)
      && (d.dac0 >= 2 ==> r.dac0 >= 2)
      && (d.dac1 >= 2 ==> r.dac1 >= 2)
    decreases |events|
  {
    if events != [] {
      ButtonsKeepRange(d, events[..|events| - 1]);
    }
  }

  /** From the power-on setpoints (both 0), every reachable setpoint is a multiple of 0.5 in [0, 20]. */
  lemma ReachableSetpoints(events: seq<ButtonEvent>)
    ensures var r := ApplyButtons(DefaultDesired, events);
      && 0.0 <= Volts(r.dac0) <= 20.0 && 0.0 <= Volts(r.dac1) <= 20.0
  {
    ButtonsKeepRange(DefaultDesired, events);
  }

  class App {
    /** Sample Store: written by the two sample-ready interrupts. */
    var inputs: InputValues
    /** Output Store: written by the control task. */
    var outputs: OutputValues
    /** Setpoint Store: written by the button task. */
    var desiredOut: DesiredOutput
    /** The last control cycle, for diagnostics. */
    var state: State
    /** The converter driven by the actuation task. */
    const dac: Dac.Dac

    /**
      The invariant every task keeps: setpoints in [0, 20] and, therefore,
      output codes of at most 4096.
     */
    ghost predicate Valid()
      reads this
    {
      InRange(desiredOut) && outputs.dac0 <= 4096 && outputs.dac1 <= 4096
    }

    /** Power-on: every store holds its default (zero) value. */
    constructor ()
      ensures Valid()
      ensures inputs == DefaultInputs && outputs == DefaultOutputs
      ensures desiredOut == DefaultDesired && state == DefaultState
      ensures fresh(dac) && dac.dac0Value == 0 && dac.dac1Value == 0 && dac.written == []
    {
      inputs := DefaultInputs;
      outputs := DefaultOutputs;
      desiredOut := DefaultDesired;
      state := DefaultState;
      dac := new Dac.Dac();
    }

    /** The button task: adjusts one setpoint by one half-unit, within the guards. */
    method Button(e: ButtonEvent)
      requires Valid()
      modifies this
      ensures Valid()
      ensures desiredOut == ApplyButton(old(desiredOut), e)
      ensures inputs == old(inputs) && outputs == old(outputs) && state == old(state)
    {
      if e.down {
        match e.button
        case TopLeft =>
          if desiredOut.dac0 > 2 {
            desiredOut := desiredOut.(dac0 := desiredOut.dac0 - 1);
          }
        case TopMiddle =>
          if desiredOut.dac0 < 40 {
            desiredOut := desiredOut.(dac0 := desiredOut.dac0 + 1);
          }
        case Down =>
          if desiredOut.dac1 > 2 {
            desiredOut := desiredOut.(dac1 := desiredOut.dac1 - 1);
          }
        case Up =>
          if desiredOut.dac1 < 40 {
            desiredOut := desiredOut.(dac1 := desiredOut.dac1 + 1);
          }
        case _ =>
      }
    }

    /** Sample-ready interrupt of input 0: stores the new sample if there is one. */
    method Adc0Rdy(sample: Option<u16>)
      requires Valid()
      modifies this
      ensures Valid()
      ensures inputs == if sample.Some? then old(inputs).(rawAdcA0 := sample.value) else old(inputs)
      ensures outputs == old(outputs) && desiredOut == old(desiredOut) && state == old(state)
    {
      if sample.None? {
        return;
      }
      inputs := inputs.(rawAdcA0 := sample.value);
    }

    /** Sample-ready interrupt of input 1: stores the new sample if there is one. */
    method Adc1Rdy(sample: Option<u16>)
      requires Valid()
      modifies this
      ensures Valid()
      ensures inputs == if sample.Some? then old(inputs).(rawAdcA1 := sample.value) else old(inputs)
      ensures outputs == old(outputs) && desiredOut == old(desiredOut) && state == old(state)
    {
      if sample.None? {
        return;
      }
      inputs := inputs.(rawAdcA1 := sample.value);
    }

    /** The control task: runs the limiter on the current samples and setpoints. */
    method Sync()
      requires Valid()
      modifies this
      ensures Valid()
      ensures state == State.From(inputs, desiredOut)
      ensures outputs == state.GetOutputLevel()
      ensures inputs == old(inputs) && desiredOut == old(desiredOut)
    {
      var s := State.From(inputs, desiredOut);
      OutputLevelsBounded(inputs, desiredOut);
      outputs := s.GetOutputLevel();
      state := s;
    }

    /** The actuation task: stages the current output codes and commits them. */
    method DacUpdate()
      requires Valid()
      modifies dac
      ensures dac.dac0Value == outputs.dac0 && dac.dac1Value == outputs.dac1
      ensures dac.written == old(dac.written) + [Dac.DataWrite(0, outputs.dac0), Dac.DataWrite(1, outputs.dac1)]
      ensures outputs.dac0 <= 4096 && outputs.dac1 <= 4096
    {
      dac.SetOutput(outputs);
      dac.Update();
    }
  }
}
