/**
  The digital-to-analog converter driver: two staged 16-bit codes that the
  setters overwrite and `Update` commits to the two output channels.

  The register writes are recorded in a ghost log; the peripheral bring-up
  and the end-of-conversion busy-wait are not part of this model.
 */
module Dac {
  import opened Types

  /** One write of `value` to the data register of DAC channel `channel`. */
  datatype RegisterWrite = DataWrite(channel: nat, value: u16)

  class Dac {
    var dac0Value: u16
    var dac1Value: u16
    ghost var written: seq<RegisterWrite>

    /** A freshly brought-up converter stages 0 on both channels and has written nothing. */
    constructor ()
      ensures dac0Value == 0 && dac1Value == 0
      ensures written == []
    {
      dac0Value, dac1Value := 0, 0;
      written := [];
    }

    /** Commits channel 0 then channel 1; the staged codes stay as they are. */
    method Update()
      modifies this`written
      ensures written == old(written) + [DataWrite(0, dac0Value), DataWrite(1, dac1Value)]
      ensures dac0Value == old(dac0Value) && dac1Value == old(dac1Value)
    {
      written := written + [DataWrite(0, dac0Value)];
      written := written + [DataWrite(1, dac1Value)];
    }

    method SetAdc0Desired(value: u16)
      modifies this`dac0Value
      ensures dac0Value == value
      ensures dac1Value == old(dac1Value) && written == old(written)
    {
      dac0Value := value;
    }

    method SetAdc1Desired(value: u16)
      modifies this`dac1Value
      ensures dac1Value == value
      ensures dac0Value == old(dac0Value) && written == old(written)
    {
      dac1Value := value;
    }

    method Set(dac0: u16, dac1: u16)
      modifies this`dac0Value, this`dac1Value
      ensures dac0Value == dac0 && dac1Value == dac1
      ensures written == old(written)
    {
      dac0Value := dac0;
      dac1Value := dac1;
    }

    /** Stages the two codes of an output record, code dac0 on channel 0. */
    method SetOutput(output: OutputValues)
      modifies this`dac0Value, this`dac1Value
      ensures dac0Value == output.dac0 && dac1Value == output.dac1
      ensures written == old(written)
    {
      dac0Value := output.dac0;
      dac1Value := output.dac1;
    }
  }
}
