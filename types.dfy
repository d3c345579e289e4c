/**
  Machine integer types and the shared value records of the firmware.

  The records InputValues and OutputValues live in a source file that is not
  part of this model; their shape (two u16 fields each, zero by default) is
  the one every user of them relies on.
 */
module Types {

  newtype u8 = x: int | 0 <= x < 0x100
  newtype u16 = x: int | 0 <= x < 0x1_0000
  newtype u32 = x: int | 0 <= x < 0x1_0000_0000

  const U16_MAX: u16 := 0xFFFF

  datatype Option<T> = None | Some(value: T)

  /** The most recent raw sample of each analog input (the Sample Store). */
  datatype InputValues = InputValues(rawAdcA0: u16, rawAdcA1: u16)

  /** The two actuation codes last computed by the control task (the Output Store). */
  datatype OutputValues = OutputValues(dac0: u16, dac1: u16)

  const DefaultInputs: InputValues := InputValues(0, 0)
  const DefaultOutputs: OutputValues := OutputValues(0, 0)
}
