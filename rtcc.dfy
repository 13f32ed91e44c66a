/**
 * The two value types the driver takes from the `rtcc` crate. Their
 * definitions belong to that crate; only their shape is reproduced here.
 */
module Rtcc {
  import opened Base

  /** An hour of the day, in one of the three notations the device keeps. */
  datatype Hours = H24(hour: u8) | AM(hour: u8) | PM(hour: u8)

  /** A calendar date and time of day, as passed to and from the driver. */
  datatype DateTime = DateTime(
    year: u16,
    month: u8,
    day: u8,
    weekday: u8,
    hour: Hours,
    minute: u8,
    second: u8)
}
