/**
 * Bytes, errors, register addresses and flag bits of the MCP794xx driver
 * (src/lib.rs).
 */
module Base {
  /** The driver's `u8` and `u16`. Dafny's bit-vector operators are unsigned
      and wrap; the driver's arithmetic never overflows on the values it
      handles, and where it drops high bits (a shift left, a cast to `u8`)
      `bv8` drops the same ones. */
  type u8 = bv8
  type u16 = bv16

  /** The two error kinds of the driver. A bus error is passed through
      without its payload. */
  datatype Error = Comm | InvalidInputData

  /** Rust's `Result<T, Error<E>>`; it is failure-compatible, so `:-` plays
      the part of Rust's `?`. */
  datatype Result<T> = Ok(value: T) | Err(error: Error) {
    predicate IsFailure() { Err? }

    function PropagateFailure<U>(): Result<U>
      requires Err?
    {
      Err(error)
    }

    function Extract(): T
      requires Ok?
    {
      value
    }
  }

  // Register addresses of the time-keeping block.
  const RTCSEC: u8 := 0x00
  const RTCMIN: u8 := 0x01
  const RTCHOUR: u8 := 0x02
  const RTCWKDAY: u8 := 0x03
  const RTCDATE: u8 := 0x04
  const RTCMONTH: u8 := 0x05
  const RTCYEAR: u8 := 0x06

  /** Number of registers in the block RTCSEC..RTCYEAR. */
  const BLOCK_LEN: nat := 7

  // Bit flags.
  /** Oscillator start bit, in RTCSEC. */
  const ST: u8 := 0x80
  /** 12/24-hour format select, in RTCHOUR (set means 12-hour). */
  const H24_H12: u8 := 0x40
  /** AM/PM flag, in RTCHOUR (set means PM). */
  const AM_PM: u8 := 0x20
  /** Battery-backup enable, in RTCWKDAY. */
  const VBATEN: u8 := 0x08
  /** Oscillator running status, in RTCWKDAY. */
  const OSCRUN: u8 := 0x20
  /** The weekday field, bits 0-2 of RTCWKDAY. */
  const WKDAY: u8 := 0x07
  /** Leap-year flag, in RTCMONTH. */
  const LPYR: u8 := 0x20

  /** The status bits that share RTCWKDAY with the weekday do not overlap
      it or each other. */
  lemma WeekdayFlagsDisjoint()
    ensures WKDAY & VBATEN == 0 && WKDAY & OSCRUN == 0 && VBATEN & OSCRUN == 0
  {
  }
}
