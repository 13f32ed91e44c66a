/**
 * Packed-BCD conversion and the hour-register layout (src/common/mod.rs).
 * All of these are total functions on bytes.
 */
module Codec {
  import opened Base
  import opened Rtcc

  // A shift by four on a `u8` is written here as an unsigned division or
  // multiplication by 16, which on `bv8` is the same operation.

  /** A byte whose two nibbles are both decimal digits. */
  predicate IsPackedBcd(b: u8) {
    b / 16 <= 9 && b & 0x0F <= 9
  }

  /** Packs a decimal number into two BCD nibbles: tens above, ones below. */
  function DecimalToPackedBcd(dec: u8): u8 {
    ((dec / 10) * 16) | (dec % 10)
  }

  /** The low nibble is always the ones digit; the tens go into the high
      nibble and, as with Rust's `u8` shift, whatever does not fit into four
      bits is lost. On 0..99 both nibbles are decimal digits. */
  lemma BcdNibbles(dec: u8)
    ensures DecimalToPackedBcd(dec) & 0x0F == dec % 10
    ensures DecimalToPackedBcd(dec) / 16 == (dec / 10) % 16
    ensures dec <= 99 ==> IsPackedBcd(DecimalToPackedBcd(dec)) && DecimalToPackedBcd(dec) / 16 == dec / 10
  {
  }

  /** Reads a byte as two BCD nibbles: high nibble times ten plus low
      nibble. */
  function PackedBcdToDecimal(bcd: u8): (dec: u8)
    ensures dec <= 165
    ensures IsPackedBcd(bcd) ==> dec <= 99
  {
    (bcd / 16) * 10 + (bcd & 0x0F)
  }

  /** The `u8` arithmetic of `PackedBcdToDecimal` never wraps: done in
      16 bits, where nothing can overflow, it gives the same value. */
  lemma PackedBcdToDecimalExact(bcd: u8)
    ensures PackedBcdToDecimal(bcd) as u16 == (bcd as u16 / 16) * 10 + (bcd as u16 & 0x0F)
  {
  }

  /** Decoding undoes encoding on 0..99. */
  lemma BcdRoundTrip(n: u8)
    requires n <= 99
    ensures PackedBcdToDecimal(DecimalToPackedBcd(n)) == n
  {
  }

  /** Encoding undoes decoding on well-formed BCD bytes. */
  lemma BcdRoundTripFromByte(b: u8)
    requires IsPackedBcd(b)
    ensures PackedBcdToDecimal(b) <= 99
    ensures DecimalToPackedBcd(PackedBcdToDecimal(b)) == b
  {
  }

  /** The well-formed BCD bytes are exactly the encodings of 0..99. */
  lemma BcdImage(b: u8)
    ensures IsPackedBcd(b) <==> exists n: u8 :: n <= 99 && DecimalToPackedBcd(n) == b
  {
    if IsPackedBcd(b) {
      BcdRoundTripFromByte(b);
      var n := PackedBcdToDecimal(b);
      assert n <= 99 && DecimalToPackedBcd(n) == b;
    } else {
      forall n: u8 | n <= 99
        ensures DecimalToPackedBcd(n) != b
      {
        assert IsPackedBcd(DecimalToPackedBcd(n));
      }
    }
  }

  /** The hour values the device can hold in each notation. */
  predicate ValidHours(h: Hours) {
    match h
    case H24(hr) => hr <= 23
    case AM(hr) => 1 <= hr <= 12
    case PM(hr) => 1 <= hr <= 12
  }

  /** Encodes an hour for RTCHOUR: H24 with the format bit clear, AM with the
      format bit set and the AM/PM bit clear, PM with both set; the bits
      below hold the hour in BCD. Out-of-range hours are rejected. */
  function HoursToRegister(hours: Hours): (r: Result<u8>)
    ensures r.Err? <==> !ValidHours(hours)
    ensures r.Err? ==> r.error == InvalidInputData
  {
    match hours
    case H24(h) =>
      if h > 23 then Err(InvalidInputData) else Ok(DecimalToPackedBcd(h))
    case AM(h) =>
      if h < 1 || h > 12 then Err(InvalidInputData) else Ok(H24_H12 | DecimalToPackedBcd(h))
    case PM(h) =>
      if h < 1 || h > 12 then Err(InvalidInputData) else Ok(H24_H12 | AM_PM | DecimalToPackedBcd(h))
  }

  /** The layout `HoursToRegister` writes: H24_H12 (bit 6) clear for H24;
      H24_H12 set and AM_PM (bit 5) clear for AM; both set for PM; the hour
      in BCD below them, with bit 7 always clear. */
  lemma HoursRegisterLayout(hours: Hours)
    requires ValidHours(hours)
    ensures HoursToRegister(hours).Ok?
    ensures var data := HoursToRegister(hours).value;
      && data & 0x80 == 0
      && (data & H24_H12 == 0 <==> hours.H24?)
      && (hours.H24? ==> data == DecimalToPackedBcd(hours.hour))
      && (hours.AM? ==> data & AM_PM == 0)
      && (hours.PM? ==> data & AM_PM != 0)
      && (!hours.H24? ==> data & !(H24_H12 | AM_PM) == DecimalToPackedBcd(hours.hour))
  {
  }

  /** 24-hour notation: bit 6 of the hour register is clear. */
  function Is24hFormat(hoursData: u8): bool {
    hoursData & H24_H12 == 0
  }

  /** Morning in 12-hour notation: bit 5 of the hour register is clear. */
  function IsAm(hoursData: u8): bool {
    hoursData & AM_PM == 0
  }

  /** Decodes RTCHOUR. Bit 6 selects the notation and, in 12-hour notation,
      bit 5 selects AM or PM; the hour is the BCD value of the remaining bits
      (in 24-hour notation bit 5 is a tens bit and is kept). */
  function HoursFromRegister(data: u8): (h: Hours)
    ensures h.H24? <==> data & H24_H12 == 0
    ensures h.AM? <==> data & H24_H12 != 0 && data & AM_PM == 0
    ensures h.PM? <==> data & H24_H12 != 0 && data & AM_PM != 0
  {
    if Is24hFormat(data) then
      H24(PackedBcdToDecimal(data & !H24_H12))
    else if IsAm(data) then
      AM(PackedBcdToDecimal(data & !(H24_H12 | AM_PM)))
    else
      PM(PackedBcdToDecimal(data & !(H24_H12 | AM_PM)))
  }

  /** Every valid hour survives a trip through the register. */
  lemma HoursRoundTrip(h: Hours)
    requires ValidHours(h)
    ensures HoursToRegister(h).Ok?
    ensures HoursFromRegister(HoursToRegister(h).value) == h
  {
  }

  /** Conversely, a register byte with bit 7 clear, well-formed BCD digits
      and an hour in range is exactly what `HoursToRegister` writes for the
      hour it decodes to. */
  lemma HoursRegisterRoundTrip(data: u8)
    requires data & 0x80 == 0
    requires IsPackedBcd(if Is24hFormat(data) then data else data & !(H24_H12 | AM_PM))
    requires ValidHours(HoursFromRegister(data))
    ensures HoursToRegister(HoursFromRegister(data)) == Ok(data)
  {
    if Is24hFormat(data) {
      BcdRoundTripFromByte(data);
    } else {
      BcdRoundTripFromByte(data & !(H24_H12 | AM_PM));
    }
  }
}
