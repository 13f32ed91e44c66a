/**
 * Concrete values from the driver's own unit tests (src/common/mod.rs),
 * worked examples of the register layout, and whole-driver sequences of
 * calls with what each one promises.
 */
module Scenarios {
  import opened Base
  import opened Rtcc
  import opened Codec
  import opened DateTimeRegs
  import opened StatusBits
  import opened Interface
  import opened Driver

  /** The values of `can_convert_packed_bcd_to_decimal`. */
  lemma PackedBcdToDecimalVectors()
    ensures PackedBcdToDecimal(0x00) == 0 && PackedBcdToDecimal(0x01) == 1
    ensures PackedBcdToDecimal(0x09) == 9 && PackedBcdToDecimal(0x10) == 10
    ensures PackedBcdToDecimal(0x11) == 11 && PackedBcdToDecimal(0x19) == 19
    ensures PackedBcdToDecimal(0x20) == 20 && PackedBcdToDecimal(0x21) == 21
    ensures PackedBcdToDecimal(0x59) == 59
  {
  }

  /** The values of `can_convert_decimal_to_packed_bcd`. */
  lemma DecimalToPackedBcdVectors()
    ensures DecimalToPackedBcd(0) == 0x00 && DecimalToPackedBcd(1) == 0x01
    ensures DecimalToPackedBcd(9) == 0x09 && DecimalToPackedBcd(10) == 0x10
    ensures DecimalToPackedBcd(11) == 0x11 && DecimalToPackedBcd(19) == 0x19
    ensures DecimalToPackedBcd(20) == 0x20 && DecimalToPackedBcd(21) == 0x21
    ensures DecimalToPackedBcd(59) == 0x59
  {
  }

  /** Hours just outside each notation's range are rejected; the edges of
      each range are accepted and encoded with their flag bits. */
  lemma HoursExamples()
    ensures HoursToRegister(H24(24)) == Err(InvalidInputData)
    ensures HoursToRegister(AM(0)) == Err(InvalidInputData)
    ensures HoursToRegister(AM(13)) == Err(InvalidInputData)
    ensures HoursToRegister(PM(0)) == Err(InvalidInputData)
    ensures HoursToRegister(PM(13)) == Err(InvalidInputData)
    ensures HoursToRegister(H24(0)) == Ok(0x00)
    ensures HoursToRegister(H24(23)) == Ok(0x23)
    ensures HoursToRegister(AM(12)) == Ok(0x52)
    ensures HoursToRegister(PM(1)) == Ok(0x61)
    ensures HoursFromRegister(0x00) == H24(0)
    ensures HoursFromRegister(0x23) == H24(23)
    ensures HoursFromRegister(0x52) == AM(12)
    ensures HoursFromRegister(0x61) == PM(1)
  {
  }

  /** The first and last years set_year accepts. */
  lemma YearExamples()
    ensures YearRegister(2000) == 0x00
    ensures YearRegister(2099) == 0x99
  {
  }

  /** A block whose status bits are all set next to the data: the start bit
      in RTCSEC, the 12-hour AM notation in RTCHOUR and VBATEN in RTCWKDAY.
      The record decoded from it has none of them in its fields. */
  lemma DecodeExample()
    ensures DecodeDateTime([0xD9, 0x59, 0x52, 0x0B, 0x31, 0x12, 0x99])
         == DateTime(2099, 12, 31, 3, AM(12), 59, 59)
  {
  }

  /** A new driver over any device: a record accepted by set_datetime is
      what get_datetime reads back, whatever the registers held first. */
  method SetThenGet(initial: seq<u8>, dt: DateTime) returns (r: Result<DateTime>)
    requires |initial| == BLOCK_LEN
    ensures r.Ok? ==> ValidDateTime(dt) && r.value == dt
    ensures !ValidDateTime(dt) ==> r.Err?
  {
    var device := new Device(initial);
    var rtc := new Mcp794xx.NewMcp7940n(device);
    var _ :- rtc.SetDatetime(dt);
    GetAfterSet(initial, dt);
    r := rtc.GetDatetime();
  }

  /** Once the oscillator is enabled, set_seconds keeps it running: the
      RTCSEC byte it writes (`written`) has the start bit set next to the
      second in BCD, and the second reads back unchanged. */
  method EnableThenSetSeconds(initial: seq<u8>, second: u8) returns (r: Result<u8>, written: u8)
    requires |initial| == BLOCK_LEN
    ensures second >= 60 ==> r.Err?
    ensures r == Err(InvalidInputData) ==> second >= 60
    ensures r.Ok? ==> r.value == second
    ensures r.Ok? ==> written & ST != 0 && written & !ST == DecimalToPackedBcd(second)
  {
    written := 0;
    var device := new Device(initial);
    var rtc := new Mcp794xx.NewMcp7940n(device);
    var _ :- rtc.Enable();
    var _ :- rtc.SetSeconds(second);
    written := device.regs[RTCSEC];
    r := rtc.GetSeconds();
  }

  /** set_weekday and set_vbat_en each change their own bits of RTCWKDAY
      only: the weekday, VBATEN and OSCRUN all read back as expected. */
  method WeekdayAndBattery(initial: seq<u8>, weekday: u8, enable: bool) returns (r: Result<(u8, bool, bool)>)
    requires |initial| == BLOCK_LEN
    ensures !(1 <= weekday <= 7) ==> r == Err(InvalidInputData)
    ensures r.Ok? ==> r.value == (weekday, enable, OscillatorRunningBit(initial[RTCWKDAY]))
  {
    var device := new Device(initial);
    var rtc := new Mcp794xx.NewMcp7940n(device);
    var _ :- rtc.SetWeekday(weekday);
    WeekdayRegisterKeepsStatus(initial[RTCWKDAY], weekday);
    var _ :- rtc.SetVbatEn(enable);
    WithVbatenKeepsStatus(device.regs[RTCWKDAY], enable);
    var w :- rtc.GetWeekday();
    var v :- rtc.VbatIsEnabled();
    var o :- rtc.OscillatorRunning();
    r := Ok((w, v, o));
  }
}
