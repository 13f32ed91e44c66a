/**
 * The MCP794xx driver (src/lib.rs and src/common/datetime.rs): the
 * oscillator flag it keeps, oscillator and battery control, and the
 * per-field and combined date/time accessors. Every setter checks its input
 * before it touches the bus.
 */
module Driver {
  import opened Base
  import opened Rtcc
  import opened Codec
  import opened DateTimeRegs
  import opened StatusBits
  import opened Interface

  class Mcp794xx {
    /** The bus interface, and through it the device. */
    const iface: Device
    /** Whether the driver last told the device to run its oscillator. */
    var isEnabled: bool

    ghost predicate Valid() {
      iface.Valid()
    }

    /** `new_mcp7940n`: binds the bus; the oscillator is taken as stopped. */
    constructor NewMcp7940n(i2c: Device)
      requires i2c.Valid()
      ensures Valid() && iface == i2c && !isEnabled
    {
      iface := i2c;
      isEnabled := false;
    }

    /** `check_lt`: passes exactly when `value` is strictly below `reference`. */
    static function CheckLt(value: u16, reference: u16): (r: Result<()>)
      ensures r.Ok? <==> value < reference
      ensures r.Err? ==> r.error == InvalidInputData
    {
      if value < reference then Ok(()) else Err(InvalidInputData)
    }

    /** `check_between`: passes exactly when `value` lies in
        [`lowest`, `highest`], both bounds included. */
    static function CheckBetween(value: u16, lowest: u16, highest: u16): (r: Result<()>)
      ensures r.Ok? <==> lowest <= value <= highest
      ensures r.Err? ==> r.error == InvalidInputData
    {
      if value < lowest || value > highest then Err(InvalidInputData) else Ok(())
    }

    // Oscillator and battery control (src/lib.rs).

    /** `enable`: sets ST and nothing else in RTCSEC; the flag follows only
        once the write has gone through. */
    method Enable() returns (r: Result<()>)
      requires Valid()
      modifies this, iface, iface.regs
      ensures || (iface.log == old(iface.log) + [ReadReg(RTCSEC, false)] && r.Err?)
              || iface.log == old(iface.log) + [ReadReg(RTCSEC, true), WriteReg(RTCSEC, r.Ok?)]
      ensures isEnabled == if r.Ok? then true else old(isEnabled)
      ensures r.Ok? ==> iface.regs[..] == old(iface.regs[..])[RTCSEC as int := WithSt(old(iface.regs[RTCSEC]), true)]
      ensures r.Err? ==> r.error == Comm && iface.regs[..] == old(iface.regs[..])
    {
      var seconds :- iface.ReadRegister(RTCSEC);
      var _ :- iface.WriteRegister(RTCSEC, WithSt(seconds, true));
      isEnabled := true;
      r := Ok(());
    }

    /** `disable`: clears ST and nothing else in RTCSEC; the flag follows
        only once the write has gone through. */
    method Disable() returns (r: Result<()>)
      requires Valid()
      modifies this, iface, iface.regs
      ensures || (iface.log == old(iface.log) + [ReadReg(RTCSEC, false)] && r.Err?)
              || iface.log == old(iface.log) + [ReadReg(RTCSEC, true), WriteReg(RTCSEC, r.Ok?)]
      ensures isEnabled == if r.Ok? then false else old(isEnabled)
      ensures r.Ok? ==> iface.regs[..] == old(iface.regs[..])[RTCSEC as int := WithSt(old(iface.regs[RTCSEC]), false)]
      ensures r.Err? ==> r.error == Comm && iface.regs[..] == old(iface.regs[..])
    {
      var seconds :- iface.ReadRegister(RTCSEC);
      var _ :- iface.WriteRegister(RTCSEC, WithSt(seconds, false));
      isEnabled := false;
      r := Ok(());
    }

    /** `oscillator_running`: bit 5 (OSCRUN) of RTCWKDAY. */
    method OscillatorRunning() returns (r: Result<bool>)
      requires Valid()
      modifies iface
      ensures iface.log == old(iface.log) + [ReadReg(RTCWKDAY, r.Ok?)]
      ensures r.Ok? ==> r.value == OscillatorRunningBit(iface.regs[RTCWKDAY])
      ensures r.Err? ==> r.error == Comm
    {
      var data :- iface.ReadRegister(RTCWKDAY);
      r := Ok(OscillatorRunningBit(data));
    }

    /** `vbat_is_enabled`: bit 3 (VBATEN) of RTCWKDAY. */
    method VbatIsEnabled() returns (r: Result<bool>)
      requires Valid()
      modifies iface
      ensures iface.log == old(iface.log) + [ReadReg(RTCWKDAY, r.Ok?)]
      ensures r.Ok? ==> r.value == VbatEnabledBit(iface.regs[RTCWKDAY])
      ensures r.Err? ==> r.error == Comm
    {
      var data :- iface.ReadRegister(RTCWKDAY);
      r := Ok(VbatEnabledBit(data));
    }

    /** `set_vbat_en`: VBATEN becomes `enable`; every other bit of RTCWKDAY,
        and every other register, keeps its value. */
    method SetVbatEn(enable: bool) returns (r: Result<()>)
      requires Valid()
      modifies iface, iface.regs
      ensures || (iface.log == old(iface.log) + [ReadReg(RTCWKDAY, false)] && r.Err?)
              || iface.log == old(iface.log) + [ReadReg(RTCWKDAY, true), WriteReg(RTCWKDAY, r.Ok?)]
      ensures r.Ok? ==> iface.regs[..] == old(iface.regs[..])[RTCWKDAY as int := WithVbaten(old(iface.regs[RTCWKDAY]), enable)]
      ensures r.Err? ==> r.error == Comm && iface.regs[..] == old(iface.regs[..])
    {
      var data :- iface.ReadRegister(RTCWKDAY);
      var _ :- iface.WriteRegister(RTCWKDAY, WithVbaten(data, enable));
      r := Ok(());
    }

    // Per-field getters (src/common/datetime.rs).

    method GetSeconds() returns (r: Result<u8>)
      requires Valid()
      modifies iface
      ensures iface.log == old(iface.log) + [ReadReg(RTCSEC, r.Ok?)]
      ensures r.Ok? ==> r.value == SecondsFromRegister(iface.regs[RTCSEC])
      ensures r.Err? ==> r.error == Comm
    {
      var data :- iface.ReadRegister(RTCSEC);
      r := Ok(SecondsFromRegister(data));
    }

    method GetMinutes() returns (r: Result<u8>)
      requires Valid()
      modifies iface
      ensures iface.log == old(iface.log) + [ReadReg(RTCMIN, r.Ok?)]
      ensures r.Ok? ==> r.value == MinutesFromRegister(iface.regs[RTCMIN])
      ensures r.Err? ==> r.error == Comm
    {
      var data :- iface.ReadRegister(RTCMIN);
      r := Ok(MinutesFromRegister(data));
    }

    method GetHours() returns (r: Result<Hours>)
      requires Valid()
      modifies iface
      ensures iface.log == old(iface.log) + [ReadReg(RTCHOUR, r.Ok?)]
      ensures r.Ok? ==> r.value == HoursFromRegister(iface.regs[RTCHOUR])
      ensures r.Err? ==> r.error == Comm
    {
      var data :- iface.ReadRegister(RTCHOUR);
      r := Ok(HoursFromRegister(data));
    }

    method GetWeekday() returns (r: Result<u8>)
      requires Valid()
      modifies iface
      ensures iface.log == old(iface.log) + [ReadReg(RTCWKDAY, r.Ok?)]
      ensures r.Ok? ==> r.value == WeekdayFromRegister(iface.regs[RTCWKDAY]) && r.value <= 7
      ensures r.Err? ==> r.error == Comm
    {
      var data :- iface.ReadRegister(RTCWKDAY);
      r := Ok(WeekdayFromRegister(data));
    }

    method GetDay() returns (r: Result<u8>)
      requires Valid()
      modifies iface
      ensures iface.log == old(iface.log) + [ReadReg(RTCDATE, r.Ok?)]
      ensures r.Ok? ==> r.value == DayFromRegister(iface.regs[RTCDATE])
      ensures r.Err? ==> r.error == Comm
    {
      var data :- iface.ReadRegister(RTCDATE);
      r := Ok(DayFromRegister(data));
    }

    method GetMonth() returns (r: Result<u8>)
      requires Valid()
      modifies iface
      ensures iface.log == old(iface.log) + [ReadReg(RTCMONTH, r.Ok?)]
      ensures r.Ok? ==> r.value == MonthFromRegister(iface.regs[RTCMONTH])
      ensures r.Err? ==> r.error == Comm
    {
      var data :- iface.ReadRegister(RTCMONTH);
      r := Ok(MonthFromRegister(data));
    }

    method GetYear() returns (r: Result<u16>)
      requires Valid()
      modifies iface
      ensures iface.log == old(iface.log) + [ReadReg(RTCYEAR, r.Ok?)]
      ensures r.Ok? ==> r.value == YearFromRegister(iface.regs[RTCYEAR]) && 2000 <= r.value <= 2165
      ensures r.Err? ==> r.error == Comm
    {
      var data :- iface.ReadRegister(RTCYEAR);
      r := Ok(YearFromRegister(data));
    }

    // Per-field setters (src/common/datetime.rs).

    /** `set_seconds`: writes the second with ST taken from `isEnabled`, so the
        clock keeps running across a time-set once it was enabled. */
    method SetSeconds(seconds: u8) returns (r: Result<()>)
      requires Valid()
      modifies iface, iface.regs
      ensures seconds >= 60 ==> r == Err(InvalidInputData) && iface.log == old(iface.log)
      ensures seconds < 60 ==> iface.log == old(iface.log) + [WriteReg(RTCSEC, r.Ok?)] && (r.Err? ==> r.error == Comm)
      ensures r.Ok? ==> iface.regs[..] == old(iface.regs[..])[RTCSEC as int := SecondsRegister(seconds, isEnabled)]
      ensures r.Err? ==> iface.regs[..] == old(iface.regs[..])
    {
      var _ :- CheckLt(seconds as u16, 60);
      var second := DecimalToPackedBcd(seconds);
      var value := if isEnabled then second | ST else second;
      r := iface.WriteRegister(RTCSEC, value);
    }

    method SetMinutes(minutes: u8) returns (r: Result<()>)
      requires Valid()
      modifies iface, iface.regs
      ensures minutes >= 60 ==> r == Err(InvalidInputData) && iface.log == old(iface.log)
      ensures minutes < 60 ==> iface.log == old(iface.log) + [WriteReg(RTCMIN, r.Ok?)] && (r.Err? ==> r.error == Comm)
      ensures r.Ok? ==> iface.regs[..] == old(iface.regs[..])[RTCMIN as int := MinutesRegister(minutes)]
      ensures r.Err? ==> iface.regs[..] == old(iface.regs[..])
    {
      var _ :- CheckLt(minutes as u16, 60);
      var data := DecimalToPackedBcd(minutes);
      r := iface.WriteRegister(RTCMIN, data);
    }

    method SetHours(hours: Hours) returns (r: Result<()>)
      requires Valid()
      modifies iface, iface.regs
      ensures !ValidHours(hours) ==> r == Err(InvalidInputData) && iface.log == old(iface.log)
      ensures ValidHours(hours) ==> iface.log == old(iface.log) + [WriteReg(RTCHOUR, r.Ok?)] && (r.Err? ==> r.error == Comm)
      ensures r.Ok? ==> iface.regs[..] == old(iface.regs[..])[RTCHOUR as int := HoursToRegister(hours).value]
      ensures r.Err? ==> iface.regs[..] == old(iface.regs[..])
    {
      var data :- HoursToRegister(hours);
      r := iface.WriteRegister(RTCHOUR, data);
    }

    /** `set_weekday`: a read-modify-write that replaces bits 0-2 only, so
        VBATEN and OSCRUN keep their values. */
    method SetWeekday(weekday: u8) returns (r: Result<()>)
      requires Valid()
      modifies iface, iface.regs
      ensures !(1 <= weekday <= 7) ==> r == Err(InvalidInputData) && iface.log == old(iface.log)
      ensures 1 <= weekday <= 7 ==> (r.Err? ==> r.error == Comm)
      ensures 1 <= weekday <= 7 ==>
        || (iface.log == old(iface.log) + [ReadReg(RTCWKDAY, false)] && r.Err?)
        || iface.log == old(iface.log) + [ReadReg(RTCWKDAY, true), WriteReg(RTCWKDAY, r.Ok?)]
      ensures r.Ok? ==> iface.regs[..] == old(iface.regs[..])[RTCWKDAY as int := WeekdayRegister(old(iface.regs[RTCWKDAY]), weekday)]
      ensures r.Err? ==> iface.regs[..] == old(iface.regs[..])
    {
      var _ :- CheckBetween(weekday as u16, 1, 7);
      var data :- iface.ReadRegister(RTCWKDAY);
      data := data & !WKDAY;
      data := data | DecimalToPackedBcd(weekday);
      r := iface.WriteRegister(RTCWKDAY, data);
    }

    method SetDay(day: u8) returns (r: Result<()>)
      requires Valid()
      modifies iface, iface.regs
      ensures !(1 <= day <= 31) ==> r == Err(InvalidInputData) && iface.log == old(iface.log)
      ensures 1 <= day <= 31 ==> iface.log == old(iface.log) + [WriteReg(RTCDATE, r.Ok?)] && (r.Err? ==> r.error == Comm)
      ensures r.Ok? ==> iface.regs[..] == old(iface.regs[..])[RTCDATE as int := DayRegister(day)]
      ensures r.Err? ==> iface.regs[..] == old(iface.regs[..])
    {
      var _ :- CheckBetween(day as u16, 1, 31);
      var data := DecimalToPackedBcd(day);
      r := iface.WriteRegister(RTCDATE, data);
    }

    method SetMonth(month: u8) returns (r: Result<()>)
      requires Valid()
      modifies iface, iface.regs
      ensures !(1 <= month <= 12) ==> r == Err(InvalidInputData) && iface.log == old(iface.log)
      ensures 1 <= month <= 12 ==> iface.log == old(iface.log) + [WriteReg(RTCMONTH, r.Ok?)] && (r.Err? ==> r.error == Comm)
      ensures r.Ok? ==> iface.regs[..] == old(iface.regs[..])[RTCMONTH as int := MonthRegister(month)]
      ensures r.Err? ==> iface.regs[..] == old(iface.regs[..])
    {
      var _ :- CheckBetween(month as u16, 1, 12);
      var data := DecimalToPackedBcd(month);
      r := iface.WriteRegister(RTCMONTH, data);
    }

    /** `set_year`: the year must be 2000..2099; its last two digits are
        written in BCD. */
    method SetYear(year: u16) returns (r: Result<()>)
      requires Valid()
      modifies iface, iface.regs
      ensures !(2000 <= year <= 2099) ==> r == Err(InvalidInputData) && iface.log == old(iface.log)
      ensures 2000 <= year <= 2099 ==> iface.log == old(iface.log) + [WriteReg(RTCYEAR, r.Ok?)] && (r.Err? ==> r.error == Comm)
      ensures r.Ok? ==> iface.regs[..] == old(iface.regs[..])[RTCYEAR as int := YearRegister(year)]
      ensures r.Err? ==> iface.regs[..] == old(iface.regs[..])
    {
      var _ :- CheckBetween(year, 2000, 2099);
      var data := DecimalToPackedBcd(YearOffset(year));
      r := iface.WriteRegister(RTCYEAR, data);
    }

    // The whole record in one burst (src/common/datetime.rs).

    /** `get_datetime`: one burst read of RTCSEC..RTCYEAR, each field decoded
        as its own getter decodes it. */
    method GetDatetime() returns (r: Result<DateTime>)
      requires Valid()
      modifies iface
      ensures iface.log == old(iface.log) + [ReadBurst(RTCSEC, BLOCK_LEN, r.Ok?)]
      ensures r.Ok? ==> r.value == DecodeDateTime(iface.regs[..])
      ensures r.Err? ==> r.error == Comm
    {
      var buffer := new u8[8];
      buffer[0] := RTCSEC;
      var _ :- iface.ReadData(buffer);
      r := Ok(DecodeDateTime(buffer[1..]));
    }

    /** `set_datetime`: reads the block, validates the record field by field
        while staging it in the buffer, and writes the block in one burst. ST and the
        non-weekday bits of RTCWKDAY keep the values the device held; the
        month byte is written without the leap-year flag. A record that fails
        validation reaches no write at all. */
    method SetDatetime(datetime: DateTime) returns (r: Result<()>)
      requires Valid()
      modifies iface, iface.regs
      ensures || (iface.log == old(iface.log) + [ReadBurst(RTCSEC, BLOCK_LEN, false)] && r == Err(Comm))
              || (iface.log == old(iface.log) + [ReadBurst(RTCSEC, BLOCK_LEN, true)]
                  && !ValidDateTime(datetime) && r == Err(InvalidInputData))
              || (iface.log == old(iface.log) + [ReadBurst(RTCSEC, BLOCK_LEN, true), WriteBurst(RTCSEC, BLOCK_LEN, r.Ok?)]
                  && ValidDateTime(datetime) && (r.Err? ==> r.error == Comm))
      ensures r.Ok? ==> iface.regs[..] == StagedRegisters(old(iface.regs[..]), datetime)
      ensures r.Err? ==> iface.regs[..] == old(iface.regs[..])
    {
      var buffer := new u8[8];
      buffer[0] := RTCSEC;
      var _ :- iface.ReadData(buffer);
      assert buffer[1..] == iface.regs[..];
      var _ :- CheckDateTime(datetime);
      StageDateTime(buffer, datetime);
      var _ :- iface.WriteData(buffer);
      assert iface.regs[..] == buffer[1..];
      r := Ok(());
    }

    /** The checks of `set_datetime`, in its order: second, minute, hour,
        weekday, day, month, year. The first that fails is the result. */
    static method CheckDateTime(datetime: DateTime) returns (r: Result<()>)
      ensures r == if ValidDateTime(datetime) then Ok(()) else Err(InvalidInputData)
    {
      var DateTime(year, month, day, weekday, hours, minute, second) := datetime;
      var _ :- CheckLt(second as u16, 60);
      var _ :- CheckLt(minute as u16, 60);
      var _ :- HoursToRegister(hours);
      var _ :- CheckBetween(weekday as u16, 1, 7);
      var _ :- CheckBetween(day as u16, 1, 31);
      var _ :- CheckBetween(month as u16, 1, 12);
      var _ :- CheckBetween(year, 2000, 2099);
      r := Ok(());
    }

    /** The staging part of `set_datetime`: encodes each field of a checked
        record into the burst buffer, over the block read from the device. */
    static method StageDateTime(buffer: array<u8>, datetime: DateTime)
      requires buffer.Length == 1 + BLOCK_LEN
      requires ValidDateTime(datetime)
      modifies buffer
      ensures buffer[0] == old(buffer[0]) && buffer[1..] == StagedRegisters(old(buffer[1..]), datetime)
    {
      ghost var prior := buffer[1..];
      var DateTime(year, month, day, weekday, hours, minute, second) := datetime;
      var secondBcd := DecimalToPackedBcd(second);
      buffer[1] := buffer[1] & ST;
      buffer[1] := buffer[1] | secondBcd;
      buffer[2] := DecimalToPackedBcd(minute);
      var hour := HoursToRegister(hours).value;
      buffer[3] := hour;
      buffer[4] := buffer[4] & !WKDAY;
      buffer[4] := buffer[4] | DecimalToPackedBcd(weekday);
      buffer[5] := DecimalToPackedBcd(day);
      buffer[6] := DecimalToPackedBcd(month);
      buffer[7] := DecimalToPackedBcd(YearOffset(year));
      StagedBlock(prior, datetime, buffer[1..]);
    }
  }
}
