/**
 * What each time-keeping register holds (src/common/datetime.rs): how the
 * getters decode a register byte, with its status bits masked out, and
 * which byte each setter writes for a validated value.
 */
module DateTimeRegs {
  import opened Base
  import opened Rtcc
  import opened Codec
  import opened StatusBits

  // Decoding, as the getters and get_datetime do it.

  /** RTCSEC without the oscillator start bit. */
  function SecondsFromRegister(data: u8): u8 {
    PackedBcdToDecimal(data & !ST)
  }

  function MinutesFromRegister(data: u8): u8 {
    PackedBcdToDecimal(data)
  }

  /** Only bits 0-2 of RTCWKDAY: the weekday is stored as a plain number. */
  function WeekdayFromRegister(data: u8): u8 {
    data & WKDAY
  }

  function DayFromRegister(data: u8): u8 {
    PackedBcdToDecimal(data)
  }

  /** RTCMONTH without the leap-year flag. */
  function MonthFromRegister(data: u8): u8 {
    PackedBcdToDecimal(data & !LPYR)
  }

  /** RTCYEAR holds the two-digit year since 2000; the `u16` addition cannot
      wrap. */
  function YearFromRegister(data: u8): (year: u16)
    ensures 2000 <= year <= 2165
    ensures year - 2000 == PackedBcdToDecimal(data) as u16
  {
    2000 + PackedBcdToDecimal(data) as u16
  }

  /** The getters do not see the status bits that share their register. */
  lemma GettersIgnoreStatusBits(data: u8)
    ensures SecondsFromRegister(data ^ ST) == SecondsFromRegister(data)
    ensures MonthFromRegister(data ^ LPYR) == MonthFromRegister(data)
    ensures WeekdayFromRegister(data ^ VBATEN) == WeekdayFromRegister(data)
    ensures WeekdayFromRegister(data ^ OSCRUN) == WeekdayFromRegister(data)
  {
  }

  // Encoding, as the setters and set_datetime do it.

  /** RTCSEC for a valid second, with the start bit set exactly when `st`;
      the start bit never collides with a BCD second. */
  function SecondsRegister(second: u8, st: bool): (data: u8)
    requires second < 60
    ensures SecondsFromRegister(data) == second
    ensures (data & ST != 0) == st
    ensures data & !ST == DecimalToPackedBcd(second)
  {
    if st then DecimalToPackedBcd(second) | ST else DecimalToPackedBcd(second)
  }

  function MinutesRegister(minute: u8): (data: u8)
    requires minute < 60
    ensures MinutesFromRegister(data) == minute
    ensures IsPackedBcd(data) && data <= 0x59
  {
    DecimalToPackedBcd(minute)
  }

  /** RTCWKDAY with the weekday replaced and every other bit, VBATEN and
      OSCRUN among them, taken from `prior`. */
  function WeekdayRegister(prior: u8, weekday: u8): (data: u8)
    requires 1 <= weekday <= 7
    ensures WeekdayFromRegister(data) == weekday
    ensures data & !WKDAY == prior & !WKDAY
  {
    (prior & !WKDAY) | DecimalToPackedBcd(weekday)
  }

  /** So set_weekday leaves the oscillator status and the battery enable as
      the device held them. */
  lemma WeekdayRegisterKeepsStatus(prior: u8, weekday: u8)
    requires 1 <= weekday <= 7
    ensures OscillatorRunningBit(WeekdayRegister(prior, weekday)) == OscillatorRunningBit(prior)
    ensures VbatEnabledBit(WeekdayRegister(prior, weekday)) == VbatEnabledBit(prior)
  {
  }

  function DayRegister(day: u8): (data: u8)
    requires 1 <= day <= 31
    ensures DayFromRegister(data) == day
    ensures IsPackedBcd(data) && 0x01 <= data <= 0x31
  {
    DecimalToPackedBcd(day)
  }

  /** RTCMONTH for a valid month; the leap-year flag is written as zero. */
  function MonthRegister(month: u8): (data: u8)
    requires 1 <= month <= 12
    ensures MonthFromRegister(data) == month
    ensures data & LPYR == 0
    ensures IsPackedBcd(data) && 0x01 <= data <= 0x12
  {
    DecimalToPackedBcd(month)
  }

  /** The two-digit year the device stores, `(year - 2000) as u8`: the
      `u16` subtraction wraps and `as u8` keeps the low byte. After the
      range check that precedes it, nothing is lost. */
  function YearOffset(year: u16): (offset: u8)
    ensures 2000 <= year <= 2099 ==> offset <= 99 && 2000 + offset as u16 == year
  {
    ((year - 2000) % 256) as u8
  }

  /** RTCYEAR for a year of the 21st century: its last two digits in BCD,
      from 0x00 for 2000 up to 0x99 for 2099. */
  function YearRegister(year: u16): (data: u8)
    requires 2000 <= year <= 2099
    ensures YearFromRegister(data) == year
    ensures IsPackedBcd(data)
  {
    DecimalToPackedBcd(YearOffset(year))
  }

  /** The ranges the setters and set_datetime accept. */
  predicate ValidDateTime(dt: DateTime) {
    && dt.second < 60
    && dt.minute < 60
    && ValidHours(dt.hour)
    && 1 <= dt.weekday <= 7
    && 1 <= dt.day <= 31
    && 1 <= dt.month <= 12
    && 2000 <= dt.year <= 2099
  }

  /** The record get_datetime builds from registers RTCSEC..RTCYEAR, each
      field decoded as its own getter decodes it. */
  function DecodeDateTime(regs: seq<u8>): DateTime
    requires |regs| == BLOCK_LEN
  {
    DateTime(
      year := YearFromRegister(regs[RTCYEAR]),
      month := MonthFromRegister(regs[RTCMONTH]),
      day := DayFromRegister(regs[RTCDATE]),
      weekday := WeekdayFromRegister(regs[RTCWKDAY]),
      hour := HoursFromRegister(regs[RTCHOUR]),
      minute := MinutesFromRegister(regs[RTCMIN]),
      second := SecondsFromRegister(regs[RTCSEC]))
  }

  /** The block set_datetime writes over `prior`: each field of the record
      in BCD, with the start bit and the non-weekday bits of RTCWKDAY taken
      from `prior` (see `StagedKeepsStatus` and `GetAfterSet`). */
  function StagedRegisters(prior: seq<u8>, dt: DateTime): (regs: seq<u8>)
    requires |prior| == BLOCK_LEN
    requires ValidHours(dt.hour)
    ensures |regs| == BLOCK_LEN
  {
    [ (prior[RTCSEC] & ST) | DecimalToPackedBcd(dt.second),
      DecimalToPackedBcd(dt.minute),
      HoursToRegister(dt.hour).value,
      (prior[RTCWKDAY] & !WKDAY) | DecimalToPackedBcd(dt.weekday),
      DecimalToPackedBcd(dt.day),
      DecimalToPackedBcd(dt.month),
      DecimalToPackedBcd(YearOffset(dt.year)) ]
  }

  /** The block as set_datetime computes it, byte by byte, is the block
      `StagedRegisters` describes. */
  lemma StagedBlock(prior: seq<u8>, dt: DateTime, block: seq<u8>)
    requires |prior| == BLOCK_LEN && |block| == BLOCK_LEN && ValidHours(dt.hour)
    requires block[RTCSEC] == (prior[RTCSEC] & ST) | DecimalToPackedBcd(dt.second)
    requires block[RTCMIN] == DecimalToPackedBcd(dt.minute)
    requires block[RTCHOUR] == HoursToRegister(dt.hour).value
    requires block[RTCWKDAY] == (prior[RTCWKDAY] & !WKDAY) | DecimalToPackedBcd(dt.weekday)
    requires block[RTCDATE] == DecimalToPackedBcd(dt.day)
    requires block[RTCMONTH] == DecimalToPackedBcd(dt.month)
    requires block[RTCYEAR] == DecimalToPackedBcd(YearOffset(dt.year))
    ensures block == StagedRegisters(prior, dt)
  {
  }

  /** The start bit never collides with the BCD of a valid second. */
  lemma StDisjointFromSeconds(second: u8)
    requires second < 60
    ensures DecimalToPackedBcd(second) & ST == 0
    ensures DecimalToPackedBcd(second) <= 0x59
  {
    BcdNibbles(second);
  }

  /** set_datetime keeps the device's start bit and every non-weekday bit of
      RTCWKDAY (VBATEN and OSCRUN among them), and leaves the leap-year flag
      clear in the month byte it writes. */
  lemma StagedKeepsStatus(prior: seq<u8>, dt: DateTime)
    requires |prior| == BLOCK_LEN && ValidDateTime(dt)
    ensures StagedRegisters(prior, dt)[RTCSEC] & ST == prior[RTCSEC] & ST
    ensures StagedRegisters(prior, dt)[RTCWKDAY] & !WKDAY == prior[RTCWKDAY] & !WKDAY
    ensures StagedRegisters(prior, dt)[RTCMONTH] & LPYR == 0
  {
    StDisjointFromSeconds(dt.second);
    assert StagedRegisters(prior, dt)[RTCWKDAY] == WeekdayRegister(prior[RTCWKDAY], dt.weekday);
    assert StagedRegisters(prior, dt)[RTCMONTH] == MonthRegister(dt.month);
  }

  // Field by field, the block set_datetime stages decodes to the record.

  lemma StagedSecond(prior: seq<u8>, dt: DateTime)
    requires |prior| == BLOCK_LEN && ValidDateTime(dt)
    ensures DecodeDateTime(StagedRegisters(prior, dt)).second == dt.second
  {
    assert StagedRegisters(prior, dt)[RTCSEC] == SecondsRegister(dt.second, prior[RTCSEC] & ST != 0);
  }

  lemma StagedMinute(prior: seq<u8>, dt: DateTime)
    requires |prior| == BLOCK_LEN && ValidDateTime(dt)
    ensures DecodeDateTime(StagedRegisters(prior, dt)).minute == dt.minute
  {
    assert StagedRegisters(prior, dt)[RTCMIN] == MinutesRegister(dt.minute);
  }

  lemma StagedHour(prior: seq<u8>, dt: DateTime)
    requires |prior| == BLOCK_LEN && ValidDateTime(dt)
    ensures DecodeDateTime(StagedRegisters(prior, dt)).hour == dt.hour
  {
    HoursRoundTrip(dt.hour);
  }

  lemma StagedWeekday(prior: seq<u8>, dt: DateTime)
    requires |prior| == BLOCK_LEN && ValidDateTime(dt)
    ensures DecodeDateTime(StagedRegisters(prior, dt)).weekday == dt.weekday
  {
    assert StagedRegisters(prior, dt)[RTCWKDAY] == WeekdayRegister(prior[RTCWKDAY], dt.weekday);
  }

  lemma StagedDay(prior: seq<u8>, dt: DateTime)
    requires |prior| == BLOCK_LEN && ValidDateTime(dt)
    ensures DecodeDateTime(StagedRegisters(prior, dt)).day == dt.day
  {
    assert StagedRegisters(prior, dt)[RTCDATE] == DayRegister(dt.day);
  }

  lemma StagedMonth(prior: seq<u8>, dt: DateTime)
    requires |prior| == BLOCK_LEN && ValidDateTime(dt)
    ensures DecodeDateTime(StagedRegisters(prior, dt)).month == dt.month
  {
    assert StagedRegisters(prior, dt)[RTCMONTH] == MonthRegister(dt.month);
  }

  lemma StagedYear(prior: seq<u8>, dt: DateTime)
    requires |prior| == BLOCK_LEN && ValidDateTime(dt)
    ensures DecodeDateTime(StagedRegisters(prior, dt)).year == dt.year
  {
    assert StagedRegisters(prior, dt)[RTCYEAR] == YearRegister(dt.year);
  }

  /** A record written by set_datetime is read back unchanged by
      get_datetime, whatever the device held before. */
  lemma GetAfterSet(prior: seq<u8>, dt: DateTime)
    requires |prior| == BLOCK_LEN
    requires ValidDateTime(dt)
    ensures DecodeDateTime(StagedRegisters(prior, dt)) == dt
  {
    StagedSecond(prior, dt);
    StagedMinute(prior, dt);
    StagedHour(prior, dt);
    StagedWeekday(prior, dt);
    StagedDay(prior, dt);
    StagedMonth(prior, dt);
    StagedYear(prior, dt);
  }
}
