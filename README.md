# MCP794xx real-time clock driver, modelled in Dafny

This project models the `mcp794xx` Rust driver for the Microchip MCP794xx
real-time clock/calendar family. The model covers:

- the packed-BCD codec and the hour-register layout (`src/common/mod.rs`);
- the seven per-field getters and setters and the burst `get_datetime` /
  `set_datetime` (`src/common/datetime.rs`);
- the driver state `is_enabled`, oscillator start/stop, the OSCRUN and VBATEN
  status bits, the range checks and the register/flag constants
  (`src/lib.rs`).

Files, one module each:

| file | module | models |
|---|---|---|
| `base.dfy` | `Base` | `u8`/`u16`, `Error`, `Result` (with `:-` as Rust's `?`), `Register` and `BitFlags` |
| `rtcc.dfy` | `Rtcc` | the `Hours` and `DateTime` types of the `rtcc` crate, reproduced as datatypes |
| `codec.dfy` | `Codec` | `decimal_to_packed_bcd`, `packed_bcd_to_decimal`, `hours_to_register`, `hours_from_register`, `is_24h_format`, `is_am` |
| `status.dfy` | `StatusBits` | the ST, OSCRUN and VBATEN bit operations of `src/lib.rs` |
| `datetime.dfy` | `DateTimeRegs` | what each getter decodes and each setter encodes, the block `set_datetime` stages, and the round trip through it |
| `interface.dfy` | `Interface` | the device behind the bus: seven registers, single and burst transfers that may fail, each logged with its outcome |
| `driver.dfy` | `Driver` | the `Mcp794xx` class: `is_enabled` and every driver method |
| `scenarios.dfy` | `Scenarios` | the unit-test values of `src/common/mod.rs`, worked examples and sequences of driver calls |

Bytes are `bv8` and the year is `bv16`. The driver's additions, subtractions
and multiplications never overflow on the values it handles: the BCD decode
is proved exact (`PackedBcdToDecimalExact`) and the decoded year is bounded
(`YearFromRegister`), so Rust's overflow panic in debug builds is never
reached. Only the `<< 4` of the BCD encoding and the `as u8` of `set_year`
drop high bits, and `bv8` drops them the same way. A shift by four on a `u8`
is written as an unsigned division or multiplication by 16, which is the same
operation on `bv8`.

The driver is a class that holds its interface and `isEnabled`. The getters and
setters are methods. Each method is proved against specification functions on
register bytes in `DateTimeRegs`, `Codec` and `StatusBits`, and the
properties are proved about those functions as lemmas. The device is a class
with a 7-byte register array. Each bus transfer either fails with `Comm`,
chosen nondeterministically, or acts on the array. The device keeps a ghost
log of every transfer started, each entry with its outcome. Each driver
method states exactly which transfers it makes and ties its result to their
outcomes: on accepted input it succeeds exactly when every transfer it made
succeeded, and a `Comm` error means the last logged transfer failed; rejected
input gives `InvalidInputData` and reaches no write; `get_datetime` is one
burst read and nothing else.

## Model

| member | source | states |
|---|---|---|
| Base.WeekdayFlagsDisjoint | src/lib.rs:47-49 | WKDAY, VBATEN and OSCRUN are pairwise disjoint bits of RTCWKDAY |
| Codec.DecimalToPackedBcd | src/common/mod.rs:5-7 | its meaning is stated by BcdNibbles (the two nibbles), BcdRoundTrip and BcdRoundTripFromByte (inverse of PackedBcdToDecimal) and BcdImage (its image on 0..99) |
| Codec.BcdNibbles | src/common/mod.rs:5-7 | the low nibble of the encoding is `dec % 10`; the high nibble is the tens digit, truncated to four bits as the `u8` shift does; for `dec <= 99` both nibbles are decimal digits |
| Codec.PackedBcdToDecimal | src/common/mod.rs:10-12 | the result is at most 165 for every byte and at most 99 for a byte with two decimal nibbles |
| Codec.PackedBcdToDecimalExact | src/common/mod.rs:10-12 | the `u8` arithmetic never overflows: it equals the same formula computed in 16 bits |
| Codec.BcdRoundTrip | src/common/mod.rs:5-12 | decoding undoes encoding for every n in 0..99 |
| Codec.BcdRoundTripFromByte | src/common/mod.rs:5-12 | for a byte with two decimal nibbles, decoding gives at most 99 and re-encoding gives the byte back |
| Codec.BcdImage | src/common/mod.rs:5-12 | the bytes with two decimal nibbles are exactly the encodings of 0..99 |
| Codec.HoursToRegister | src/common/mod.rs:14-23 | fails exactly when the hour is out of range for its notation (H24 above 23, AM/PM outside 1..12), and then with InvalidInputData |
| Codec.HoursRegisterLayout | src/common/mod.rs:17-21 | for a valid hour: bit 7 is clear, H24_H12 is clear exactly for H24, AM_PM is clear for AM and set for PM, and the remaining bits are the BCD of the hour |
| Codec.Is24hFormat | src/common/mod.rs:39-41 | the bit test that `HoursFromRegister`'s contract turns into "H24 exactly when bit 6 is clear" |
| Codec.IsAm | src/common/mod.rs:43-45 | the bit test that `HoursFromRegister`'s contract turns into "AM exactly when bit 6 is set and bit 5 clear" |
| Codec.HoursFromRegister | src/common/mod.rs:25-45 | total; the result is H24 exactly when bit 6 is clear, AM exactly when bit 6 is set and bit 5 clear, PM exactly when both are set |
| Codec.HoursRoundTrip | src/common/mod.rs:14-37 | every valid hour is encoded and decodes back to itself |
| Codec.HoursRegisterRoundTrip | src/common/mod.rs:14-37 | a register byte with bit 7 clear, decimal digits and an in-range hour is exactly the encoding of the hour it decodes to |
| StatusBits.WithSt | src/lib.rs:79-94 | ST becomes the requested value and every other bit of RTCSEC is kept |
| StatusBits.OscillatorRunningBit | src/lib.rs:99-101 | the OSCRUN test; WithVbatenKeepsStatus and WeekdayRegisterKeepsStatus show that set_vbat_en and set_weekday keep it |
| StatusBits.VbatEnabledBit | src/lib.rs:105-107 | the VBATEN test; WithVbaten's contract shows that it reads back what set_vbat_en wrote, and WeekdayRegisterKeepsStatus that set_weekday keeps it |
| StatusBits.WithVbaten | src/lib.rs:111-122 | VBATEN becomes the requested value, so reading it back gives that value, and every other bit of RTCWKDAY is kept |
| StatusBits.WithVbatenKeepsStatus | src/lib.rs:111-122 | changing VBATEN keeps OSCRUN and the weekday |
| DateTimeRegs.SecondsFromRegister | src/common/datetime.rs:15 | the get_seconds decode; GettersIgnoreStatusBits shows ST does not affect it and SecondsRegister that it undoes set_seconds |
| DateTimeRegs.MinutesFromRegister | src/common/datetime.rs:21 | the get_minutes decode; MinutesRegister shows that it undoes set_minutes |
| DateTimeRegs.WeekdayFromRegister | src/common/datetime.rs:33 | the get_weekday decode; GettersIgnoreStatusBits shows VBATEN and OSCRUN do not affect it and WeekdayRegister that it undoes set_weekday |
| DateTimeRegs.DayFromRegister | src/common/datetime.rs:39 | the get_day decode; DayRegister shows that it undoes set_day |
| DateTimeRegs.MonthFromRegister | src/common/datetime.rs:45 | the get_month decode; GettersIgnoreStatusBits shows LPYR does not affect it and MonthRegister that it undoes set_month |
| DateTimeRegs.YearFromRegister | src/common/datetime.rs:49-53 | the year is 2000 plus the BCD value of RTCYEAR, between 2000 and 2165, with no `u16` overflow |
| DateTimeRegs.GettersIgnoreStatusBits | src/common/datetime.rs:13-47 | flipping ST does not change the decoded second, nor LPYR the month, nor VBATEN or OSCRUN the weekday |
| DateTimeRegs.SecondsRegister | src/common/datetime.rs:55-64 | the byte set_seconds writes decodes to the second, has ST exactly when requested, and holds the BCD second below ST |
| DateTimeRegs.StDisjointFromSeconds | src/lib.rs:44 | ST does not overlap the BCD of any second below 60, which is at most 0x59 |
| DateTimeRegs.MinutesRegister | src/common/datetime.rs:66-70 | the byte set_minutes writes decodes to the minute and is BCD at most 0x59 |
| DateTimeRegs.WeekdayRegister | src/common/datetime.rs:77-83 | the byte set_weekday writes decodes to the weekday and keeps every bit outside WKDAY |
| DateTimeRegs.WeekdayRegisterKeepsStatus | src/common/datetime.rs:77-83 | set_weekday keeps OSCRUN and VBATEN |
| DateTimeRegs.DayRegister | src/common/datetime.rs:85-89 | the byte set_day writes decodes to the day and is BCD between 0x01 and 0x31 |
| DateTimeRegs.MonthRegister | src/common/datetime.rs:91-95 | the byte set_month writes decodes to the month, has LPYR clear and is BCD between 0x01 and 0x12 |
| DateTimeRegs.YearOffset | src/common/datetime.rs:99 | for a year in 2000..2099, `(year - 2000) as u8` is at most 99 and adding it to 2000 gives the year |
| DateTimeRegs.YearRegister | src/common/datetime.rs:97-101 | the byte set_year writes is BCD and decodes to the year |
| DateTimeRegs.DecodeDateTime | src/common/datetime.rs:110-127 | the get_datetime decode, field by field with the getters' decoders; GetAfterSet shows that it undoes set_datetime's block, and DecodeExample gives a worked case |
| DateTimeRegs.StagedRegisters | src/common/datetime.rs:137-153 | the block set_datetime writes over the prior registers has seven registers; its contents are stated by StagedBlock, StagedKeepsStatus and GetAfterSet |
| DateTimeRegs.StagedBlock | src/common/datetime.rs:138-153 | a buffer holding, byte by byte, the values set_datetime stores is the staged block |
| DateTimeRegs.StagedKeepsStatus | src/common/datetime.rs:140-151 | set_datetime keeps the device's ST, keeps every non-weekday bit of RTCWKDAY and clears LPYR |
| DateTimeRegs.StagedSecond | src/common/datetime.rs:138-141 | the staged RTCSEC decodes to the record's second |
| DateTimeRegs.StagedMinute | src/common/datetime.rs:142-143 | the staged RTCMIN decodes to the record's minute |
| DateTimeRegs.StagedHour | src/common/datetime.rs:144 | the staged RTCHOUR decodes to the record's hour |
| DateTimeRegs.StagedWeekday | src/common/datetime.rs:145-147 | the staged RTCWKDAY decodes to the record's weekday |
| DateTimeRegs.StagedDay | src/common/datetime.rs:148-149 | the staged RTCDATE decodes to the record's day |
| DateTimeRegs.StagedMonth | src/common/datetime.rs:150-151 | the staged RTCMONTH decodes to the record's month |
| DateTimeRegs.StagedYear | src/common/datetime.rs:152-153 | the staged RTCYEAR decodes to the record's year |
| DateTimeRegs.GetAfterSet | src/common/datetime.rs:103-157 | for any prior register contents, decoding the block set_datetime stages gives back the record it was given |
| Interface.Device.constructor | src/lib.rs:25 | a device whose registers hold the given contents, with an empty transfer log |
| Interface.Device.ReadRegister | src/common/datetime.rs:14 | logs one single read of the address with its outcome; returns the addressed register, or a Comm error exactly when the logged read failed |
| Interface.Device.WriteRegister | src/common/datetime.rs:63 | logs one single write of the address with its outcome; on success the addressed register alone takes the value; on a Comm error, exactly when the logged write failed, nothing changes |
| Interface.Device.ReadData | src/common/datetime.rs:107-108 | logs one burst read from `buffer[0]` of `buffer.Length - 1` registers with its outcome; on success `buffer[1..]` holds those registers and `buffer[0]` is kept; Comm exactly when the logged read failed |
| Interface.Device.WriteData | src/common/datetime.rs:155 | logs one burst write with its outcome; on success the registers from the address in `buffer[0]` on take `buffer[1..]` and the others are kept; on a Comm error, exactly when the logged write failed, nothing changes |
| Driver.Mcp794xx.NewMcp7940n | src/lib.rs:62-67 | a new driver holds the given interface and starts with `isEnabled` false |
| Driver.Mcp794xx.CheckLt | src/lib.rs:124-130 | succeeds exactly when `value < reference`, otherwise fails with InvalidInputData |
| Driver.Mcp794xx.CheckBetween | src/lib.rs:132-142 | succeeds exactly when `lowest <= value <= highest`, both bounds inclusive, otherwise fails with InvalidInputData |
| Driver.Mcp794xx.Enable | src/lib.rs:79-85 | either one failed single read of RTCSEC and an error, or a successful read followed by one single write of RTCSEC whose outcome is the result; on success ST alone is set, in RTCSEC alone; `isEnabled` becomes true on success and is otherwise unchanged; every error is Comm and leaves the registers unchanged |
| Driver.Mcp794xx.Disable | src/lib.rs:88-94 | either one failed single read of RTCSEC and an error, or a successful read followed by one single write of RTCSEC whose outcome is the result; on success ST alone is cleared, in RTCSEC alone; `isEnabled` becomes false on success and is otherwise unchanged; every error is Comm and leaves the registers unchanged |
| Driver.Mcp794xx.OscillatorRunning | src/lib.rs:98-102 | one single read of RTCWKDAY, and the result is Ok exactly when it succeeded; returns whether OSCRUN is set in it; an error is Comm |
| Driver.Mcp794xx.VbatIsEnabled | src/lib.rs:105-108 | one single read of RTCWKDAY, and the result is Ok exactly when it succeeded; returns whether VBATEN is set in it; an error is Comm |
| Driver.Mcp794xx.SetVbatEn | src/lib.rs:111-122 | either one failed single read of RTCWKDAY and an error, or a successful read followed by one single write of RTCWKDAY whose outcome is the result; on success only RTCWKDAY changes, to the prior value with VBATEN as requested; every error is Comm and changes nothing |
| Driver.Mcp794xx.GetSeconds | src/common/datetime.rs:13-17 | one single read of RTCSEC, Ok exactly when it succeeded; returns RTCSEC decoded with ST masked off; an error is Comm |
| Driver.Mcp794xx.GetMinutes | src/common/datetime.rs:19-23 | one single read of RTCMIN, Ok exactly when it succeeded; returns RTCMIN decoded; an error is Comm |
| Driver.Mcp794xx.GetHours | src/common/datetime.rs:25-29 | one single read of RTCHOUR, Ok exactly when it succeeded; returns RTCHOUR decoded by `HoursFromRegister`; an error is Comm |
| Driver.Mcp794xx.GetWeekday | src/common/datetime.rs:31-35 | one single read of RTCWKDAY, Ok exactly when it succeeded; returns bits 0-2 of RTCWKDAY, at most 7; an error is Comm |
| Driver.Mcp794xx.GetDay | src/common/datetime.rs:37-41 | one single read of RTCDATE, Ok exactly when it succeeded; returns RTCDATE decoded; an error is Comm |
| Driver.Mcp794xx.GetMonth | src/common/datetime.rs:43-47 | one single read of RTCMONTH, Ok exactly when it succeeded; returns RTCMONTH decoded with LPYR masked off; an error is Comm |
| Driver.Mcp794xx.GetYear | src/common/datetime.rs:49-53 | one single read of RTCYEAR, Ok exactly when it succeeded; returns 2000 plus RTCYEAR decoded, between 2000 and 2165; an error is Comm |
| Driver.Mcp794xx.SetSeconds | src/common/datetime.rs:55-64 | a second of 60 or more fails with InvalidInputData with no transfer at all; otherwise exactly one single write and no read, the result is Ok exactly when that write succeeded and an error is Comm; on success only RTCSEC changes, to the BCD second with ST set exactly when `isEnabled` |
| Driver.Mcp794xx.SetMinutes | src/common/datetime.rs:66-70 | a minute of 60 or more fails with InvalidInputData with no transfer at all; otherwise exactly one single write and no read, the result is Ok exactly when that write succeeded and an error is Comm; on success only RTCMIN changes, to the BCD minute |
| Driver.Mcp794xx.SetHours | src/common/datetime.rs:72-75 | an invalid hour fails with InvalidInputData with no transfer at all; otherwise exactly one single write and no read, the result is Ok exactly when that write succeeded and an error is Comm; on success only RTCHOUR changes, to the encoded hour |
| Driver.Mcp794xx.SetWeekday | src/common/datetime.rs:77-83 | a weekday outside 1..7 fails with InvalidInputData with no transfer at all; otherwise either one failed single read of RTCWKDAY and a Comm error, or a successful read followed by one single write of RTCWKDAY whose outcome is the result; on success only RTCWKDAY changes, with bits 0-2 replaced by the weekday |
| Driver.Mcp794xx.SetDay | src/common/datetime.rs:85-89 | a day outside 1..31 fails with InvalidInputData with no transfer at all; otherwise exactly one single write and no read, the result is Ok exactly when that write succeeded and an error is Comm; on success only RTCDATE changes, to the BCD day |
| Driver.Mcp794xx.SetMonth | src/common/datetime.rs:91-95 | a month outside 1..12 fails with InvalidInputData with no transfer at all; otherwise exactly one single write and no read, the result is Ok exactly when that write succeeded and an error is Comm; on success only RTCMONTH changes, to the BCD month with LPYR clear |
| Driver.Mcp794xx.SetYear | src/common/datetime.rs:97-101 | a year outside 2000..2099 fails with InvalidInputData with no transfer at all; otherwise exactly one single write and no read, the result is Ok exactly when that write succeeded and an error is Comm; on success only RTCYEAR changes, to the BCD of the last two digits |
| Driver.Mcp794xx.GetDatetime | src/common/datetime.rs:103-128 | exactly one burst read of the seven registers from RTCSEC and no other transfer, Ok exactly when it succeeded; returns the record decoded from them with the per-field getters' masks; an error is Comm |
| Driver.Mcp794xx.SetDatetime | src/common/datetime.rs:130-157 | exactly one of three outcomes: the burst read of the seven registers from RTCSEC failed and the result is Comm; or it succeeded, the record is invalid and the result is InvalidInputData with no write; or it succeeded, the record is valid, and one burst write of the seven registers followed whose outcome is the result, an error being Comm; on success the registers become the staged block over their prior contents; on any failure they are unchanged |
| Driver.Mcp794xx.CheckDateTime | src/common/datetime.rs:138-152 | the checks of set_datetime, in its order: succeeds exactly for a valid record, otherwise fails with InvalidInputData |
| Driver.Mcp794xx.StageDateTime | src/common/datetime.rs:137-153 | the in-place buffer updates of set_datetime: `buffer[0]` is kept and `buffer[1..]` becomes the staged block over the block read |
| Scenarios.PackedBcdToDecimalVectors | src/common/mod.rs:52-62 | the decoding values of the driver's unit test |
| Scenarios.DecimalToPackedBcdVectors | src/common/mod.rs:65-75 | the encoding values of the driver's unit test |
| Scenarios.HoursExamples | src/common/mod.rs:14-37 | the edges of each hour notation: H24(24), AM(0), AM(13), PM(0) and PM(13) are rejected; H24(0), H24(23), AM(12) and PM(1) encode to 0x00, 0x23, 0x52 and 0x61, and each of those bytes decodes back to its hour |
| Scenarios.YearExamples | src/common/datetime.rs:97-101 | 2000 is written as 0x00 and 2099 as 0x99 |
| Scenarios.DecodeExample | src/common/datetime.rs:103-128 | registers D9 59 52 0B 31 12 99, with ST, 12-hour AM and VBATEN set, decode to 2099-12-31, weekday 3, AM 12:59:59 |
| Scenarios.SetThenGet | src/common/datetime.rs:103-157 | on a new driver, get_datetime after a successful set_datetime returns the record that was set, and an invalid record always fails |
| Scenarios.EnableThenSetSeconds | src/common/datetime.rs:55-64 | after a successful enable and set_seconds, the RTCSEC byte written (`written`) has ST set and the BCD second in its other bits, and get_seconds reads the second back; only a second of 60 or more gives InvalidInputData |
| Scenarios.WeekdayAndBattery | src/common/datetime.rs:77-83 | after set_weekday and set_vbat_en, the weekday and VBATEN read back as set and OSCRUN as the device held it; a weekday outside 1..7 is rejected |

## Left out

- The I2C transport is not part of this model. That covers `I2cInterface`, the
  `interface` module (src/lib.rs:53-54), the embedded-hal bounds and
  `DEVICE_ADDRESS`. `Interface.Device` stands in for it: single and burst
  transfers act directly on the seven registers.
  - A bus failure is a nondeterministic `Comm` outcome without a payload.
  - A failed transfer is taken to leave the registers unchanged. This is a
    modelling choice; the real bus may have written part of a burst.
- The chip's own behaviour is not modelled: the oscillator ticking, the
  hardware setting OSCRUN and LPYR, and the chip taking a snapshot during a
  burst read. Between two driver calls the registers change only through the
  driver.
- `destroy_mcp7940n` (src/lib.rs:69-71) only hands the bus back.
- The sealed-trait module (src/lib.rs:145-152) is a Rust access-control device.
- The `Rtcc` trait and the crate that defines `DateTime` and `Hours` are not
  part of this model. Only the two datatypes are reproduced.
- `is_24h_format` and `is_am` are the two bit tests `Codec.Is24hFormat` and
  `Codec.IsAm` used by `HoursFromRegister`. Their meaning is stated in
  `HoursFromRegister`'s contract.
- `check_lt` and `check_between` are generic over `PartialOrd` in the source.
  The model instantiates them at `u16`; every call passes a `u8` or `u16`, and
  both widen exactly to `u16`.
- Driver.Mcp794xx.SetDatetime: the source interleaves each field's check with
  its buffer update. The model runs all the checks first (`CheckDateTime`) and
  then stages the buffer (`StageDateTime`). The buffer is local, and before
  the single write every failure is InvalidInputData, so the two orders have
  the same result and the same effect on the device.
- The transfer log records which transfers were started, at which registers,
  and whether each succeeded, not the bytes they carried; those are stated by
  the register contents each method promises.
