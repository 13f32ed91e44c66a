/**
 * The oscillator and battery-backup bits the driver reads and changes
 * (src/lib.rs): ST in RTCSEC, OSCRUN and VBATEN in RTCWKDAY.
 */
module StatusBits {
  import opened Base

  /** RTCSEC with the oscillator start bit set (`enable`) or cleared
      (`disable`), every other bit kept. */
  function WithSt(seconds: u8, st: bool): (data: u8)
    ensures (data & ST != 0) == st
    ensures data & !ST == seconds & !ST
  {
    if st then seconds | ST else seconds & !ST
  }

  /** `oscillator_running`: bit 5 of RTCWKDAY. */
  function OscillatorRunningBit(wkday: u8): bool {
    wkday & OSCRUN != 0
  }

  /** `vbat_is_enabled`: bit 3 of RTCWKDAY. */
  function VbatEnabledBit(wkday: u8): bool {
    wkday & VBATEN != 0
  }

  /** `set_vbat_en`: RTCWKDAY with VBATEN set to `enable` and every other
      bit kept, so reading VBATEN back gives `enable`. */
  function WithVbaten(wkday: u8, enable: bool): (data: u8)
    ensures VbatEnabledBit(data) == enable
    ensures data & !VBATEN == wkday & !VBATEN
  {
    if enable then wkday | VBATEN else wkday & !VBATEN
  }

  /** Changing VBATEN leaves the oscillator status and the weekday as they
      were. */
  lemma WithVbatenKeepsStatus(wkday: u8, enable: bool)
    ensures OscillatorRunningBit(WithVbaten(wkday, enable)) == OscillatorRunningBit(wkday)
    ensures WithVbaten(wkday, enable) & WKDAY == wkday & WKDAY
  {
  }
}
