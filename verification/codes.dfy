/**
  Constants of the Linux input subsystem (linux/input-event-codes.h and
  linux/uinput.h) that the keyboard-to-gamepad translator uses, and the
  fixed-width integer ranges of the `input_event` record that carries them.

  Their values are the ones the kernel header assigns.
 */
module InputCodes {

  type u8 = x: int | 0 <= x < 0x100
  type u16 = x: int | 0 <= x < 0x1_0000
  type i16 = x: int | -0x8000 <= x < 0x8000
  type i32 = x: int | -0x8000_0000 <= x < 0x8000_0000

  const I16_MAX: i16 := 0x7fff
  const I16_MIN: i16 := -0x8000

  // Event kinds
  const EV_SYN: u16 := 0x00
  const EV_KEY: u16 := 0x01
  const EV_ABS: u16 := 0x03

  // Code of the synchronisation report carried by an EV_SYN record
  const SYN_REPORT: u16 := 0

  // Absolute axes of the left stick
  const ABS_X: u16 := 0x00
  const ABS_Y: u16 := 0x01

  // Keyboard keys the translator reads
  const KEY_W: u16 := 17
  const KEY_E: u16 := 18
  const KEY_ENTER: u16 := 28
  const KEY_A: u16 := 30
  const KEY_S: u16 := 31
  const KEY_D: u16 := 32
  const KEY_G: u16 := 34
  const KEY_C: u16 := 46
  const KEY_SPACE: u16 := 57

  // Gamepad buttons the emulated device reports
  const BTN_A: u16 := 0x130
  const BTN_B: u16 := 0x131
  const BTN_X: u16 := 0x133
  const BTN_Y: u16 := 0x134

  // Longest device name uinput accepts
  const UINPUT_MAX_NAME_SIZE: nat := 80

  /** One `input_event` record, read from the keyboard or written to the
      emulated gamepad. The timestamp is not part of the model: the input's
      is never read, and each written record gets the current time. */
  datatype Event = Event(kind: u16, code: u16, value: i32)

  datatype Option<+T> = None | Some(value: T)
}
