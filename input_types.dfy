/** The parts of winit's keyboard model that the desktop input translation reads. */
module Winit {

  /** Named (non-character) keys. Only the keys the translation tables tell
      apart are listed by name; `F(n)` is the function key Fn, and
      `Unlisted(id)` stands for every other named key winit defines. */
  datatype NamedKey =
    | Enter | Tab | Space | Backspace | Delete | Insert
    | Home | End | PageUp | PageDown
    | ArrowLeft | ArrowRight | ArrowUp | ArrowDown
    | Shift | Control | Alt | AltGraph | Super
    | CapsLock | NumLock | ScrollLock | Escape | Pause
    | F(n: nat)
    | Unlisted(id: nat)

  /** The logical key of a key event. */
  datatype Key =
    | Named(name: NamedKey)
    | Character(text: string)
    | Unidentified
    | Dead

  /** Where on the keyboard the key sits. */
  datatype KeyLocation = Standard | Left | Right | Numpad

  datatype KeyEvent = KeyEvent(logicalKey: Key, location: KeyLocation)

  /** The modifier keys held during the event. */
  datatype ModifiersState = ModifiersState(shift: bool, control: bool, alt: bool, superKey: bool)
}

/** The buttons of gilrs' gamepad model. */
module Gilrs {
  datatype Button =
    | South | East | North | West | C | Z
    | LeftTrigger | LeftTrigger2 | RightTrigger | RightTrigger2
    | Select | Start | Mode | LeftThumb | RightThumb
    | DPadUp | DPadDown | DPadLeft | DPadRight
    | Unknown
}

/**
  The player's key codes: Flash Player's numeric key codes, one byte each.
  The constants are the codes the desktop translation names; the letters A
  to Z are the codes 65 to 90, the values of the upper-case ASCII letters.
*/
module KeyCodes {
  import opened Wrappers

  newtype KeyCode = b: int | 0 <= b < 256

  const Unknown: KeyCode := 0
  const Backspace: KeyCode := 8
  const Tab: KeyCode := 9
  const Return: KeyCode := 13
  const Shift: KeyCode := 16
  const Control: KeyCode := 17
  const Alt: KeyCode := 18
  const Pause: KeyCode := 19
  const CapsLock: KeyCode := 20
  const Escape: KeyCode := 27
  const Space: KeyCode := 32
  const PgUp: KeyCode := 33
  const PgDown: KeyCode := 34
  const End: KeyCode := 35
  const Home: KeyCode := 36
  const Left: KeyCode := 37
  const Up: KeyCode := 38
  const Right: KeyCode := 39
  const Down: KeyCode := 40
  const Insert: KeyCode := 45
  const Delete: KeyCode := 46
  const Key0: KeyCode := 48
  const Key1: KeyCode := 49
  const Key2: KeyCode := 50
  const Key3: KeyCode := 51
  const Key4: KeyCode := 52
  const Key5: KeyCode := 53
  const Key6: KeyCode := 54
  const Key7: KeyCode := 55
  const Key8: KeyCode := 56
  const Key9: KeyCode := 57
  const Numpad0: KeyCode := 96
  const Numpad1: KeyCode := 97
  const Numpad2: KeyCode := 98
  const Numpad3: KeyCode := 99
  const Numpad4: KeyCode := 100
  const Numpad5: KeyCode := 101
  const Numpad6: KeyCode := 102
  const Numpad7: KeyCode := 103
  const Numpad8: KeyCode := 104
  const Numpad9: KeyCode := 105
  const Multiply: KeyCode := 106
  const Plus: KeyCode := 107
  const NumpadMinus: KeyCode := 109
  const NumpadPeriod: KeyCode := 110
  const NumpadSlash: KeyCode := 111
  const NumLock: KeyCode := 144
  const ScrollLock: KeyCode := 145
  const Semicolon: KeyCode := 186
  const Equals: KeyCode := 187
  const Comma: KeyCode := 188
  const Minus: KeyCode := 189
  const Period: KeyCode := 190
  const Slash: KeyCode := 191
  const Grave: KeyCode := 192
  const LBracket: KeyCode := 219
  const Backslash: KeyCode := 220
  const RBracket: KeyCode := 221
  const Apostrophe: KeyCode := 222

  /** The function key Fn, for n from 1 to 24: codes 112 to 135. */
  function FunctionKey(n: nat): KeyCode
    requires 1 <= n <= 24
  {
    (111 + n) as KeyCode
  }

  /** The codes declared above, and the letters. */
  predicate IsDeclared(b: int) {
    || b in {0, 8, 9, 13, 16, 17, 18, 19, 20, 27, 32, 33, 34, 35, 36, 37, 38, 39, 40, 45, 46}
    || 48 <= b <= 57
    || 65 <= b <= 90
    || 96 <= b <= 107
    || 109 <= b <= 135
    || b in {144, 145, 186, 187, 188, 189, 190, 191, 192, 219, 220, 221, 222}
  }

  /** `KeyCode::from_u8`: the key code with that byte value, when declared. */
  function FromU8(b: int): (r: Option<KeyCode>)
    ensures r.Some? <==> 0 <= b < 256 && IsDeclared(b)
    ensures r.Some? ==> r.value as int == b
  {
    if 0 <= b < 256 && IsDeclared(b) then Some(b as KeyCode) else None
  }
}

/** The player's text-editing commands and gamepad buttons. */
module RuffleEvents {

  datatype TextControlCode =
    | MoveLeft | MoveLeftWord | MoveLeftLine | MoveLeftDocument
    | MoveRight | MoveRightWord | MoveRightLine | MoveRightDocument
    | SelectLeft | SelectLeftWord | SelectLeftLine | SelectLeftDocument
    | SelectRight | SelectRightWord | SelectRightLine | SelectRightDocument
    | SelectAll | Copy | Paste | Cut
    | Backspace | BackspaceWord | Delete | DeleteWord
    | Enter

  datatype GamepadButton =
    | South | East | North | West
    | LeftTrigger | LeftTrigger2 | RightTrigger | RightTrigger2
    | Select | Start
    | DPadUp | DPadDown | DPadLeft | DPadRight
}
