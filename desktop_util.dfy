/**
  The desktop player's input translation: winit key events to text-editing
  commands and to key codes, gilrs buttons to gamepad buttons; and the screen
  size, the bounding box of all monitors.
*/
module DesktopUtil {
  import opened Wrappers
  import opened Winit
  import opened RuffleEvents
  import Gilrs
  import KeyCodes

  // ---------------------------------------------------------------------------
  // Keys
  // ---------------------------------------------------------------------------

  /** The key is the one-character string `[c]`. */
  predicate IsChar(key: Key, c: char) {
    key.Character? && |key.text| == 1 && key.text[0] == c
  }

  lemma IsCharMeansSingleCharacter(key: Key, c: char)
    ensures IsChar(key, c) <==> key == Character([c])
  {
    if key.Character? && |key.text| == 1 && key.text[0] == c {
      assert key.text == [c];
    }
  }

  /** The command modifier: Control, or Super on macOS. */
  function CtrlCmd(modifiers: ModifiersState, isMacOs: bool): bool {
    modifiers.control || (modifiers.superKey && isMacOs)
  }

  /** The keys whose translation to a text command reads the modifiers
      beyond the command modifier. */
  predicate IsNavigationKey(key: NamedKey) {
    key in {ArrowLeft, ArrowRight, NamedKey.Home, NamedKey.End}
  }

  /** The named keys that always give a text command. */
  predicate IsEditingKey(key: NamedKey) {
    IsNavigationKey(key) || key in {NamedKey.Enter, NamedKey.Backspace, NamedKey.Delete}
  }

  /** The clipboard shortcuts: their letters, and what each one does. */
  predicate IsShortcutLetter(text: string) {
    text in {"a", "c", "v", "x"}
  }

  // ---------------------------------------------------------------------------
  // Text-editing commands
  // ---------------------------------------------------------------------------

  /** `winit_to_ruffle_text_control`: the text-editing command of a key event,
      if any. The arms are tried in order; the first that matches decides. */
  function WinitToRuffleTextControl(event: KeyEvent, modifiers: ModifiersState, isMacOs: bool): (r: Option<TextControlCode>)
    ensures event.logicalKey == Named(NamedKey.Enter) ==> r == Some(TextControlCode.Enter)
    ensures event.logicalKey.Character? ==>
              (r.Some? <==> CtrlCmd(modifiers, isMacOs) && IsShortcutLetter(event.logicalKey.text))
    ensures r.Some? <==>
              (event.logicalKey.Named? && IsEditingKey(event.logicalKey.name)) ||
              (event.logicalKey.Character? && CtrlCmd(modifiers, isMacOs) && IsShortcutLetter(event.logicalKey.text))
  {
    var shift := modifiers.shift;
    var ctrlCmd := CtrlCmd(modifiers, isMacOs);
    var key := event.logicalKey;
    IsCharMeansSingleCharacter(key, 'a');
    IsCharMeansSingleCharacter(key, 'c');
    IsCharMeansSingleCharacter(key, 'v');
    IsCharMeansSingleCharacter(key, 'x');
    if key == Named(NamedKey.Enter) then Some(TextControlCode.Enter)
    else if IsChar(key, 'a') && ctrlCmd then Some(SelectAll)
    else if IsChar(key, 'c') && ctrlCmd then Some(Copy)
    else if IsChar(key, 'v') && ctrlCmd then Some(Paste)
    else if IsChar(key, 'x') && ctrlCmd then Some(Cut)
    else if key == Named(NamedKey.Backspace) && ctrlCmd then Some(BackspaceWord)
    else if key == Named(NamedKey.Backspace) then Some(TextControlCode.Backspace)
    else if key == Named(NamedKey.Delete) && ctrlCmd then Some(DeleteWord)
    else if key == Named(NamedKey.Delete) then Some(TextControlCode.Delete)
    else if key == Named(ArrowLeft) && ctrlCmd && shift then Some(SelectLeftWord)
    else if key == Named(ArrowLeft) && ctrlCmd then Some(MoveLeftWord)
    else if key == Named(ArrowLeft) && shift then Some(SelectLeft)
    else if key == Named(ArrowLeft) then Some(MoveLeft)
    else if key == Named(ArrowRight) && ctrlCmd && shift then Some(SelectRightWord)
    else if key == Named(ArrowRight) && ctrlCmd then Some(MoveRightWord)
    else if key == Named(ArrowRight) && shift then Some(SelectRight)
    else if key == Named(ArrowRight) then Some(MoveRight)
    else if key == Named(NamedKey.Home) && ctrlCmd && shift then Some(SelectLeftDocument)
    else if key == Named(NamedKey.Home) && ctrlCmd then Some(MoveLeftDocument)
    else if key == Named(NamedKey.Home) && shift then Some(SelectLeftLine)
    else if key == Named(NamedKey.Home) then Some(MoveLeftLine)
    else if key == Named(NamedKey.End) && ctrlCmd && shift then Some(SelectRightDocument)
    else if key == Named(NamedKey.End) && ctrlCmd then Some(MoveRightDocument)
    else if key == Named(NamedKey.End) && shift then Some(SelectRightLine)
    else if key == Named(NamedKey.End) then Some(MoveRightLine)
    else None
  }

  /** The command of a clipboard shortcut letter. */
  function ShortcutCode(text: string): TextControlCode
    requires IsShortcutLetter(text)
  {
    if text == "a" then SelectAll
    else if text == "c" then Copy
    else if text == "v" then Paste
    else Cut
  }

  /** Reference table for the navigation keys: the key gives the direction,
      Shift selects instead of moving, and the command modifier moves by word
      (arrows) or to the end of the document (Home, End) instead of by one
      character or to the end of the line. */
  function NavigationCode(key: NamedKey, select: bool, far: bool): TextControlCode
    requires IsNavigationKey(key)
  {
    match key
    case ArrowLeft =>
      if select then (if far then SelectLeftWord else SelectLeft)
      else (if far then MoveLeftWord else MoveLeft)
    case ArrowRight =>
      if select then (if far then SelectRightWord else SelectRight)
      else (if far then MoveRightWord else MoveRight)
    case Home =>
      if select then (if far then SelectLeftDocument else SelectLeftLine)
      else (if far then MoveLeftDocument else MoveLeftLine)
    case End =>
      if select then (if far then SelectRightDocument else SelectRightLine)
      else (if far then MoveRightDocument else MoveRightLine)
  }

  /** The first-match chain over the navigation keys computes the reference
      table: Shift and the command modifier combine freely. */
  lemma NavigationFollowsTable(event: KeyEvent, modifiers: ModifiersState, isMacOs: bool)
    requires event.logicalKey.Named? && IsNavigationKey(event.logicalKey.name)
    ensures WinitToRuffleTextControl(event, modifiers, isMacOs)
         == Some(NavigationCode(event.logicalKey.name, modifiers.shift, CtrlCmd(modifiers, isMacOs)))
  {
  }

  /** Backspace and Delete read the command modifier only. */
  lemma DeletionReadsCommandOnly(event: KeyEvent, modifiers: ModifiersState, isMacOs: bool)
    requires event.logicalKey in {Named(NamedKey.Backspace), Named(NamedKey.Delete)}
    ensures WinitToRuffleTextControl(event, modifiers, isMacOs)
         == Some(if event.logicalKey == Named(NamedKey.Backspace)
                 then (if CtrlCmd(modifiers, isMacOs) then BackspaceWord else TextControlCode.Backspace)
                 else (if CtrlCmd(modifiers, isMacOs) then DeleteWord else TextControlCode.Delete))
  {
  }

  /** A shortcut letter with the command modifier gives its command; lower
      case only. */
  lemma ShortcutLetters(event: KeyEvent, modifiers: ModifiersState, isMacOs: bool)
    requires event.logicalKey.Character? && IsShortcutLetter(event.logicalKey.text)
    requires CtrlCmd(modifiers, isMacOs)
    ensures WinitToRuffleTextControl(event, modifiers, isMacOs) == Some(ShortcutCode(event.logicalKey.text))
  {
    IsCharMeansSingleCharacter(event.logicalKey, 'a');
    IsCharMeansSingleCharacter(event.logicalKey, 'c');
    IsCharMeansSingleCharacter(event.logicalKey, 'v');
    IsCharMeansSingleCharacter(event.logicalKey, 'x');
  }

  /** Only the navigation keys read Shift. */
  lemma ShiftMattersOnlyForNavigation(event: KeyEvent, modifiers: ModifiersState, isMacOs: bool)
    requires !(event.logicalKey.Named? && IsNavigationKey(event.logicalKey.name))
    ensures WinitToRuffleTextControl(event, modifiers, isMacOs)
         == WinitToRuffleTextControl(event, modifiers.(shift := !modifiers.shift), isMacOs)
  {
  }

  /** On macOS, Super does what Control does; elsewhere Super is ignored. */
  lemma SuperIsCommandOnMacOs(event: KeyEvent, modifiers: ModifiersState)
    ensures WinitToRuffleTextControl(event, modifiers.(control := false, superKey := true), true)
         == WinitToRuffleTextControl(event, modifiers.(control := true, superKey := false), true)
    ensures WinitToRuffleTextControl(event, modifiers.(superKey := true), false)
         == WinitToRuffleTextControl(event, modifiers.(superKey := false), false)
  {
  }

  // ---------------------------------------------------------------------------
  // Key codes
  // ---------------------------------------------------------------------------

  /** The number of bytes of a character in UTF-8. */
  function Utf8Width(c: char): nat {
    if c as int < 0x80 then 1 else if c as int < 0x800 then 2 else if c as int < 0x10000 then 3 else 4
  }

  /** The length in bytes of a string in UTF-8 (Rust's `str::len`). */
  function Utf8Length(s: string): nat {
    if s == [] then 0 else Utf8Width(s[0]) + Utf8Length(s[1..])
  }

  /** A string is one byte long exactly when it is one ASCII character. */
  lemma {:induction false} Utf8LengthOne(s: string)
    ensures Utf8Length(s) == 1 <==> |s| == 1 && s[0] as int < 0x80
  {
    if s != [] {
      Utf8LengthZero(s[1..]);
    }
  }

  lemma {:induction false} Utf8LengthZero(s: string)
    ensures Utf8Length(s) == 0 <==> s == []
  {
  }

  predicate IsAsciiAlphabetic(c: char) {
    'A' <= c <= 'Z' || 'a' <= c <= 'z'
  }

  function ToAsciiUppercase(c: char): char {
    if 'a' <= c <= 'z' then (c as int - 32) as char else c
  }

  /** `alpha_to_ruffle_key_code`: the key code of a one-letter string, that of
      the upper-case letter whichever the case. */
  function AlphaToRuffleKeyCode(s: string): (r: Option<KeyCodes.KeyCode>)
    ensures r.Some? <==> |s| == 1 && IsAsciiAlphabetic(s[0])
    ensures r.Some? ==> |s| == 1 && r.value as int == ToAsciiUppercase(s[0]) as int
    ensures r.Some? ==> 'A' as int <= r.value as int <= 'Z' as int
  {
    Utf8LengthOne(s);
    if Utf8Length(s) != 1 then None
    else
      var c := s[0];
      // Any other character, ASCII or not, has no key code.
      if IsAsciiAlphabetic(c) then KeyCodes.FromU8(ToAsciiUppercase(c) as int) else None
  }

  /** `winit_to_ruffle_key_code`: the key code of a key event; none for
      AltGraph, which Flash Player ignores, and `Unknown` for any key without
      a code. The match arms are tried in order and the first that matches
      decides. An arm for a named key and an arm for a character never match
      the same key, so the two kinds are split into two chains, each in the
      order of its arms. */
  function WinitToRuffleKeyCode(event: KeyEvent): (r: Option<KeyCodes.KeyCode>)
    ensures r.None? <==> event.logicalKey == Named(AltGraph)
  {
    match event.logicalKey
    case Named(name) => NamedKeyArms(name)
    case Character(text) => Some(CharacterArms(text, event.location == Numpad))
    case _ => Some(KeyCodes.Unknown)
  }

  /** The arms for named keys, in order. */
  function NamedKeyArms(name: NamedKey): Option<KeyCodes.KeyCode> {
    if name == NamedKey.Backspace then Some(KeyCodes.Backspace)
    else if name == NamedKey.Tab then Some(KeyCodes.Tab)
    else if name == NamedKey.Enter then Some(KeyCodes.Return)
    else if name == NamedKey.Shift then Some(KeyCodes.Shift)
    else if name == NamedKey.Control then Some(KeyCodes.Control)
    else if name == NamedKey.Alt then Some(KeyCodes.Alt)
    else if name == AltGraph then None
    else if name == NamedKey.CapsLock then Some(KeyCodes.CapsLock)
    else if name == NamedKey.Escape then Some(KeyCodes.Escape)
    else if name == NamedKey.Space then Some(KeyCodes.Space)
    else if name == PageUp then Some(KeyCodes.PgUp)
    else if name == PageDown then Some(KeyCodes.PgDown)
    else if name == NamedKey.End then Some(KeyCodes.End)
    else if name == NamedKey.Home then Some(KeyCodes.Home)
    else if name == ArrowLeft then Some(KeyCodes.Left)
    else if name == ArrowUp then Some(KeyCodes.Up)
    else if name == ArrowRight then Some(KeyCodes.Right)
    else if name == ArrowDown then Some(KeyCodes.Down)
    else if name == NamedKey.Insert then Some(KeyCodes.Insert)
    else if name == NamedKey.Delete then Some(KeyCodes.Delete)
    else if name == NamedKey.Pause then Some(KeyCodes.Pause)
    else if name == NamedKey.NumLock then Some(KeyCodes.NumLock)
    else if name == NamedKey.ScrollLock then Some(KeyCodes.ScrollLock)
    // F1 to F24, one arm each
    else if name.F? && 1 <= name.n <= 24 then Some(KeyCodes.FunctionKey(name.n))
    else Some(KeyCodes.Unknown)
  }

  /** The arms for character keys, in order: the numpad arms, guarded by the
      key's location, then the main-row arms, then the letters. */
  function CharacterArms(text: string, isNumpad: bool): KeyCodes.KeyCode {
    var key := Character(text);
    if IsChar(key, '0') && isNumpad then KeyCodes.Numpad0
    else if IsChar(key, '1') && isNumpad then KeyCodes.Numpad1
    else if IsChar(key, '2') && isNumpad then KeyCodes.Numpad2
    else if IsChar(key, '3') && isNumpad then KeyCodes.Numpad3
    else if IsChar(key, '4') && isNumpad then KeyCodes.Numpad4
    else if IsChar(key, '5') && isNumpad then KeyCodes.Numpad5
    else if IsChar(key, '6') && isNumpad then KeyCodes.Numpad6
    else if IsChar(key, '7') && isNumpad then KeyCodes.Numpad7
    else if IsChar(key, '8') && isNumpad then KeyCodes.Numpad8
    else if IsChar(key, '9') && isNumpad then KeyCodes.Numpad9
    else if IsChar(key, '*') && isNumpad then KeyCodes.Multiply
    else if IsChar(key, '+') && isNumpad then KeyCodes.Plus
    else if IsChar(key, '-') && isNumpad then KeyCodes.NumpadMinus
    else if IsChar(key, '.') && isNumpad then KeyCodes.NumpadPeriod
    else if IsChar(key, '/') && isNumpad then KeyCodes.NumpadSlash
    else if IsChar(key, '0') || IsChar(key, ')') then KeyCodes.Key0
    else if IsChar(key, '1') || IsChar(key, '!') then KeyCodes.Key1
    else if IsChar(key, '2') || IsChar(key, '@') then KeyCodes.Key2
    else if IsChar(key, '3') || IsChar(key, '#') then KeyCodes.Key3
    else if IsChar(key, '4') || IsChar(key, '$') then KeyCodes.Key4
    else if IsChar(key, '5') || IsChar(key, '%') then KeyCodes.Key5
    else if IsChar(key, '6') || IsChar(key, '^') then KeyCodes.Key6
    else if IsChar(key, '7') || IsChar(key, '&') then KeyCodes.Key7
    else if IsChar(key, '8') || IsChar(key, '*') then KeyCodes.Key8
    else if IsChar(key, '9') || IsChar(key, '(') then KeyCodes.Key9
    else if IsChar(key, ';') || IsChar(key, ':') then KeyCodes.Semicolon
    else if IsChar(key, '=') || IsChar(key, '+') then KeyCodes.Equals
    else if IsChar(key, ',') || IsChar(key, '<') then KeyCodes.Comma
    else if IsChar(key, '-') || IsChar(key, '_') then KeyCodes.Minus
    else if IsChar(key, '.') || IsChar(key, '>') then KeyCodes.Period
    else if IsChar(key, '/') || IsChar(key, '?') then KeyCodes.Slash
    else if IsChar(key, '`') || IsChar(key, '~') then KeyCodes.Grave
    else if IsChar(key, '[') || IsChar(key, '{') then KeyCodes.LBracket
    else if IsChar(key, '\\') || IsChar(key, '|') then KeyCodes.Backslash
    else if IsChar(key, ']') || IsChar(key, '}') then KeyCodes.RBracket
    else if IsChar(key, '\'') || IsChar(key, '"') then KeyCodes.Apostrophe
    else AlphaToRuffleKeyCode(text).GetOr(KeyCodes.Unknown)
  }

  /** The location is read only by the fifteen numpad arms: for any other
      text, the code is the same on the numpad and off it. So `!` on the
      numpad still gives Key1, and `_` gives Minus. */
  lemma NumpadReadOnlyForDigitsAndOperators(text: string)
    requires !(|text| == 1 && text[0] in "0123456789*+-./")
    ensures CharacterArms(text, true) == CharacterArms(text, false)
  {
  }

  /** A digit gives its numpad code on the numpad and its main-row code
      elsewhere. */
  lemma DigitCodes(d: nat, location: KeyLocation)
    requires d < 10
    ensures WinitToRuffleKeyCode(KeyEvent(Character([(48 + d) as char]), location))
         == Some(if location == Numpad then (96 + d) as KeyCodes.KeyCode else (48 + d) as KeyCodes.KeyCode)
  {
  }

  /** The key code of a numpad operator character, on the numpad and off it;
      off it the earlier arm for the shifted symbol wins (`*` is Shift+8, `+`
      is Shift+=). */
  function OperatorCode(c: char, onPad: bool): KeyCodes.KeyCode
    requires c in "*+-./"
  {
    match c
    case '*' => if onPad then KeyCodes.Multiply else KeyCodes.Key8
    case '+' => if onPad then KeyCodes.Plus else KeyCodes.Equals
    case '-' => if onPad then KeyCodes.NumpadMinus else KeyCodes.Minus
    case '.' => if onPad then KeyCodes.NumpadPeriod else KeyCodes.Period
    case '/' => if onPad then KeyCodes.NumpadSlash else KeyCodes.Slash
  }

  /** The numpad operators get their own codes only on the numpad. */
  lemma OperatorCodes(c: char, location: KeyLocation)
    requires c in "*+-./"
    ensures WinitToRuffleKeyCode(KeyEvent(Character([c]), location)) == Some(OperatorCode(c, location == Numpad))
  {
  }

  /** The shifted digits of a US keyboard: `ShiftedDigits[d]` is Shift+d. */
  const ShiftedDigits: string := ")!@#$%^&*("

  /** Off the numpad, a shifted digit has the code of its digit key. */
  lemma ShiftedDigitHasDigitCode(d: nat, location: KeyLocation)
    requires d < 10 && location != Numpad
    ensures WinitToRuffleKeyCode(KeyEvent(Character([ShiftedDigits[d]]), location))
         == WinitToRuffleKeyCode(KeyEvent(Character([(48 + d) as char]), location))
         == Some((48 + d) as KeyCodes.KeyCode)
  {
    DigitCodes(d, location);
  }

  /** The punctuation keys of a US keyboard, unshifted and shifted, and
      their key codes: `ShiftedPunctuation[i]` is Shift+`BasePunctuation[i]`,
      on the key whose code is `PunctuationCodes[i]`. */
  const BasePunctuation: string := ";=,-./`[\\]'"
  const ShiftedPunctuation: string := ":+<_>?~{|}\""
  const PunctuationCodes: seq<KeyCodes.KeyCode> := [
    KeyCodes.Semicolon, KeyCodes.Equals, KeyCodes.Comma, KeyCodes.Minus,
    KeyCodes.Period, KeyCodes.Slash, KeyCodes.Grave, KeyCodes.LBracket,
    KeyCodes.Backslash, KeyCodes.RBracket, KeyCodes.Apostrophe
  ]

  /** Off the numpad, a punctuation key has its own code. */
  lemma PunctuationKeyCodes(i: nat, location: KeyLocation)
    requires i < |BasePunctuation| && location != Numpad
    ensures |PunctuationCodes| == |BasePunctuation|
    ensures WinitToRuffleKeyCode(KeyEvent(Character([BasePunctuation[i]]), location)) == Some(PunctuationCodes[i])
  {
  }

  /** Off the numpad, a shifted punctuation symbol has the code of its base
      key. */
  lemma ShiftedPunctuationHasBaseCode(i: nat, location: KeyLocation)
    requires i < |BasePunctuation| && location != Numpad
    ensures |ShiftedPunctuation| == |PunctuationCodes| == |BasePunctuation|
    ensures WinitToRuffleKeyCode(KeyEvent(Character([ShiftedPunctuation[i]]), location))
         == WinitToRuffleKeyCode(KeyEvent(Character([BasePunctuation[i]]), location))
         == Some(PunctuationCodes[i])
  {
    PunctuationKeyCodes(i, location);
  }

  /** A letter has the code of its upper-case form, wherever the key sits. */
  lemma LetterCodes(c: char, location: KeyLocation)
    requires IsAsciiAlphabetic(c)
    ensures WinitToRuffleKeyCode(KeyEvent(Character([c]), location)) == Some(ToAsciiUppercase(c) as int as KeyCodes.KeyCode)
  {
  }

  /** A string of any length but one has no key code. */
  lemma LongerTextIsUnknown(text: string, location: KeyLocation)
    requires |text| != 1
    ensures WinitToRuffleKeyCode(KeyEvent(Character(text), location)) == Some(KeyCodes.Unknown)
  {
  }

  /** F1 to F24 have codes 112 to 135; higher function keys have none. */
  lemma FunctionKeyCodes(n: nat, location: KeyLocation)
    ensures WinitToRuffleKeyCode(KeyEvent(Named(F(n)), location))
         == Some(if 1 <= n <= 24 then (111 + n) as KeyCodes.KeyCode else KeyCodes.Unknown)
  {
  }

  /** Reference table: the key code of each named key; `Unknown` for a named
      key Flash Player has no code for, and none for AltGraph. */
  function NamedKeyCode(k: NamedKey): Option<KeyCodes.KeyCode> {
    match k
    case Backspace => Some(KeyCodes.Backspace)
    case Tab => Some(KeyCodes.Tab)
    case Enter => Some(KeyCodes.Return)
    case Shift => Some(KeyCodes.Shift)
    case Control => Some(KeyCodes.Control)
    case Alt => Some(KeyCodes.Alt)
    case AltGraph => None
    case CapsLock => Some(KeyCodes.CapsLock)
    case Escape => Some(KeyCodes.Escape)
    case Space => Some(KeyCodes.Space)
    case PageUp => Some(KeyCodes.PgUp)
    case PageDown => Some(KeyCodes.PgDown)
    case End => Some(KeyCodes.End)
    case Home => Some(KeyCodes.Home)
    case ArrowLeft => Some(KeyCodes.Left)
    case ArrowUp => Some(KeyCodes.Up)
    case ArrowRight => Some(KeyCodes.Right)
    case ArrowDown => Some(KeyCodes.Down)
    case Insert => Some(KeyCodes.Insert)
    case Delete => Some(KeyCodes.Delete)
    case Pause => Some(KeyCodes.Pause)
    case NumLock => Some(KeyCodes.NumLock)
    case ScrollLock => Some(KeyCodes.ScrollLock)
    case F(n) => Some(if 1 <= n <= 24 then (111 + n) as KeyCodes.KeyCode else KeyCodes.Unknown)
    case Super => Some(KeyCodes.Unknown)
    case Unlisted(_) => Some(KeyCodes.Unknown)
  }

  /** A named key gets its code from the table, wherever it sits. */
  lemma NamedKeyCodes(k: NamedKey, location: KeyLocation)
    ensures WinitToRuffleKeyCode(KeyEvent(Named(k), location)) == NamedKeyCode(k)
  {
  }

  /** The characters some arm names: digits, main-row punctuation (which
      includes the numpad operators) and letters. */
  predicate HasCharacterArm(c: char) {
    c in "0123456789)!@#$%^&*(;:=+,<-_.>/?`~[{\\|]}'\"" || IsAsciiAlphabetic(c)
  }

  /** Every key no arm names gets `Unknown`: unidentified and dead keys,
      named keys without a code, and one-character text of any other
      character. */
  lemma UnmatchedKeysAreUnknown(key: Key, location: KeyLocation)
    requires || key == Unidentified || key == Dead
             || key == Named(Super) || (key.Named? && key.name.Unlisted?)
             || (key.Character? && IsUnlistedText(key.text))
    ensures WinitToRuffleKeyCode(KeyEvent(key, location)) == Some(KeyCodes.Unknown)
  {
    if key.Character? {
      UnlistedCharacterIsUnknown(key, location);
    } else {
      KeyWithoutArmIsUnknown(key, location);
    }
  }

  /** Unidentified and dead keys, Super and unlisted named keys get
      `Unknown`. */
  lemma KeyWithoutArmIsUnknown(key: Key, location: KeyLocation)
    requires || key == Unidentified || key == Dead
             || key == Named(Super) || (key.Named? && key.name.Unlisted?)
    ensures WinitToRuffleKeyCode(KeyEvent(key, location)) == Some(KeyCodes.Unknown)
  {
    if key.Named? {
      assert WinitToRuffleKeyCode(KeyEvent(key, location)) == NamedKeyArms(key.name);
      assert NamedKeyArms(key.name) == Some(KeyCodes.Unknown);
    }
  }

  /** A one-character text that no arm names. */
  predicate IsUnlistedText(text: string) {
    |text| == 1 && !HasCharacterArm(text[0])
  }

  /** A one-character text that no arm names gets `Unknown`. */
  lemma UnlistedCharacterIsUnknown(key: Key, location: KeyLocation)
    requires key.Character? && IsUnlistedText(key.text)
    ensures WinitToRuffleKeyCode(KeyEvent(key, location)) == Some(KeyCodes.Unknown)
  {
  }

  // ---------------------------------------------------------------------------
  // Gamepad buttons
  // ---------------------------------------------------------------------------

  /** `gilrs_button_to_gamepad_button`: the fourteen supported buttons map to
      the button of the same name; C, Z, Mode, the thumb sticks and unknown
      buttons have none. */
  function GilrsButtonToGamepadButton(button: Gilrs.Button): (r: Option<GamepadButton>)
    ensures r.None? <==> button in {Gilrs.C, Gilrs.Z, Gilrs.Mode, Gilrs.LeftThumb, Gilrs.RightThumb, Gilrs.Unknown}
  {
    match button
    case South => Some(GamepadButton.South)
    case East => Some(GamepadButton.East)
    case North => Some(GamepadButton.North)
    case West => Some(GamepadButton.West)
    case LeftTrigger => Some(GamepadButton.LeftTrigger)
    case LeftTrigger2 => Some(GamepadButton.LeftTrigger2)
    case RightTrigger => Some(GamepadButton.RightTrigger)
    case RightTrigger2 => Some(GamepadButton.RightTrigger2)
    case Select => Some(GamepadButton.Select)
    case Start => Some(GamepadButton.Start)
    case DPadUp => Some(GamepadButton.DPadUp)
    case DPadDown => Some(GamepadButton.DPadDown)
    case DPadLeft => Some(GamepadButton.DPadLeft)
    case DPadRight => Some(GamepadButton.DPadRight)
    case _ => None
  }

  /** The gilrs button of each gamepad button: the one of the same name. */
  function GamepadButtonToGilrs(button: GamepadButton): Gilrs.Button {
    match button
    case South => Gilrs.South
    case East => Gilrs.East
    case North => Gilrs.North
    case West => Gilrs.West
    case LeftTrigger => Gilrs.LeftTrigger
    case LeftTrigger2 => Gilrs.LeftTrigger2
    case RightTrigger => Gilrs.RightTrigger
    case RightTrigger2 => Gilrs.RightTrigger2
    case Select => Gilrs.Select
    case Start => Gilrs.Start
    case DPadUp => Gilrs.DPadUp
    case DPadDown => Gilrs.DPadDown
    case DPadLeft => Gilrs.DPadLeft
    case DPadRight => Gilrs.DPadRight
  }

  /** Every gamepad button is reached, from the gilrs button of its name, and
      only from that one. */
  lemma GamepadButtonRoundTrip(button: Gilrs.Button, pad: GamepadButton)
    ensures GilrsButtonToGamepadButton(GamepadButtonToGilrs(pad)) == Some(pad)
    ensures GilrsButtonToGamepadButton(button) == Some(pad) ==> button == GamepadButtonToGilrs(pad)
  {
  }

  // ---------------------------------------------------------------------------
  // Screen size
  // ---------------------------------------------------------------------------

  /** A monitor: the position of its top-left corner and its size. */
  datatype Monitor = Monitor(x: int, y: int, width: nat, height: nat)

  /** A rectangle, by its extreme coordinates. */
  datatype Bounds = Bounds(minX: int, minY: int, maxX: int, maxY: int)

  datatype PhysicalSize = PhysicalSize(width: nat, height: nat)

  /** `i16::MAX`, the side of the screen assumed when the monitors give none. */
  const FallbackSide: nat := 32767

  function Min(a: int, b: int): int { if a <= b then a else b }
  function Max(a: int, b: int): int { if a >= b then a else b }

  /** The bounds grown to take in one more monitor. */
  function Include(b: Bounds, m: Monitor): Bounds {
    Bounds(Min(b.minX, m.x), Min(b.minY, m.y), Max(b.maxX, m.x + m.width), Max(b.maxY, m.y + m.height))
  }

  /** The bounds of the monitors taken in order, starting from the empty
      rectangle at the origin. */
  function BoundsOf(monitors: seq<Monitor>): Bounds {
    if monitors == [] then Bounds(0, 0, 0, 0)
    else Include(BoundsOf(monitors[..|monitors| - 1]), monitors[|monitors| - 1])
  }

  /** The screen size: the size of the bounds, unless one side is 32 pixels
      or less, when it is `i16::MAX` by `i16::MAX`. */
  function ScreenSize(monitors: seq<Monitor>): (r: PhysicalSize)
    ensures r.width > 32 && r.height > 32
    ensures var b := BoundsOf(monitors);
            r == if b.maxX - b.minX <= 32 || b.maxY - b.minY <= 32
                 then PhysicalSize(FallbackSide, FallbackSide)
                 else PhysicalSize(b.maxX - b.minX, b.maxY - b.minY)
  {
    var b := BoundsOf(monitors);
    var width := b.maxX - b.minX;
    var height := b.maxY - b.minY;
    if width <= 32 || height <= 32 then PhysicalSize(FallbackSide, FallbackSide)
    else PhysicalSize(width, height)
  }

  /** `get_screen_size`, over the monitors the event loop reports. */
  method GetScreenSize(monitors: seq<Monitor>) returns (size: PhysicalSize)
    ensures size == ScreenSize(monitors)
  {
    var minX, minY, maxX, maxY := 0, 0, 0, 0;
    for i := 0 to |monitors|
      invariant Bounds(minX, minY, maxX, maxY) == BoundsOf(monitors[..i])
    {
      var monitor := monitors[i];
      assert monitors[..i + 1][..i] == monitors[..i];
      minX := Min(minX, monitor.x);
      minY := Min(minY, monitor.y);
      maxX := Max(maxX, monitor.x + monitor.width);
      maxY := Max(maxY, monitor.y + monitor.height);
    }
    assert monitors[..|monitors|] == monitors;
    var width := maxX - minX;
    var height := maxY - minY;
    if width <= 32 || height <= 32 {
      return PhysicalSize(FallbackSide, FallbackSide);
    }
    return PhysicalSize(width, height);
  }

  /** The bounds take in the origin and every monitor. */
  lemma {:induction false} BoundsCoverMonitors(monitors: seq<Monitor>)
    ensures var b := BoundsOf(monitors);
            b.minX <= 0 <= b.maxX && b.minY <= 0 <= b.maxY &&
            forall i :: 0 <= i < |monitors| ==>
              b.minX <= monitors[i].x && monitors[i].x + monitors[i].width <= b.maxX &&
              b.minY <= monitors[i].y && monitors[i].y + monitors[i].height <= b.maxY
  {
    if monitors != [] {
      var prefix := monitors[..|monitors| - 1];
      BoundsCoverMonitors(prefix);
      forall i | 0 <= i < |monitors| - 1
        ensures monitors[i] == prefix[i]
      {
      }
    }
  }

  /** The bounds are the least such: each side lies on the origin or on the
      edge of some monitor. */
  lemma {:induction false} BoundsAreTight(monitors: seq<Monitor>)
    ensures var b := BoundsOf(monitors);
            && (b.minX == 0 || exists i :: 0 <= i < |monitors| && monitors[i].x == b.minX)
            && (b.minY == 0 || exists i :: 0 <= i < |monitors| && monitors[i].y == b.minY)
            && (b.maxX == 0 || exists i :: 0 <= i < |monitors| && monitors[i].x + monitors[i].width == b.maxX)
            && (b.maxY == 0 || exists i :: 0 <= i < |monitors| && monitors[i].y + monitors[i].height == b.maxY)
  {
    if monitors != [] {
      var prefix := monitors[..|monitors| - 1];
      BoundsAreTight(prefix);
      forall i | 0 <= i < |prefix|
        ensures prefix[i] == monitors[i]
      {
      }
    }
  }

  /** With no monitor, the fallback size. */
  lemma NoMonitorGivesFallback()
    ensures ScreenSize([]) == PhysicalSize(FallbackSide, FallbackSide)
  {
  }

  /** The origin is always inside the box: a single monitor away from it
      counts the gap as screen. */
  lemma OriginIsAlwaysIncluded(m: Monitor)
    requires m.x >= 0 && m.y >= 0 && m.x + m.width > 32 && m.y + m.height > 32
    ensures ScreenSize([m]) == PhysicalSize(m.x + m.width, m.y + m.height)
  {
    assert [m][..0] == [];
    assert BoundsOf([m]) == Include(BoundsOf([]), m);
  }
}
