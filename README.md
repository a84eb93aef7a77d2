# QName built-in and desktop input translation, modelled in Dafny

This project models two pieces of the Ruffle Flash Player emulator.

**The AS3 `QName` class** (`core/src/avm2/globals/q_name.rs`). A QName object holds
three fields: a local name, an optional namespace, and an `isQname` flag. The model covers:
- calling `QName` as a function (`Call`): a lone QName argument comes back as itself,
  and any other argument list constructs a new object;
- the constructor body `init` (`QNameObject.Init`): the two-argument form, the zero- and
  one-argument form, the `"*"` wildcard rule and the finalisation that writes the namespace
  together with the flag;
- the `localName`, `uri` and `toString` accessors.

`Init` is a method that writes the fields of a heap object. It is proved against the pure
function `Initialised`, which gives the result and the fields after the call from the
arguments and the fields before it. The lemmas in `QNameProperties` state the promised
behaviour of `Initialised`.

**Desktop input translation and screen size** (`desktop/src/util.rs`):
- winit key events to text-editing commands (`WinitToRuffleTextControl`);
- winit key events to Flash key codes (`WinitToRuffleKeyCode`, `AlphaToRuffleKeyCode`);
- gilrs gamepad buttons to the player's gamepad buttons;
- the screen size, the bounding box of all monitors (`GetScreenSize`, a loop proved against
  the fold `BoundsOf`).

The external types these functions read are in `input_types.dfy`:
- winit's `Key`, `NamedKey`, `KeyLocation` and modifier state;
- gilrs' `Button`;
- the player's `KeyCode`, `TextControlCode` and `GamepadButton`.

The macOS build switch is the boolean parameter `isMacOs`.

Files: `wrappers.dfy` (Option, Result), `avm2_qname.dfy`, `avm2_qname_properties.dfy`,
`input_types.dfy`, `desktop_util.dfy`.

## Model

| member | source | states |
|---|---|---|
| QNameGlobals.Call | core/src/avm2/globals/q_name.rs:12-37 | A single QName argument is returned itself. Any other argument list gives a fresh QName object holding what `init` leaves, or `init`'s exception unchanged. |
| QNameGlobals.Construct | core/src/avm2/globals/q_name.rs:29-36 | Construction allocates a fresh object and runs `init` on it. The new object holds `init`'s resulting name; a failing `init` makes construction fail with the same error. |
| QNameGlobals.QNameObject.Allocate | core/src/avm2/globals/q_name.rs:10 | The allocator gives a fresh object holding the configured initial name. |
| QNameGlobals.QNameObject.Init | core/src/avm2/globals/q_name.rs:40-114 | The step-by-step constructor body returns and leaves exactly what `Initialised` specifies for the arguments and the fields before the call. |
| QNameGlobals.ResolveNamespace | core/src/avm2/globals/q_name.rs:63-75 | The namespace argument gives no namespace iff it is `null` or a QName without URI. It fails iff it is another value whose string conversion throws, with that error. A namespace object keeps its own namespace and version. A QName gives a package namespace for its URI at `AllVersions`. `undefined` gives the empty-URI package namespace at the root API version. A string or other value gives the package namespace whose URI is its string conversion, at the root API version. |
| QNameGlobals.GetLocalName | core/src/avm2/globals/q_name.rs:117-127 | The getter gives `undefined` iff the receiver is not a QName, and otherwise its local name. |
| QNameGlobals.GetUri | core/src/avm2/globals/q_name.rs:130-142 | The getter gives `undefined` iff the receiver is not a QName. It gives `null` iff the QName has no URI, and otherwise that URI. |
| QNameGlobals.ToString | core/src/avm2/globals/q_name.rs:145-155 | `toString` gives `undefined` iff the receiver is not a QName, and otherwise the formatted name: `uri::local`, the local name alone when the URI is empty, and `*::local` when there is no URI. |
| QNameProperties.ExtraArgumentsIgnored | core/src/avm2/globals/q_name.rs:53-55 | Arguments after the second do not change what `init` does. |
| QNameProperties.NamespaceConvertedFirst | core/src/avm2/globals/q_name.rs:70-82 | The namespace argument is converted before the local argument. If that conversion throws, its error is the result and no field is written. |
| QNameProperties.QNameLocalArgumentGivesLocalNameOnly | core/src/avm2/globals/q_name.rs:77-78 | A QName as local argument gives its local name only. The namespace and flag come from the first argument alone. |
| QNameProperties.UndefinedLocalArgumentIsEmpty | core/src/avm2/globals/q_name.rs:57-59 | An undefined local argument gives the empty local name. |
| QNameProperties.NoWildcardRuleWithTwoArguments | core/src/avm2/globals/q_name.rs:53-86 | In the two-argument form, whatever the namespace argument, once it resolves a local name `"*"` is stored, with the resolved namespace and the flag when there is one. |
| QNameProperties.NullNamespaceLeavesUnqualified | core/src/avm2/globals/q_name.rs:68 | `new QName(null, x)` writes the local name `x` and neither namespace nor flag. |
| QNameProperties.UndefinedNamespaceIsPublicPackage | core/src/avm2/globals/q_name.rs:69 | `new QName(undefined, x)` gives `x` in the empty-URI package namespace at the root API version, flag set. |
| QNameProperties.QNameNamespaceMatchesAllVersions | core/src/avm2/globals/q_name.rs:65-67 | A QName with URI `u` as namespace argument gives the package namespace `u` at `AllVersions`. |
| QNameProperties.LoneQNameCopiedWhole | core/src/avm2/globals/q_name.rs:88-92 | A lone QName argument is copied whole (local name, namespace and flag) and `init` returns at once. |
| QNameProperties.WildcardWritesNothing | core/src/avm2/globals/q_name.rs:94-105 | A lone argument of any type that converts to `"*"` writes no field. |
| QNameProperties.LoneArgumentInPublicNamespace | core/src/avm2/globals/q_name.rs:94-111 | A lone argument that converts to anything else becomes the local name in the public namespace, flag set. |
| QNameProperties.NoArgumentIsEmptyPublicName | core/src/avm2/globals/q_name.rs:88-111 | No argument, or `undefined`, gives the empty local name in the public namespace, flag set. |
| QNameProperties.FailureWritesNothing | core/src/avm2/globals/q_name.rs:63-98 | A failed `init` writes no field. Its error is exactly the one thrown by converting one of the first two arguments to a string. |
| QNameProperties.FlagWrittenWithNamespace | core/src/avm2/globals/q_name.rs:108-111 | Outside the whole-name copy, either the namespace and the flag are both unchanged, or there is a namespace and the flag is set. The flag is never cleared. |
| QNameProperties.InitKeepsWellFormed | core/src/avm2/globals/q_name.rs:86-111 | If the flag is set exactly when a namespace is present before `init` (and in a QName copied whole), the same holds after it. |
| QNameProperties.CallTwice | core/src/avm2/globals/q_name.rs:17-26 | Calling `QName(q)` twice on a QName object gives `q` back both times. |
| QNameProperties.FormatOfTwoStrings | core/src/avm2/globals/q_name.rs:145-152 | `new QName(u, n)` reports URI `u` and local name `n`. It formats as `u::n`, or as `n` when `u` is empty. |
| QNameProperties.AsUriDeterminesUriAndLocalName | core/src/avm2/globals/q_name.rs:151 | A formatted name with a non-empty URI and a local name without `:` determines both the URI and the local name. |
| KeyCodes.FromU8 | desktop/src/util.rs:176 | `from_u8` succeeds exactly on the declared codes, and gives the code with that value. |
| DesktopUtil.WinitToRuffleTextControl | desktop/src/util.rs:16-59 | Enter always gives `Enter`. A character key gives a command iff the command modifier is held and the key is one of `a`, `c`, `v`, `x`. A command is produced exactly for Enter, Backspace, Delete, the left and right arrows, Home, End and those shortcuts. |
| DesktopUtil.NavigationFollowsTable | desktop/src/util.rs:33-56 | For ArrowLeft, ArrowRight, Home and End, the first-match chain equals the reference table. Shift selects. The command modifier moves by word or to the document end. |
| DesktopUtil.DeletionReadsCommandOnly | desktop/src/util.rs:29-32 | Backspace and Delete give the word variant iff the command modifier is held. |
| DesktopUtil.ShortcutLetters | desktop/src/util.rs:25-28 | With the command modifier, `a`, `c`, `v` and `x` give SelectAll, Copy, Paste and Cut. |
| DesktopUtil.ShiftMattersOnlyForNavigation | desktop/src/util.rs:20-57 | Toggling Shift changes the result only for the four navigation keys. |
| DesktopUtil.SuperIsCommandOnMacOs | desktop/src/util.rs:21-22 | On macOS, Super alone acts exactly as Control alone. Elsewhere Super is ignored. |
| DesktopUtil.Utf8LengthOne | desktop/src/util.rs:166 | A string is one byte long in UTF-8 iff it is one ASCII character. |
| DesktopUtil.AlphaToRuffleKeyCode | desktop/src/util.rs:165-186 | A code is given iff the string is a single ASCII letter. The code is that of the upper-case letter, between 65 and 90. |
| DesktopUtil.WinitToRuffleKeyCode | desktop/src/util.rs:63-163 | No code is given iff the key is AltGraph. |
| DesktopUtil.NamedKeyCodes | desktop/src/util.rs:70-160 | Every named key gets the code of the reference table `NamedKeyCode`: Backspace 8 through ScrollLock 145, F1-F24 112-135, `Unknown` for any other named key, none for AltGraph. |
| DesktopUtil.UnmatchedKeysAreUnknown | desktop/src/util.rs:61-62 | Unidentified and dead keys, Super, unlisted named keys and one-character text that no arm names all give `Unknown`. |
| DesktopUtil.KeyWithoutArmIsUnknown | desktop/src/util.rs:156-160 | Unidentified and dead keys, Super and unlisted named keys give `Unknown`, wherever the key sits. |
| DesktopUtil.UnlistedCharacterIsUnknown | desktop/src/util.rs:156-160 | A one-character text that is neither a digit, a main-row symbol nor a letter gives `Unknown`, wherever the key sits. |
| DesktopUtil.NumpadReadOnlyForDigitsAndOperators | desktop/src/util.rs:83-97 | The numpad location changes the code only for the digits and `*` `+` `-` `.` `/`; every other text gets the same code on the numpad and off it. |
| DesktopUtil.DigitCodes | desktop/src/util.rs:83-107 | A digit gives Numpad0-9 on the numpad and Key0-9 elsewhere. |
| DesktopUtil.OperatorCodes | desktop/src/util.rs:93-113 | On the numpad, `*` `+` `-` `.` `/` give Multiply, Plus, NumpadMinus, NumpadPeriod and NumpadSlash. Elsewhere they give Key8, Equals, Minus, Period and Slash. |
| DesktopUtil.ShiftedDigitHasDigitCode | desktop/src/util.rs:98-107 | Off the numpad each shifted digit `)!@#$%^&*(` has the main-row code of its digit, 48 + d. |
| DesktopUtil.PunctuationKeyCodes | desktop/src/util.rs:108-118 | Off the numpad each punctuation key `;=,-./` `` ` `` `[\]'` has its own code, 186 to 192 and 219 to 222. |
| DesktopUtil.ShiftedPunctuationHasBaseCode | desktop/src/util.rs:108-118 | Off the numpad each shifted punctuation symbol has the same code as its base key. |
| DesktopUtil.LetterCodes | desktop/src/util.rs:156-159 | A letter of either case has the code of its upper-case form, wherever the key sits. |
| DesktopUtil.LongerTextIsUnknown | desktop/src/util.rs:156-160 | A character key whose text is not exactly one character gives `Unknown`. |
| DesktopUtil.FunctionKeyCodes | desktop/src/util.rs:132-155 | F1-F24 give codes 112-135. Higher function keys give `Unknown`. |
| DesktopUtil.GilrsButtonToGamepadButton | desktop/src/util.rs:188-208 | No button is given exactly for C, Z, Mode, the thumb sticks and unknown buttons. |
| DesktopUtil.GamepadButtonRoundTrip | desktop/src/util.rs:188-207 | Each gamepad button comes from the gilrs button of its own name, and from no other. |
| DesktopUtil.ScreenSize | desktop/src/util.rs:225-232 | The size is that of the bounds, or 32767 by 32767 when a side is 32 or less. Both sides are always above 32. |
| DesktopUtil.GetScreenSize | desktop/src/util.rs:210-233 | The loop over the monitors computes `ScreenSize` of the monitor list. |
| DesktopUtil.BoundsCoverMonitors | desktop/src/util.rs:211-223 | The bounds contain the origin and every monitor rectangle. |
| DesktopUtil.BoundsAreTight | desktop/src/util.rs:211-223 | Each side of the bounds is 0 or lies on the edge of some monitor. |
| DesktopUtil.NoMonitorGivesFallback | desktop/src/util.rs:228-230 | With no monitors the size is 32767 by 32767. |
| DesktopUtil.OriginIsAlwaysIncluded | desktop/src/util.rs:211-214 | A single monitor away from the origin counts the gap as screen: the size is `x + width` by `y + height`. |

## Left out

- The garbage collector's write barriers, `Activation` and the string interner: strings are Dafny strings and heap writes are plain field assignments.
- `coerce_to_string` may run script code. Here `undefined`, `null` and strings convert directly. Every other value goes through the parameter `script`, a pure function that may fail. The side effects of script code are not modelled.
- The arguments-array unpacking (q_name.rs:45-52) is not modelled. `Init` receives the unpacked argument list, so a list with holes cannot be expressed.
- `find_public_namespace` and the root API version are fields of the `Config` parameter, and so is the name the allocator gives a fresh object.
- The `"*"` rule writes no field, so the object keeps whatever the allocator gave it. It is unqualified only if the configured initial name is.
- The ordering of API versions and the equality of namespaces across versions are not modelled. A release version is an opaque rank.
- QName's `uri()`, `local_name()` and `name().as_uri()` are defined outside the modelled file. The model reads the URI of a package namespace only; other namespace kinds give no URI.
- `toString` formats as AS3's `QName.toString` does: `uri::local`, the local name alone for an empty URI, and `*::local` for a name without a URI. The formatter `as_uri` is defined outside `q_name.rs`, and a local name that is absent (printed `*`) cannot arise in this model.
- FormatOfTwoStrings: states the `uri::local` form as Flash Player prints it; the text of `as_uri` itself is not part of this model.
- AsUriDeterminesUriAndLocalName: holds only for local names without `:`; with a `:` in the local name two names can print the same (`a::b::c`).
- The `KeyCode` enumeration lives outside `util.rs`. Its values here are Flash Player's key codes, and `FromU8` accepts the codes declared here plus the letters 65-90.
- Winit's many named keys are collapsed: those the tables read are listed, `F(n)` is the function key Fn, and all others are `Unlisted`.
- Key text is a string of Unicode characters. Rust's byte length is written out as `Utf8Length`.
- `parse_url` (filesystem and URL parser), `pick_file` (native file dialog) and `plot_stats_in_tracy` (telemetry) are left out.
- `available_monitors()` is replaced by the input sequence of monitors.
- GetScreenSize: uses unbounded integers. It does not model the `u32 as i32` casts or the overflow of the i32 arithmetic for desktops wider than 2^31 pixels.
