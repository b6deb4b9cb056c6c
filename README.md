# Globed: setting rows, direct connection, player records

This project models three small pieces of logic from the Globed multiplayer
mod for Geometry Dash and its game server. It proves properties of each.

- **Setting rows** (`GlobedSettingCell`, module `SettingCell`). A row of the
  settings menu edits one setting that it borrows through an untyped pointer.
  The row's `Type` tag (`Bool`, `Float`, `String`, `AudioDevice`, `Int`) fixes
  the setting's type. Every edit goes through `storeAndSave`. It casts a
  `std::any` to the type the tag selects, writes the borrowed setting, and then
  saves the settings.
  - The borrowed setting is a heap object (`Slot`) holding a tagged `Value`.
  - `std::any` is a datatype that carries its dynamic type. `std::string_view`
    is a type of its own there.
  - The settings store (`SettingsStore`) records the stored value at every
    save. The number of saves is the length of that record.
  - The row (`Cell`) is a class. Its fields are the checkbox state, the
    slider position and the text field.
  - The slider arithmetic and `std::to_string` are pure functions.
- **Direct connection** (module `DirectConnect`). The "Connect" button of the
  direct-connection popup checks an address against a fixed regular
  expression. It then puts the client in standalone mode, pointed at that
  address.
  - The expression is written twice. The ghost predicate `MatchesPattern`
    follows the pattern piece by piece. The method `RegexMatch` is a one-pass
    scanner, proved to agree with `MatchesPattern`.
  - Between the two sits `Fields`, the split of a host at its dots, with its
    inverse `Join`.
  - The state the handler touches is abstracted into one class, `Client`: the
    central-server mode and `recentlySwitched` flag, the game-server list, the
    saved standalone address and the `pendingChanges` flag. The class also
    keeps a log of effects, in order.
- **Player records** (module `PlayerData`). The game server's player data
  types in `gd.rs` are datatypes. Their `Default` values, `is_valid`,
  `make_preview` and `try_from` are functions.

`Wrappers` holds the `Option` and `Result` datatypes the modules share.

## Model

| member | source | states |
|---|---|---|
| `SettingCell.Box` | src/ui/menu/settings/setting_cell.cpp:153 | The `std::any` built from a stored value has that value's type. |
| `SettingCell.StorageKind` | src/ui/menu/settings/setting_cell.cpp:155-165 | Each tag selects one storage type. `AudioDevice` and `Int` store an `int`, because the `AudioDevice` case falls through. No tag stores a `std::string_view`. |
| `SettingCell.Cast` | src/ui/menu/settings/setting_cell.cpp:157-164 | `std::any_cast` succeeds exactly when the `any` holds the type the tag selects. On success it gives back the value the `any` was built from. |
| `SettingCell.CastBox` | src/ui/menu/settings/setting_cell.cpp:157-164 | Casting an `any` built from a value of the tag's type returns that value. |
| `SettingCell.StringViewNeverStored` | src/ui/menu/settings/setting_cell.cpp:149-151 | An `any` holding a `std::string_view` fails the cast under every tag. |
| `SettingCell.SliderValue` | src/ui/menu/settings/setting_cell.cpp:109-112 | Position 0 stores `floatMin` and position 1 stores `floatMax`. The value's offset from `floatMin` is the position scaled by the width. |
| `SettingCell.SliderValueBounds` | src/ui/menu/settings/setting_cell.cpp:111 | When `floatMin <= floatMax`, every position in [0, 1] stores a value between the limits. |
| `SettingCell.ScaledBetween` | src/ui/menu/settings/setting_cell.cpp:111 | A position in [0, 1] times a non-negative width lies between 0 and the width. |
| `SettingCell.SliderPosition` | src/ui/menu/settings/setting_cell.cpp:64-66 | The position given at creation, times the width of the limits, is the stored value. The lower limit is not subtracted. |
| `SettingCell.SliderRoundTripIff` | src/ui/menu/settings/setting_cell.cpp:65 | Storing position `p` and creating the row again puts the slider back at `p` if and only if `floatMin` is 0. |
| `SettingCell.SliderRoundTripCounterexample` | src/ui/menu/settings/setting_cell.cpp:65 | With limits 20 and 120, position 0.5 stores 70, which a new row shows at 0.7. |
| `SettingCell.SliderPositionFromMin` | src/ui/menu/settings/setting_cell.cpp:111 | The corrected position for a value, measured from `floatMin`. It inverts `SliderValue`. |
| `SettingCell.SliderRoundTrip` | src/ui/menu/settings/setting_cell.cpp:111 | With the corrected position, storing and reopening keeps every position. |
| `SettingCell.DigitChar` | src/ui/menu/settings/setting_cell.cpp:98 | A digit below 10 maps to the character for it. |
| `SettingCell.Digits` | src/ui/menu/settings/setting_cell.cpp:98 | A natural number's decimal text is non-empty, all digits, with no leading zero. |
| `SettingCell.DecimalString` | src/ui/menu/settings/setting_cell.cpp:98 | `std::to_string`: a minus sign exactly for negative numbers, then digits. |
| `SettingCell.DigitsRoundTrip` | src/ui/menu/settings/setting_cell.cpp:98 | Reading back the digits of `n` gives `n`. |
| `SettingCell.DecimalRoundTrip` | src/ui/menu/settings/setting_cell.cpp:98 | The text an `Int` row's field shows denotes exactly the stored number. |
| `SettingCell.Slot.constructor` | src/ui/menu/settings/setting_cell.cpp:14 | The borrowed setting starts with the given value. |
| `SettingCell.SettingsStore.constructor` | src/ui/menu/settings/setting_cell.cpp:167 | No save has happened yet. |
| `SettingCell.SettingsStore.Save` | src/ui/menu/settings/setting_cell.cpp:167 | One save is appended, recording the current value of the setting. |
| `SettingCell.Cell.Valid` | src/ui/menu/settings/setting_cell.cpp:153-165 | The borrowed setting holds the type the row's tag selects, which the casts of `storeAndSave` and the reads of `init` take for granted. Every method of the row keeps it. |
| `SettingCell.Cell.ShowsStoredValue` | src/ui/menu/settings/setting_cell.cpp:53 | A `Bool` row's checkbox shows the stored bool, as `init` sets it. |
| `SettingCell.Cell.constructor` | src/ui/menu/settings/setting_cell.cpp:12-103 | The row is bound to its setting, tag and limits. A `Bool` row's checkbox shows the stored bool. A `Float` row's slider is at `SliderPosition` of the stored float. An `Int` row's field holds the stored int in decimal. |
| `SettingCell.Cell.StoreAndSave` | src/ui/menu/settings/setting_cell.cpp:153-168 | A value whose type matches the tag is written and saved once, and the setting's type is kept. A mismatch writes nothing and saves nothing. |
| `SettingCell.Cell.OnCheckboxToggled` | src/ui/menu/settings/setting_cell.cpp:105-107 | Stores the negation of the checkbox state, with one save. |
| `SettingCell.Cell.ClickCheckbox` | src/ui/menu/settings/setting_cell.cpp:53 | A click flips the stored bool with one save. The checkbox keeps showing the stored value, and the row's other widget fields are unchanged. |
| `SettingCell.Cell.ClickCheckboxTwice` | src/ui/menu/settings/setting_cell.cpp:105-107 | Two clicks restore the original value, after exactly two saves: the flipped value, then the original. |
| `SettingCell.Cell.OnSliderChanged` | src/ui/menu/settings/setting_cell.cpp:109-113 | Stores `SliderValue` of the slider's position, with one save. |
| `SettingCell.Cell.DragSlider` | src/ui/menu/settings/setting_cell.cpp:110-112 | Moving the thumb to `p` stores `SliderValue(p)`, with one save. The row's other widget fields are unchanged. |
| `SettingCell.Cell.OnStringChanged` | src/ui/menu/settings/setting_cell.cpp:149-151 | As written, always a failed cast. Nothing is written and nothing is saved, whatever the tag. |
| `SettingCell.Cell.OnStringCommitted` | src/ui/menu/settings/setting_cell.cpp:161 | The corrected callback succeeds exactly for a `String` row. There it stores the text with one save. Under other tags nothing changes. |
| `SettingCell.Cell.OnInteractiveButton` | src/ui/menu/settings/setting_cell.cpp:115-147 | The setting and the saves never change. An `AudioDevice` row shows nothing without voice support, and the audio setup when it has permission. Without permission it shows exactly the permission prompt, followed by the audio setup only when the user presses Grant and the request is granted. Any other row shows the text prompt, and a submitted text fails its cast. |
| `DirectConnect.DigitGroup` | src/ui/menu/server_switcher/direct_connect_popup.cpp:37 | `[0-9]{1,3}`: one to three ASCII digits. |
| `DirectConnect.Label` | src/ui/menu/server_switcher/direct_connect_popup.cpp:37 | `[a-zA-Z0-9-]+`: one or more letters, digits or `-`. |
| `DirectConnect.TopLevelLabel` | src/ui/menu/server_switcher/direct_connect_popup.cpp:37 | `[a-zA-Z]{2,}`: two or more letters. |
| `DirectConnect.OptionalPort` | src/ui/menu/server_switcher/direct_connect_popup.cpp:37 | `(?::\d+)?`: empty, or `:` followed by one or more digits. |
| `DirectConnect.SchemePrefixed` | src/ui/menu/server_switcher/direct_connect_popup.cpp:37 | The negative look-ahead: the string starts with `http://`, `https://` or `ftp://`, in lower case, as the pattern has no case-insensitive flag. |
| `DirectConnect.DigitGroups` | src/ui/menu/server_switcher/direct_connect_popup.cpp:37 | `n` digit groups with a single dot between neighbours, the repetition `(?:[0-9]{1,3}\.){n-1}[0-9]{1,3}`. |
| `DirectConnect.DottedQuad` | src/ui/menu/server_switcher/direct_connect_popup.cpp:37 | The first host alternative: four digit groups. |
| `DirectConnect.DomainName` | src/ui/menu/server_switcher/direct_connect_popup.cpp:37 | The second host alternative: one or more labels, each followed by a dot, then a top-level label. |
| `DirectConnect.Host` | src/ui/menu/server_switcher/direct_connect_popup.cpp:37 | The alternation: a dotted quad or a domain name. |
| `DirectConnect.MatchesPattern` | src/ui/menu/server_switcher/direct_connect_popup.cpp:37 | `std::regex_match` of the whole string: no scheme prefix, and the string splits into a host followed by an optional port. The reference definition `RegexMatch` is proved equal to. |
| `DirectConnect.Accepted` | src/ui/menu/server_switcher/direct_connect_popup.cpp:44-47 | The handler's test: the address is non-empty and matches the pattern. The reference definition for `OnConnect`. |
| `DirectConnect.Fields` | src/ui/menu/server_switcher/direct_connect_popup.cpp:37 | A host splits into at least one dot-free field. |
| `DirectConnect.FieldsWithoutDot` | src/ui/menu/server_switcher/direct_connect_popup.cpp:37 | A host without a dot is one field. |
| `DirectConnect.FieldsConcat` | src/ui/menu/server_switcher/direct_connect_popup.cpp:37 | Splitting at a dot concatenates the fields of both sides. |
| `DirectConnect.FieldsHaveNoDot` | src/ui/menu/server_switcher/direct_connect_popup.cpp:37 | No field holds a dot. |
| `DirectConnect.JoinFields` | src/ui/menu/server_switcher/direct_connect_popup.cpp:37 | `Join` undoes `Fields`. |
| `DirectConnect.FieldsJoin` | src/ui/menu/server_switcher/direct_connect_popup.cpp:37 | `Fields` undoes `Join` of dot-free fields. |
| `DirectConnect.JoinChars` | src/ui/menu/server_switcher/direct_connect_popup.cpp:37 | A join of fields of one character class has only that class and dots. |
| `DirectConnect.DigitGroupsToFields` | src/ui/menu/server_switcher/direct_connect_popup.cpp:37 | `n` dot-separated digit groups of the pattern split into `n` fields of 1 to 3 digits. |
| `DirectConnect.FieldsToDigitGroups` | src/ui/menu/server_switcher/direct_connect_popup.cpp:37 | Conversely, `n` fields of 1 to 3 digits are `n` digit groups of the pattern. |
| `DirectConnect.JoinToDigitGroups` | src/ui/menu/server_switcher/direct_connect_popup.cpp:37 | `n` digit groups joined by dots match `n` groups of the pattern. |
| `DirectConnect.DomainNameToFields` | src/ui/menu/server_switcher/direct_connect_popup.cpp:37 | A domain name of the pattern splits into labels followed by a top-level label of two or more letters. |
| `DirectConnect.FieldsToDomainName` | src/ui/menu/server_switcher/direct_connect_popup.cpp:37 | Conversely, such fields form a domain name of the pattern. |
| `DirectConnect.JoinToDomainName` | src/ui/menu/server_switcher/direct_connect_popup.cpp:37 | Labels and a top-level label joined by dots match the domain alternative. |
| `DirectConnect.HostIffFields` | src/ui/menu/server_switcher/direct_connect_popup.cpp:37 | A string matches one of the pattern's two host forms exactly when its fields are four digit groups, or labels then a top-level label. |
| `DirectConnect.HostChars` | src/ui/menu/server_switcher/direct_connect_popup.cpp:37 | A host holds only letters, digits, `-` and `.`. |
| `DirectConnect.MatchesAtFirstColon` | src/ui/menu/server_switcher/direct_connect_popup.cpp:37 | A whole-string match splits at the first `:`: the host is before it, the port part from it. |
| `DirectConnect.StepSummarises` | src/ui/menu/server_switcher/direct_connect_popup.cpp:37 | The scanner's state after one more character summarises the fields of the longer host exactly. |
| `DirectConnect.HostOkIff` | src/ui/menu/server_switcher/direct_connect_popup.cpp:37 | The scanner's host verdict agrees with the host forms on fields. |
| `DirectConnect.ScanVerdict` | src/ui/menu/server_switcher/direct_connect_popup.cpp:37 | The host state and the port check the scanner ends with decide the whole-string match. |
| `DirectConnect.ScanHost` | src/ui/menu/server_switcher/direct_connect_popup.cpp:37 | Reads up to the first `:`, or to the end. Its state summarises the fields read. |
| `DirectConnect.DigitsFrom` | src/ui/menu/server_switcher/direct_connect_popup.cpp:37 | Tells whether every character from an index on is a digit. |
| `DirectConnect.RegexMatch` | src/ui/menu/server_switcher/direct_connect_popup.cpp:37 | The one-pass scanner's answer equals the pattern's whole-string match. |
| `DirectConnect.MatchesFromFields` | src/ui/menu/server_switcher/direct_connect_popup.cpp:37 | Take label-character fields joined by dots, then a port part. The pattern matches if and only if the fields have a host shape and the port part is empty or `:` with digits. |
| `DirectConnect.EmptyRejected` | src/ui/menu/server_switcher/direct_connect_popup.cpp:44 | The empty address is rejected. The regex alone already rejects it. |
| `DirectConnect.AcceptedChars` | src/ui/menu/server_switcher/direct_connect_popup.cpp:37 | A matching address uses only ASCII letters, digits, `.`, `-` and `:`. |
| `DirectConnect.AddressCharsNoScheme` | src/ui/menu/server_switcher/direct_connect_popup.cpp:37 | A string of those characters never starts with a scheme, since it has no `/`. |
| `DirectConnect.SchemeSeparatorRejected` | src/ui/menu/server_switcher/direct_connect_popup.cpp:37 | A string containing `://` anywhere does not match, so any scheme prefix is rejected in any letter case. |
| `DirectConnect.AcceptedColons` | src/ui/menu/server_switcher/direct_connect_popup.cpp:37 | A matching address holds at most one `:`, and its last character is not `:`. |
| `DirectConnect.ColonsOfHostThenPort` | src/ui/menu/server_switcher/direct_connect_popup.cpp:37 | In a host followed by a port part, the only `:` is the one that starts the port. |
| `DirectConnect.NumericHostIsQuadOrNothing` | src/ui/menu/server_switcher/direct_connect_popup.cpp:37 | A host of digits and dots matches exactly when it is four groups of 1 to 3 digits. The domain alternative cannot match it, because its top-level label needs letters. |
| `DirectConnect.DottedQuadMatches` | src/ui/menu/server_switcher/direct_connect_popup.cpp:37 | Any four groups of 1 to 3 digits with an optional port are accepted. Group values are not range-checked. |
| `DirectConnect.DomainMatches` | src/ui/menu/server_switcher/direct_connect_popup.cpp:37 | Labels followed by a top-level label of two or more letters, with an optional port, are accepted. |
| `DirectConnect.FieldsRejected` | src/ui/menu/server_switcher/direct_connect_popup.cpp:37 | Label-character fields and a port part without a host shape or a valid port are rejected. |
| `DirectConnect.LoopbackWithPortAccepted` | src/ui/menu/server_switcher/direct_connect_popup.cpp:28 | The input field's placeholder `127.0.0.1:41001` is accepted. |
| `DirectConnect.OutOfRangeQuadAccepted` | src/ui/menu/server_switcher/direct_connect_popup.cpp:37 | `999.999.999.999` is accepted. |
| `DirectConnect.LongPortAccepted` | src/ui/menu/server_switcher/direct_connect_popup.cpp:37 | `192.168.0.100:99999` is accepted, because the port has no upper bound. |
| `DirectConnect.DomainAccepted` | src/ui/menu/server_switcher/direct_connect_popup.cpp:37 | `globed.example.com` is accepted. |
| `DirectConnect.BadQuadsRejected` | src/ui/menu/server_switcher/direct_connect_popup.cpp:37 | `1.2.3.4.5` and `1234.1.1.1` are rejected. |
| `DirectConnect.BadDomainsRejected` | src/ui/menu/server_switcher/direct_connect_popup.cpp:37 | `localhost` and `a.b` are rejected. |
| `DirectConnect.TrailingColonRejected` | src/ui/menu/server_switcher/direct_connect_popup.cpp:37 | `127.0.0.1:` is rejected. |
| `DirectConnect.OtherExamplesRejected` | src/ui/menu/server_switcher/direct_connect_popup.cpp:37 | `http://127.0.0.1:41001`, `not a valid host!!` and the empty string are rejected. |
| `DirectConnect.HardcodedAddressAccepted` | src/ui/menu/server_switcher/direct_connect_popup.cpp:41 | The hard-coded address `192.168.0.100:41001` is accepted. |
| `DirectConnect.ConnectEffects` | src/ui/menu/server_switcher/direct_connect_popup.cpp:49-64 | The ten steps of an accepted connection, in source order: standalone mode, switched flag, clear, add the standalone server, save its address, pending flag, connect, reload the list, close the popup, close the switcher. |
| `DirectConnect.Client.SetStandaloneMode` | src/ui/menu/server_switcher/direct_connect_popup.cpp:50 | Standalone mode is set. Nothing else changes. |
| `DirectConnect.Client.ClearServerList` | src/ui/menu/server_switcher/direct_connect_popup.cpp:54 | The server list is emptied. Nothing else changes. |
| `DirectConnect.Client.AddToServerList` | src/ui/menu/server_switcher/direct_connect_popup.cpp:55 | The entry under the key is set and every other entry is kept. Nothing else changes. |
| `DirectConnect.Client.SaveStandaloneAddress` | src/ui/menu/server_switcher/direct_connect_popup.cpp:56 | The standalone address is saved. Nothing else changes. |
| `DirectConnect.Client.Connect` | src/ui/menu/server_switcher/direct_connect_popup.cpp:49-64 | After the updates: standalone mode, `recentlySwitched` and `pendingChanges` are set. The list holds only the standalone server at `addr`, and `addr` is saved. The effects are, in order: standalone, switched, clear, add, save, pending, connect, reload, close popup, close switcher. |
| `DirectConnect.Client.OnConnect` | src/ui/menu/server_switcher/direct_connect_popup.cpp:44-64 | Accepts exactly the non-empty addresses the pattern matches. On rejection it raises one alert and changes no other state. On acceptance it performs `Connect`. |
| `DirectConnect.Client.OnConnectPressed` | src/ui/menu/server_switcher/direct_connect_popup.cpp:39-64 | Whatever the field holds, the hard-coded address is validated and accepted, and the client connects to it. |
| `PlayerData.DefaultIcons` | server/game/src/data/types/gd.rs:23-40 | Every icon and `color1` are 1, and `color2` is 3. |
| `PlayerData.IsValid` | server/game/src/data/types/gd.rs:42-47 | Every icon set is valid. |
| `PlayerData.DefaultSpecialUserData` | server/game/src/data/types/gd.rs:56-62 | The default name colour is (255, 255, 255). |
| `PlayerData.TryFromSpecialUser` | server/game/src/data/types/gd.rs:64-71 | Succeeds exactly when the colour text parses, with the parsed colour. Otherwise it returns the parse error unchanged. |
| `PlayerData.TryFromDependsOnColorOnly` | server/game/src/data/types/gd.rs:66-70 | Two special users with the same colour text convert alike, whatever their other fields hold. |
| `PlayerData.DefaultAccount` | server/game/src/data/types/gd.rs:75-81 | The default account: id 0, empty name, default icons, no special-user data. |
| `PlayerData.DefaultPreview` | server/game/src/data/types/gd.rs:98-106 | The default preview: all numbers 0 and an empty name. |
| `PlayerData.DefaultMetadata` | server/game/src/data/types/gd.rs:123-127 | The default metadata: percentage 0 and attempts 0. |
| `PlayerData.DefaultAssociatedData` | server/game/src/data/types/gd.rs:115-119 | The default associated data has account id 0. |
| `PlayerData.DefaultAssociatedMetadata` | server/game/src/data/types/gd.rs:131-135 | The default associated metadata has account id 0 and default metadata. |
| `PlayerData.MakePreview` | server/game/src/data/types/gd.rs:83-94 | The id and name are copied. The cube and both colours come from the icons. The level is the argument. |
| `PlayerData.PreviewIgnoresOtherFields` | server/game/src/data/types/gd.rs:88-90 | Accounts that agree on id, name, cube and both colours have the same preview. No other icon, and not the special-user data, reaches the preview. |
| `PlayerData.PreviewLevelOnly` | server/game/src/data/types/gd.rs:91 | Two previews of one account differ only in the level. |
| `PlayerData.PreviewOfDefault` | server/game/src/data/types/gd.rs:83-94 | The default account's preview has id 0, an empty name, cube 1 and colours 1 and 3. |

## Left out

- Floating point: `float` is read as a real number. IEEE rounding in the slider formulas is not modelled.
- `SettingCell.Cell.constructor` requires `floatMax != floatMin` for a `Float` row. In IEEE arithmetic the division at line 65 would give an infinity or NaN, which this model does not represent.
- The slider widget's own clamping of the thumb position is not modelled. `SliderValue` accepts any real position.
- The settings store keeps the sequence of values stored at each save, in place of a bare save counter. The number of saves is its length. What `GlobedSettings::save` writes to disk is not part of this model.
- The `Build<...>` layout chains (positions, scales, fonts, node ids) and the description button are rendering only.
- `create`/`init` allocation, `autorelease` and the `CCLayer::init` failure path are not modelled.
- `SettingCell.Cell.ClickCheckbox` assumes that the checkbox widget (`CCMenuItemToggler`, a foreign class) runs `onCheckboxToggled` before it flips its own state, so that `!isOn()` at setting_cell.cpp line 106 is the new value. That order is not modelled; `ClickCheckboxTwice` relies on it.
- The microphone permission check, the permission request, the prompt buttons and the text prompt are foreign UI and OS calls. Their outcomes are parameters of `SettingCell.Cell.OnInteractiveButton`. So is the `GLOBED_VOICE_SUPPORT` build switch.
- `SettingCell.Cell.OnInteractiveButton` records which popups are shown. It does not model the popups' own behaviour, such as `AudioSetupPopup`.
- Edits of an `Int` row's field have no handler in this source file. Only the field's initial text is modelled.
- The input field's character filter and length limit (direct_connect_popup.cpp line 28) have no effect. The handler validates a hard-coded address in place of the field's text.
- The value of `GameServerManager::STANDALONE_ID` is defined outside these files. It is a key of its own, `StandaloneId`.
- `CentralServerManager`, `GameServerManager` and `NetworkManager` internals and the network connection are not modelled. Only the fields the handler sets are kept, and the connection, the list reload and the two closes are recorded as effects.
- Log output is not modelled: the debug line in the connect handler, and the warning logged when the microphone permission is denied (setting_cell.cpp line 132).
- A failed `std::any_cast` throws `std::bad_any_cast`. The model returns it as the outcome `BadAnyCast`. How the exception then propagates out of the UI callback is not modelled.
- `Encodable`/`Decodable` derives and the `FastString<MAX_NAME_SIZE>` length bound are not modelled. Names are unbounded strings.
- `Color3B` parsing is defined outside gd.rs. `PlayerData.TryFromSpecialUser` takes the parser as a function parameter.
- `SpecialUser` is reduced to its colour text and one opaque list, `others`, standing for its remaining fields, which `try_from` does not read.
- src/util/cocos.hpp holds declarations only, for asset loading and texture-quality suffixes. It is not part of this model.

## Findings

| source | as written | input that shows it | evidently intended | confidence | as-written member | corrected member |
|---|---|---|---|---|---|---|
| src/ui/menu/settings/setting_cell.cpp:149-151 | `onStringChanged` passes its `std::string_view` straight to `storeAndSave`. The `std::any` then holds a `std::string_view`, and `any_cast<std::string>` at line 161 throws. | A `String` row; any submitted text, e.g. `abc`. | The text is converted to `std::string`, stored in the row's setting and saved. | not executed | `SettingCell.Cell.OnStringChanged` | `SettingCell.Cell.OnStringCommitted` |
| src/ui/menu/settings/setting_cell.cpp:65 | On creation the slider is placed at `value / (floatMax - floatMin)`. The lower limit is not subtracted, although line 111 adds it back when storing. | Limits 20 and 120, slider at 0.5: 70 is stored, and a new row shows the slider at 0.7. | `(value - floatMin) / (floatMax - floatMin)`, the inverse of line 111. | not executed | `SettingCell.SliderRoundTripIff` | `SettingCell.SliderRoundTrip` |

The row model (`SettingCell.Cell`) keeps the behaviour as written: its
constructor uses `SliderPosition` and its text prompt calls
`OnStringChanged`. The model writes an `AudioDevice` setting as an
`int`, as the fall-through at lines 162-164 does.
