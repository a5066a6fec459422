# Bean HID report state, modelled in Dafny

This project models the report-state layer of the Bean's HID support in
`BeanHID.cpp`. The layer has three parts:

- **Keyboard.** A persistent boot-keyboard report: one modifier byte and six
  key slots, laid out as in Appendix B.1 of the USB Device Class Definition
  for HID 1.11.
  - `press` and `release` read a key code three ways: a non-printing key
    (136 and up), a modifier key (128 to 135), or an ASCII character looked up
    in `_asciimap`. In that table, bit 0x80 of an entry means "typed with
    left shift".
  - `press` puts the usage into the first empty slot and never puts it in a
    second one.
  - `release` empties the slots holding the usage without compacting the
    others.
  - `releaseAll` empties everything. `write` presses, then releases.
- **Mouse.** One button byte that `press`, `release` and `buttons` update.
  `click` always sends two reports. A button change is reported only when the
  byte actually changes.
- **Consumer control.** `hidCCBuildReport` makes one mask-then-OR edit of a
  small report buffer, selected by the command code.
  - `sendCC` builds on a zeroed buffer.
  - `holdCC` builds on the persistent hold buffer.
  - `releaseCC` clears from the hold buffer exactly the bits the command sets
    on a zeroed buffer.

Every outbound effect is one call of the serial transport's `write_message`
with a device report. The model records each call as a `Report` (id, type,
length, payload) appended to a ghost log `sent`. The claims "sends one
report" and "sends nothing" become statements about that log.

Files:

- `hid_report.dfy`: the report record and its header constants.
- `ascii_map.dfy`: the 128-entry character table and its properties.
- `consumer_control.dfy`: the consumer-control builder. It has a
  specification (`Dispatch`, `Apply`, `Build`), the in-place method
  `BuildReport`, and lemmas.
- `keyboard.dfy`: the spec functions `PressResult` and `ReleaseResult`, their
  lemmas, and the `Keyboard` class. Each method of the class is proved
  against the spec functions.
- `mouse.dfy`: the `Mouse` class and the lemmas about button updates.

The class methods keep the source's form: they update fields and arrays in
place and change only what their `modifies` clauses name. Each
postcondition states the new state and the new log as a function of the old
ones. The lemmas then state what those functions promise.

`Keyboard.Valid` carries one invariant that the source never checks: no
usage sits in two slots. It holds in the zeroed start state, and every method
preserves it (`PressKeepsNoDuplicates`, `ReleaseKeepsNoDuplicates`).

## Model

| member | source | states |
|---|---|---|
| HidReport.KeyboardReport | hardware/bean/avr/cores/bean/BeanHID.cpp:373-378 | A keyboard report has id 2, input type 1 and a length that fits the 8-byte data field, and carries the given key slots |
| HidReport.MouseReport | hardware/bean/avr/cores/bean/BeanHID.cpp:196-200 | A mouse report has id 1, input type 1 and a length that fits the data field, and carries the given button byte |
| HidReport.ConsumerReport | hardware/bean/avr/cores/bean/BeanHID.cpp:325-337 | A consumer report has id 3, input type 1, and its length is the number of buffer bytes copied |
| AsciiMap.RowEntry | hardware/bean/avr/cores/bean/BeanHID.cpp:389-519 | The table has 128 entries; entry `c` is entry `c mod 16` of row `c / 16`, the rows being the source table in order |
| AsciiMap.MappedCharacters | hardware/bean/avr/cores/bean/BeanHID.cpp:389-519 | A character has a key (non-zero entry) exactly when it is backspace, tab, line feed or one of ' ' .. '~'; the other control codes and DEL have none |
| AsciiMap.MappedUsageNonZero | hardware/bean/avr/cores/bean/BeanHID.cpp:389-519 | Removing the shift bit from a non-zero entry never leaves 0, so a mapped character always takes a slot |
| ConsumerControl.FindButton | hardware/bean/avr/cores/bean/BeanHID.cpp:269-315 | The switch picks the first button case, in source order, whose command equals the code; the result is the number of cases when none matches |
| ConsumerControl.Dispatch | hardware/bean/avr/cores/bean/BeanHID.cpp:252-322 | A command selects no edit exactly when it is neither a case label nor in the digit range, and a byte-0 edit exactly when it is one of the four channel and volume commands |
| ConsumerControl.Apply | hardware/bean/avr/cores/bean/BeanHID.cpp:221-232 | Every edit keeps the length and every byte after byte 1 |
| ConsumerControl.Build | hardware/bean/avr/cores/bean/BeanHID.cpp:237-323 | Building keeps the length and the tail, and a command that is no case label and not in the digit range leaves the buffer unchanged |
| ConsumerControl.Digit | hardware/bean/avr/cores/bean/BeanHID.cpp:318-319 | The digit a command in the digit range stands for is always below 10 |
| ConsumerControl.DigitValue | hardware/bean/avr/cores/bean/BeanHID.cpp:318-319 | The byte a digit command writes has bits only among the four media-key bits 0-3 of byte 1 |
| ConsumerControl.ClearBits | hardware/bean/avr/cores/bean/BeanHID.cpp:362-364 | Clearing leaves no bit of the disable mask set and keeps every other bit of the hold buffer |
| ConsumerControl.SetChannelField | hardware/bean/avr/cores/bean/BeanHID.cpp:221-223 | The channel macro rewrites byte 0 in place as `Apply` with a channel edit says, and nothing else |
| ConsumerControl.SetVolumeField | hardware/bean/avr/cores/bean/BeanHID.cpp:224-229 | The volume-up and volume-down macros rewrite byte 0 in place as `Apply` says, and nothing else |
| ConsumerControl.SetButtonField | hardware/bean/avr/cores/bean/BeanHID.cpp:230-232 | The button macro rewrites byte 1 in place as `Apply` says, and nothing else |
| ConsumerControl.BuildReport | hardware/bean/avr/cores/bean/BeanHID.cpp:237-323 | Editing the buffer in place leaves exactly `Build` of the old contents |
| ConsumerControl.ClearHeldBits | hardware/bean/avr/cores/bean/BeanHID.cpp:362-364 | The clearing loop leaves the hold buffer equal to `ClearBits` of its old contents and the disable buffer |
| ConsumerControl.ChannelEditsByteZero | hardware/bean/avr/cores/bean/BeanHID.cpp:253-259 | Channel up/down edits only byte 0: the bits of the channel mask are kept, `(x & 3) << 4` is ORed in, and no bit outside bits 4-5 is set beyond the masked old byte |
| ConsumerControl.VolumeEditsByteZero | hardware/bean/avr/cores/bean/BeanHID.cpp:261-267 | Volume up/down edits only byte 0: bit 6 (up) or bit 7 (down) is set, and every other bit is the old byte under the volume mask |
| ConsumerControl.ButtonEditsByteOne | hardware/bean/avr/cores/bean/BeanHID.cpp:269-315 | A button command edits only byte 1, ORing the value of its case into the masked byte |
| ConsumerControl.DigitOrder | hardware/bean/avr/cores/bean/BeanHID.cpp:318-319 | Codes `KEYBOARD_1` .. `KEYBOARD_1 + 8` are digits 1 .. 9, and `KEYBOARD_1 + 9` is digit 0 |
| ConsumerControl.DigitEditsByteOne | hardware/bean/avr/cores/bean/BeanHID.cpp:317-321 | A code in the digit range that is no case label edits only byte 1, ORing its digit into the masked byte |
| ConsumerControl.OtherCommandsChangeNothing | hardware/bean/avr/cores/bean/BeanHID.cpp:317-321 | A code that is neither a case label nor in the digit range leaves the buffer unchanged |
| ConsumerControl.BuildKeepsTail | hardware/bean/avr/cores/bean/BeanHID.cpp:237-323 | No command changes the length of the buffer or any byte after byte 1 |
| ConsumerControl.BuildIdempotent | hardware/bean/avr/cores/bean/BeanHID.cpp:340-351 | Applying a command twice gives what applying it once gives, so holding an already held command reports the same buffer |
| ConsumerControl.ApplyIdempotent | hardware/bean/avr/cores/bean/BeanHID.cpp:221-232 | Each mask-then-OR edit made twice gives what it gives once |
| ConsumerControl.HoldThenReleaseIsIdle | hardware/bean/avr/cores/bean/BeanHID.cpp:340-369 | Holding a command on an idle hold buffer and then releasing it gives back the idle buffer |
| ConsumerControl.ReleaseNeverSetsBits | hardware/bean/avr/cores/bean/BeanHID.cpp:362-364 | Releasing never sets a bit in the hold buffer: every bit afterwards was set before |
| ConsumerControl.ReleaseByteOneCommandKeepsRest | hardware/bean/avr/cores/bean/BeanHID.cpp:353-364 | Releasing a button or digit command leaves byte 0 (channel and volume bits) and every byte after byte 1 of any hold buffer unchanged |
| BeanKeyboard.CharKind | hardware/bean/avr/cores/bean/BeanHID.cpp:532-542 | A character is unmapped exactly when its entry is 0; otherwise its usage is non-zero without the shift bit, and usage plus shift flag rebuild the entry |
| BeanKeyboard.Classify | hardware/bean/avr/cores/bean/BeanHID.cpp:527-543 | Codes 136 and up are non-printing keys with usage `k - 136`; 128..135 are modifiers with bit `1 << (k - 128)`; codes below 128 read through the table |
| BeanKeyboard.FirstFree | hardware/bean/avr/cores/bean/BeanHID.cpp:550-555 | The result is the first empty slot, or 6 when every slot is in use |
| BeanKeyboard.ClearUsage | hardware/bean/avr/cores/bean/BeanHID.cpp:590-594 | A non-zero usage is gone from every slot afterwards; every slot either keeps its key or becomes empty, and slots holding other keys keep them (no compaction) |
| BeanKeyboard.AddUsage | hardware/bean/avr/cores/bean/BeanHID.cpp:545-560 | Adding keeps the slot count; it succeeds exactly when the usage is already held or a slot is empty; on success the usage is held, and on failure the slots are unchanged |
| BeanKeyboard.PressResult | hardware/bean/avr/cores/bean/BeanHID.cpp:525-563 | A press keeps six slots, never clears a modifier bit, leaves the slots alone when it fails, and changes nothing for an unmapped character |
| BeanKeyboard.ReleaseResult | hardware/bean/avr/cores/bean/BeanHID.cpp:568-598 | A release keeps six slots, succeeds exactly when the key is mapped, never sets a modifier bit, and only empties slots |
| BeanKeyboard.TranslateKey | hardware/bean/avr/cores/bean/BeanHID.cpp:527-543 | The translation step reports a key unmapped exactly when `Classify` does; otherwise it yields the key's slot usage and modifier bits |
| BeanKeyboard.PressUnmapped | hardware/bean/avr/cores/bean/BeanHID.cpp:532-537 | Pressing a character whose entry is 0 fails and changes neither the modifiers nor any slot |
| BeanKeyboard.PressSucceedsIff | hardware/bean/avr/cores/bean/BeanHID.cpp:525-563 | A press succeeds exactly when the key is mapped and its usage is already held or some slot is empty |
| BeanKeyboard.PressSetsModifiers | hardware/bean/avr/cores/bean/BeanHID.cpp:529-542 | A mapped key ORs its modifier bit (`1 << (k - 128)`, or 0x02 for a shifted character) into the modifiers, whether or not the press succeeds |
| BeanKeyboard.PressStoresInFirstFreeSlot | hardware/bean/avr/cores/bean/BeanHID.cpp:545-560 | After a successful press the usage is held: the slots are unchanged if it was already held, else only the first empty slot changed, to the usage |
| BeanKeyboard.PressFullReport | hardware/bean/avr/cores/bean/BeanHID.cpp:547-559 | With all six slots in use and none holding the usage, a press fails and leaves the slots alone but keeps the modifier bits it set |
| BeanKeyboard.ModifierPressOnFullReport | hardware/bean/avr/cores/bean/BeanHID.cpp:529-559 | A modifier key, which takes no slot, still fails on a full report, keeping its bit |
| BeanKeyboard.PressKeepsNoDuplicates | hardware/bean/avr/cores/bean/BeanHID.cpp:545-560 | Pressing never puts a usage into a second slot |
| BeanKeyboard.ReleaseClears | hardware/bean/avr/cores/bean/BeanHID.cpp:568-598 | A mapped key always releases: its modifier bit is cleared, its usage is gone from every slot, and every other slot stays where it was |
| BeanKeyboard.ReleaseUnmapped | hardware/bean/avr/cores/bean/BeanHID.cpp:576-579 | Releasing a character whose entry is 0 fails and changes nothing |
| BeanKeyboard.ReleaseKeepsNoDuplicates | hardware/bean/avr/cores/bean/BeanHID.cpp:587-594 | Releasing never puts a usage into a second slot |
| BeanKeyboard.WriteRestoresSlots | hardware/bean/avr/cores/bean/BeanHID.cpp:611-616 | Writing a mapped key that was not held gives back the slots as they were and clears only that key's modifier bit |
| BeanKeyboard.Keyboard.constructor | hardware/bean/avr/cores/bean/BeanHID.cpp:22-24 | The keyboard is a global with static storage, so with the empty constructor of line 213 it starts zeroed: nothing pressed, an idle hold buffer, no write error and nothing sent |
| BeanKeyboard.Keyboard.SendReport | hardware/bean/avr/cores/bean/BeanHID.cpp:373-384 | Exactly one report with id 2, type 1 and length 8 carrying the key report is sent |
| BeanKeyboard.Keyboard.AddToSlots | hardware/bean/avr/cores/bean/BeanHID.cpp:545-560 | The slot search and insertion leaves the slots and success flag that `AddUsage` gives |
| BeanKeyboard.Keyboard.AddKey | hardware/bean/avr/cores/bean/BeanHID.cpp:529-562 | After translation, the press ORs in the modifier bits, adds the usage, and either sends one report and returns 1, or sets the write error and returns 0 with nothing sent |
| BeanKeyboard.Keyboard.ClearFromSlots | hardware/bean/avr/cores/bean/BeanHID.cpp:590-594 | The clearing loop leaves the slots equal to `ClearUsage` of the old slots |
| BeanKeyboard.Keyboard.Press | hardware/bean/avr/cores/bean/BeanHID.cpp:525-563 | The new report, the result, the write error and the sent reports are those of `PressResult` on the old report; the no-duplicate invariant is kept |
| BeanKeyboard.Keyboard.Release | hardware/bean/avr/cores/bean/BeanHID.cpp:568-598 | The new report, the result and the sent reports are those of `ReleaseResult` on the old report; the no-duplicate invariant is kept |
| BeanKeyboard.Keyboard.ReleaseAll | hardware/bean/avr/cores/bean/BeanHID.cpp:600-609 | All six slots and the modifiers become 0 and one report of the empty state is sent |
| BeanKeyboard.Keyboard.Write | hardware/bean/avr/cores/bean/BeanHID.cpp:611-616 | The release always follows the press, even a failed one; the press's result is returned; the press's report (if any) and then the release's report (if any) are sent |
| BeanKeyboard.Keyboard.SendCC | hardware/bean/avr/cores/bean/BeanHID.cpp:325-338 | One consumer report of the command built on a zeroed buffer is sent; the hold buffer is untouched |
| BeanKeyboard.Keyboard.HoldCC | hardware/bean/avr/cores/bean/BeanHID.cpp:340-351 | The hold buffer becomes `Build` of itself and is sent as one consumer report |
| BeanKeyboard.Keyboard.ReleaseCC | hardware/bean/avr/cores/bean/BeanHID.cpp:353-369 | The hold buffer loses exactly the bits the command sets on a zeroed buffer and is sent as one consumer report |
| BeanMouse.SharesButtonIff | hardware/bean/avr/cores/bean/BeanHID.cpp:191-194 | Two button bytes have a button in common exactly when their AND is non-zero, the test `isPressed` makes |
| BeanMouse.ButtonsResult | hardware/bean/avr/cores/bean/BeanHID.cpp:180-185 | `buttons(b)` leaves `b` held and sends one report of `b` with no movement exactly when `b` differs from the held buttons, none otherwise |
| BeanMouse.PressHolds | hardware/bean/avr/cores/bean/BeanHID.cpp:187 | Pressing holds the union of the held and pressed buttons, so every pressed button then reads as pressed |
| BeanMouse.PressReports | hardware/bean/avr/cores/bean/BeanHID.cpp:180-187 | Pressing sends a report exactly when some pressed button was up |
| BeanMouse.ReleaseHolds | hardware/bean/avr/cores/bean/BeanHID.cpp:189 | Releasing holds the old buttons without the released ones, so none of them then reads as pressed |
| BeanMouse.ReleaseReports | hardware/bean/avr/cores/bean/BeanHID.cpp:180-189 | Releasing sends a report exactly when some released button was held |
| BeanMouse.PressThenRelease | hardware/bean/avr/cores/bean/BeanHID.cpp:187-189 | Pressing and then releasing the same buttons leaves exactly the previously held buttons that are not among them |
| BeanMouse.Mouse.constructor | hardware/bean/avr/cores/bean/BeanHID.cpp:158 | The mouse starts with no button held and nothing sent |
| BeanMouse.Mouse.SendReport | hardware/bean/avr/cores/bean/BeanHID.cpp:196-207 | Exactly one report with id 1, type 1 and length 4 carrying the given bytes is sent |
| BeanMouse.Mouse.Move | hardware/bean/avr/cores/bean/BeanHID.cpp:171-178 | One report of the held buttons and the given movement is sent; the buttons are unchanged |
| BeanMouse.Mouse.Click | hardware/bean/avr/cores/bean/BeanHID.cpp:164-169 | Exactly two reports are sent, `b` with no movement and then nothing held, and no button is held afterwards whatever was held before |
| BeanMouse.Mouse.SetButtons | hardware/bean/avr/cores/bean/BeanHID.cpp:180-185 | The held buttons become `b`; one report is sent when they changed, none otherwise |
| BeanMouse.Mouse.Press | hardware/bean/avr/cores/bean/BeanHID.cpp:187 | The held buttons become `buttons | b`, reported as `buttons(b)` reports |
| BeanMouse.Mouse.Release | hardware/bean/avr/cores/bean/BeanHID.cpp:189 | The held buttons become `buttons & ~b`, reported as `buttons(b)` reports |
| BeanMouse.Mouse.IsPressed | hardware/bean/avr/cores/bean/BeanHID.cpp:191-194 | The answer is true exactly when `b` and the held buttons have a button in common |

## Left out

- The constants of `BeanHID.h` are not part of this model. These are the
  consumer-control masks, channel values, command codes, button values,
  `HID_KEYBOARD_1`/`HID_KEYBOARD_0` and `HID_CC_IN_RPT_LEN`. They are gathered
  in `ConsumerControl.Layout` and passed in as a parameter.
  - The only demand on them is `2 <= HID_CC_IN_RPT_LEN <= 8`: the builder
    writes byte 1, and the report is copied into an 8-byte data field.
  - A digit range with `HID_KEYBOARD_1 > HID_KEYBOARD_0` is allowed; it
    simply matches no code.
- `Serial.write_message` and the whole serial transport are outside the
  model: framing, escaping, the message id `MSG_ID_HID_SEND_REPORT` and
  timing. Each call is one `Report` in the ghost log.
- The byte layout behind the `memcpy` calls is not modelled. A payload is the
  abstract record, so the bytes of the 8-byte data field past the copied
  payload are not represented. In the source those bytes are left
  uninitialised for mouse reports and short consumer reports.
- The HID report descriptor (lines 43-135) is not modelled. It is static data
  with no behaviour.
- These trivial or unused items are left out: the empty `begin`/`end`
  methods, the unused `_hid_idle`, and the `HID_CC_RPT_SET_NUMERIC` and
  `HID_CC_RPT_SET_SELECTION` macros, which the builder never uses.
- `pgm_read_byte`/`PROGMEM` are modelled as a plain sequence read.
  `setWriteError` from the Arduino `Print` base class is a boolean field that
  only becomes true. The rest of `Print` (bulk writes, `print` overloads) is
  not part of this model.
- The order of two steps of `press` and `release` differs from the source.
  In the source, the modifier bit is changed while the key is being
  translated. In the model, `TranslateKey` returns the bits and the method
  then applies them. No step reads the
  modifiers in between, so the resulting state is the same.
- The keyboard and the mouse each keep their own log of sent reports. In the
  source both send through the one `Serial.write_message`, so the order
  between keyboard, consumer and mouse reports is not represented.
- `tests/compile_all.py` (a build script) and `BeanSerialTransport.h`
  (declarations of the transport) have no behaviour to model.
