# Vim emulation for SilkEdit: a verified model of its input core

The plugin sits between the SilkEdit editor's raw input events and its
commands and reproduces Vim's modal editing. It has three modes: command
(`CMD`), insert (`INSERT`) and command line (`CMDLINE`). This project models
the plugin's input-interpretation core in Dafny and proves properties of it:

- `repeat.dfy` (module `RepeatCount`): the repeat-count accumulator. Digits
  typed in command mode build a pending count. A leading 0 is refused. The
  count reaches a command as a decimal `repeat` argument that is parsed back.
- `motion.dfy` (module `Motion`): the motion resolver. `isTabOrSpace`,
  `firstNonBlankCharPos` (its scanning loop, proved against a recursive
  specification) and the offset arithmetic of `moveCursor`: the Left and
  Right clamps, the last-character index, and the line moves that land on
  the first non-blank character.
- `modes.dfy` (module `Modes`): the modes, the `vim.mode` condition texts
  and the status-bar texts.
- `plugin.dfy` (module `Vim`): class `Plugin` holds the plugin's three
  globals, `mode`, `repeatCount` and `isEnabled`. It also holds an abstract
  view of the host objects the plugin borrows:
  - the active text view (`hasView`, its `lines`, the cursor `line`/`col`,
    and the `thin` caret flag);
  - the open windows' status messages (ghost `messages`, plus
    `hasWindow`/`activeWindow`);
  - the keys forwarded to the host's keymap (ghost `dispatched`).

  Its methods are the handlers: the key filter, the command filter, the
  focus listener, `setMode`, `onModeChanged`, `updateCursor`, `moveCursor`,
  `enable`/`disable`, `activate`/`deactivate` and the exported commands. Each
  method states the plugin's whole new state. The shared effects are written
  once, as two-state predicates (`CursorMoved`, `ModeSetTo`, `EnabledFresh`,
  `DisabledCleared`).

Three behaviours of the code are worth pointing out; the model keeps each
one as written:

- **Escape in command-line mode.** The code's Escape test compares the
  accessor `event.key` itself, not `event.key()`, with the Escape key code,
  so it never matches (index.js:43). The key filter therefore reports every
  command-line key unhandled and never leaves command-line mode. The branch's
  body, which switches to command mode and reports the key handled, shows
  what the test was meant to do.
- **Enter ignores the count.** Enter calls the next-line motion without a
  repeat, so it moves one line down (index.js:37, 184). The pending count is
  neither used nor cleared, so it stays for the next command.
- **`disable` makes the caret thin** (index.js:109). It does not restore a
  block caret.

The key filter, the command filter and the focus listener run only while
`enable` has registered them with the host (index.js:83-86) and `disable` has
not yet removed them (index.js:103-105). Registration and the enabled flag
change together, so these three handlers require the plugin to be enabled.

## Model

| member | source | states |
|---|---|---|
| RepeatCount.DigitAccepted | index.js:30 | The simplified test "not a 0, or a count is under way" holds exactly when the source's test does: a 0 with a count under way, or a digit from 1 to 9. |
| RepeatCount.AccumulateDigit | index.js:30-31 | An accepted digit becomes the count's new last decimal digit, with the old count as the digits before it. A refused digit, a leading 0, leaves the count at 0. |
| RepeatCount.ParseDecimal | index.js:265 | `Number.parseInt` of a digit string gives the positional value of its digits, leading zeros included ("007" reads as 7). The value is below 10 to the power of the string's length and ends in the string's last digit. |
| RepeatCount.DecimalValueAppend | index.js:265 | Appending a digit to a digit sequence multiplies its value by 10 and adds the digit. This is the step that ties the left-to-right parse to the positional value. |
| RepeatCount.LeadingZeroIgnored | index.js:265 | A leading `0` does not change the number a `repeat` string reads as. |
| RepeatCount.TypedCountIsParsed | index.js:29-31 | Typing the digit keys of a digit string in command mode, starting with no count, builds the same count that parsing the string gives (as `Number.parseInt` does at index.js:265), refused leading zeros included. |
| RepeatCount.FeedDigitsValue | index.js:29-33 | Digit keys typed after a pending count `c` leave `c * 10^n + value(digits)`. Refusing a leading 0 therefore never changes the value: from an empty count, the count is the decimal number typed. |
| RepeatCount.DecimalString | index.js:76 | `toString` of the count is a non-empty string of decimal digits with no leading zero. |
| RepeatCount.DecimalRoundTrip | index.js:76 | Parsing the decimal string written for a count gives the count back. |
| Motion.IsTabOrSpace | index.js:158-160 | A character is blank exactly when it is a tab or a space. Line breaks, form feeds and non-breaking spaces are not blank. |
| Motion.IndentSkipped | index.js:163-169 | Leading indentation of tabs and spaces is skipped whole. The first non-blank of an indented line is the indentation's width plus the first non-blank of the rest ("\t\t  hello" gives 4). |
| Motion.FirstNonBlank | index.js:163-169 | The result is at most the text's length. Every earlier character is a tab or space. The character at the result, if any, is neither. |
| Motion.FirstNonBlankCharPos | index.js:163-169 | The scanning loop returns exactly the first non-blank index. |
| Motion.CharLeft | index.js:192-195 | Left moves exactly `repeat` characters unless that would cross the line start, and then it stops at the line start. The result is never below the line start or above the old offset. |
| Motion.CharRight | index.js:196-208 | Right is a no-op on an empty line and at or past the limit. The limit is the line end for a thin caret and the last character for a block caret. Otherwise Right moves `repeat` characters or stops at the limit, whichever comes first. |
| Motion.LastCharPos | index.js:212-216 | LastChar gives the offset of the line's last character, or the line start when the line is empty. |
| Motion.BlockMove | index.js:217-224 | The host's line move, as assumed here, ends on the line `n` lines away, clamped to the first or last line. It lands at that line's start, or leaves the cursor unchanged when it cannot move. |
| Motion.ToFirstNonBlank | index.js:171-178 | On a non-empty line, the cursor goes to the first non-blank character. On an empty line, nothing moves. |
| Motion.Resolve | index.js:181-231 | Per operation and in line-relative terms: Left and Right stay on the line and clamp as above. FirstNonBlankChar and LastChar give those columns. NextLine and PrevLine end on the clamped destination line at its first non-blank column. The result is always a valid cursor. |
| Modes.ToModeText | index.js:53-64 | CMD, INSERT and CMDLINE map to "normal", "insert" and "commandline", and each text belongs to exactly its mode. |
| Modes.StatusText | index.js:117-128 | The status text is "CMD" for command mode and "INSERT" for insert mode. Command-line mode has no status text. |
| Vim.RepeatArgument | index.js:265 | With no `repeat` argument the repeat is 1. Otherwise it is the positional value of the argument's digits, leading zeros included. That value is below 10 to the power of the argument's length and ends in the argument's last digit. |
| Vim.InjectedRepeatIsRead | index.js:74-80 | After the command filter injects a count `n > 0`, the move command's repeat argument is well-formed and reads back as `n`. |
| Vim.Plugin.constructor | index.js:18-20 | The plugin starts disabled, in command mode, with no pending count. |
| Vim.Plugin.MoveCursor | index.js:181-231 | With an active view, the cursor becomes `Resolve` of the operation on the old cursor. Without one, nothing moves. The view stays valid. |
| Vim.Plugin.MoveToFirstNonBlankChar | index.js:171-178 | The cursor becomes `ToFirstNonBlank` of the old cursor. |
| Vim.Plugin.UpdateCursor | index.js:138-144 | With a view, the caret is thin exactly when the mode is not CMD. Without one, the caret is untouched. |
| Vim.Plugin.OnModeChanged | index.js:117-136 | The active window shows the mode's status text and the caret follows the mode. In CMDLINE neither the status nor the caret changes. |
| Vim.Plugin.SetMode | index.js:146-156 | This is a strict no-op when the target is the current mode. Otherwise, entering CMD first steps the cursor left by one, never past the line start. Then the mode becomes the target and is displayed. |
| Vim.Plugin.KeyEventFilter | index.js:22-51 | The filter is called only while the plugin is enabled. The key is handled exactly for a key press, in a text view, in CMD mode. An unhandled key changes nothing. An accepted digit folds into the count. Enter or Return moves to the first non-blank character of the next line and leaves the count alone. Every other key is forwarded to the keymap. The mode never changes, including in CMDLINE (the Escape branch is dead). |
| Vim.Plugin.CommandEventFilter | index.js:74-80 | The filter is called only while the plugin is enabled. It never handles the command and always leaves the count 0. A pending count is written into `args` as its decimal `repeat`. With no count, `args` is untouched. |
| Vim.Plugin.FocusChanged | index.js:67-72 | The listener is called only while the plugin is enabled. Focus moving to a text view sets CMD and a block caret directly. There is no left step and no status message. Any other focus change does nothing. |
| Vim.Plugin.VimModeSatisfied | index.js:88-92 | The `vim.mode` condition is false while disabled. Otherwise it is the host's check on the current mode's text. |
| Vim.Plugin.Enable | index.js:82-100 | Afterwards the mode is CMD, the count is 0 and the plugin is enabled. The status shows "CMD", the caret is a block and the cursor has not moved. |
| Vim.Plugin.Disable | index.js:102-115 | Afterwards the plugin is disabled. The view's caret is thin and every window's message is cleared. The mode and the count are kept. |
| Vim.Plugin.Activate | index.js:234-238 | The plugin is enabled when the startup setting is on. Otherwise nothing changes. |
| Vim.Plugin.Deactivate | index.js:240-242 | Deactivating has the same effect as `Disable`. |
| Vim.Plugin.ToggleVimEmulation | index.js:245-251 | The command flips `isEnabled`, with the full effect of `Disable` or `Enable`. |
| Vim.Plugin.InsertModeCommand | index.js:252-255 | When disabled, nothing changes. Otherwise the effect is that of `SetMode(INSERT)`. |
| Vim.Plugin.CommandModeCommand | index.js:256-259 | When disabled, nothing changes. Otherwise the effect is that of `SetMode(CMD)`. |
| Vim.Plugin.CommandlineModeCommand | index.js:260-263 | When disabled, nothing changes. Otherwise the effect is that of `SetMode(CMDLINE)`. |
| Vim.Plugin.MoveCursorLeftCommand | index.js:264-267 | The command moves left by the parsed `repeat` argument, or by 1 when there is none. |
| Vim.Plugin.MoveCursorRightCommand | index.js:268-271 | The command moves right by the parsed `repeat` argument, or by 1 when there is none. |
| Vim.Plugin.MoveCursorFirstNonBlankCharCommand | index.js:272-274 | The command moves to the first non-blank character and ignores its arguments. |
| Vim.Plugin.MoveCursorLastCharCommand | index.js:275-277 | The command moves to the last character and ignores its arguments. |
| Vim.Plugin.MoveCursorNextLineCommand | index.js:278-280 | The command moves one line down, to the first non-blank character, and ignores its arguments. |
| Vim.Plugin.MoveCursorPrevLineCommand | index.js:281-283 | The command moves one line up, to the first non-blank character, and ignores its arguments. |
| Vim.EnterLeavesCountPending | index.js:29-41 | Typing 1, 2 and then Enter in CMD mode leaves a pending count of 12. The cursor moves by one line, not twelve. |
| Vim.CountConsumedOnce | index.js:74-80 | The first command after a count receives it as `repeat`. A second command right after gets its arguments untouched, and the count is 0. |

## Left out

- Host calls: filter and listener registration, `Condition.add`/`remove`, `KeymapManager.dispatch`, status-bar rendering, `Window.windows()` and `Config.get`. These are foreign code. They appear only as their effects: the handlers' requirement that the plugin be enabled (registration), the `dispatched` log, the `messages` of the windows, and parameters (`enableOnStartup`, the condition's `check`).
- KeyEventFilter: it does not model what a dispatched key then does in the host (for example, a command it fires). The model only records that the key was forwarded.
- CharLeft, CharRight: lines are taken as sequences of the host's text units (UTF-16 code units in the source), and the host's Left/Right character move is assumed to step exactly one offset. A host cursor that steps over a whole surrogate pair or grapheme cluster can move further than the clamped count, so the bounds proved here hold only under that assumption.
- The host's block navigation (`NextBlock`/`PreviousBlock`) is host behaviour. `BlockMove` states the assumed effect. Only the first-non-blank placement on the destination line is derived from the plugin's own code.
- The host may change the active view, its text or the open windows between events. Those changes are not modelled. The view and the windows are fixed when the object is built and change only through the plugin's handlers.
- Malformed `repeat` arguments are not modelled. These are `Number.parseInt` on non-digits (NaN), signs, surrounding text, and NaN slipping past the `typeof` test. A `repeat` argument is required to be a string of decimal digits.
- The `default` branch of `toModeText` and its warning log are not modelled, because the mode type is closed and that branch cannot be reached. The other console logging is left out too.
- Filter registration order, listener identity and concurrency are not modelled. Every handler runs to completion on the host's event loop.
- Integers are unbounded. The count's growth past JavaScript's exact-integer range is not modelled.
