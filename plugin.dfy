/** The plugin's handlers: the key and command filters, the mode state
    machine, the lifecycle, and the named commands, over the three values the
    plugin owns (mode, pending repeat count, enabled flag) and an abstract view
    of what it borrows from the host (the active text view and the open windows). */
module Vim {
  import opened Modes
  import opened Motion
  import opened RepeatCount

  /** The keys the key filter tells apart. */
  datatype Key = Digit(d: DigitValue) | Return | Enter | Escape | Other(code: int)

  /** A digit key that the repeat accumulator takes instead of dispatching it. */
  predicate SwallowsDigit(count: nat, key: Key) {
    key.Digit? && DigitAccepted(count, key.d)
  }

  /** The repeat a move command reads from its arguments: the parsed `repeat`
      argument when present, 1 otherwise. */
  function RepeatArgument(args: map<string, string>): (r: nat)
    requires "repeat" in args ==> IsDecimal(args["repeat"])
    ensures "repeat" !in args ==> r == 1
    ensures "repeat" in args ==> r == DecimalValue(Digits(args["repeat"]))
    ensures "repeat" in args ==> r < Pow10(|args["repeat"]|) && r % 10 == CharDigit(args["repeat"][|args["repeat"]| - 1])
  {
    if "repeat" in args then ParseDecimal(args["repeat"]) else 1
  }

  /** The count the command filter writes into a command's arguments is the
      repeat that the left and right move commands read back. */
  lemma InjectedRepeatIsRead(args: map<string, string>, n: nat)
    requires n > 0
    ensures IsDecimal(args["repeat" := DecimalString(n)]["repeat"])
    ensures RepeatArgument(args["repeat" := DecimalString(n)]) == n
  {
    DecimalRoundTrip(n);
  }

  class Plugin {
    // State owned by the plugin.
    var mode: Mode
    var repeatCount: nat
    var isEnabled: bool

    // The host's active text view: whether there is one, its lines, its cursor
    // and whether its caret is drawn thin.
    var hasView: bool
    var lines: seq<string>
    var line: nat
    var col: nat
    var thin: bool

    // The host's open windows: the status-bar message of each ("" when
    // cleared), and which of them is active, if any.
    ghost var messages: seq<string>
    var hasWindow: bool
    var activeWindow: nat

    // Key presses forwarded to the host's keymap dispatch, oldest first.
    ghost var dispatched: seq<Key>

    ghost predicate Valid()
      reads this
    {
      ValidCursor(lines, Cursor(line, col)) &&
      (hasWindow ==> activeWindow < |messages|)
    }

    function Cur(): Cursor
      reads this
    {
      Cursor(line, col)
    }

    /** The plugin as loaded: disabled, in command mode, with no pending count. */
    constructor (hasView: bool, lines: seq<string>, line: nat, col: nat, thin: bool,
                 ghost messages: seq<string>, hasWindow: bool, activeWindow: nat)
      requires ValidCursor(lines, Cursor(line, col))
      requires hasWindow ==> activeWindow < |messages|
      ensures Valid()
      ensures mode == CMD && repeatCount == 0 && !isEnabled
      ensures this.hasView == hasView && this.lines == lines && Cur() == Cursor(line, col) && this.thin == thin
      ensures this.messages == messages && this.hasWindow == hasWindow && this.activeWindow == activeWindow
      ensures dispatched == []
    {
      mode, repeatCount, isEnabled := CMD, 0, false;
      this.hasView, this.lines, this.line, this.col, this.thin := hasView, lines, line, col, thin;
      this.messages, this.hasWindow, this.activeWindow := messages, hasWindow, activeWindow;
      dispatched := [];
    }

    /** The cursor after `moveCursor(op, repeat)`: resolved on the active view,
        left alone when there is none. */
    twostate predicate CursorMoved(op: MoveOperation, repeat: nat)
      reads this
    {
      old(ValidCursor(lines, Cur())) &&
      Cur() == if old(hasView) then Resolve(op, repeat, old(lines), old(Cur()), old(thin)) else old(Cur())
    }

    /** The display for the current mode: its status text on the active window
        and a caret that is thin outside command mode; command-line mode
        changes neither. */
    ghost predicate ShowsMode(oldThin: bool, oldMessages: seq<string>)
      reads this
    {
      match StatusText(mode)
      case None => thin == oldThin && messages == oldMessages
      case Some(text) =>
        messages == (if hasWindow && activeWindow < |oldMessages| then oldMessages[activeWindow := text] else oldMessages) &&
        thin == (if hasView then mode != CMD else oldThin)
    }

    /** The effect of `setMode(target)`: nothing when already in `target`;
        otherwise a step left when entering command mode, then the new mode
        and its display. */
    twostate predicate ModeSetTo(target: Mode)
      reads this
    {
      mode == target &&
      (old(mode) == target ==> Cur() == old(Cur()) && thin == old(thin) && messages == old(messages)) &&
      (old(mode) != target && target == CMD ==> CursorMoved(Left, 1)) &&
      (old(mode) != target && target != CMD ==> Cur() == old(Cur())) &&
      (old(mode) != target ==> ShowsMode(old(thin), old(messages)))
    }

    /** The effect of `enable`. */
    twostate predicate EnabledFresh()
      reads this
    {
      mode == CMD && repeatCount == 0 && isEnabled &&
      Cur() == old(Cur()) && ShowsMode(old(thin), old(messages))
    }

    /** The effect of `disable`: the caret is made thin and every window's
        message is cleared; mode and pending count stay as they were. */
    twostate predicate DisabledCleared()
      reads this
    {
      !isEnabled && mode == old(mode) && repeatCount == old(repeatCount) &&
      Cur() == old(Cur()) &&
      thin == (if hasView then true else old(thin)) &&
      |messages| == |old(messages)| && forall i :: 0 <= i < |messages| ==> messages[i] == ""
    }

    method MoveCursor(op: MoveOperation, repeat: nat)
      requires Valid()
      modifies this`line, this`col
      ensures Valid()
      ensures CursorMoved(op, repeat)
    {
      if hasView {
        var blockPos := LineStart(lines, line);
        var pos := blockPos + col;
        var blockText := lines[line];
        match op {
          case Left =>
            col := CharLeft(pos, blockPos, repeat) - blockPos;
          case Right =>
            col := CharRight(pos, blockPos, |blockText|, thin, repeat) - blockPos;
          case FirstNonBlankChar =>
            var ix := FirstNonBlankCharPos(blockText);
            col := ix;
          case LastChar =>
            col := LastCharPos(blockPos, |blockText|) - blockPos;
          case NextLine =>
            var c := BlockMove(lines, Cur(), true, repeat);
            line, col := c.line, c.col;
            MoveToFirstNonBlankChar();
          case PrevLine =>
            var c := BlockMove(lines, Cur(), false, repeat);
            line, col := c.line, c.col;
            MoveToFirstNonBlankChar();
        }
      }
    }

    method MoveToFirstNonBlankChar()
      requires Valid()
      modifies this`col
      ensures Valid()
      ensures Cur() == ToFirstNonBlank(lines, old(Cur()))
    {
      var blockText := lines[line];
      if |blockText| > 0 {
        var ix := FirstNonBlankCharPos(blockText);
        col := ix;
      }
    }

    /** `updateCursor`: a thin caret outside command mode, a block one inside. */
    method UpdateCursor()
      modifies this`thin
      ensures thin == if hasView then mode != CMD else old(thin)
    {
      if hasView {
        thin := mode != CMD;
      }
    }

    /** `onModeChanged`: it reads the current mode, which every caller has just set. */
    method OnModeChanged()
      requires Valid()
      modifies this`thin, this`messages
      ensures Valid()
      ensures ShowsMode(old(thin), old(messages))
    {
      var text;
      match StatusText(mode) {
        case None => return;
        case Some(t) => text := t;
      }
      if hasWindow {
        messages := messages[activeWindow := text];
      }
      UpdateCursor();
    }

    method SetMode(target: Mode)
      requires Valid()
      modifies this`mode, this`line, this`col, this`thin, this`messages
      ensures Valid()
      ensures ModeSetTo(target)
    {
      if mode != target {
        ghost var cursor0, thin0, messages0 := Cur(), thin, messages;
        if target == CMD && hasView {
          MoveCursor(Left, 1);
          assert Cur() == Resolve(Left, 1, lines, cursor0, thin0);
        }
        mode := target;
        OnModeChanged();
        assert ShowsMode(thin0, messages0);
      }
    }

    /** The key filter, run on every key event before the host's keymap.
        `enable` registers it and `disable` removes it, so the host calls it
        only while the plugin is enabled; the same holds for the command
        filter and the focus listener below. */
    method KeyEventFilter(isKeyPress: bool, focusIsTextView: bool, key: Key) returns (handled: bool)
      requires Valid()
      requires isEnabled
      modifies this`repeatCount, this`line, this`col, this`dispatched
      ensures Valid()
      ensures handled <==> isKeyPress && focusIsTextView && mode == CMD
      ensures !handled ==> repeatCount == old(repeatCount) && Cur() == old(Cur()) && dispatched == old(dispatched)
      ensures handled && key.Digit? ==> repeatCount == AccumulateDigit(old(repeatCount), key.d)
      ensures handled && SwallowsDigit(old(repeatCount), key) ==>
        Cur() == old(Cur()) && dispatched == old(dispatched)
      ensures handled && (key == Return || key == Enter) ==>
        repeatCount == old(repeatCount) && CursorMoved(NextLine, 1) && dispatched == old(dispatched)
      ensures handled && !SwallowsDigit(old(repeatCount), key) && key != Return && key != Enter ==>
        repeatCount == old(repeatCount) && Cur() == old(Cur()) && dispatched == old(dispatched) + [key]
    {
      if !isKeyPress || !focusIsTextView {
        return false;
      }
      match mode {
        case CMD =>
          if key.Digit? && ((key.d == 0 && repeatCount != 0) || (1 <= key.d <= 9)) {
            repeatCount := repeatCount * 10 + key.d;
            return true;
          }
          if key == Return || key == Enter {
            // No repeat is passed, so the move is by one line whatever the
            // pending count; the count is neither used nor cleared.
            MoveCursor(NextLine, 1);
          } else {
            dispatched := dispatched + [key];
          }
          return true;
        case CMDLINE =>
          // The Escape test compares the key accessor itself, not the key it
          // returns, with the Escape key code; that is never equal, so every
          // key falls through here. The evident intent is that Escape returns
          // to command mode and reports the key handled.
          return false;
        case INSERT =>
          return false;
      }
    }

    /** The command filter, run before every command: it hands a pending count
        to the command as its `repeat` argument and clears it. */
    method CommandEventFilter(args: map<string, string>) returns (newArgs: map<string, string>, handled: bool)
      requires isEnabled
      modifies this`repeatCount
      ensures !handled
      ensures repeatCount == 0
      ensures old(repeatCount) > 0 ==> newArgs == args["repeat" := DecimalString(old(repeatCount))]
      ensures old(repeatCount) == 0 ==> newArgs == args
    {
      newArgs := args;
      if repeatCount > 0 {
        newArgs := newArgs["repeat" := DecimalString(repeatCount)];
        repeatCount := 0;
      }
      handled := false;
    }

    /** Focus moving to a text view puts the plugin in command mode directly,
        without the step left and without a status message. */
    method FocusChanged(nowIsTextView: bool)
      requires isEnabled
      modifies this`mode, this`thin
      ensures nowIsTextView ==> mode == CMD && thin == (if hasView then false else old(thin))
      ensures !nowIsTextView ==> mode == old(mode) && thin == old(thin)
    {
      if nowIsTextView {
        mode := CMD;
        UpdateCursor();
      }
    }

    /** The `vim.mode` condition: false while disabled, otherwise the host's
        comparison `check` applied to the current mode's text. */
    function VimModeSatisfied(check: (string, string, string) -> bool, operator: string, operand: string): (r: bool)
      reads this
      ensures r ==> isEnabled
      ensures isEnabled ==> (r <==> check(ToModeText(mode), operator, operand))
    {
      isEnabled && check(ToModeText(mode), operator, operand)
    }

    method Enable()
      requires Valid()
      modifies this`mode, this`repeatCount, this`isEnabled, this`thin, this`messages
      ensures Valid()
      ensures EnabledFresh()
    {
      mode := CMD;
      OnModeChanged();
      repeatCount := 0;
      isEnabled := true;
    }

    method Disable()
      requires Valid()
      modifies this`isEnabled, this`thin, this`messages
      ensures Valid()
      ensures DisabledCleared()
    {
      if hasView {
        thin := true;
      }
      messages := seq(|messages|, _ => "");
      isEnabled := false;
    }

    /** `activate`: `enableOnStartup` is the `vim.enable_on_startup` setting. */
    method Activate(enableOnStartup: bool)
      requires Valid()
      modifies this`mode, this`repeatCount, this`isEnabled, this`thin, this`messages
      ensures Valid()
      ensures enableOnStartup ==> EnabledFresh()
      ensures !enableOnStartup ==> unchanged(this)
    {
      if enableOnStartup {
        Enable();
      }
    }

    method Deactivate()
      requires Valid()
      modifies this`isEnabled, this`thin, this`messages
      ensures Valid()
      ensures DisabledCleared()
    {
      Disable();
    }

    method ToggleVimEmulation()
      requires Valid()
      modifies this`mode, this`repeatCount, this`isEnabled, this`thin, this`messages
      ensures Valid()
      ensures isEnabled == !old(isEnabled)
      ensures old(isEnabled) ==> DisabledCleared()
      ensures !old(isEnabled) ==> EnabledFresh()
    {
      if isEnabled {
        Disable();
      } else {
        Enable();
      }
    }

    method InsertModeCommand()
      requires Valid()
      modifies this`mode, this`line, this`col, this`thin, this`messages
      ensures Valid()
      ensures !isEnabled ==> unchanged(this)
      ensures isEnabled ==> ModeSetTo(INSERT)
    {
      if !isEnabled {
        return;
      }
      SetMode(INSERT);
    }

    method CommandModeCommand()
      requires Valid()
      modifies this`mode, this`line, this`col, this`thin, this`messages
      ensures Valid()
      ensures !isEnabled ==> unchanged(this)
      ensures isEnabled ==> ModeSetTo(CMD)
    {
      if !isEnabled {
        return;
      }
      SetMode(CMD);
    }

    method CommandlineModeCommand()
      requires Valid()
      modifies this`mode, this`line, this`col, this`thin, this`messages
      ensures Valid()
      ensures !isEnabled ==> unchanged(this)
      ensures isEnabled ==> ModeSetTo(CMDLINE)
    {
      if !isEnabled {
        return;
      }
      SetMode(CMDLINE);
    }

    method MoveCursorLeftCommand(args: map<string, string>)
      requires Valid()
      requires "repeat" in args ==> IsDecimal(args["repeat"])
      modifies this`line, this`col
      ensures Valid()
      ensures CursorMoved(Left, RepeatArgument(args))
    {
      MoveCursor(Left, RepeatArgument(args));
    }

    method MoveCursorRightCommand(args: map<string, string>)
      requires Valid()
      requires "repeat" in args ==> IsDecimal(args["repeat"])
      modifies this`line, this`col
      ensures Valid()
      ensures CursorMoved(Right, RepeatArgument(args))
    {
      MoveCursor(Right, RepeatArgument(args));
    }

    /** This command and the three after it ignore `args`: they always move once. */
    method MoveCursorFirstNonBlankCharCommand(args: map<string, string>)
      requires Valid()
      modifies this`line, this`col
      ensures Valid()
      ensures CursorMoved(FirstNonBlankChar, 1)
    {
      MoveCursor(FirstNonBlankChar, 1);
    }

    method MoveCursorLastCharCommand(args: map<string, string>)
      requires Valid()
      modifies this`line, this`col
      ensures Valid()
      ensures CursorMoved(LastChar, 1)
    {
      MoveCursor(LastChar, 1);
    }

    method MoveCursorNextLineCommand(args: map<string, string>)
      requires Valid()
      modifies this`line, this`col
      ensures Valid()
      ensures CursorMoved(NextLine, 1)
    {
      MoveCursor(NextLine, 1);
    }

    method MoveCursorPrevLineCommand(args: map<string, string>)
      requires Valid()
      modifies this`line, this`col
      ensures Valid()
      ensures CursorMoved(PrevLine, 1)
    {
      MoveCursor(PrevLine, 1);
    }
  }

  /** Typing 1, 2 and then Enter in command mode: the digits build a count of
      12, Enter moves one line down and the count stays pending for the next
      command. */
  method EnterLeavesCountPending(p: Plugin)
    requires p.Valid() && p.isEnabled && p.mode == CMD && p.repeatCount == 0
    modifies p
    ensures p.repeatCount == 12
    ensures p.lines == old(p.lines)
    ensures p.hasView ==> p.Cur() == Resolve(NextLine, 1, old(p.lines), old(p.Cur()), old(p.thin))
  {
    var handled := p.KeyEventFilter(true, true, Digit(1));
    handled := p.KeyEventFilter(true, true, Digit(2));
    handled := p.KeyEventFilter(true, true, Enter);
  }

  /** The count reaches one command only: a second command right after the
      first gets its arguments untouched. */
  method CountConsumedOnce(p: Plugin, args: map<string, string>) returns (first: map<string, string>, second: map<string, string>)
    requires p.isEnabled
    modifies p
    ensures old(p.repeatCount) > 0 ==> "repeat" in first && IsDecimal(first["repeat"]) && RepeatArgument(first) == old(p.repeatCount)
    ensures second == args && p.repeatCount == 0
  {
    var n := p.repeatCount;
    var handled;
    first, handled := p.CommandEventFilter(args);
    second, handled := p.CommandEventFilter(args);
    if n > 0 {
      InjectedRepeatIsRead(args, n);
    }
  }
}
