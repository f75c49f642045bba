/**
 * The line-oriented commands the webOS bridge writes to the TV's pointer
 * socket (`type:<kind>` followed by `field:value` lines and a blank line), and
 * the key and volume vocabularies it translates into button names.
 */
module PointerCommands {
  import opened Wrappers
  import opened Text
  import opened PointerChunks

  /** The two continuous-motion commands. */
  datatype Motion = Move | Scroll

  function MotionName(m: Motion): string {
    match m
    case Move => "move"
    case Scroll => "scroll"
  }

  /** `type:move\ndx:<dx>\ndy:<dy>\n\n` and its `scroll` twin. */
  function MotionCommand(m: Motion, c: Delta): string {
    "type:" + MotionName(m) + "\ndx:" + IntToString(c.dx) + "\ndy:" + IntToString(c.dy) + "\n\n"
  }

  /** One command per packet, in packet order. */
  function MotionCommands(m: Motion, cs: seq<Delta>): (cmds: seq<string>)
    ensures |cmds| == |cs|
    ensures forall i :: 0 <= i < |cs| ==> cmds[i] == MotionCommand(m, cs[i])
  {
    if cs == [] then [] else [MotionCommand(m, cs[0])] + MotionCommands(m, cs[1..])
  }

  /** Sending one more chunk appends its command. */
  lemma MotionCommandsSnoc(m: Motion, cs: seq<Delta>, c: Delta)
    ensures MotionCommands(m, cs + [c]) == MotionCommands(m, cs) + [MotionCommand(m, c)]
  {
    var lhs := MotionCommands(m, cs + [c]);
    var rhs := MotionCommands(m, cs) + [MotionCommand(m, c)];
    assert |lhs| == |rhs|;
    forall i | 0 <= i < |lhs| ensures lhs[i] == rhs[i] {
      if i < |cs| {
        assert (cs + [c])[i] == cs[i];
      }
    }
  }

  lemma MotionCommandsPrefix(m: Motion, cs: seq<Delta>, i: nat, sent: seq<string>)
    requires i < |cs|
    ensures sent + MotionCommands(m, cs[..i + 1]) == (sent + MotionCommands(m, cs[..i])) + [MotionCommand(m, cs[i])]
  {
    assert cs[..i + 1] == cs[..i] + [cs[i]];
    MotionCommandsSnoc(m, cs[..i], cs[i]);
  }

  const ClickCommand: string := "type:click\n\n"

  function ButtonCommand(name: string): string {
    "type:button\nname:" + name + "\n\n"
  }

  /** Python's `text.replace("\n", "\\n")`: each newline becomes a backslash and an `n`. */
  function EscapeNewlines(text: string): (r: string)
    ensures '\n' !in r
    ensures |r| >= |text|
  {
    if text == [] then []
    else (if text[0] == '\n' then "\\n" else [text[0]]) + EscapeNewlines(text[1..])
  }

  function TextCommand(text: string): string {
    "type:text\ntext:" + EscapeNewlines(text) + "\n\n"
  }

  /** The `key` vocabulary of the card and the webOS button each one presses. */
  const KeyMap: map<string, string> := map[
    "enter" := "ENTER",
    "backspace" := "BACKSPACE",
    "escape" := "BACK",
    "back" := "BACK",
    "tab" := "TAB",
    "space" := "SPACE",
    "delete" := "BACKSPACE",
    "arrow_left" := "LEFT",
    "arrow_right" := "RIGHT",
    "arrow_up" := "UP",
    "arrow_down" := "DOWN",
    "home" := "HOME",
    "end" := "END",
    "page_up" := "PAGEUP",
    "page_down" := "PAGEDOWN",
    "power" := "POWER",
    "settings" := "MENU"
  ]

  const VolumeMap: map<string, string> := map["up" := "VOLUMEUP", "down" := "VOLUMEDOWN", "mute" := "MUTE"]

  /** `key_map.get(key)`, with the falsy (unmapped) case as None. */
  function KeyButton(key: string): Option<string> {
    if key in KeyMap && KeyMap[key] != "" then Some(KeyMap[key]) else None
  }

  function VolumeButton(action: string): Option<string> {
    if action in VolumeMap && VolumeMap[action] != "" then Some(VolumeMap[action]) else None
  }

  /** The key translations, and that anything outside the vocabulary presses nothing. */
  lemma KeyTranslation(key: string)
    ensures KeyButton("escape") == Some("BACK") && KeyButton("back") == Some("BACK")
    ensures KeyButton("delete") == Some("BACKSPACE") && KeyButton("backspace") == Some("BACKSPACE")
    ensures KeyButton("settings") == Some("MENU") && KeyButton("enter") == Some("ENTER")
    ensures KeyButton(key).Some? <==> key in KeyMap
    ensures KeyButton(key).Some? ==> '\n' !in KeyButton(key).value
  {
  }

  lemma VolumeTranslation(action: string)
    ensures VolumeButton("up") == Some("VOLUMEUP")
    ensures VolumeButton("down") == Some("VOLUMEDOWN")
    ensures VolumeButton("mute") == Some("MUTE")
    ensures VolumeButton(action).Some? <==> action in {"up", "down", "mute"}
  {
  }

  /** What a motion command reads back as: its kind and its two integers. */
  datatype MotionFrame = MotionFrame(kind: string, delta: Delta)

  predicate HasPrefix(s: string, p: string) {
    |p| <= |s| && s[..|p|] == p
  }

  /** Reads a pointer-socket command as a motion command, line by line. */
  function ParseMotion(cmd: string): Option<MotionFrame> {
    var lines := SplitLines(cmd);
    if |lines| == 5 && HasPrefix(lines[0], "type:") && HasPrefix(lines[1], "dx:")
      && HasPrefix(lines[2], "dy:") && lines[3] == "" && lines[4] == ""
    then
      match (ParseInt(lines[1][3..]), ParseInt(lines[2][3..]))
      case (Some(dx), Some(dy)) => Some(MotionFrame(lines[0][5..], Delta(dx, dy)))
      case _ => None
    else None
  }

  /** Three newline-free lines and a blank line, newline-terminated, split back into those lines. */
  lemma ThreeLinesAndBlank(l0: string, l1: string, l2: string)
    requires '\n' !in l0 && '\n' !in l1 && '\n' !in l2
    ensures SplitLines(l0 + "\n" + l1 + "\n" + l2 + "\n\n") == [l0, l1, l2, "", ""]
  {
    assert l0 + "\n" + l1 + "\n" + l2 + "\n\n" == l0 + "\n" + (l1 + "\n" + (l2 + "\n" + "\n"));
    SplitFirst(l0, l1 + "\n" + (l2 + "\n" + "\n"));
    SplitFirst(l1, l2 + "\n" + "\n");
    SplitFirst(l2, "\n");
  }

  /** A motion command is five lines: kind, dx, dy and the blank line that ends it. */
  lemma MotionCommandLines(m: Motion, c: Delta)
    ensures SplitLines(MotionCommand(m, c))
         == ["type:" + MotionName(m), "dx:" + IntToString(c.dx), "dy:" + IntToString(c.dy), "", ""]
  {
    var n, x, y := MotionName(m), IntToString(c.dx), IntToString(c.dy);
    assert "\ndx:" == "\n" + "dx:" && "\ndy:" == "\n" + "dy:";
    assert MotionCommand(m, c) == ("type:" + n) + "\n" + ("dx:" + x) + "\n" + ("dy:" + y) + "\n\n";
    assert '\n' !in "type:" + n;
    ThreeLinesAndBlank("type:" + n, "dx:" + x, "dy:" + y);
  }

  /** Every packet the bridge sends can be read back exactly from its command. */
  lemma MotionRoundTrip(m: Motion, c: Delta)
    ensures ParseMotion(MotionCommand(m, c)) == Some(MotionFrame(MotionName(m), c))
  {
    MotionCommandLines(m, c);
    var lines := SplitLines(MotionCommand(m, c));
    assert lines[1][3..] == IntToString(c.dx);
    assert lines[2][3..] == IntToString(c.dy);
    assert lines[0][5..] == MotionName(m);
    IntRoundTrip(c.dx);
    IntRoundTrip(c.dy);
  }

  /** A button command is `type:button`, the `name:` line and the blank terminator. */
  lemma ButtonCommandLines(name: string)
    requires '\n' !in name
    ensures SplitLines(ButtonCommand(name)) == ["type:button", "name:" + name, "", ""]
  {
    assert ButtonCommand(name) == "type:button" + "\n" + (("name:" + name) + "\n" + ("" + "\n" + ""));
    SplitFirst("type:button", ("name:" + name) + "\n" + ("" + "\n" + ""));
    SplitFirst("name:" + name, "" + "\n" + "");
    SplitFirst("", "");
    SplitSingle("");
  }

  /**
   * Whatever the text, the text command stays four lines: the escaped text
   * cannot break out of its `text:` line.
   */
  lemma TextCommandLines(text: string)
    ensures SplitLines(TextCommand(text)) == ["type:text", "text:" + EscapeNewlines(text), "", ""]
  {
    var e := EscapeNewlines(text);
    var last := "" + "\n" + "";
    var body := ("text:" + e) + "\n" + last;
    assert TextCommand(text) == "type:text" + "\n" + body;
    SplitSingle("");
    SplitFirst("", "");
    assert SplitLines(last) == ["", ""];
    SplitFirst("text:" + e, last);
    assert SplitLines(body) == ["text:" + e, "", ""];
    SplitFirst("type:text", body);
  }

  /**
   * Backslashes are not escaped, so a newline and a literal backslash-n give
   * the same command: the text command cannot be decoded back in general.
   */
  lemma TextCommandNotInjective()
    ensures "\n" != "\\n" && TextCommand("\n") == TextCommand("\\n")
  {
    assert EscapeNewlines("\n") == "\\n" + EscapeNewlines([]);
    assert EscapeNewlines("\\n") == "\\" + EscapeNewlines("n");
    assert EscapeNewlines("n") == "n" + EscapeNewlines([]);
  }
}
