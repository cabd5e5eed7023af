/**
  The control-topic command interpreter of the lidar driver: a text
  message switches the lidar on exactly when its lower-cased form ends
  with "on"; every other message switches it off.
 */
module Command {

  /** Lower-case mapping of one character. Only ASCII letters change: the
      suffix test below looks at the last two characters, and no
      character other than 'O' and 'N' lower-cases to 'o' or 'n'. */
  function ToLowerChar(c: char): char
  {
    if 'A' <= c <= 'Z' then (c as int - 'A' as int + 'a' as int) as char else c
  }

  function ToLower(s: string): (r: string)
    ensures |r| == |s|
    ensures forall i :: 0 <= i < |s| ==> r[i] == ToLowerChar(s[i])
  {
    if |s| == 0 then "" else [ToLowerChar(s[0])] + ToLower(s[1..])
  }

  predicate EndsWith(s: string, suffix: string)
  {
    |suffix| <= |s| && s[|s| - |suffix|..] == suffix
  }

  /** The run flag a control message sets:
      `message.to_lowercase().ends_with("on")`. */
  function IsOnCommand(message: string): (on: bool)
    ensures on <==> |message| >= 2
                    && message[|message| - 2] in {'o', 'O'}
                    && message[|message| - 1] in {'n', 'N'}
  {
    var lower := ToLower(message);
    var on := EndsWith(lower, "on");
    assert |lower| >= 2 ==> lower[|lower| - 2..] == [lower[|lower| - 2], lower[|lower| - 1]];
    on
  }

  /** Examples: "ON", "turn on" and "lights ON" switch the lidar on;
      "off", "OFF" and "garbage" switch it off. */
  lemma CommandExamples()
    ensures IsOnCommand("ON") && IsOnCommand("turn on") && IsOnCommand("lights ON")
    ensures !IsOnCommand("off") && !IsOnCommand("OFF") && !IsOnCommand("garbage")
  {
  }

  /** Upper- or lower-casing a message never changes the command it gives. */
  lemma CaseInsensitive(message: string)
    ensures IsOnCommand(ToLower(message)) == IsOnCommand(message)
  {
    var lower := ToLower(message);
    if |message| >= 2 {
      assert lower[|lower| - 1] == ToLowerChar(message[|message| - 1]);
      assert lower[|lower| - 2] == ToLowerChar(message[|message| - 2]);
      LowerKeepsLetter(message[|message| - 1]);
      LowerKeepsLetter(message[|message| - 2]);
    }
  }

  /** A character is one of 'o'/'O' (or 'n'/'N') exactly when its
      lower-case form is. */
  lemma LowerKeepsLetter(c: char)
    ensures ToLowerChar(c) in {'o', 'O'} <==> c in {'o', 'O'}
    ensures ToLowerChar(c) in {'n', 'N'} <==> c in {'n', 'N'}
  {
  }
}
