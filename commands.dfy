/** The commands the pad sends over the serial link and their text on the wire, the
    fixed sequences that setMode, resetTimer, isAwake and setThreshold emit, and the
    device mode, which is the mode of the last MOD<n> command sent. */
module Commands {
  import opened Wrappers
  import opened Text

  /** X leaves the current mode, MOD<n> selects mode n, REST resets the millisecond
      timer, HELP asks for the usage text, AAO<n> <level> sets a photodiode threshold. */
  datatype Command = Exit | SelectMode(mode: int) | ResetClock | Help | SetLevel(channel: int, level: int)

  /** The text sent for a command; numbers are written as Python's str() writes them. */
  function Wire(c: Command): string {
    match c
    case Exit => "X"
    case SelectMode(m) => "MOD" + IntToString(m)
    case ResetClock => "REST"
    case Help => "HELP"
    case SetLevel(n, t) => "AAO" + IntToString(n) + " " + IntToString(t)
  }

  /** The wire text of a command log. */
  function Wires(log: seq<Command>): (ws: seq<string>)
    ensures |ws| == |log|
    ensures forall k :: 0 <= k < |log| ==> ws[k] == Wire(log[k])
  {
    seq(|log|, k requires 0 <= k < |log| => Wire(log[k]))
  }

  /** setMode(mode): exit, then select, whatever the previous mode. */
  function SetModeCommands(mode: int): seq<Command> {
    [Exit, SelectMode(mode)]
  }

  /** resetTimer: settings mode, reset, then streaming mode. */
  function ResetTimerCommands(): seq<Command> {
    SetModeCommands(0) + [ResetClock] + SetModeCommands(3)
  }

  /** isAwake: settings mode, help request, then streaming mode. */
  function IsAwakeCommands(): seq<Command> {
    SetModeCommands(0) + [Help] + SetModeCommands(3)
  }

  /** One threshold command per channel, in the order given. */
  function ThresholdCommands(channels: seq<int>, threshold: int): (cs: seq<Command>)
    ensures |cs| == |channels|
    ensures forall k :: 0 <= k < |channels| ==> cs[k] == SetLevel(channels[k], threshold)
  {
    seq(|channels|, k requires 0 <= k < |channels| => SetLevel(channels[k], threshold))
  }

  /** setThreshold: settings mode, the threshold commands, then streaming mode. */
  function SetThresholdCommands(channels: seq<int>, threshold: int): seq<Command> {
    SetModeCommands(0) + ThresholdCommands(channels, threshold) + SetModeCommands(3)
  }

  /** The mode a wire text selects, if it is a MOD<n> command. */
  function ParseModeCommand(text: string): Option<int> {
    if |text| >= 3 && text[..3] == "MOD" then ParseInt(text[3..]) else None
  }

  /** The channel and level of an AAO<n> <level> wire text. */
  function ParseThresholdCommand(text: string): Option<(int, int)> {
    if |text| < 3 || text[..3] != "AAO" then None
    else
      var space := Find(text, " ", 3);
      if space == -1 then None
      else
        match (ParseInt(text[3..space]), ParseInt(text[space + 1..]))
        case (Some(n), Some(t)) => Some((n, t))
        case _ => None
  }

  /** Reads a command back from its wire text. */
  function ParseCommand(text: string): Option<Command> {
    if text == "X" then Some(Exit)
    else if text == "REST" then Some(ResetClock)
    else if text == "HELP" then Some(Help)
    else if |text| >= 3 && text[..3] == "MOD" then
      match ParseInt(text[3..])
      case Some(m) => Some(SelectMode(m))
      case None => None
    else
      match ParseThresholdCommand(text)
      case Some((n, t)) => Some(SetLevel(n, t))
      case None => None
  }

  /** The device mode as a command log leaves it: the last mode selected. */
  function LastMode(log: seq<Command>): Option<int>
    decreases |log|
  {
    if log == [] then None
    else if log[|log| - 1].SelectMode? then Some(log[|log| - 1].mode)
    else LastMode(log[..|log| - 1])
  }

  /** LastMode is the mode of the last SelectMode in the log: none exactly when the
      log selects no mode, and otherwise a SelectMode that no later one follows. */
  lemma {:induction false} LastModeCharacterised(log: seq<Command>)
    ensures LastMode(log).None? <==> forall k :: 0 <= k < |log| ==> !log[k].SelectMode?
    ensures LastMode(log).Some? ==>
      exists k :: 0 <= k < |log| && log[k] == SelectMode(LastMode(log).value)
        && forall j :: k < j < |log| ==> !log[j].SelectMode?
    decreases |log|
  {
    if log != [] {
      var n := |log| - 1;
      var prefix := log[..n];
      LastModeCharacterised(prefix);
      if log[n].SelectMode? {
        assert log[n] == SelectMode(LastMode(log).value);
      } else {
        assert forall k :: 0 <= k < n ==> log[k] == prefix[k];
        if LastMode(log).Some? {
          var k :| 0 <= k < |prefix| && prefix[k] == SelectMode(LastMode(log).value)
            && forall j :: k < j < |prefix| ==> !prefix[j].SelectMode?;
          assert log[k] == SelectMode(LastMode(log).value);
        }
      }
    }
  }

  /** The device mode as the text on the wire leaves it: the last MOD<n> sent. */
  function WireMode(texts: seq<string>): Option<int>
    decreases |texts|
  {
    if texts == [] then None
    else match ParseModeCommand(texts[|texts| - 1])
      case Some(m) => Some(m)
      case None => WireMode(texts[..|texts| - 1])
  }

  lemma ModeCommandRoundTrip(mode: int)
    ensures ParseModeCommand(Wire(SelectMode(mode))) == Some(mode)
  {
    assert Wire(SelectMode(mode))[3..] == IntToString(mode);
    ParseIntToString(mode);
  }

  lemma IntToStringHasNoSpace(i: int, k: nat)
    requires k < |IntToString(i)|
    ensures IntToString(i)[k] != ' '
  {
    if i < 0 && k > 0 {
      assert IntToString(i)[k] == NatToString(-i)[k - 1];
    }
  }

  /** In "AAO" + a + " " + b with no space in a, the first space after the prefix
      ends a. */
  lemma SplitAtFirstSpace(a: string, b: string)
    requires forall k :: 0 <= k < |a| ==> a[k] != ' '
    ensures var s := "AAO" + a + " " + b;
      && Find(s, " ", 3) == 3 + |a|
      && s[3..3 + |a|] == a
      && s[3 + |a| + 1..] == b
  {
    var s := "AAO" + a + " " + b;
    var pos := 3 + |a|;
    assert s[pos..pos + 1] == " ";
    assert OccursAt(s, " ", pos);
    forall i | 3 <= i < pos
      ensures !OccursAt(s, " ", i)
    {
      assert s[i..i + 1][0] == s[i] == a[i - 3];
    }
    FindCharacterised(s, " ", 3);
    assert s[3..pos] == a;
  }

  /** The channel and the level can be read back from a threshold command. */
  lemma ThresholdCommandRoundTrip(channel: int, threshold: int)
    ensures ParseThresholdCommand(Wire(SetLevel(channel, threshold))) == Some((channel, threshold))
  {
    var a := IntToString(channel);
    forall k | 0 <= k < |a|
      ensures a[k] != ' '
    {
      IntToStringHasNoSpace(channel, k);
    }
    SplitAtFirstSpace(a, IntToString(threshold));
    ParseIntToString(channel);
    ParseIntToString(threshold);
  }

  /** Only a mode selection reads as one on the wire. */
  lemma ModeOnTheWire(c: Command)
    ensures ParseModeCommand(Wire(c)) == if c.SelectMode? then Some(c.mode) else None
  {
    match c
    case SelectMode(m) => ModeCommandRoundTrip(m);
    case SetLevel(n, t) => assert Wire(c)[..3] == "AAO";
    case _ =>
  }

  /** Every command can be read back from its wire text, so distinct commands are sent
      as distinct texts. */
  lemma WireRoundTrip(c: Command)
    ensures ParseCommand(Wire(c)) == Some(c)
  {
    match c
    case SelectMode(m) =>
      assert Wire(c)[..3] == "MOD" && Wire(c)[3..] == IntToString(m);
      ParseIntToString(m);
    case SetLevel(n, t) =>
      assert Wire(c)[..3] == "AAO";
      ThresholdCommandRoundTrip(n, t);
    case _ =>
  }

  lemma WireInjective(c1: Command, c2: Command)
    requires Wire(c1) == Wire(c2)
    ensures c1 == c2
  {
    WireRoundTrip(c1);
    WireRoundTrip(c2);
  }

  /** The mode read off the wire text is the mode of the command log. */
  lemma {:induction false} WireModeAgrees(log: seq<Command>)
    ensures WireMode(Wires(log)) == LastMode(log)
    decreases |log|
  {
    if log != [] {
      var n := |log| - 1;
      assert Wires(log)[..n] == Wires(log[..n]);
      ModeOnTheWire(log[n]);
      WireModeAgrees(log[..n]);
    }
  }

  /** Whatever was sent before, setMode(m) leaves the device in mode m. */
  lemma LastModeAfterSetMode(log: seq<Command>, mode: int)
    ensures LastMode(log + SetModeCommands(mode)) == Some(mode)
  {
  }

  /** resetTimer, isAwake and setThreshold all leave the device in streaming mode 3,
      passing through settings mode 0. */
  lemma SequencesEndInStreamingMode(log: seq<Command>, channels: seq<int>, threshold: int)
    ensures LastMode(log + SetModeCommands(0)) == Some(0)
    ensures LastMode(log + ResetTimerCommands()) == Some(3)
    ensures LastMode(log + IsAwakeCommands()) == Some(3)
    ensures LastMode(log + SetThresholdCommands(channels, threshold)) == Some(3)
  {
  }
}
