/** The line protocol of the TPad response pad: the code tables, the message format
    `([ACMT]) ([PR]) ([1234567890\[\]]) (\d*)` built from them, and its prefix match
    (Python's re.match anchors only at the start of the line). */
module Codec {
  import opened Wrappers
  import opened Text

  /** Possible values of the device (channel class) field. */
  const ChannelCodes: map<char, string> :=
    map['A' := "Buttons", 'C' := "Optos", 'M' := "Voice key", 'T' := "TTL in"]

  /** Possible values of the state field. */
  const StateCodes: map<char, string> :=
    map['P' := "Pressed/On", 'R' := "Released/Off"]

  /** Possible values of the button field; the descriptions are the table's own. */
  const ButtonCodes: map<char, string> :=
    map['1' := "Button 1", '2' := "Button 2", '3' := "Button 2", '4' := "Button 2",
        '5' := "Button 2", '6' := "Button 2", '7' := "Button 2", '8' := "Button 2",
        '9' := "Button 2", '0' := "Button 2", '[' := "Opto 1", ']' := "Opto 2"]

  /** The character classes of the message format: the keys of the three tables. */
  predicate IsChannelCode(c: char) {
    c == 'A' || c == 'C' || c == 'M' || c == 'T'
  }

  predicate IsStateCode(c: char) {
    c == 'P' || c == 'R'
  }

  predicate IsButtonCode(c: char) {
    IsDigit(c) || c == '[' || c == ']'
  }

  lemma CodeTables(c: char)
    ensures c in ChannelCodes <==> IsChannelCode(c)
    ensures c in StateCodes <==> IsStateCode(c)
    ensures c in ButtonCodes <==> IsButtonCode(c)
  {
  }

  /** The four groups of the message format, in order. The dispatcher reuses the same
      shape with an integer channel and a real time. */
  datatype Parts<C, T> = Parts(device: char, state: char, channel: C, time: T)

  type Fields = Parts<char, string>

  /** The grammar: a channel code, a space, a state code, a space, a button code, a
      space; the digits that may follow always match, possibly empty. */
  predicate IsTPadMessage(line: string) {
    && |line| >= 6
    && IsChannelCode(line[0]) && line[1] == ' '
    && IsStateCode(line[2]) && line[3] == ' '
    && IsButtonCode(line[4]) && line[5] == ' '
  }

  /** Fields that the format can produce. */
  predicate WellFormed(f: Fields) {
    IsChannelCode(f.device) && IsStateCode(f.state) && IsButtonCode(f.channel) && AllDigits(f.time)
  }

  /** re.match(messageFormat, line): the groups of the match, or None. */
  function Match(line: string): (r: Option<Fields>)
    ensures r.Some? <==> IsTPadMessage(line)
  {
    if IsTPadMessage(line) then Some(Parts(line[0], line[2], line[4], LeadingDigits(line[6..])))
    else None
  }

  /** splitTPadMessage: the groups, or the AttributeError raised by calling .groups()
      on the None that re.match returns for a line that does not match. */
  function SplitTPadMessage(line: string): (r: Result<Fields>)
    ensures r.Raised? <==> !IsTPadMessage(line)
  {
    match Match(line)
    case Some(f) => Success(f)
    case None => Raised(AttributeError("'NoneType' object has no attribute 'groups'"))
  }

  /** The line a device sends for the given fields. */
  function Encode(f: Fields): string {
    [f.device, ' ', f.state, ' ', f.channel, ' '] + f.time
  }

  /** Encoding then matching gives back the fields, whatever follows the digits, as
      long as it does not start with a further digit. */
  lemma MatchEncode(f: Fields, rest: string)
    requires WellFormed(f)
    requires rest == [] || !IsDigit(rest[0])
    ensures Match(Encode(f) + rest) == Some(f)
  {
    var line := Encode(f) + rest;
    assert line[6..] == f.time + rest;
    LeadingDigitsOfDigits(f.time, rest);
  }

  lemma {:induction false} LeadingDigitsOfDigits(d: string, rest: string)
    requires AllDigits(d)
    requires rest == [] || !IsDigit(rest[0])
    ensures LeadingDigits(d + rest) == d
    decreases |d|
  {
    if d != [] {
      assert (d + rest)[1..] == d[1..] + rest;
      LeadingDigitsOfDigits(d[1..], rest);
    }
  }

  /** Conversely, a matched line is the encoding of its fields followed by text that
      does not start with a digit: the match loses nothing and adds nothing. */
  lemma MatchDecomposes(line: string)
    requires Match(line).Some?
    ensures var f := Match(line).value;
      && WellFormed(f)
      && Encode(f) == line[..6 + |f.time|]
      && (6 + |f.time| == |line| || !IsDigit(line[6 + |f.time|]))
  {
    var f := Match(line).value;
    assert f.time == line[6..][..|f.time|];
    assert Encode(f) == line[..6] + line[6..6 + |f.time|];
  }
}
