/** The sensor groups' parseMessage: a message, given as a line or as its four parts,
    becomes a typed response carrying the time and channel unchanged and the state as
    a boolean. */
module Groups {
  import opened Wrappers
  import opened Text
  import opened Codec

  /** The node classes a pad can dispatch to: TPadButtonGroup, TPadPhotodiodeGroup and
      TPadVoicekey (the last has no parseMessage). */
  datatype GroupKind = ButtonGroup | PhotodiodeGroup | Voicekey

  /** ButtonResponse and PhotodiodeResponse; the photodiode one carries the group's
      threshold at the time of parsing. */
  datatype Response<C, T> =
    | ButtonResponse(time: T, channel: C, value: bool)
    | PhotodiodeResponse(time: T, channel: C, value: bool, threshold: Option<int>)

  /** "P" (pressed/on) is true and "R" (released/off) is false. */
  function StateValue(state: char): (on: bool)
    requires IsStateCode(state)
    ensures on <==> state == 'P'
    ensures !on <==> state == 'R'
  {
    state == 'P'
  }

  /** TPadButtonGroup.parseMessage on a tuple of parts. */
  function ParseButtonParts<C, T>(p: Parts<C, T>): (r: Response<C, T>)
    requires IsStateCode(p.state)
    ensures r.ButtonResponse?
    ensures r.time == p.time && r.channel == p.channel && r.value == StateValue(p.state)
  {
    ButtonResponse(p.time, p.channel, StateValue(p.state))
  }

  /** TPadPhotodiodeGroup.parseMessage on a tuple of parts, with the group's threshold. */
  function ParsePhotodiodeParts<C, T>(p: Parts<C, T>, threshold: Option<int>): (r: Response<C, T>)
    requires IsStateCode(p.state)
    ensures r.PhotodiodeResponse?
    ensures r.time == p.time && r.channel == p.channel && r.value == StateValue(p.state)
    ensures r.threshold == threshold
  {
    PhotodiodeResponse(p.time, p.channel, StateValue(p.state), threshold)
  }

  /** TPadButtonGroup.parseMessage on a string: split by the message format first,
      so the channel stays a character and the time a digit string. */
  function ParseButtonLine(line: string): Result<Response<char, string>> {
    match SplitTPadMessage(line)
    case Success(f) => Success(ParseButtonParts(f))
    case Raised(e) => Raised(e)
  }

  /** TPadPhotodiodeGroup.parseMessage on a string. */
  function ParsePhotodiodeLine(line: string, threshold: Option<int>): Result<Response<char, string>> {
    match SplitTPadMessage(line)
    case Success(f) => Success(ParsePhotodiodeParts(f, threshold))
    case Raised(e) => Raised(e)
  }

  /** A device line parses to the response of its own fields, with no shift of the
      channel index, and a line outside the format raises. */
  lemma ParseLineOfEncoding(f: Fields, rest: string, threshold: Option<int>)
    requires WellFormed(f)
    requires rest == [] || !IsDigit(rest[0])
    ensures ParseButtonLine(Encode(f) + rest) == Success(ButtonResponse(f.time, f.channel, f.state == 'P'))
    ensures ParsePhotodiodeLine(Encode(f) + rest, threshold)
         == Success(PhotodiodeResponse(f.time, f.channel, f.state == 'P', threshold))
  {
    MatchEncode(f, rest);
  }

  lemma ParseLineRejects(line: string, threshold: Option<int>)
    ensures ParseButtonLine(line).Raised? <==> !IsTPadMessage(line)
    ensures ParsePhotodiodeLine(line, threshold).Raised? <==> !IsTPadMessage(line)
  {
  }
}
