/** The pure specification of TPad.dispatchMessages: how one batch of received lines
    is matched, converted, recorded by time and fanned out to the attached nodes, and
    where Python would raise part-way through. */
module Router {
  import opened Wrappers
  import opened Text
  import opened Codec
  import opened Groups

  /** What the router sees of an attached node: its class and, for a photodiode
      group, the threshold its getThreshold reports. */
  datatype NodeView = NodeView(kind: GroupKind, threshold: Option<int>)

  /** One call of node.receiveMessage: the node's index in the pad's list and the
      response its parseMessage produced. */
  datatype Delivery = Delivery(node: nat, response: Response<int, real>)

  /** How a line reads: not in the format, raising while converting, or converted. */
  datatype LineRead = Skipped | Failed(exception: Exception) | Accepted(parts: Parts<int, real>)

  /** The pad's message table and the receiveMessage calls made so far. */
  datatype Log = Log(messages: map<real, string>, deliveries: seq<Delivery>)

  /** A log together with the exception that stopped it, if any. */
  datatype Dispatched = Dispatched(log: Log, failure: Option<Exception>)

  /** The deliveries made for one message, and the exception raised among them. */
  datatype Fan = Fan(deliveries: seq<Delivery>, failure: Option<Exception>)

  /** The device's millisecond stamp in seconds on the host clock. */
  function ToTime(ms: nat, lastTimerReset: real): real {
    ms as real / 1000.0 + lastTimerReset
  }

  lemma ToTimeStrictlyMonotonic(ms1: nat, ms2: nat, lastTimerReset: real)
    ensures ms1 < ms2 <==> ToTime(ms1, lastTimerReset) < ToTime(ms2, lastTimerReset)
    ensures ms1 == ms2 <==> ToTime(ms1, lastTimerReset) == ToTime(ms2, lastTimerReset)
  {
  }

  /** A matching line, with int() of its button code and float() of its digits:
      int raises for '[' and ']', float raises for an empty digit string. */
  function ReadLine(line: string, lastTimerReset: real): (r: LineRead)
    ensures r.Skipped? <==> !IsTPadMessage(line)
    ensures r.Accepted? ==> IsStateCode(r.parts.state) && IsChannelCode(r.parts.device)
  {
    match Match(line)
    case None => Skipped
    case Some(f) =>
      if !IsDigit(f.channel) then
        Failed(ValueError("invalid literal for int() with base 10"))
      else if f.time == [] then
        Failed(ValueError("could not convert string to float: ''"))
      else
        Accepted(Parts(f.device, f.state, DigitValue(f.channel), ToTime(ParseNat(f.time), lastTimerReset)))
  }

  /** The three filters of the node loop: an A message skips every node that is not a
      button group, a C message every node that is not a photodiode group, an M message
      every node that is not a voice key; nothing else is filtered. */
  predicate Reaches(kind: GroupKind, device: char) {
    && !(device == 'A' && kind != ButtonGroup)
    && !(device == 'C' && kind != PhotodiodeGroup)
    && !(device == 'M' && kind != Voicekey)
  }

  lemma RoutingTable(kind: GroupKind)
    ensures Reaches(kind, 'A') <==> kind == ButtonGroup
    ensures Reaches(kind, 'C') <==> kind == PhotodiodeGroup
    ensures Reaches(kind, 'M') <==> kind == Voicekey
    ensures Reaches(kind, 'T')
  {
  }

  /** The node's parseMessage applied to the parts. */
  function ParseFor(v: NodeView, p: Parts<int, real>): Response<int, real>
    requires v.kind != Voicekey && IsStateCode(p.state)
  {
    if v.kind == ButtonGroup then ParseButtonParts(p) else ParsePhotodiodeParts(p, v.threshold)
  }

  /** The inner loop over the nodes for one message. A voice key that passes the filter
      has no parseMessage, so the loop raises there and later nodes get nothing. */
  function Fanout(views: seq<NodeView>, p: Parts<int, real>): Fan
    requires IsStateCode(p.state)
    decreases |views|
  {
    if views == [] then Fan([], None)
    else
      var j := |views| - 1;
      var prior := Fanout(views[..j], p);
      if prior.failure.Some? || !Reaches(views[j].kind, p.device) then prior
      else if views[j].kind == Voicekey then
        Fan(prior.deliveries, Some(AttributeError("'TPadVoicekey' object has no attribute 'parseMessage'")))
      else
        Fan(prior.deliveries + [Delivery(j, ParseFor(views[j], p))], None)
  }

  /** Each delivery goes to a node the filter lets through and that has a parseMessage,
      and carries that node's parse of the parts. */
  lemma {:induction false} FanoutSound(views: seq<NodeView>, p: Parts<int, real>)
    requires IsStateCode(p.state)
    ensures var f := Fanout(views, p);
      && |f.deliveries| <= |views|
      && forall k :: 0 <= k < |f.deliveries| ==>
        var d := f.deliveries[k];
        && d.node < |views|
        && Reaches(views[d.node].kind, p.device)
        && views[d.node].kind != Voicekey
        && d.response == ParseFor(views[d.node], p)
    decreases |views|
  {
    if views != [] {
      var n := |views| - 1;
      FanoutSound(views[..n], p);
      var prior := Fanout(views[..n], p);
      var f := Fanout(views, p);
      assert f.deliveries == prior.deliveries || f.deliveries == prior.deliveries + [Delivery(n, ParseFor(views[n], p))];
      forall k | 0 <= k < |f.deliveries|
        ensures var d := f.deliveries[k];
          && d.node < |views|
          && Reaches(views[d.node].kind, p.device)
          && views[d.node].kind != Voicekey
          && d.response == ParseFor(views[d.node], p)
      {
        if k < |prior.deliveries| {
          var d := prior.deliveries[k];
          assert f.deliveries[k] == d;
          assert views[..n][d.node] == views[d.node];
        }
      }
    }
  }

  /** The deliveries follow list order, so no node is served twice. */
  lemma {:induction false} FanoutOrdered(views: seq<NodeView>, p: Parts<int, real>)
    requires IsStateCode(p.state)
    ensures var ds := Fanout(views, p).deliveries;
      && (forall k :: 0 <= k < |ds| ==> ds[k].node < |views|)
      && (forall k, l :: 0 <= k < l < |ds| ==> ds[k].node < ds[l].node)
    decreases |views|
  {
    if views != [] {
      var n := |views| - 1;
      FanoutOrdered(views[..n], p);
      var prior := Fanout(views[..n], p);
      assert |views[..n]| == n;
      assert forall k :: 0 <= k < |Fanout(views[..n], p).deliveries| ==> Fanout(views[..n], p).deliveries[k].node < |views[..n]|;
      assert forall k :: 0 <= k < |prior.deliveries| ==> prior.deliveries[k].node < n;
      var ds := Fanout(views, p).deliveries;
      if prior.failure.None? && Reaches(views[n].kind, p.device) && views[n].kind != Voicekey {
        assert ds == prior.deliveries + [Delivery(n, ParseFor(views[n], p))];
        forall k, l | 0 <= k < l < |ds|
          ensures ds[k].node < ds[l].node
        {
          assert ds[k] == prior.deliveries[k];
          if l < |prior.deliveries| {
            assert ds[l] == prior.deliveries[l];
          }
        }
      } else {
        assert ds == prior.deliveries;
      }
    }
  }

  /** Every node the filter lets through gets the message, unless the loop raised. */
  lemma {:induction false} FanoutComplete(views: seq<NodeView>, p: Parts<int, real>, j: nat)
    requires IsStateCode(p.state)
    requires Fanout(views, p).failure.None?
    requires j < |views| && Reaches(views[j].kind, p.device)
    ensures exists k :: 0 <= k < |Fanout(views, p).deliveries| && Fanout(views, p).deliveries[k].node == j
    decreases |views|
  {
    var n := |views| - 1;
    var prior := Fanout(views[..n], p);
    if j == n {
      var k := |prior.deliveries|;
      assert Fanout(views, p).deliveries[k].node == j;
    } else {
      assert views[..n][j] == views[j];
      FanoutComplete(views[..n], p, j);
      var k :| 0 <= k < |prior.deliveries| && prior.deliveries[k].node == j;
      assert Fanout(views, p).deliveries[k] == prior.deliveries[k];
    }
  }

  /** The loop raises exactly when some voice key passes the filter. */
  lemma {:induction false} FanoutFailure(views: seq<NodeView>, p: Parts<int, real>)
    requires IsStateCode(p.state)
    ensures Fanout(views, p).failure.Some? <==>
      exists j :: 0 <= j < |views| && views[j].kind == Voicekey && Reaches(Voicekey, p.device)
    decreases |views|
  {
    if views != [] {
      var n := |views| - 1;
      FanoutFailure(views[..n], p);
      if Fanout(views[..n], p).failure.Some? {
        var j :| 0 <= j < n && views[..n][j].kind == Voicekey && Reaches(Voicekey, p.device);
        assert views[j].kind == Voicekey;
      } else if Fanout(views, p).failure.None? {
        forall j | 0 <= j < |views| && views[j].kind == Voicekey
          ensures !Reaches(Voicekey, p.device)
        {
          if j < n {
            assert views[..n][j] == views[j];
          }
        }
      }
    }
  }

  /** One more node of the loop, after nodes that did not raise. */
  lemma FanoutStep(views: seq<NodeView>, p: Parts<int, real>, j: nat)
    requires IsStateCode(p.state)
    requires j < |views| && Fanout(views[..j], p).failure.None?
    ensures var prior := Fanout(views[..j], p);
      Fanout(views[..j + 1], p)
        == if !Reaches(views[j].kind, p.device) then prior
           else if views[j].kind == Voicekey then
             Fan(prior.deliveries, Some(AttributeError("'TPadVoicekey' object has no attribute 'parseMessage'")))
           else Fan(prior.deliveries + [Delivery(j, ParseFor(views[j], p))], None)
  {
    assert views[..j + 1][..j] == views[..j];
  }

  /** Once the node loop has raised, the nodes after it change nothing. */
  lemma {:induction false} FanoutStopsAtFailure(views: seq<NodeView>, p: Parts<int, real>, m: nat)
    requires IsStateCode(p.state)
    requires m <= |views| && Fanout(views[..m], p).failure.Some?
    ensures Fanout(views, p) == Fanout(views[..m], p)
    decreases |views| - m
  {
    if m < |views| {
      var n := |views| - 1;
      assert views[..n][..m] == views[..m];
      FanoutStopsAtFailure(views[..n], p, m);
    } else {
      assert views[..m] == views;
    }
  }

  /** A message reaching every node of a list without voice keys: each node in list
      order, once. */
  lemma {:induction false} FanoutEveryNode(views: seq<NodeView>, p: Parts<int, real>)
    requires IsStateCode(p.state)
    requires forall j :: 0 <= j < |views| ==> views[j].kind != Voicekey && Reaches(views[j].kind, p.device)
    ensures Fanout(views, p).failure.None?
    ensures |Fanout(views, p).deliveries| == |views|
    ensures forall j :: 0 <= j < |views| ==> Fanout(views, p).deliveries[j].node == j
    decreases |views|
  {
    if views != [] {
      var n := |views| - 1;
      forall j | 0 <= j < n
        ensures views[..n][j].kind != Voicekey && Reaches(views[..n][j].kind, p.device)
      {
        assert views[..n][j] == views[j];
      }
      FanoutEveryNode(views[..n], p);
    }
  }

  /** Routing by channel letter: A reaches only button groups, C only photodiode groups,
      M only voice keys (so nothing at all when none is attached), and T, which no
      filter stops, reaches every node in list order. */
  lemma RoutingByChannel(views: seq<NodeView>, p: Parts<int, real>)
    requires IsStateCode(p.state)
    ensures var ds := Fanout(views, p).deliveries;
      && (p.device == 'A' ==> forall k :: 0 <= k < |ds| ==> ds[k].node < |views| && views[ds[k].node].kind == ButtonGroup)
      && (p.device == 'C' ==> forall k :: 0 <= k < |ds| ==> ds[k].node < |views| && views[ds[k].node].kind == PhotodiodeGroup)
      && (p.device == 'M' ==> ds == [])
    ensures p.device == 'T' && (forall j :: 0 <= j < |views| ==> views[j].kind != Voicekey) ==>
      var ds := Fanout(views, p).deliveries;
      |ds| == |views| && forall j :: 0 <= j < |views| ==> ds[j].node == j
  {
    FanoutSound(views, p);
    RoutingTable(Voicekey);
    if p.device == 'T' && (forall j :: 0 <= j < |views| ==> views[j].kind != Voicekey) {
      FanoutEveryNode(views, p);
    }
  }

  /** One line of the batch: the message is stored under its time before the nodes
      are visited, so it stays stored even if a node raises. */
  function Step(views: seq<NodeView>, lastTimerReset: real, log: Log, line: string): Dispatched {
    match ReadLine(line, lastTimerReset)
    case Skipped => Dispatched(log, None)
    case Failed(e) => Dispatched(log, Some(e))
    case Accepted(p) =>
      var fan := Fanout(views, p);
      Dispatched(Log(log.messages[p.time := line], log.deliveries + fan.deliveries), fan.failure)
  }

  /** The batch: lines in order, stopping at the first exception. */
  function DispatchAll(views: seq<NodeView>, lastTimerReset: real, log: Log, lines: seq<string>): Dispatched
    decreases |lines|
  {
    if lines == [] then Dispatched(log, None)
    else
      var prior := DispatchAll(views, lastTimerReset, log, lines[..|lines| - 1]);
      if prior.failure.Some? then prior else Step(views, lastTimerReset, prior.log, lines[|lines| - 1])
  }

  /** One more line of the batch, after lines that did not raise. */
  lemma DispatchNext(views: seq<NodeView>, lastTimerReset: real, log: Log, lines: seq<string>, i: nat)
    requires i < |lines| && DispatchAll(views, lastTimerReset, log, lines[..i]).failure.None?
    ensures DispatchAll(views, lastTimerReset, log, lines[..i + 1])
         == Step(views, lastTimerReset, DispatchAll(views, lastTimerReset, log, lines[..i]).log, lines[i])
  {
    assert lines[..i + 1][..i] == lines[..i];
  }

  /** The lines of a batch that match the message format, in order. */
  function MatchingLines(lines: seq<string>): (r: seq<string>)
    ensures |r| <= |lines|
    ensures forall k :: 0 <= k < |r| ==> IsTPadMessage(r[k]) && r[k] in lines
    ensures forall l :: l in lines && IsTPadMessage(l) ==> l in r
    decreases |lines|
  {
    if lines == [] then []
    else
      var prior := MatchingLines(lines[..|lines| - 1]);
      if IsTPadMessage(lines[|lines| - 1]) then prior + [lines[|lines| - 1]] else prior
  }

  /** MatchingLines looks at the lines one at a time and keeps their batch order: a
      single line is kept exactly when it matches, and the matching lines of a
      concatenation are those of its halves, concatenated. */
  lemma {:induction false} MatchingLinesAppend(a: seq<string>, b: seq<string>)
    ensures MatchingLines([]) == []
    ensures |a| == 1 ==> MatchingLines(a) == if IsTPadMessage(a[0]) then a else []
    ensures MatchingLines(a + b) == MatchingLines(a) + MatchingLines(b)
    decreases |b|
  {
    if |a| == 1 {
      assert a[..0] == [];
    }
    if b == [] {
      assert a + b == a;
    } else {
      var n := |b| - 1;
      assert (a + b)[..|a + b| - 1] == a + b[..n];
      assert (a + b)[|a + b| - 1] == b[n];
      MatchingLinesAppend(a, b[..n]);
    }
  }

  /** Lines that do not match the format change nothing: dispatching a batch is
      dispatching its matching lines alone. */
  lemma {:induction false} DispatchIgnoresNonMatching(
    views: seq<NodeView>, lastTimerReset: real, log: Log, lines: seq<string>)
    ensures DispatchAll(views, lastTimerReset, log, lines)
         == DispatchAll(views, lastTimerReset, log, MatchingLines(lines))
    decreases |lines|
  {
    if lines != [] {
      var n := |lines| - 1;
      DispatchIgnoresNonMatching(views, lastTimerReset, log, lines[..n]);
      var kept := MatchingLines(lines[..n]);
      if IsTPadMessage(lines[n]) {
        assert (kept + [lines[n]])[..|kept|] == kept;
      }
    }
  }

  /** Once a line raises, the rest of the batch is not processed. */
  lemma {:induction false} DispatchStopsAtFailure(
    views: seq<NodeView>, lastTimerReset: real, log: Log, lines: seq<string>, rest: seq<string>)
    requires DispatchAll(views, lastTimerReset, log, lines).failure.Some?
    ensures DispatchAll(views, lastTimerReset, log, lines + rest) == DispatchAll(views, lastTimerReset, log, lines)
    decreases |rest|
  {
    if rest == [] {
      assert lines + rest == lines;
    } else {
      var n := |rest| - 1;
      assert (lines + rest)[..|lines + rest| - 1] == lines + rest[..n];
      DispatchStopsAtFailure(views, lastTimerReset, log, lines, rest[..n]);
    }
  }

  /** What one more line does after a batch that did not raise: a matching line with a
      digit button code and a non-empty timestamp is stored under ms/1000 + reset and
      fanned out; a matching line with '[' or ']' or no digits raises and stores
      nothing; any other line changes nothing. */
  lemma DispatchLine(views: seq<NodeView>, lastTimerReset: real, log: Log, lines: seq<string>, line: string)
    requires DispatchAll(views, lastTimerReset, log, lines).failure.None?
    ensures var prior := DispatchAll(views, lastTimerReset, log, lines).log;
      var r := DispatchAll(views, lastTimerReset, log, lines + [line]);
      match Match(line)
      case None => r == Dispatched(prior, None)
      case Some(f) =>
        if !IsDigit(f.channel) || f.time == [] then r.log == prior && r.failure.Some? && r.failure.value.ValueError?
        else
          var p := Parts(f.device, f.state, DigitValue(f.channel), ToTime(ParseNat(f.time), lastTimerReset));
          && r.log.messages == prior.messages[ToTime(ParseNat(f.time), lastTimerReset) := line]
          && r.log.deliveries == prior.deliveries + Fanout(views, p).deliveries
          && r.failure == Fanout(views, p).failure
  {
    assert (lines + [line])[..|lines|] == lines;
  }

  /** Two lines with the same device time: the later one replaces the earlier in the
      message table; with different device times both are kept. */
  lemma LaterLineOverwrites(views: seq<NodeView>, lastTimerReset: real, log: Log, line1: string, line2: string)
    requires ReadLine(line1, lastTimerReset).Accepted? && ReadLine(line2, lastTimerReset).Accepted?
    requires Fanout(views, ReadLine(line1, lastTimerReset).parts).failure.None?
    ensures var f1 := Match(line1).value;
      var f2 := Match(line2).value;
      var t1 := ToTime(ParseNat(f1.time), lastTimerReset);
      var t2 := ToTime(ParseNat(f2.time), lastTimerReset);
      var m := DispatchAll(views, lastTimerReset, log, [line1, line2]).log.messages;
      && m.Keys == log.messages.Keys + {t1, t2}
      && m[t2] == line2
      && (ParseNat(f1.time) == ParseNat(f2.time) ==> m == log.messages[t2 := line2])
      && (ParseNat(f1.time) != ParseNat(f2.time) ==> m[t1] == line1)
  {
    var p1 := ReadLine(line1, lastTimerReset).parts;
    var p2 := ReadLine(line2, lastTimerReset).parts;
    assert [line1, line2][..1] == [line1];
    assert [line1][..0] == [];
    assert DispatchAll(views, lastTimerReset, log, []) == Dispatched(log, None);
    var d1 := DispatchAll(views, lastTimerReset, log, [line1]);
    assert d1 == Step(views, lastTimerReset, log, line1);
    assert d1.failure.None? && d1.log.messages == log.messages[p1.time := line1];
    var d2 := DispatchAll(views, lastTimerReset, log, [line1, line2]);
    assert d2 == Step(views, lastTimerReset, d1.log, line2);
    assert d2.log.messages == log.messages[p1.time := line1][p2.time := line2];
    ToTimeStrictlyMonotonic(ParseNat(Match(line1).value.time), ParseNat(Match(line2).value.time), lastTimerReset);
  }
}
