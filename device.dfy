/** The TPad pad and its sensor-group nodes as objects. The serial link is an
    append-only log of the strings sent; received data is given to dispatchMessages
    as its batch of lines. */
module Device {
  import opened Wrappers
  import opened Codec
  import opened Groups
  import opened Router
  import opened Commands

  /** Who receives a group's responses; the listener objects themselves are not modelled. */
  type Listener = nat

  class TPad {
    /** The serial port the pad was opened on. */
    const port: string
    /** Every command sent over the serial link, in order; Wires(outbound) is the text. */
    var outbound: seq<Command>
    /** Host-clock time of the last timer reset, in seconds. */
    var lastTimerReset: real
    /** Each dispatched line, keyed by its host-clock time. */
    var messages: map<real, string>
    /** The attached groups, in the order they were created. */
    var nodes: seq<Group>
    /** Every node.receiveMessage call, in order. */
    var deliveries: seq<Delivery>

    /** Each node is attached once and belongs to this pad. */
    ghost predicate Valid()
      reads this
    {
      && (forall i, j :: 0 <= i < j < |nodes| ==> nodes[i] != nodes[j])
      && (forall n :: n in nodes ==> n.parent == this)
    }

    /** What the router sees of the attached nodes. */
    ghost function Views(): (vs: seq<NodeView>)
      reads this`nodes, nodes
      ensures |vs| == |nodes|
      ensures forall j :: 0 <= j < |nodes| ==> vs[j] == NodeView(nodes[j].kind, nodes[j].threshold)
    {
      var ns := nodes;
      seq(|ns|, j requires 0 <= j < |ns| reads ns => NodeView(ns[j].kind, ns[j].threshold))
    }

    /** TPad(port): no nodes, no messages, and the timer reset against the host clock
        reading clockNow. */
    constructor (port: string, clockNow: real)
      ensures Valid()
      ensures this.port == port && nodes == [] && messages == map[] && deliveries == []
      ensures outbound == ResetTimerCommands()
      ensures lastTimerReset == clockNow
      ensures LastMode(outbound) == Some(3)
    {
      this.port := port;
      nodes := [];
      messages := map[];
      deliveries := [];
      outbound := [];
      lastTimerReset := 0.0;
      new;
      ResetTimer(clockNow);
    }

    /** sendMessage: the command goes out on the link. */
    method SendMessage(command: Command)
      modifies this`outbound
      ensures outbound == old(outbound) + [command]
    {
      outbound := outbound + [command];
    }

    /** setMode(mode): exit the current mode, then select the new one, whatever the
        mode was before. */
    method SetMode(mode: int)
      modifies this`outbound
      ensures outbound == old(outbound) + SetModeCommands(mode)
      ensures LastMode(outbound) == Some(mode)
    {
      SendMessage(Exit);
      SendMessage(SelectMode(mode));
    }

    /** isAwake: send HELP from settings mode, then return to streaming mode; awake
        when the reply to HELP is not empty. */
    method IsAwake(reply: string) returns (awake: bool)
      modifies this`outbound
      ensures outbound == old(outbound) + IsAwakeCommands()
      ensures LastMode(outbound) == Some(3)
      ensures awake <==> reply != []
    {
      SetMode(0);
      SendMessage(Help);
      var resp := reply;
      SetMode(3);
      awake := resp != [];
    }

    /** resetTimer: settings mode, REST, record the clock, streaming mode; nothing
        else of the pad changes. */
    method ResetTimer(clockNow: real)
      modifies this`outbound, this`lastTimerReset
      ensures outbound == old(outbound) + ResetTimerCommands()
      ensures lastTimerReset == clockNow
      ensures LastMode(outbound) == Some(3)
    {
      SetMode(0);
      SendMessage(ResetClock);
      lastTimerReset := clockNow;
      SetMode(3);
    }

    /** addListener: the listener is added to every attached node; the nodes'
        thresholds stay as they were. */
    method AddListener(listener: Listener)
      requires Valid()
      modifies set n | n in nodes
      ensures forall n :: n in nodes ==> n.listeners == old(n.listeners) + [listener]
      ensures forall n :: n in nodes ==> n.threshold == old(n.threshold)
    {
      for i := 0 to |nodes|
        invariant forall k :: 0 <= k < i ==> nodes[k].listeners == old(nodes[k].listeners) + [listener]
        invariant forall k :: i <= k < |nodes| ==> nodes[k].listeners == old(nodes[k].listeners)
        invariant forall n :: n in nodes ==> n.threshold == old(n.threshold)
      {
        nodes[i].AddListener(listener);
      }
    }

    /** The node loop of dispatchMessages for one converted message. */
    method NotifyNodes(p: Parts<int, real>) returns (failure: Option<Exception>)
      requires IsStateCode(p.state)
      modifies this`deliveries
      ensures deliveries == old(deliveries) + Fanout(Views(), p).deliveries
      ensures failure == Fanout(Views(), p).failure
    {
      ghost var views := Views();
      for j := 0 to |nodes|
        invariant Fanout(views[..j], p).failure.None?
        invariant deliveries == old(deliveries) + Fanout(views[..j], p).deliveries
      {
        var node := nodes[j];
        assert views[j] == NodeView(node.kind, node.threshold);
        FanoutStep(views, p, j);
        if Reaches(node.kind, p.device) {
          if node.kind == Voicekey {
            FanoutStopsAtFailure(views, p, j + 1);
            return Some(AttributeError("'TPadVoicekey' object has no attribute 'parseMessage'"));
          }
          var response := ParseFor(NodeView(node.kind, node.threshold), p);
          deliveries := deliveries + [Delivery(j, response)];
        }
      }
      assert views[..|nodes|] == views;
      return None;
    }

    /** dispatchMessages over one batch of received lines: the new message table,
        the receiveMessage calls and the exception raised, if any, are those of the
        router's specification. */
    method DispatchMessages(data: seq<string>) returns (failure: Option<Exception>)
      modifies this`messages, this`deliveries
      ensures var r := DispatchAll(Views(), lastTimerReset, Log(old(messages), old(deliveries)), data);
        messages == r.log.messages && deliveries == r.log.deliveries && failure == r.failure
    {
      ghost var views := Views();
      ghost var start := Log(messages, deliveries);
      failure := None;
      for i := 0 to |data|
        invariant Views() == views
        invariant failure == None
        invariant DispatchAll(views, lastTimerReset, start, data[..i]).failure == None
        invariant DispatchAll(views, lastTimerReset, start, data[..i]).log == Log(messages, deliveries)
      {
        var line := data[i];
        DispatchNext(views, lastTimerReset, start, data, i);
        var read := ReadLine(line, lastTimerReset);
        if read.Failed? {
          failure := Some(read.exception);
        } else if read.Accepted? {
          messages := messages[read.parts.time := line];
          failure := NotifyNodes(read.parts);
        }
        if failure.Some? {
          DispatchStopsAtFailure(views, lastTimerReset, start, data[..i + 1], data[i + 1..]);
          assert data[..i + 1] + data[i + 1..] == data;
          return;
        }
      }
      assert data[..|data|] == data;
    }
  }

  /** A sensor-group node (TPadButtonGroup or TPadPhotodiodeGroup) attached to its pad. */
  class Group {
    const kind: GroupKind
    const parent: TPad
    const channels: int
    /** The last threshold set on a photodiode group; unset until setThreshold. */
    var threshold: Option<int>
    var listeners: seq<Listener>

    /** TPadPhotodiodeGroup(pad, channels): appended to the pad's nodes. */
    constructor Photodiode(pad: TPad, channels: int)
      requires pad.Valid()
      modifies pad`nodes
      ensures kind == PhotodiodeGroup && parent == pad && this.channels == channels
      ensures threshold == None && listeners == []
      ensures pad.nodes == old(pad.nodes) + [this]
      ensures pad.Valid()
    {
      kind := PhotodiodeGroup;
      parent := pad;
      this.channels := channels;
      threshold := None;
      listeners := [];
      new;
      pad.nodes := pad.nodes + [this];
    }

    /** TPadButtonGroup(pad, channels=1): appended to the pad's nodes. */
    constructor Button(pad: TPad, channels: int := 1)
      requires pad.Valid()
      modifies pad`nodes
      ensures kind == ButtonGroup && parent == pad && this.channels == channels
      ensures threshold == None && listeners == []
      ensures pad.nodes == old(pad.nodes) + [this]
      ensures pad.Valid()
    {
      kind := ButtonGroup;
      parent := pad;
      this.channels := channels;
      threshold := None;
      listeners := [];
      new;
      pad.nodes := pad.nodes + [this];
    }

    method AddListener(listener: Listener)
      modifies this`listeners
      ensures listeners == old(listeners) + [listener]
    {
      listeners := listeners + [listener];
    }

    /** TPadPhotodiodeGroup.setThreshold: store the threshold, then in settings mode
        send one AAO command per channel in order, and return to streaming mode. */
    method SetThreshold(level: int, chans: seq<int> := [1, 2])
      requires kind == PhotodiodeGroup
      modifies this`threshold, parent`outbound
      ensures threshold == Some(level)
      ensures parent.outbound == old(parent.outbound) + SetThresholdCommands(chans, level)
      ensures LastMode(parent.outbound) == Some(3)
    {
      threshold := Some(level);
      parent.SetMode(0);
      ghost var settings := parent.outbound;
      for k := 0 to |chans|
        invariant threshold == Some(level)
        invariant parent.outbound == settings + ThresholdCommands(chans[..k], level)
      {
        assert ThresholdCommands(chans[..k + 1], level) == ThresholdCommands(chans[..k], level) + [SetLevel(chans[k], level)];
        parent.SendMessage(SetLevel(chans[k], level));
      }
      assert chans[..|chans|] == chans;
      parent.SetMode(3);
    }
  }
}
