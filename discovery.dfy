/** Device listing: TPad.getAvailableDevices keeps the serial-port profiles of BBTK TPads
    and cuts the COM port out of their descriptions; the two group classes turn that
    list into group descriptors; _detectComPort picks the ports for a pad created
    without one. */
module Discovery {
  import opened Wrappers
  import opened Text

  /** The two entries of a serial-port profile that the listing reads. */
  datatype Profile = Profile(instanceId: string, description: string)

  /** {'deviceName': ..., 'port': ...}, one per TPad found. */
  datatype PadProfile = PadProfile(deviceName: string, port: string)

  /** {'deviceName': ..., 'pad': ..., 'channels': ...}, one per group that can be made. */
  datatype GroupProfile = GroupProfile(deviceName: string, pad: string, channels: int)

  const TPadMarker: string := "BBTKTPAD"
  const PhotodiodeSuffix: string := "_photodiodes"
  const PhotodiodeChannels: int := 2
  const ButtonSuffix: string := "_buttons"
  const ButtonChannels: int := 10

  /** desc.find("COM") + 3, never -1. */
  function PortStart(desc: string): (start: int)
    ensures start >= 2
  {
    Find(desc, "COM", 0) + 3
  }

  /** PortStart is 2 exactly when the description names no COM port, and otherwise
      points just past the first "COM". */
  lemma PortStartCharacterised(desc: string)
    ensures PortStart(desc) == 2 <==> forall i :: !OccursAt(desc, "COM", i)
    ensures PortStart(desc) > 2 ==>
      && OccursAt(desc, "COM", PortStart(desc) - 3)
      && forall i :: 0 <= i < PortStart(desc) - 3 ==> !OccursAt(desc, "COM", i)
  {
    FindCharacterised(desc, "COM", 0);
  }

  /** The port named by a description: "COM" and the text from PortStart up to the next
      ")", skipped when there is no such ")". TPad.getAvailableDevices also skips
      when start is -1, which never happens since start is at least 2. */
  function ComPort(desc: string): Option<string> {
    var start := PortStart(desc);
    var end := Find(desc, ")", start);
    if start == -1 || end == -1 then None else Some("COM" + desc[start..end])
  }

  /** A profile's entry in the TPad listing, if it has one. */
  function ProfileDevice(p: Profile): Option<PadProfile> {
    if !Contains(p.instanceId, TPadMarker) then None
    else match ComPort(p.description)
      case None => None
      case Some(port) => Some(PadProfile(p.instanceId, port))
  }

  /** The entries f gives, in order, skipping those it gives none for. */
  function FilterMap<A, B>(f: A -> Option<B>, xs: seq<A>): seq<B>
    decreases |xs|
  {
    if xs == [] then []
    else
      var prior := FilterMap(f, xs[..|xs| - 1]);
      match f(xs[|xs| - 1])
      case None => prior
      case Some(y) => prior + [y]
  }

  lemma {:induction false} FilterMapAppend<A, B>(f: A -> Option<B>, a: seq<A>, b: seq<A>)
    ensures FilterMap(f, a + b) == FilterMap(f, a) + FilterMap(f, b)
    decreases |b|
  {
    if b == [] {
      assert a + b == a;
    } else {
      var n := |b| - 1;
      assert (a + b)[..|a + b| - 1] == a + b[..n];
      assert (a + b)[|a + b| - 1] == b[n];
      FilterMapAppend(f, a, b[..n]);
    }
  }

  lemma {:induction false} FilterMapExactly<A, B>(f: A -> Option<B>, xs: seq<A>, y: B)
    ensures y in FilterMap(f, xs) <==> exists i :: 0 <= i < |xs| && f(xs[i]) == Some(y)
    decreases |xs|
  {
    if xs != [] {
      var n := |xs| - 1;
      var prefix := xs[..n];
      FilterMapExactly(f, prefix, y);
      if y in FilterMap(f, prefix) {
        var i :| 0 <= i < n && f(prefix[i]) == Some(y);
        assert xs[i] == prefix[i];
      }
      if exists i :: 0 <= i < |xs| && f(xs[i]) == Some(y) {
        var i :| 0 <= i < |xs| && f(xs[i]) == Some(y);
        if i < n {
          assert prefix[i] == xs[i];
        }
      }
    }
  }

  /** The TPad listing, in the order of the profiles. */
  function TPadDevices(profiles: seq<Profile>): seq<PadProfile> {
    FilterMap(ProfileDevice, profiles)
  }

  /** ComPort skips a description exactly when no ")" follows PortStart, and otherwise
      the port is "COM" followed by the text from PortStart up to the first ")" at or
      after it, a text without ")". */
  lemma ComPortSkip(desc: string)
    ensures ComPort(desc).None? <==> forall i :: PortStart(desc) <= i ==> !OccursAt(desc, ")", i)
    ensures ComPort(desc).Some? ==>
      exists e: nat :: PortStart(desc) <= e && OccursAt(desc, ")", e)
        && (forall i :: PortStart(desc) <= i < e ==> !OccursAt(desc, ")", i))
        && ComPort(desc).value == "COM" + desc[PortStart(desc)..e]
    ensures ComPort(desc).Some? ==>
      var port := ComPort(desc).value;
      && |port| >= 3 && port[..3] == "COM"
      && forall k :: 3 <= k < |port| ==> port[k] != ')'
  {
    FindCharacterised(desc, ")", PortStart(desc));
    if ComPort(desc).Some? {
      var start := PortStart(desc);
      var end := Find(desc, ")", start);
      assert start <= end && OccursAt(desc, ")", end)
        && (forall i :: start <= i < end ==> !OccursAt(desc, ")", i))
        && ComPort(desc).value == "COM" + desc[start..end];
      var port := ComPort(desc).value;
      forall k | 3 <= k < |port|
        ensures port[k] != ')'
      {
        var i := start + k - 3;
        assert port[k] == desc[i];
        if desc[i] == ')' {
          assert desc[i..i + 1] == ")";
          assert OccursAt(desc, ")", i);
        }
      }
    }
  }

  /** The listing of a concatenation is the concatenation of the listings: profiles are
      looked at one by one and their order is kept. */
  lemma TPadDevicesAppend(a: seq<Profile>, b: seq<Profile>)
    ensures TPadDevices(a + b) == TPadDevices(a) + TPadDevices(b)
  {
    FilterMapAppend(ProfileDevice, a, b);
  }

  /** A profile is listed with its own Instance ID as the name and the port its
      description names. */
  lemma ProfileDeviceShape(p: Profile)
    ensures ProfileDevice(p).Some? <==> Contains(p.instanceId, TPadMarker) && ComPort(p.description).Some?
    ensures Contains(p.instanceId, TPadMarker) <==> exists i :: OccursAt(p.instanceId, TPadMarker, i)
    ensures ProfileDevice(p).Some? ==>
      var d := ProfileDevice(p).value;
      && d.deviceName == p.instanceId
      && Contains(d.deviceName, TPadMarker)
      && Some(d.port) == ComPort(p.description)
      && |d.port| >= 3 && d.port[..3] == "COM"
  {
    ComPortSkip(p.description);
    FindCharacterised(p.instanceId, TPadMarker, 0);
  }

  /** A TPad is listed exactly when some profile yields it. */
  lemma TPadDevicesExactly(profiles: seq<Profile>, d: PadProfile)
    ensures d in TPadDevices(profiles) <==>
      exists i :: 0 <= i < |profiles| && ProfileDevice(profiles[i]) == Some(d)
  {
    FilterMapExactly(ProfileDevice, profiles, d);
  }

  /** TPad.getAvailableDevices, over the profiles the system profiler reports. */
  method TPadAvailableDevices(profiles: seq<Profile>) returns (devices: seq<PadProfile>)
    ensures devices == TPadDevices(profiles)
  {
    devices := [];
    for i := 0 to |profiles|
      invariant devices == TPadDevices(profiles[..i])
    {
      var profile := profiles[i];
      assert profiles[..i + 1][..i] == profiles[..i];
      // skip non-bbtk profiles
      if Find(profile.instanceId, TPadMarker, 0) == -1 {
        continue;
      }
      var desc := profile.description;
      var start := Find(desc, "COM", 0) + 3;
      var end := Find(desc, ")", start);
      if start == -1 || end == -1 {
        continue;
      }
      var num := desc[start..end];
      devices := devices + [PadProfile(profile.instanceId, "COM" + num)];
    }
    assert profiles[..|profiles|] == profiles;
  }

  /** _detectComPort: the ports of the listed TPads, or ConnectionError when there are none. */
  function DetectComPort(profiles: seq<Profile>): (r: Result<seq<string>>)
    ensures r.Raised? <==> TPadDevices(profiles) == []
    ensures r.Success? ==>
      && |r.value| == |TPadDevices(profiles)|
      && forall k :: 0 <= k < |r.value| ==> r.value[k] == TPadDevices(profiles)[k].port
  {
    var pads := TPadDevices(profiles);
    if pads == [] then Raised(ConnectionError("Could not find any TPad."))
    else Success(seq(|pads|, k requires 0 <= k < |pads| => pads[k].port))
  }

  /** The port a TPad opens: the one asked for, else the first detected. */
  function ChoosePort(requested: Option<string>, profiles: seq<Profile>): (r: Result<string>)
    ensures requested.Some? ==> r == Success(requested.value)
    ensures requested.None? && TPadDevices(profiles) == [] ==> r.Raised? && r.exception.ConnectionError?
    ensures requested.None? && TPadDevices(profiles) != [] ==> r == Success(TPadDevices(profiles)[0].port)
  {
    match requested
    case Some(port) => Success(port)
    case None =>
      match DetectComPort(profiles)
      case Raised(e) => Raised(e)
      case Success(ports) => Success(ports[0])
  }

  /** Python's profile[key] on an entry of the TPad listing, whose only keys are
      'deviceName' and 'port'. */
  function PadEntry(d: PadProfile, key: string): Result<string> {
    if key == "deviceName" then Success(d.deviceName)
    else if key == "port" then Success(d.port)
    else Raised(KeyError(key))
  }

  /** The Python group listing as written: the name is looked up under
      'Instance ID', a key that the TPad listing's entries do not have. */
  function GroupDevicesAsWritten(pads: seq<PadProfile>, suffix: string, channels: int): Result<seq<GroupProfile>>
    decreases |pads|
  {
    if pads == [] then Success([])
    else match GroupDevicesAsWritten(pads[..|pads| - 1], suffix, channels)
      case Raised(e) => Raised(e)
      case Success(prior) =>
        var pad := pads[|pads| - 1];
        match (PadEntry(pad, "Instance ID"), PadEntry(pad, "port"))
        case (Success(name), Success(port)) => Success(prior + [GroupProfile(name + suffix, port, channels)])
        case (Raised(e), _) => Raised(e)
        case (_, Raised(e)) => Raised(e)
  }

  /** TPadPhotodiodeGroup.getAvailableDevices as written. */
  function PhotodiodeDevicesAsWritten(profiles: seq<Profile>): Result<seq<GroupProfile>> {
    GroupDevicesAsWritten(TPadDevices(profiles), PhotodiodeSuffix, PhotodiodeChannels)
  }

  /** TPadButtonGroup.getAvailableDevices as written. */
  function ButtonDevicesAsWritten(profiles: seq<Profile>): Result<seq<GroupProfile>> {
    GroupDevicesAsWritten(TPadDevices(profiles), ButtonSuffix, ButtonChannels)
  }

  /** As written, both group listings raise KeyError('Instance ID') as soon as one TPad
      is found, and are empty otherwise. */
  lemma {:induction false} GroupDevicesAsWrittenRaise(pads: seq<PadProfile>, suffix: string, channels: int)
    ensures pads == [] ==> GroupDevicesAsWritten(pads, suffix, channels) == Success([])
    ensures pads != [] ==> GroupDevicesAsWritten(pads, suffix, channels) == Raised(KeyError("Instance ID"))
    decreases |pads|
  {
    if pads != [] {
      GroupDevicesAsWrittenRaise(pads[..|pads| - 1], suffix, channels);
    }
  }

  /** A single TPad on COM6 is enough to make both group listings raise. */
  lemma GroupListingCounterexample()
    ensures PhotodiodeDevicesAsWritten([Profile("FTDIBUS\\BBTKTPAD", "TPad (COM6)")]) == Raised(KeyError("Instance ID"))
    ensures ButtonDevicesAsWritten([Profile("FTDIBUS\\BBTKTPAD", "TPad (COM6)")]) == Raised(KeyError("Instance ID"))
  {
    var p := Profile("FTDIBUS\\BBTKTPAD", "TPad (COM6)");
    assert p.instanceId[8..16] == TPadMarker;
    assert OccursAt(p.instanceId, TPadMarker, 8);
    FindCharacterised(p.instanceId, TPadMarker, 0);
    FindCharacterised(p.description, "COM", 0);
    assert p.description[6..9] == "COM";
    assert OccursAt(p.description, "COM", 6);
    assert p.description[10..11] == ")";
    assert OccursAt(p.description, ")", 10);
    assert PortStart(p.description) <= 9;
    FindCharacterised(p.description, ")", PortStart(p.description));
    assert ProfileDevice(p).Some?;
    assert [p][..0] == [];
    assert FilterMap(ProfileDevice, [p][..0]) == [];
    assert TPadDevices([p]) == [ProfileDevice(p).value];
    GroupDevicesAsWrittenRaise(TPadDevices([p]), PhotodiodeSuffix, PhotodiodeChannels);
    GroupDevicesAsWrittenRaise(TPadDevices([p]), ButtonSuffix, ButtonChannels);
  }

  /** The evidently intended group listing: one descriptor per TPad, named after the
      TPad's deviceName (its Instance ID) with the group's suffix, on the TPad's port. */
  function GroupDevices(pads: seq<PadProfile>, suffix: string, channels: int): (r: seq<GroupProfile>)
    ensures |r| == |pads|
    ensures forall k :: 0 <= k < |pads| ==> r[k] == GroupProfile(pads[k].deviceName + suffix, pads[k].port, channels)
  {
    seq(|pads|, k requires 0 <= k < |pads| => GroupProfile(pads[k].deviceName + suffix, pads[k].port, channels))
  }

  /** The loop shared by both group classes' getAvailableDevices. */
  method GroupAvailableDevices(profiles: seq<Profile>, suffix: string, channels: int) returns (devices: seq<GroupProfile>)
    ensures devices == GroupDevices(TPadDevices(profiles), suffix, channels)
  {
    var pads := TPadAvailableDevices(profiles);
    devices := [];
    for i := 0 to |pads|
      invariant |devices| == i
      invariant forall k :: 0 <= k < i ==> devices[k] == GroupProfile(pads[k].deviceName + suffix, pads[k].port, channels)
    {
      var profile := pads[i];
      devices := devices + [GroupProfile(profile.deviceName + suffix, profile.port, channels)];
    }
  }

  /** TPadPhotodiodeGroup.getAvailableDevices, reading the name from 'deviceName':
      one two-channel descriptor per TPad, in listing order. */
  method PhotodiodeAvailableDevices(profiles: seq<Profile>) returns (devices: seq<GroupProfile>)
    ensures var pads := TPadDevices(profiles);
      && |devices| == |pads|
      && forall k :: 0 <= k < |pads| ==>
           devices[k] == GroupProfile(pads[k].deviceName + "_photodiodes", pads[k].port, 2)
  {
    devices := GroupAvailableDevices(profiles, PhotodiodeSuffix, PhotodiodeChannels);
  }

  /** TPadButtonGroup.getAvailableDevices, reading the name from 'deviceName':
      one ten-channel descriptor per TPad, in listing order. */
  method ButtonAvailableDevices(profiles: seq<Profile>) returns (devices: seq<GroupProfile>)
    ensures var pads := TPadDevices(profiles);
      && |devices| == |pads|
      && forall k :: 0 <= k < |pads| ==>
           devices[k] == GroupProfile(pads[k].deviceName + "_buttons", pads[k].port, 10)
  {
    devices := GroupAvailableDevices(profiles, ButtonSuffix, ButtonChannels);
  }
}
