/** The legacy front end's registry of instruments: the device list, each
    device's channels keyed by tag, and the VISA address each device
    builds from its connection fields and hands to its channels. */
module DeviceMng {
  import opened Wrappers
  import opened Text
  import Channel

  /** A driver instance: the model it was built for and the address it
      opens. */
  datatype Inst = Inst(model: string, address: string)

  /** The registry's view of a channel: its kind, its `chan_index`, and the
      address and instrument it was last handed. */
  datatype Chan = Chan(kind: Channel.Kind, index: int, visaAddress: string, inst: Option<Inst>)

  /** A freshly constructed channel, bound to no instrument. */
  function NewChan(kind: Channel.Kind, tag: int): Chan {
    Chan(kind, tag, "", None)
  }

  /** A channel dictionary: (tag, channel) pairs in insertion order. */
  type ChanDict = seq<(int, Chan)>

  function Keys(d: ChanDict): (ks: seq<int>)
    ensures |ks| == |d| && forall k :: 0 <= k < |d| ==> ks[k] == d[k].0
  {
    seq(|d|, (k: int) requires 0 <= k < |d| => d[k].0)
  }

  /** No tag appears twice, as in a Python dict. */
  predicate UniqueKeys(d: ChanDict) {
    forall i, j :: 0 <= i < j < |d| ==> d[i].0 != d[j].0
  }

  /** `channel_dict[tag]`, or `None` where Python raises `KeyError`. */
  function Lookup(d: ChanDict, tag: int): (r: Option<Chan>)
    ensures r.None? <==> tag !in Keys(d)
    ensures r.Some? ==> exists k :: 0 <= k < |d| && d[k] == (tag, r.value)
  {
    if d == [] then None
    else if d[0].0 == tag then Some(d[0].1)
    else
      var r := Lookup(d[1..], tag);
      assert Keys(d) == [d[0].0] + Keys(d[1..]);
      if r.Some? then
        var k :| 0 <= k < |d[1..]| && d[1..][k] == (tag, r.value);
        assert d[k + 1] == (tag, r.value);
        r
      else r
  }

  /** The four LAN octet fields. */
  datatype Octets = Octets(a: string, b: string, c: string, d: string)

  /** One entry of the device list. */
  datatype Device = Device(
    index: int, chanNum: int, maxChanNum: int,
    deviceType: string, deviceName: string,
    visaAddress: string, instrument: Option<Inst>, channels: ChanDict,
    switchAutoLan: string, autoAddress: string, lan: Octets)

  /** `device_info(device_index)` before any field is filled in. */
  function NewDevice(index: int): Device {
    Device(index, 1, 1, "", "", "", None, [], "", "", Octets("", "", "", ""))
  }

  // ---------------------------------------------------------------------
  // Device list.

  /** `create_devices`: append devices numbered after the current length
      until there are `n`, then pop until there are `n`. A negative `n`
      empties the list and then pops from an empty list. */
  function CreateDevices(devs: seq<Device>, n: int): (r: (seq<Device>, Option<Exc>))
    ensures n >= |devs| ==>
      && r.1.None? && |r.0| == n && r.0[..|devs|] == devs
      && forall k :: |devs| <= k < n ==> r.0[k] == NewDevice(k + 1)
    ensures 0 <= n < |devs| ==> r == (devs[..n], None)
    ensures n < 0 ==> r.0 == [] && r.1.Some? && r.1.value.kind == IndexError
    decreases if n >= |devs| then n - |devs| else |devs|
  {
    if n > |devs| then CreateDevices(devs + [NewDevice(|devs| + 1)], n)
    else if n == |devs| then (devs, None)
    else if |devs| == 0 then ([], Some(Exc(IndexError, "pop from empty list")))
    else
      var shorter := devs[..|devs| - 1];
      assert 0 <= n ==> shorter[..n] == devs[..n];
      CreateDevices(shorter, n)
  }

  /** Each device's index is its position plus one. */
  predicate Numbered(devs: seq<Device>) {
    forall k :: 0 <= k < |devs| ==> devs[k].index == k + 1
  }

  /** `find_device`: the first device with the index, or `None`. */
  function FindDevice(devs: seq<Device>, index: int): (r: Option<Device>)
    ensures r.None? <==> forall k :: 0 <= k < |devs| ==> devs[k].index != index
    ensures r.Some? ==> exists k ::
      && 0 <= k < |devs| && devs[k] == r.value && r.value.index == index
      && forall j :: 0 <= j < k ==> devs[j].index != index
  {
    if devs == [] then None
    else if devs[0].index == index then Some(devs[0])
    else
      var r := FindDevice(devs[1..], index);
      if r.Some? then
        var k :| 0 <= k < |devs[1..]| && devs[1..][k] == r.value && r.value.index == index
          && forall j :: 0 <= j < k ==> devs[1..][j].index != index;
        assert devs[k + 1] == r.value;
        r
      else r
  }

  /** Resizing keeps the list numbered, so afterwards index `i` finds the
      `i`-th device for every `i` from 1 to `n`, and no other index finds
      anything. */
  lemma {:induction false} CreateDevicesFinds(devs: seq<Device>, n: int, i: int)
    requires Numbered(devs)
    ensures Numbered(CreateDevices(devs, n).0)
    ensures var r := CreateDevices(devs, n).0;
      (1 <= i <= |r| ==> FindDevice(r, i) == Some(r[i - 1])) && (!(1 <= i <= |r|) ==> FindDevice(r, i).None?)
  {
    var r := CreateDevices(devs, n).0;
    if n >= |devs| {
      assert forall k :: 0 <= k < |devs| ==> r[k] == r[..|devs|][k];
    }
    assert Numbered(r);
    if 1 <= i <= |r| {
      var f := FindDevice(r, i);
      assert f.Some? by { assert r[i - 1].index == i; }
      var k :| 0 <= k < |r| && r[k] == f.value && f.value.index == i;
      assert k == i - 1;
    }
  }

  // ---------------------------------------------------------------------
  // Channels.

  /** The device type labels. */
  const AwgType: string := "Arbitrary Waveform Generator"
  const OscType: string := "Oscilloscope"

  /** Add a fresh channel for each tag from `tag` to `n` that is missing. */
  function AddMissing(d: ChanDict, kind: Channel.Kind, tag: int, n: int): (r: ChanDict)
    ensures |r| >= |d| && r[..|d|] == d
    ensures forall key :: key in Keys(r) <==> key in Keys(d) || tag <= key <= n
    ensures forall k :: |d| <= k < |r| ==> r[k].1 == NewChan(kind, r[k].0)
    ensures UniqueKeys(d) ==> UniqueKeys(r)
    decreases n - tag + 1
  {
    if tag > n then d
    else if tag in Keys(d) then AddMissing(d, kind, tag + 1, n)
    else
      var d' := d + [(tag, NewChan(kind, tag))];
      var r := AddMissing(d', kind, tag + 1, n);
      AddOneStep(d, kind, tag, n, r);
      r
  }

  /** What `AddMissing` promises for `d`, from what the call after adding
      the missing `tag` promises for `d + [tag]`. */
  lemma AddOneStep(d: ChanDict, kind: Channel.Kind, tag: int, n: int, r: ChanDict)
    requires tag <= n && tag !in Keys(d)
    requires var d' := d + [(tag, NewChan(kind, tag))];
      && |r| >= |d'| && r[..|d'|] == d'
      && (forall key :: key in Keys(r) <==> key in Keys(d') || tag + 1 <= key <= n)
      && (forall k :: |d'| <= k < |r| ==> r[k].1 == NewChan(kind, r[k].0))
      && (UniqueKeys(d') ==> UniqueKeys(r))
    ensures |r| >= |d| && r[..|d|] == d
    ensures forall key :: key in Keys(r) <==> key in Keys(d) || tag <= key <= n
    ensures forall k :: |d| <= k < |r| ==> r[k].1 == NewChan(kind, r[k].0)
    ensures UniqueKeys(d) ==> UniqueKeys(r)
  {
    var d' := d + [(tag, NewChan(kind, tag))];
    assert Keys(d') == Keys(d) + [tag];
    assert r[..|d|] == r[..|d'|][..|d|];
    assert r[|d|] == d'[|d|];
  }

  /** `create_chan`: for an AWG or oscilloscope, add channels for the
      missing tags 1 to `var_chan_num`, leaving existing entries alone; a
      device of another type is left unchanged. */
  function CreateChan(dev: Device): (r: Device)
    ensures r.(channels := dev.channels) == dev
    ensures dev.deviceType != AwgType && dev.deviceType != OscType ==> r == dev
    ensures |r.channels| >= |dev.channels| && r.channels[..|dev.channels|] == dev.channels
    ensures dev.deviceType == AwgType || dev.deviceType == OscType ==>
      forall key :: key in Keys(r.channels) <==> key in Keys(dev.channels) || 1 <= key <= dev.chanNum
    ensures forall k :: |dev.channels| <= k < |r.channels| ==>
      r.channels[k].1 == NewChan(if dev.deviceType == AwgType then Channel.AwgChannel else Channel.OscChannel, r.channels[k].0)
    ensures UniqueKeys(dev.channels) ==> UniqueKeys(r.channels)
  {
    if dev.deviceType == AwgType then dev.(channels := AddMissing(dev.channels, Channel.AwgChannel, 1, dev.chanNum))
    else if dev.deviceType == OscType then dev.(channels := AddMissing(dev.channels, Channel.OscChannel, 1, dev.chanNum))
    else dev
  }

  /** A second `create_chan` adds nothing. */
  lemma CreateChanIdempotent(dev: Device)
    ensures CreateChan(CreateChan(dev)) == CreateChan(dev)
  {
    var once := CreateChan(dev);
    var twice := CreateChan(once);
    if dev.deviceType == AwgType || dev.deviceType == OscType {
      NothingMissing(once.channels, if dev.deviceType == AwgType then Channel.AwgChannel else Channel.OscChannel, 1, dev.chanNum);
    }
  }

  lemma {:induction false} NothingMissing(d: ChanDict, kind: Channel.Kind, tag: int, n: int)
    requires forall key :: tag <= key <= n ==> key in Keys(d)
    ensures AddMissing(d, kind, tag, n) == d
    decreases n - tag + 1
  {
    if tag <= n {
      NothingMissing(d, kind, tag + 1, n);
    }
  }

  /** `find_channel`: by index, the first channel in insertion order whose
      `chan_index` matches, else `ValueError`; otherwise by tag, the entry,
      else `KeyError`; with neither argument, `None`. */
  function FindChannel(dev: Device, chanIndex: Option<int>, chanTag: Option<int>): (r: Result<Option<Chan>>)
    ensures chanIndex.Some? ==>
      (r.Err? <==> forall k :: 0 <= k < |dev.channels| ==> dev.channels[k].1.index != chanIndex.value)
    ensures chanIndex.Some? && r.Ok? ==> exists k ::
      && 0 <= k < |dev.channels|
      && r.value == Some(dev.channels[k].1) && dev.channels[k].1.index == chanIndex.value
      && forall j :: 0 <= j < k ==> dev.channels[j].1.index != chanIndex.value
    ensures chanIndex.None? && chanTag.Some? ==>
      (r.Err? <==> chanTag.value !in Keys(dev.channels)) && (r.Ok? ==> r.value == Lookup(dev.channels, chanTag.value))
    ensures chanIndex.None? && chanTag.None? ==> r == Ok(None)
    ensures r.Err? ==> r.error.kind == (if chanIndex.Some? then ValueError else KeyError)
  {
    if chanIndex.Some? then
      match FirstWithIndex(dev.channels, chanIndex.value)
      case Some(c) => Ok(Some(c))
      case None =>
        Raise(ValueError, "Device " + IntToString(dev.index) + " does not have channel " + IntToString(chanIndex.value))
    else if chanTag.Some? then
      match Lookup(dev.channels, chanTag.value)
      case Some(c) => Ok(Some(c))
      case None =>
        Raise(KeyError, "Device " + IntToString(dev.index) + " does not have channel tag " + IntToString(chanTag.value))
    else Ok(None)
  }

  function FirstWithIndex(d: ChanDict, index: int): (r: Option<Chan>)
    ensures r.None? <==> forall k :: 0 <= k < |d| ==> d[k].1.index != index
    ensures r.Some? ==> exists k ::
      && 0 <= k < |d| && r.value == d[k].1 && d[k].1.index == index
      && forall j :: 0 <= j < k ==> d[j].1.index != index
  {
    if d == [] then None
    else if d[0].1.index == index then Some(d[0].1)
    else
      var r := FirstWithIndex(d[1..], index);
      if r.Some? then
        var k :| 0 <= k < |d[1..]| && r.value == d[1..][k].1 && d[1..][k].1.index == index
          && forall j :: 0 <= j < k ==> d[1..][j].1.index != index;
        assert d[k + 1] == d[1..][k];
        r
      else r
  }

  /** Each channel's `chan_index` is its tag. */
  predicate IndexedByTag(d: ChanDict) {
    forall k :: 0 <= k < |d| ==> d[k].1.index == d[k].0
  }

  /** `create_chan` keeps every channel's index equal to its tag. */
  lemma CreateChanIndexed(dev: Device)
    requires IndexedByTag(dev.channels)
    ensures IndexedByTag(CreateChan(dev).channels)
  {
    var r := CreateChan(dev).channels;
    forall j | 0 <= j < |r|
      ensures r[j].1.index == r[j].0
    {
      if j < |dev.channels| {
        assert r[j] == r[..|dev.channels|][j];
      }
    }
  }

  /** When tags are unique and every index is its tag, looking a channel up
      by index and by tag agree. */
  lemma {:induction false} IndexLookupIsTagLookup(d: ChanDict, tag: int)
    requires UniqueKeys(d) && IndexedByTag(d)
    ensures FirstWithIndex(d, tag) == Lookup(d, tag)
  {
    if d != [] && d[0].0 != tag {
      assert UniqueKeys(d[1..]) && IndexedByTag(d[1..]);
      IndexLookupIsTagLookup(d[1..], tag);
    }
  }

  /** Channels fresh from `create_chan` are found by their tag, both as
      `chan_index` and as key, and the two lookups agree. */
  lemma CreatedChannelsFound(dev: Device, tag: int)
    requires dev.deviceType == AwgType || dev.deviceType == OscType
    requires UniqueKeys(dev.channels) && IndexedByTag(dev.channels)
    requires 1 <= tag <= dev.chanNum
    ensures var r := CreateChan(dev);
      && FindChannel(r, None, Some(tag)).Ok?
      && FindChannel(r, Some(tag), None) == FindChannel(r, None, Some(tag))
  {
    var r := CreateChan(dev);
    assert tag in Keys(r.channels);
    CreateChanIndexed(dev);
    IndexLookupIsTagLookup(r.channels, tag);
  }

  // ---------------------------------------------------------------------
  // Addresses and instruments.

  /** `equips.inst_mapping`: each supported model with the class's
      channel count. */
  const Catalog: map<string, nat> := map[
    "DSG4102" := 2, "MDO34" := 4, "MDO3024" := 4, "DSG836" := 2, "DHO1202" := 2, "DHO1204" := 4]

  /** The connection-mode labels. */
  const AutoLabel: string := "Auto"
  const LanLabel: string := "LAN"
  const LanPrefix: string := "TCPIP0::"
  const LanSuffix: string := "::INSTR"

  /** `s.rstrip('\n')`. */
  function RStripNewlines(s: string): (r: string)
    ensures |r| <= |s| && r == s[..|r|] && (r == [] || r[|r| - 1] != '\n')
    ensures forall i :: |r| <= i < |s| ==> s[i] == '\n'
  {
    if s != [] && s[|s| - 1] == '\n' then RStripNewlines(s[..|s| - 1]) else s
  }

  /** One octet as the address uses it: spaces removed, trailing newlines
      stripped. */
  function OctetText(s: string): string {
    RStripNewlines(RemoveSpaces(s))
  }

  /** The dotted LAN address. */
  function LanAddress(o: Octets): string {
    OctetText(o.a) + "." + OctetText(o.b) + "." + OctetText(o.c) + "." + OctetText(o.d)
  }

  /** Every channel handed the device's address and instrument. */
  predicate Synced(dev: Device) {
    forall k :: 0 <= k < |dev.channels| ==>
      dev.channels[k].1.visaAddress == dev.visaAddress && dev.channels[k].1.inst == dev.instrument
  }

  /** Hand every channel the address and instrument. */
  function Propagate(d: ChanDict, address: string, inst: Option<Inst>): (r: ChanDict)
    ensures |r| == |d|
    ensures forall k :: 0 <= k < |d| ==>
      r[k] == (d[k].0, d[k].1.(visaAddress := address, inst := inst))
  {
    seq(|d|, (k: int) requires 0 <= k < |d| => (d[k].0, d[k].1.(visaAddress := address, inst := inst)))
  }

  /** A device after an update, and the exception the update raised. */
  datatype Updated = Updated(dev: Device, raised: Option<Exc>)

  /** Rebuild the instrument for the device's model and address and hand
      it to every channel; a model missing from the catalog raises
      `KeyError` with nothing rebuilt. */
  function Rebind(dev: Device): (r: Updated)
    ensures r.raised.Some? <==> dev.deviceName !in Catalog
    ensures r.raised.Some? ==> r.dev == dev && r.raised.value.kind == KeyError
    ensures r.raised.None? ==> Synced(r.dev) && r.dev.instrument == Some(Inst(dev.deviceName, dev.visaAddress))
    ensures r.dev.(instrument := dev.instrument, channels := dev.channels) == dev
    ensures Keys(r.dev.channels) == Keys(dev.channels)
    ensures forall k :: 0 <= k < |dev.channels| ==>
      r.dev.channels[k].1.kind == dev.channels[k].1.kind && r.dev.channels[k].1.index == dev.channels[k].1.index
  {
    if dev.deviceName !in Catalog then Updated(dev, Some(Exc(KeyError, dev.deviceName)))
    else
      var inst := Some(Inst(dev.deviceName, dev.visaAddress));
      Updated(dev.(instrument := inst, channels := Propagate(dev.channels, dev.visaAddress, inst)), None)
  }

  /** `track_device_name`: a change of model sets the channel limit to the
      model's channel count and rebinds the device. */
  function TrackDeviceName(dev: Device): (r: Updated)
    ensures r.raised.Some? <==> dev.deviceName !in Catalog
    ensures r.raised.Some? ==> r.dev == dev
    ensures r.raised.None? ==>
      && r.dev.maxChanNum == Catalog[dev.deviceName] && Synced(r.dev)
      && r.dev.instrument == Some(Inst(dev.deviceName, dev.visaAddress)) && r.dev.visaAddress == dev.visaAddress
  {
    if dev.deviceName !in Catalog then Updated(dev, Some(Exc(KeyError, dev.deviceName)))
    else Rebind(dev.(maxChanNum := Catalog[dev.deviceName]))
  }

  /** Whether all four octet fields are filled in, before spaces are
      removed. */
  predicate OctetsTyped(o: Octets) {
    RStripNewlines(o.a) != [] && RStripNewlines(o.b) != [] && RStripNewlines(o.c) != [] && RStripNewlines(o.d) != []
  }

  /** `trace_visa_address`: in LAN mode with all four octets filled in the
      address becomes `TCPIP0::a.b.c.d::INSTR`; in Auto mode with a
      non-empty auto address it becomes that address without spaces;
      otherwise it is kept. Then the device is rebound, which raises for
      a model missing from the catalog after the address is stored. */
  function TraceVisaAddress(dev: Device): (r: Updated)
    ensures dev.switchAutoLan == LanLabel && OctetsTyped(dev.lan) ==>
      r.dev.visaAddress == LanPrefix + LanAddress(dev.lan) + LanSuffix
    ensures dev.switchAutoLan == AutoLabel && RemoveSpaces(dev.autoAddress) != [] ==>
      r.dev.visaAddress == RemoveSpaces(dev.autoAddress)
    ensures (!(dev.switchAutoLan == LanLabel && OctetsTyped(dev.lan))
             && !(dev.switchAutoLan == AutoLabel && RemoveSpaces(dev.autoAddress) != [])) ==>
      r.dev.visaAddress == dev.visaAddress
    ensures r.raised.Some? <==> dev.deviceName !in Catalog
    ensures r.raised.None? ==> Synced(r.dev) && r.dev.instrument == Some(Inst(dev.deviceName, r.dev.visaAddress))
    ensures r.dev.(visaAddress := dev.visaAddress, instrument := dev.instrument, channels := dev.channels) == dev
  {
    var auto := RemoveSpaces(dev.autoAddress);
    var lanSelected := dev.switchAutoLan == LanLabel;
    var autoSelected := dev.switchAutoLan == AutoLabel;
    var lanTyped := OctetsTyped(dev.lan) && lanSelected;
    var autoTyped := auto != [] && autoSelected;
    var address :=
      if lanTyped || autoTyped then (if lanSelected then LanPrefix + LanAddress(dev.lan) + LanSuffix else auto)
      else dev.visaAddress;
    Rebind(dev.(visaAddress := address))
  }

  /** Rebuilding the address from unchanged fields changes nothing more. */
  lemma TraceIdempotent(dev: Device)
    ensures var once := TraceVisaAddress(dev).dev;
      TraceVisaAddress(once) == Updated(once, TraceVisaAddress(dev).raised)
  {
    var once := TraceVisaAddress(dev).dev;
    if dev.deviceName in Catalog {
      var inst := Some(Inst(dev.deviceName, once.visaAddress));
      assert Propagate(once.channels, once.visaAddress, inst) == once.channels;
    }
  }

  /** The octets can be read back from a LAN address: it starts with the
      prefix, ends with the suffix, and between them lie the four octets
      with a dot after each of the first three. */
  lemma LanAddressRecoverable(dev: Device)
    requires dev.switchAutoLan == LanLabel && OctetsTyped(dev.lan)
    ensures var a := TraceVisaAddress(dev).dev.visaAddress;
      && a[..|LanPrefix|] == LanPrefix && a[|a| - |LanSuffix|..] == LanSuffix
      && a[|LanPrefix|..|a| - |LanSuffix|] == LanAddress(dev.lan)
  {
  }
}
