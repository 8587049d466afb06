/**
 * The store of discovered devices (store.rs) against the full history of
 * confirmations, and the ranking of a device's channels from its capped log.
 */
module DeviceStore {
  import opened Wrappers

  const MAX_LOGS: nat := 100

  datatype Channel = Http(host: string, port: nat, https: bool)

  /** `alias` stands for everything a device says about itself. */
  datatype Device = Device(alias: string, fingerprint: string, channel: Channel)

  datatype Status = Available | NotReachable

  datatype Kind = Discovered | Updated

  datatype Log = Log(timestamp: nat, kind: Kind, channel: Channel)

  datatype Known = Known(device: Device, channels: map<Channel, Status>, logs: seq<Log>)

  datatype Confirmation = Confirmation(device: Device, timestamp: nat)

  function LogOf(c: Confirmation, kind: Kind): Log {
    Log(c.timestamp, kind, c.device.channel)
  }

  function Newest(logs: seq<Log>): seq<Log> {
    if |logs| > MAX_LOGS then logs[|logs| - MAX_LOGS..] else logs
  }

  function Entered(c: Confirmation): Known {
    Known(c.device, map[c.device.channel := Available], [LogOf(c, Discovered)])
  }

  /** A confirmation replaces the channel of its host. */
  function Confirmed(known: Known, c: Confirmation): Known {
    var others :=
      map channel | channel in known.channels && channel.host != c.device.channel.host :: known.channels[channel];
    Known(c.device, others[c.device.channel := Available], Newest(known.logs + [LogOf(c, Updated)]))
  }

  /** The position of the device with this fingerprint. */
  function Find(devices: seq<Known>, fingerprint: string): (i: Option<nat>)
    ensures i.Some? ==> i.value < |devices| && devices[i.value].device.fingerprint == fingerprint
    ensures i.None? ==> forall k :: 0 <= k < |devices| ==> devices[k].device.fingerprint != fingerprint
  {
    if devices == [] then None
    else if devices[0].device.fingerprint == fingerprint then Some(0)
    else
      match Find(devices[1..], fingerprint)
      case Some(i) => Some(i + 1)
      case None => None
  }

  function Upserted(devices: seq<Known>, c: Confirmation): seq<Known> {
    match Find(devices, c.device.fingerprint)
    case Some(i) => devices[i := Confirmed(devices[i], c)]
    case None => devices + [Entered(c)]
  }

  function EventOf(devices: seq<Known>, c: Confirmation): Kind {
    if Find(devices, c.device.fingerprint).Some? then Updated else Discovered
  }

  /** The store after a history of confirmations. */
  function Stored(history: seq<Confirmation>): seq<Known> {
    if history == [] then [] else Upserted(Stored(history[..|history| - 1]), history[|history| - 1])
  }

  /** The store itself, updated in place. */
  class Store {
    var devices: seq<Known>

    constructor ()
      ensures devices == []
    {
      devices := [];
    }

    method Upsert(device: Device, timestamp: nat) returns (event: Kind, known: Known)
      modifies this
      ensures devices == Upserted(old(devices), Confirmation(device, timestamp))
      ensures event == EventOf(old(devices), Confirmation(device, timestamp))
      ensures known in devices && known.device == device
    {
      var c := Confirmation(device, timestamp);
      var found := Find(devices, device.fingerprint);
      match found {
        case Some(i) =>
          known := devices[i];
          var channels :=
            map channel | channel in known.channels && channel.host != device.channel.host :: known.channels[channel];
          known := known.(channels := channels[device.channel := Available]);
          known := known.(logs := known.logs + [Log(timestamp, Updated, device.channel)]);
          if |known.logs| > MAX_LOGS {
            var excess := |known.logs| - MAX_LOGS;
            known := known.(logs := known.logs[excess..]);
          }
          known := known.(device := device);
          devices := devices[i := known];
          assert devices[i] == known;
          return Updated, known;
        case None =>
          known := Known(device, map[device.channel := Available], [Log(timestamp, Discovered, device.channel)]);
          devices := devices + [known];
          return Discovered, known;
      }
    }
  }

  // What the history says

  /** The confirmations of one device. */
  function Of(history: seq<Confirmation>, fingerprint: string): seq<Confirmation> {
    if history == [] then []
    else
      var before, last := Of(history[..|history| - 1], fingerprint), history[|history| - 1];
      if last.device.fingerprint == fingerprint then before + [last] else before
  }

  /** The fingerprints in the order of their first confirmation. */
  function FirstSeen(history: seq<Confirmation>): seq<string> {
    if history == [] then []
    else
      var before, last := FirstSeen(history[..|history| - 1]), history[|history| - 1].device.fingerprint;
      if last in before then before else before + [last]
  }

  /** A device confirmed by `own`, one confirmation after the other. */
  function KnownAfter(own: seq<Confirmation>): Known
    requires own != []
  {
    if |own| == 1 then Entered(own[0]) else Confirmed(KnownAfter(own[..|own| - 1]), own[|own| - 1])
  }

  lemma {:induction false} FirstSeenAreDistinct(history: seq<Confirmation>)
    ensures forall i, j :: 0 <= i < j < |FirstSeen(history)| ==> FirstSeen(history)[i] != FirstSeen(history)[j]
    ensures forall fingerprint :: fingerprint in FirstSeen(history) <==> Of(history, fingerprint) != []
    decreases |history|
  {
    if history != [] {
      FirstSeenAreDistinct(history[..|history| - 1]);
    }
  }

  /** A confirmation added to the history reaches the device it belongs to and no other. */
  lemma {:induction false} OfNext(history: seq<Confirmation>, fingerprint: string)
    requires history != []
    ensures var before, last := history[..|history| - 1], history[|history| - 1];
      Of(history, fingerprint) ==
      if last.device.fingerprint == fingerprint then Of(before, fingerprint) + [last] else Of(before, fingerprint)
  {
  }

  lemma {:induction false} KnownNext(own: seq<Confirmation>, c: Confirmation)
    requires own != []
    ensures KnownAfter(own + [c]) == Confirmed(KnownAfter(own), c)
  {
    assert (own + [c])[..|own|] == own;
  }

  lemma {:induction false} KnownFirst(c: Confirmation)
    ensures KnownAfter([c]) == Entered(c) && Entered(c).device == c.device
  {
  }

  /** The device is what its own confirmations made it. */
  predicate MadeBy(known: Known, own: seq<Confirmation>, fingerprint: string) {
    own != [] && known == KnownAfter(own) && known.device.fingerprint == fingerprint
  }

  predicate StoredFaithfully(history: seq<Confirmation>, devices: seq<Known>) {
    && |devices| == |FirstSeen(history)|
    && forall i :: 0 <= i < |devices| ==>
         MadeBy(devices[i], Of(history, FirstSeen(history)[i]), FirstSeen(history)[i])
  }

  lemma {:induction false} UpsertKnown(history: seq<Confirmation>, i: nat)
    requires history != []
    requires var before := history[..|history| - 1];
      && StoredFaithfully(before, Stored(before))
      && Find(Stored(before), history[|history| - 1].device.fingerprint) == Some(i)
    ensures StoredFaithfully(history, Stored(history))
  {
    hide Confirmed, Of;
    var before, last := history[..|history| - 1], history[|history| - 1];
    var fingerprint := last.device.fingerprint;
    var seen := FirstSeen(before);
    assert seen[i] == fingerprint;
    FirstSeenAreDistinct(before);
    KnownNext(Of(before, fingerprint), last);
    forall k | 0 <= k < |seen|
      ensures Of(history, seen[k]) == if k == i then Of(before, fingerprint) + [last] else Of(before, seen[k])
    {
      OfNext(history, seen[k]);
    }
    ConfirmedDevice(Stored(before)[i], last);
  }

  lemma {:induction false} ConfirmedDevice(known: Known, c: Confirmation)
    ensures Confirmed(known, c).device == c.device
  {
  }

  lemma {:induction false} NewIsAppended(history: seq<Confirmation>)
    requires history != []
    requires var before := history[..|history| - 1];
      && StoredFaithfully(before, Stored(before))
      && Find(Stored(before), history[|history| - 1].device.fingerprint) == None
    ensures var before, last := history[..|history| - 1], history[|history| - 1];
      && last.device.fingerprint !in FirstSeen(before)
      && Stored(history) == Stored(before) + [Entered(last)]
      && FirstSeen(history) == FirstSeen(before) + [last.device.fingerprint]
  {
    hide Of, KnownAfter, Entered, Confirmed;
    var before := history[..|history| - 1];
    var seen, devices := FirstSeen(before), Stored(before);
    assert forall k :: 0 <= k < |seen| ==> devices[k].device.fingerprint == seen[k];
  }

  lemma {:induction false} NewIsMade(history: seq<Confirmation>)
    requires history != [] && history[|history| - 1].device.fingerprint !in FirstSeen(history[..|history| - 1])
    ensures var last := history[|history| - 1];
      MadeBy(Entered(last), Of(history, last.device.fingerprint), last.device.fingerprint)
  {
    hide Of, KnownAfter, Entered, FirstSeen;
    var last := history[|history| - 1];
    FirstSeenAreDistinct(history[..|history| - 1]);
    OfNext(history, last.device.fingerprint);
    assert [] + [last] == [last];
    KnownFirst(last);
  }

  lemma {:induction false} UpsertNew(history: seq<Confirmation>)
    requires history != []
    requires var before := history[..|history| - 1];
      && StoredFaithfully(before, Stored(before))
      && Find(Stored(before), history[|history| - 1].device.fingerprint) == None
    ensures StoredFaithfully(history, Stored(history))
  {
    hide MadeBy, Stored, Find, FirstSeen, Of, KnownAfter, Entered;
    NewIsAppended(history);
    NewIsMade(history);
    var before := history[..|history| - 1];
    var seen, devices := FirstSeen(before), Stored(before);
    forall k | 0 <= k < |seen| ensures MadeBy(devices[k], Of(history, seen[k]), seen[k]) {
      OfNext(history, seen[k]);
    }
  }

  /** The store holds the devices in first-seen order, each as its own confirmations made it. */
  lemma {:induction false} StoreIsFold(history: seq<Confirmation>)
    ensures StoredFaithfully(history, Stored(history))
    decreases |history|
  {
    if history != [] {
      var before, last := history[..|history| - 1], history[|history| - 1];
      StoreIsFold(before);
      match Find(Stored(before), last.device.fingerprint) {
        case Some(i) => UpsertKnown(history, i);
        case None => UpsertNew(history);
      }
    }
  }

  // One device

  function ChannelAt(own: seq<Confirmation>, i: nat): Channel
    requires i < |own|
  {
    own[i].device.channel
  }

  /** The confirmation at `i` is the last one of its host. */
  predicate LastOfHost(own: seq<Confirmation>, i: nat) {
    i < |own| && forall j :: i < j < |own| ==> ChannelAt(own, j).host != ChannelAt(own, i).host
  }

  /** The log of the whole history: the first entry discovered the device, the others updated it. */
  function FullLog(own: seq<Confirmation>): seq<Log> {
    seq(|own|, i requires 0 <= i < |own| => LogOf(own[i], if i == 0 then Discovered else Updated))
  }

  /** Capping twice is capping once. */
  lemma {:induction false} NewestAgain(logs: seq<Log>, log: Log)
    ensures Newest(Newest(logs) + [log]) == Newest(logs + [log])
  {
  }

  /** The newest logs are the last hundred, or all of them. */
  lemma NewestIsSuffix(logs: seq<Log>)
    ensures |Newest(logs)| == (if |logs| < 100 then |logs| else 100)
    ensures Newest(logs) == logs[|logs| - |Newest(logs)|..]
  {
  }

  lemma {:induction false} FullLogNext(own: seq<Confirmation>, last: Confirmation)
    requires own != []
    ensures FullLog(own + [last]) == FullLog(own) + [LogOf(last, Updated)]
  {
  }

  lemma {:induction false} ConfirmedLogs(known: Known, c: Confirmation)
    ensures Confirmed(known, c).logs == Newest(known.logs + [LogOf(c, Updated)])
  {
  }

  lemma {:induction false} FirstLog(c: Confirmation)
    ensures KnownAfter([c]).logs == Newest(FullLog([c]))
  {
  }

  lemma {:induction false} LogsAreNewest(own: seq<Confirmation>)
    requires own != []
    ensures KnownAfter(own).logs == Newest(FullLog(own))
    ensures KnownAfter(own).device == own[|own| - 1].device
    decreases |own|
  {
    hide KnownAfter, Confirmed, FullLog, Newest;
    var before, last := own[..|own| - 1], own[|own| - 1];
    assert own == before + [last];
    if before == [] {
      assert own == [last];
      FirstLog(last);
      KnownFirst(last);
    } else {
      LogsAreNewest(before);
      KnownNext(before, last);
      ConfirmedLogs(KnownAfter(before), last);
      ConfirmedDevice(KnownAfter(before), last);
      FullLogNext(before, last);
      NewestAgain(FullLog(before), LogOf(last, Updated));
    }
  }

  lemma {:induction false} LastOfHostNext(own: seq<Confirmation>, i: nat)
    requires own != [] && i < |own| - 1
    ensures LastOfHost(own, i) <==>
      LastOfHost(own[..|own| - 1], i) && own[|own| - 1].device.channel.host != ChannelAt(own, i).host
  {
    var before := own[..|own| - 1];
    assert forall j :: 0 <= j < |before| ==> ChannelAt(before, j) == ChannelAt(own, j);
    if LastOfHost(own, i) {
      assert ChannelAt(own, |own| - 1) == own[|own| - 1].device.channel;
    }
  }

  ghost predicate IsLastOfHost(own: seq<Confirmation>, channel: Channel) {
    exists i :: LastOfHost(own, i) && ChannelAt(own, i) == channel
  }

  lemma {:induction false} IsLastOfHostNext(own: seq<Confirmation>, channel: Channel)
    requires own != []
    ensures var before, last := own[..|own| - 1], own[|own| - 1].device.channel;
      IsLastOfHost(own, channel) <==> channel == last || (IsLastOfHost(before, channel) && channel.host != last.host)
  {
    var before, last := own[..|own| - 1], own[|own| - 1].device.channel;
    assert LastOfHost(own, |own| - 1) && ChannelAt(own, |own| - 1) == last;
    if IsLastOfHost(before, channel) && channel.host != last.host {
      var i :| LastOfHost(before, i) && ChannelAt(before, i) == channel;
      LastOfHostNext(own, i);
      assert ChannelAt(own, i) == channel;
    }
    if IsLastOfHost(own, channel) && channel != last {
      var i :| LastOfHost(own, i) && ChannelAt(own, i) == channel;
      LastOfHostNext(own, i);
      assert ChannelAt(before, i) == channel;
    }
  }

  /** The channels are exactly the last confirmed ones of each host, all available. */
  lemma {:induction false} ChannelsAreLastPerHost(own: seq<Confirmation>, channel: Channel)
    requires own != []
    ensures channel in KnownAfter(own).channels <==> IsLastOfHost(own, channel)
    ensures channel in KnownAfter(own).channels ==> KnownAfter(own).channels[channel] == Available
    decreases |own|
  {
    hide IsLastOfHost;
    var before := own[..|own| - 1];
    IsLastOfHostNext(own, channel);
    if |own| > 1 {
      ChannelsAreLastPerHost(before, channel);
    } else {
      NothingInEmpty(before, channel);
    }
  }

  lemma {:induction false} NothingInEmpty(own: seq<Confirmation>, channel: Channel)
    requires own == []
    ensures !IsLastOfHost(own, channel)
  {
  }

  /** The whole store against the whole history. */
  lemma {:induction false} StoreAgreesWithHistory(history: seq<Confirmation>, i: nat)
    requires i < |Stored(history)|
    ensures |Stored(history)| == |FirstSeen(history)|
    ensures var own, known := Of(history, FirstSeen(history)[i]), Stored(history)[i];
      && own != []
      && known.device == own[|own| - 1].device
      && known.device.fingerprint == FirstSeen(history)[i]
      && known.logs == Newest(FullLog(own))
      && forall channel :: channel in known.channels <==> IsLastOfHost(own, channel)
  {
    StoreIsFold(history);
    var own := Of(history, FirstSeen(history)[i]);
    LogsAreNewest(own);
    forall channel ensures channel in KnownAfter(own).channels <==> IsLastOfHost(own, channel) {
      ChannelsAreLastPerHost(own, channel);
    }
  }

  /** How often the store reported the device as discovered. */
  function Discoveries(history: seq<Confirmation>, fingerprint: string): nat {
    if history == [] then 0
    else
      var before, last := history[..|history| - 1], history[|history| - 1];
      Discoveries(before, fingerprint)
      + if last.device.fingerprint == fingerprint && EventOf(Stored(before), last).Discovered? then 1 else 0
  }

  /** Every device that was confirmed at all was reported as discovered once. */
  lemma {:induction false} DiscoveredExactlyOnce(history: seq<Confirmation>, fingerprint: string)
    ensures Discoveries(history, fingerprint) == if Of(history, fingerprint) == [] then 0 else 1
    decreases |history|
  {
    if history != [] {
      var before, last := history[..|history| - 1], history[|history| - 1];
      DiscoveredExactlyOnce(before, fingerprint);
      StoreIsFold(before);
      FirstSeenAreDistinct(before);
      var seen := FirstSeen(before);
      assert forall k :: 0 <= k < |seen| ==> Stored(before)[k].device.fingerprint == seen[k];
      assert Find(Stored(before), last.device.fingerprint).Some? <==> last.device.fingerprint in seen;
    }
  }

  // Ranking

  datatype Key = Key(available: bool, ipv6: bool, last: Option<nat>)

  predicate Below(a: Key, b: Key) {
    if a.available != b.available then b.available
    else if a.ipv6 != b.ipv6 then b.ipv6
    else b.last.Some? && (a.last.None? || a.last.value < b.last.value)
  }

  /** The position of the last entry of the channel. */
  function LastConfirmed(logs: seq<Log>, channel: Channel): Option<nat> {
    if logs == [] then None
    else if logs[|logs| - 1].channel == channel then Some(|logs| - 1)
    else LastConfirmed(logs[..|logs| - 1], channel)
  }

  /** `ipv6` tells which hosts parse as IPv6 addresses. */
  function KeyOf(ipv6: string -> bool, channels: map<Channel, Status>, logs: seq<Log>, channel: Channel): Key
    requires channel in channels
  {
    Key(channels[channel].Available?, ipv6(channel.host), LastConfirmed(logs, channel))
  }

  predicate AllIn(channels: map<Channel, Status>, list: seq<Channel>) {
    forall i :: 0 <= i < |list| ==> list[i] in channels
  }

  predicate Descending(ipv6: string -> bool, channels: map<Channel, Status>, logs: seq<Log>, list: seq<Channel>) {
    && AllIn(channels, list)
    && forall i, j :: 0 <= i < j < |list| ==>
         !Below(KeyOf(ipv6, channels, logs, list[i]), KeyOf(ipv6, channels, logs, list[j]))
  }

  /** Puts a channel behind all that are not below it. */
  method InsertRanked(ipv6: string -> bool, channels: map<Channel, Status>, logs: seq<Log>, list: seq<Channel>,
                      channel: Channel)
    returns (ranked: seq<Channel>)
    requires Descending(ipv6, channels, logs, list) && channel in channels
    ensures Descending(ipv6, channels, logs, ranked)
    ensures multiset(ranked) == multiset(list) + multiset{channel}
  {
    var i := |list|;
    while i > 0 && Below(KeyOf(ipv6, channels, logs, list[i - 1]), KeyOf(ipv6, channels, logs, channel))
      invariant 0 <= i <= |list|
      invariant forall k :: i <= k < |list| ==>
        Below(KeyOf(ipv6, channels, logs, list[k]), KeyOf(ipv6, channels, logs, channel))
    {
      i := i - 1;
    }
    ranked := list[..i] + [channel] + list[i..];
    assert list == list[..i] + list[i..];
    InsertedDescends(ipv6, channels, logs, list, channel, i);
  }

  lemma {:induction false} InsertedDescends(ipv6: string -> bool, channels: map<Channel, Status>, logs: seq<Log>,
                                            list: seq<Channel>,
                         channel: Channel, i: nat)
    requires Descending(ipv6, channels, logs, list) && channel in channels && i <= |list|
    requires i > 0 ==> !Below(KeyOf(ipv6, channels, logs, list[i - 1]), KeyOf(ipv6, channels, logs, channel))
    requires forall k :: i <= k < |list| ==>
      Below(KeyOf(ipv6, channels, logs, list[k]), KeyOf(ipv6, channels, logs, channel))
    ensures Descending(ipv6, channels, logs, list[..i] + [channel] + list[i..])
  {
    hide KeyOf;
    var ranked := list[..i] + [channel] + list[i..];
    forall a, b | 0 <= a < b < |ranked|
      ensures !Below(KeyOf(ipv6, channels, logs, ranked[a]), KeyOf(ipv6, channels, logs, ranked[b]))
    {
      assert ranked[a] == if a < i then list[a] else if a == i then channel else list[a - 1];
      assert ranked[b] == if b < i then list[b] else if b == i then channel else list[b - 1];
      if a < i == b && a < i - 1 {
        assert !Below(KeyOf(ipv6, channels, logs, list[a]), KeyOf(ipv6, channels, logs, list[i - 1]));
      }
    }
  }

  /** get_ranked_channels, whatever order the map is iterated in. */
  method GetRankedChannels(ipv6: string -> bool, known: Known) returns (ranked: seq<Channel>)
    ensures multiset(ranked) == multiset(known.channels.Keys)
    ensures Descending(ipv6, known.channels, known.logs, ranked)
  {
    ranked := [];
    var todo := known.channels.Keys;
    while todo != {}
      invariant todo <= known.channels.Keys
      invariant multiset(ranked) == multiset(known.channels.Keys - todo)
      invariant Descending(ipv6, known.channels, known.logs, ranked)
    {
      var channel :| channel in todo;
      ranked := InsertRanked(ipv6, known.channels, known.logs, ranked, channel);
      assert known.channels.Keys - (todo - {channel}) == known.channels.Keys - todo + {channel};
      todo := todo - {channel};
    }
    assert known.channels.Keys - todo == known.channels.Keys;
  }

  /** `last` is the position of the last entry of the channel. */
  predicate IsLastEntry(logs: seq<Log>, channel: Channel, last: Option<nat>) {
    match last
    case Some(k) =>
      k < |logs| && logs[k].channel == channel && forall j :: k < j < |logs| ==> logs[j].channel != channel
    case None => forall j :: 0 <= j < |logs| ==> logs[j].channel != channel
  }

  lemma {:induction false} LastConfirmedMeaning(logs: seq<Log>, channel: Channel)
    ensures IsLastEntry(logs, channel, LastConfirmed(logs, channel))
    decreases |logs|
  {
    if logs != [] && logs[|logs| - 1].channel != channel {
      LastConfirmedMeaning(logs[..|logs| - 1], channel);
    }
  }

  lemma {:induction false} LastEntryIsUnique(logs: seq<Log>, channel: Channel, a: Option<nat>, b: Option<nat>)
    requires IsLastEntry(logs, channel, a) && IsLastEntry(logs, channel, b)
    ensures a == b
  {
  }

  /** A position in the whole log as seen in the newest entries: moved, or lost with the oldest ones. */
  function Shifted(last: Option<nat>, cut: nat): Option<nat> {
    if last.Some? && last.value >= cut then Some(last.value - cut) else None
  }

  lemma {:induction false} ShiftedIsLastEntry(logs: seq<Log>, channel: Channel, last: Option<nat>, cut: nat)
    requires IsLastEntry(logs, channel, last) && cut <= |logs|
    ensures IsLastEntry(logs[cut..], channel, Shifted(last, cut))
  {
    assert forall j :: 0 <= j < |logs[cut..]| ==> logs[cut..][j] == logs[j + cut];
  }

  lemma {:induction false} LastConfirmedInNewest(logs: seq<Log>, channel: Channel)
    ensures LastConfirmed(Newest(logs), channel) == Shifted(LastConfirmed(logs, channel), |logs| - |Newest(logs)|)
  {
    hide IsLastEntry, LastConfirmed;
    var cut := |logs| - |Newest(logs)|;
    assert Newest(logs) == logs[cut..];
    LastConfirmedMeaning(logs, channel);
    LastConfirmedMeaning(logs[cut..], channel);
    ShiftedIsLastEntry(logs, channel, LastConfirmed(logs, channel), cut);
    var shifted := Shifted(LastConfirmed(logs, channel), cut);
    LastEntryIsUnique(logs[cut..], channel, LastConfirmed(logs[cut..], channel), shifted);
  }

  /**
   * The ranking from the capped log never contradicts the one the whole
   * history would give: dropped confirmations only create ties.
   */
  lemma {:induction false} CapNeverInverts(ipv6: string -> bool, own: seq<Confirmation>,
                                           channels: map<Channel, Status>, a: Channel, b: Channel)
    requires own != [] && a in channels && b in channels
    requires Below(KeyOf(ipv6, channels, KnownAfter(own).logs, a), KeyOf(ipv6, channels, KnownAfter(own).logs, b))
    ensures Below(KeyOf(ipv6, channels, FullLog(own), a), KeyOf(ipv6, channels, FullLog(own), b))
  {
    LogsAreNewest(own);
    LastConfirmedInNewest(FullLog(own), a);
    LastConfirmedInNewest(FullLog(own), b);
  }

  /** Two channels tie exactly if they are in the same class and both were dropped from the log. */
  lemma {:induction false} TiesAreDropped(ipv6: string -> bool, channels: map<Channel, Status>, logs: seq<Log>,
                                          a: Channel, b: Channel)
    requires a in channels && b in channels && a != b
    ensures var x, y := KeyOf(ipv6, channels, logs, a), KeyOf(ipv6, channels, logs, b);
      !Below(x, y) && !Below(y, x) <==>
        x.available == y.available && x.ipv6 == y.ipv6 && x.last.None? && y.last.None?
  {
    LastConfirmedMeaning(logs, a);
    LastConfirmedMeaning(logs, b);
  }

  predicate SameClass(ipv6: string -> bool, channels: map<Channel, Status>, a: Channel, b: Channel)
    requires a in channels && b in channels
  {
    channels[a] == channels[b] && ipv6(a.host) == ipv6(b.host)
  }

  /** The head of the ranking: available if any is, then IPv6 if any is, then the most recent entry kept. */
  lemma {:induction false} BestChannel(ipv6: string -> bool, channels: map<Channel, Status>, logs: seq<Log>,
                                       ranked: seq<Channel>, other: Channel)
    requires Descending(ipv6, channels, logs, ranked) && other in ranked
    ensures var best := ranked[0];
      && (channels[other].Available? ==> channels[best].Available?)
      && (channels[other] == channels[best] && ipv6(other.host) ==> ipv6(best.host))
      && (SameClass(ipv6, channels, other, best) && LastConfirmed(logs, other).Some? ==>
            LastConfirmed(logs, best).Some? && LastConfirmed(logs, other).value <= LastConfirmed(logs, best).value)
  {
    var i :| 0 <= i < |ranked| && ranked[i] == other;
    if i > 0 {
      assert !Below(KeyOf(ipv6, channels, logs, ranked[0]), KeyOf(ipv6, channels, logs, ranked[i]));
    }
  }

  /** In the store every channel is available, so an IPv6 channel comes first if there is any. */
  lemma {:induction false} Ipv6LeadsRanking(ipv6: string -> bool, own: seq<Confirmation>, ranked: seq<Channel>,
                                            channel: Channel)
    requires own != [] && channel in ranked && ipv6(channel.host)
    requires Descending(ipv6, KnownAfter(own).channels, KnownAfter(own).logs, ranked)
    ensures ipv6(ranked[0].host)
  {
    ChannelsAreLastPerHost(own, channel);
    ChannelsAreLastPerHost(own, ranked[0]);
    BestChannel(ipv6, KnownAfter(own).channels, KnownAfter(own).logs, ranked, channel);
  }

  lemma {:induction false} LatestLeadsItsClass(ipv6: string -> bool, own: seq<Confirmation>, ranked: seq<Channel>)
    requires own != []
    requires Descending(ipv6, KnownAfter(own).channels, KnownAfter(own).logs, ranked)
    requires own[|own| - 1].device.channel in ranked
    requires ipv6(own[|own| - 1].device.channel.host) || !ipv6(ranked[0].host)
    ensures ranked[0] == own[|own| - 1].device.channel
  {
    var known, latest := KnownAfter(own), own[|own| - 1].device.channel;
    ChannelsAreLastPerHost(own, latest);
    ChannelsAreLastPerHost(own, ranked[0]);
    LastConfirmedMeaning(known.logs, ranked[0]);
    LatestIsLast(own);
    hide KnownAfter, IsLastOfHost, LastConfirmed;
    BestChannel(ipv6, known.channels, known.logs, ranked, latest);
  }

  lemma {:induction false} LatestIsRanked(own: seq<Confirmation>, ranked: seq<Channel>)
    requires own != [] && multiset(ranked) == multiset(KnownAfter(own).channels.Keys)
    ensures own[|own| - 1].device.channel in ranked
  {
    var latest := own[|own| - 1].device.channel;
    IsLastOfHostNext(own, latest);
    ChannelsAreLastPerHost(own, latest);
    assert latest in multiset(ranked);
  }

  /** The best channel is the one just confirmed, unless that one is IPv4 and an IPv6 channel is known. */
  lemma {:induction false} LatestIsBestIff(ipv6: string -> bool, own: seq<Confirmation>, ranked: seq<Channel>)
    requires own != []
    requires multiset(ranked) == multiset(KnownAfter(own).channels.Keys)
    requires Descending(ipv6, KnownAfter(own).channels, KnownAfter(own).logs, ranked)
    ensures var latest := own[|own| - 1].device.channel;
      && ranked != []
      && (ranked[0] == latest <==> ipv6(latest.host) || forall channel :: channel in ranked ==> !ipv6(channel.host))
  {
    hide KnownAfter, Descending;
    var latest := own[|own| - 1].device.channel;
    LatestIsRanked(own, ranked);
    assert ranked[0] in ranked;
    if ipv6(latest.host) || !ipv6(ranked[0].host) {
      LatestLeadsItsClass(ipv6, own, ranked);
    }
    if channel :| channel in ranked && ipv6(channel.host) {
      Ipv6LeadsRanking(ipv6, own, ranked, channel);
    }
  }

  lemma {:induction false} LatestIsLast(own: seq<Confirmation>)
    requires own != []
    ensures var latest, logs := own[|own| - 1].device.channel, KnownAfter(own).logs;
      logs != [] && LastConfirmed(logs, latest) == Some(|logs| - 1) && logs[|logs| - 1].channel == latest
  {
    LogsAreNewest(own);
  }
}
