/**
 * Room membership of the signaling server (ws_controller.rs). Rooms, request
 * counts and the decision whom to tell are computed while holding a lock; one
 * step is one such block, and `inbox` holds the messages addressed to each
 * peer in that order.
 */
module Signaling {
  type Group = string
  type PeerId = nat
  type Info = string
  type Room = map<PeerId, Info>

  datatype Limits = Limits(maxConnections: nat, maxRequests: nat)

  datatype Message =
    | Hello(client: Info, peers: Room)
    | Join(peer: PeerId, info: Info)
    | Update(peer: PeerId, info: Info)
    | Left(peer: PeerId)
    | Relay(origin: PeerId, info: Info, sdp: string)

  /** A connected handler knows its group and the client info it was opened with. */
  datatype Handler = Handler(group: Group, info: Info)

  datatype Hub = Hub(
    rooms: map<Group, Room>,
    counts: map<Group, nat>,
    inbox: map<PeerId, seq<Message>>,
    handlers: map<PeerId, Handler>)

  const EMPTY: Hub := Hub(map[], map[], map[], map[])

  function RoomOf(rooms: map<Group, Room>, group: Group): Room {
    if group in rooms then rooms[group] else map[]
  }

  function CountOf(counts: map<Group, nat>, group: Group): nat {
    if group in counts then counts[group] else 0
  }

  function Tell(inbox: map<PeerId, seq<Message>>, peers: set<PeerId>, message: Message): map<PeerId, seq<Message>> {
    map p | p in inbox :: if p in peers then inbox[p] + [message] else inbox[p]
  }

  predicate Admitted(limits: Limits, h: Hub, group: Group) {
    |RoomOf(h.rooms, group)| < limits.maxConnections && CountOf(h.counts, group) < limits.maxRequests
  }

  function DoConnect(h: Hub, group: Group, p: PeerId, info: Info): Hub {
    var room := RoomOf(h.rooms, group);
    h.(rooms := h.rooms[group := room[p := info]],
       inbox := Tell(h.inbox, room.Keys, Join(p, info))[p := [Hello(info, room)]],
       handlers := h.handlers[p := Handler(group, info)])
  }

  /** The join block; a refused connection still creates the room and may use up a request. */
  function Connect(limits: Limits, h: Hub, group: Group, p: PeerId, info: Info): Hub {
    var room := RoomOf(h.rooms, group);
    var entered := h.(rooms := h.rooms[group := room]);
    if |room| >= limits.maxConnections then entered
    else CountRequest(limits, if Admitted(limits, h, group) then DoConnect(entered, group, p, info) else entered, group)
  }

  /** protect_ddos_request_count. */
  function CountRequest(limits: Limits, h: Hub, group: Group): Hub {
    var count := CountOf(h.counts, group);
    h.(counts := h.counts[group := if count >= limits.maxRequests then count else count + 1])
  }

  /** The rooms with one of them replaced; an emptied room is removed. */
  function RoomsWithout(rooms: map<Group, Room>, group: Group, room: Room): map<Group, Room> {
    if room == map[] then rooms - {group} else rooms[group := room]
  }

  /** The leave block, run once when a handler ends. */
  function Disconnect(h: Hub, p: PeerId): Hub
    requires p in h.handlers
  {
    var group := h.handlers[p].group;
    var room := RoomOf(h.rooms, group) - {p};
    h.(rooms := RoomsWithout(h.rooms, group, room),
       inbox := Tell(h.inbox, room.Keys, Left(p)),
       handlers := h.handlers - {p})
  }

  function ChangeInfo(h: Hub, p: PeerId, info: Info): Hub
    requires p in h.handlers
  {
    var group := h.handlers[p].group;
    var room := RoomOf(h.rooms, group);
    if p !in room then h
    else h.(rooms := h.rooms[group := room[p := info]], inbox := Tell(h.inbox, room.Keys - {p}, Update(p, info)))
  }

  /** Offers and answers carry the info the sender connected with, also after an update. */
  function SendToPeer(h: Hub, p: PeerId, target: PeerId, sdp: string): Hub
    requires p in h.handlers
  {
    if target !in RoomOf(h.rooms, h.handlers[p].group) then h
    else h.(inbox := Tell(h.inbox, {target}, Relay(p, h.handlers[p].info, sdp)))
  }

  datatype Step =
    | Connecting(group: Group, p: PeerId, info: Info)
    | Requesting(p: PeerId)
    | ChangingInfo(p: PeerId, info: Info)
    | Sending(p: PeerId, target: PeerId, sdp: string)
    | Disconnecting(p: PeerId)
    | ResettingCounts

  /** Peer ids are fresh UUIDs; only connected handlers take further steps. */
  function Apply(limits: Limits, h: Hub, step: Step): Hub {
    match step
    case Connecting(group, p, info) => if p !in h.inbox then Connect(limits, h, group, p, info) else h
    case Requesting(p) => if p in h.handlers then CountRequest(limits, h, h.handlers[p].group) else h
    case ChangingInfo(p, info) => if p in h.handlers then ChangeInfo(h, p, info) else h
    case Sending(p, target, sdp) => if p in h.handlers then SendToPeer(h, p, target, sdp) else h
    case Disconnecting(p) => if p in h.handlers then Disconnect(h, p) else h
    case ResettingCounts => h.(counts := map[])
  }

  function Run(limits: Limits, run: seq<Step>): Hub
    decreases |run|
  {
    if run == [] then EMPTY else Apply(limits, Run(limits, run[..|run| - 1]), run[|run| - 1])
  }

  // What a client knows

  function Learn(view: Room, message: Message): Room {
    match message
    case Hello(_, peers) => peers
    case Join(peer, info) => view[peer := info]
    case Update(peer, info) => view[peer := info]
    case Left(peer) => view - {peer}
    case Relay(_, _, _) => view
  }

  /** The peers a client knows after the messages addressed to it. */
  function View(messages: seq<Message>): Room {
    if messages == [] then map[] else Learn(View(messages[..|messages| - 1]), messages[|messages| - 1])
  }

  function Others(rooms: map<Group, Room>, group: Group, p: PeerId): Room {
    RoomOf(rooms, group) - {p}
  }

  /** How a peer heard of another one: in its first message, or by a later Join. */
  predicate BySnapshot(messages: seq<Message>, q: PeerId) {
    messages != [] && messages[0].Hello? && q in messages[0].peers
  }

  function Joins(messages: seq<Message>, q: PeerId): nat {
    if messages == [] then 0
    else
      var last := messages[|messages| - 1];
      Joins(messages[..|messages| - 1], q) + if last.Join? && last.peer == q then 1 else 0
  }

  /** `p` was there first: it was told that `q` joined, and `q` found it in the snapshot. */
  predicate Introduced(inbox: map<PeerId, seq<Message>>, p: PeerId, q: PeerId)
    requires p in inbox && q in inbox
  {
    && Joins(inbox[p], q) == 1 && !BySnapshot(inbox[p], q)
    && Joins(inbox[q], p) == 0 && BySnapshot(inbox[q], p)
  }

  predicate Coresident(handlers: map<PeerId, Handler>, p: PeerId, q: PeerId) {
    p in handlers && q in handlers && p != q && handlers[p].group == handlers[q].group
  }

  // Invariant

  /** A handler is connected exactly while its peer is in the room of its group. */
  ghost predicate Seated(rooms: map<Group, Room>, handlers: map<PeerId, Handler>) {
    forall group, p :: p in RoomOf(rooms, group) <==> p in handlers && handlers[p].group == group
  }

  ghost predicate Addressed(inbox: map<PeerId, seq<Message>>, handlers: map<PeerId, Handler>) {
    forall p :: p in handlers ==> p in inbox && inbox[p] != []
  }

  ghost predicate Replicated(rooms: map<Group, Room>, inbox: map<PeerId, seq<Message>>,
                             handlers: map<PeerId, Handler>) {
    forall p :: p in handlers && p in inbox ==> View(inbox[p]) == Others(rooms, handlers[p].group, p)
  }

  ghost predicate Acquainted(inbox: map<PeerId, seq<Message>>, handlers: map<PeerId, Handler>) {
    forall p, q :: Coresident(handlers, p, q) && p in inbox && q in inbox ==>
      Introduced(inbox, p, q) || Introduced(inbox, q, p)
  }

  ghost predicate OnlyPastPeers(inbox: map<PeerId, seq<Message>>) {
    forall p, q :: p in inbox && q !in inbox ==> Joins(inbox[p], q) == 0 && !BySnapshot(inbox[p], q)
  }

  ghost predicate WithinLimits(limits: Limits, rooms: map<Group, Room>, counts: map<Group, nat>) {
    && (forall group :: group in rooms ==> |rooms[group]| <= limits.maxConnections)
    && (forall group :: group in counts ==> counts[group] <= limits.maxRequests)
  }

  ghost predicate Inv(limits: Limits, h: Hub) {
    && Seated(h.rooms, h.handlers)
    && Addressed(h.inbox, h.handlers)
    && Replicated(h.rooms, h.inbox, h.handlers)
    && Acquainted(h.inbox, h.handlers)
    && OnlyPastPeers(h.inbox)
    && WithinLimits(limits, h.rooms, h.counts)
  }

  lemma {:induction false} LearnLast(messages: seq<Message>, message: Message, q: PeerId)
    ensures View(messages + [message]) == Learn(View(messages), message)
    ensures Joins(messages + [message], q) == Joins(messages, q) + if message.Join? && message.peer == q then 1 else 0
    ensures messages != [] ==> BySnapshot(messages + [message], q) == BySnapshot(messages, q)
  {
    assert (messages + [message])[..|messages|] == messages;
  }

  /** Telling anything but a Join changes nobody's introductions. */
  lemma TellKeepsAcquainted(inbox: map<PeerId, seq<Message>>, handlers: map<PeerId, Handler>, peers: set<PeerId>,
                            message: Message)
    requires Addressed(inbox, handlers) && Acquainted(inbox, handlers) && OnlyPastPeers(inbox) && !message.Join?
    requires !message.Hello?
    ensures Acquainted(Tell(inbox, peers, message), handlers) && OnlyPastPeers(Tell(inbox, peers, message))
  {
    var told := Tell(inbox, peers, message);
    forall p, q | p in inbox
      ensures Joins(told[p], q) == Joins(inbox[p], q)
      ensures BySnapshot(told[p], q) == BySnapshot(inbox[p], q)
    {
      LearnLast(inbox[p], message, q);
    }
  }

  lemma SeatsAfterConnect(rooms: map<Group, Room>, handlers: map<PeerId, Handler>, group: Group, p: PeerId, info: Info)
    requires Seated(rooms, handlers) && p !in handlers
    ensures Seated(rooms[group := RoomOf(rooms, group)[p := info]], handlers[p := Handler(group, info)])
  {
    var after := rooms[group := RoomOf(rooms, group)[p := info]];
    forall g, q ensures q in RoomOf(after, g) <==> q in RoomOf(rooms, g) || (g == group && q == p) {
    }
  }

  lemma ToldInbox(inbox: map<PeerId, seq<Message>>, peers: set<PeerId>, message: Message, p: PeerId)
    requires p in inbox
    ensures var told := Tell(inbox, peers, message);
      p in told && told[p] == if p in peers then inbox[p] + [message] else inbox[p]
  {
  }

  lemma TellKeepsAddressed(inbox: map<PeerId, seq<Message>>, handlers: map<PeerId, Handler>, peers: set<PeerId>,
                           message: Message)
    requires Addressed(inbox, handlers)
    ensures Addressed(Tell(inbox, peers, message), handlers)
  {
  }

  lemma {:induction false} HeardJoin(room: Room, messages: seq<Message>, q: PeerId, p: PeerId, info: Info)
    requires q != p && View(messages) == room - {q}
    ensures View(messages + [Join(p, info)]) == room[p := info] - {q}
  {
    LearnLast(messages, Join(p, info), p);
    assert room[p := info] - {q} == (room - {q})[p := info];
  }

  lemma HeardHello(room: Room, p: PeerId, info: Info)
    requires p !in room
    ensures View([Hello(info, room)]) == room[p := info] - {p}
  {
    LearnLast([], Hello(info, room), p);
    assert [] + [Hello(info, room)] == [Hello(info, room)];
    assert room[p := info] - {p} == room;
  }

  lemma ConnectKeepsReplicas(h: Hub, group: Group, p: PeerId, info: Info)
    requires Seated(h.rooms, h.handlers) && Addressed(h.inbox, h.handlers) && Replicated(h.rooms, h.inbox, h.handlers)
    requires p !in h.inbox
    ensures var t := DoConnect(h, group, p, info); Replicated(t.rooms, t.inbox, t.handlers)
  {
    hide Tell, View;
    var t := DoConnect(h, group, p, info);
    var room := RoomOf(h.rooms, group);
    forall q | q in t.handlers && q in t.inbox ensures View(t.inbox[q]) == Others(t.rooms, t.handlers[q].group, q) {
      if q == p {
        assert p !in room;
        HeardHello(room, p, info);
      } else {
        assert q in h.handlers && q in h.inbox;
        ToldInbox(h.inbox, room.Keys, Join(p, info), q);
        if h.handlers[q].group == group {
          assert q in room;
          HeardJoin(room, h.inbox[q], q, p, info);
        } else {
          assert q !in room;
        }
      }
    }
  }

  lemma {:induction false} JoinsAfterConnect(h: Hub, group: Group, p: PeerId, info: Info, a: PeerId, b: PeerId)
    requires a in h.inbox && p !in h.inbox
    ensures var t, room := DoConnect(h, group, p, info), RoomOf(h.rooms, group);
      && a in t.inbox
      && Joins(t.inbox[a], b) == Joins(h.inbox[a], b) + (if a in room && b == p then 1 else 0)
      && (h.inbox[a] != [] || a !in room ==> BySnapshot(t.inbox[a], b) == BySnapshot(h.inbox[a], b))
  {
    hide Tell, BySnapshot, Joins;
    ToldInbox(h.inbox, RoomOf(h.rooms, group).Keys, Join(p, info), a);
    LearnLast(h.inbox[a], Join(p, info), b);
  }

  lemma {:induction false} NewcomerKnows(info: Info, room: Room, q: PeerId)
    ensures Joins([Hello(info, room)], q) == 0 && (BySnapshot([Hello(info, room)], q) <==> q in room)
  {
    LearnLast([], Hello(info, room), q);
    assert [] + [Hello(info, room)] == [Hello(info, room)];
  }

  lemma ConnectKeepsAcquainted(h: Hub, group: Group, p: PeerId, info: Info)
    requires Seated(h.rooms, h.handlers) && Addressed(h.inbox, h.handlers)
    requires Acquainted(h.inbox, h.handlers) && OnlyPastPeers(h.inbox) && p !in h.inbox
    ensures var t := DoConnect(h, group, p, info); Acquainted(t.inbox, t.handlers)
  {
    hide DoConnect, Joins, BySnapshot, View;
    var t := DoConnect(h, group, p, info);
    ConnectedParts(h, group, p, info);
    forall a, b | Coresident(t.handlers, a, b) && a in t.inbox && b in t.inbox
      ensures Introduced(t.inbox, a, b) || Introduced(t.inbox, b, a)
    {
      if a == p {
        MeetNewcomer(h, group, p, info, b);
      } else if b == p {
        MeetNewcomer(h, group, p, info, a);
      } else {
        assert Coresident(h.handlers, a, b);
        JoinsAfterConnect(h, group, p, info, a, b);
        JoinsAfterConnect(h, group, p, info, b, a);
      }
    }
  }

  lemma ConnectedParts(h: Hub, group: Group, p: PeerId, info: Info)
    requires p !in h.inbox
    ensures var t := DoConnect(h, group, p, info);
      && t.handlers == h.handlers[p := Handler(group, info)]
      && t.inbox.Keys == h.inbox.Keys + {p}
      && t.inbox[p] == [Hello(info, RoomOf(h.rooms, group))]
  {
  }

  lemma MeetNewcomer(h: Hub, group: Group, p: PeerId, info: Info, q: PeerId)
    requires Seated(h.rooms, h.handlers) && Addressed(h.inbox, h.handlers) && OnlyPastPeers(h.inbox) && p !in h.inbox
    requires q in h.handlers && h.handlers[q].group == group
    ensures var t := DoConnect(h, group, p, info);
      p in t.inbox && q in t.inbox && Introduced(t.inbox, q, p)
  {
    hide DoConnect, Joins, BySnapshot, View;
    ConnectedParts(h, group, p, info);
    JoinsAfterConnect(h, group, p, info, q, p);
    NewcomerKnows(info, RoomOf(h.rooms, group), q);
  }

  lemma ConnectKeepsPast(h: Hub, group: Group, p: PeerId, info: Info)
    requires Seated(h.rooms, h.handlers) && Addressed(h.inbox, h.handlers) && OnlyPastPeers(h.inbox) && p !in h.inbox
    ensures OnlyPastPeers(DoConnect(h, group, p, info).inbox)
  {
    hide DoConnect, Joins, BySnapshot, View;
    var t := DoConnect(h, group, p, info);
    ConnectedParts(h, group, p, info);
    forall a, b | a in t.inbox && b !in t.inbox ensures Joins(t.inbox[a], b) == 0 && !BySnapshot(t.inbox[a], b) {
      if a == p {
        NewcomerKnows(info, RoomOf(h.rooms, group), b);
        assert b !in RoomOf(h.rooms, group);
      } else {
        JoinsAfterConnect(h, group, p, info, a, b);
        assert a in RoomOf(h.rooms, group) ==> h.inbox[a] != [];
      }
    }
  }

  lemma SizesAfter(limits: Limits, rooms: map<Group, Room>, counts: map<Group, nat>, group: Group, room: Room)
    requires WithinLimits(limits, rooms, counts) && |room| <= limits.maxConnections
    ensures WithinLimits(limits, rooms[group := room], counts)
  {
  }

  lemma RoomAfterInsert(room: Room, p: PeerId, info: Info)
    ensures |room[p := info]| <= |room| + 1
    ensures p in room ==> |room[p := info]| == |room|
  {
    assert room[p := info].Keys == room.Keys + {p};
    if p in room {
      assert room.Keys + {p} == room.Keys;
    }
  }

  lemma RoomAfterRemove(room: Room, p: PeerId)
    ensures |room - {p}| <= |room|
  {
    assert (room - {p}).Keys == room.Keys - {p};
  }

  lemma DoConnectKeeps(limits: Limits, h: Hub, group: Group, p: PeerId, info: Info)
    requires Inv(limits, h) && p !in h.inbox && |RoomOf(h.rooms, group)| < limits.maxConnections
    ensures Inv(limits, DoConnect(h, group, p, info))
  {
    assert Addressed(DoConnect(h, group, p, info).inbox, DoConnect(h, group, p, info).handlers) by {
      TellKeepsAddressed(h.inbox, h.handlers, RoomOf(h.rooms, group).Keys, Join(p, info));
      hide Tell, Seated, Replicated, Acquainted, OnlyPastPeers, WithinLimits;
    }
    assert p !in h.handlers;
    hide Seated, Replicated, Acquainted, OnlyPastPeers, WithinLimits, Addressed, Tell;
    SeatsAfterConnect(h.rooms, h.handlers, group, p, info);
    ConnectKeepsReplicas(h, group, p, info);
    ConnectKeepsAcquainted(h, group, p, info);
    ConnectKeepsPast(h, group, p, info);
    RoomAfterInsert(RoomOf(h.rooms, group), p, info);
    SizesAfter(limits, h.rooms, h.counts, group, RoomOf(h.rooms, group)[p := info]);
  }

  /** Creating an empty room entry changes nothing but the set of entries. */
  lemma EnterKeeps(limits: Limits, h: Hub, group: Group)
    requires Inv(limits, h)
    ensures Inv(limits, h.(rooms := h.rooms[group := RoomOf(h.rooms, group)]))
  {
    hide Acquainted, OnlyPastPeers, Addressed, View;
    var rooms := h.rooms[group := RoomOf(h.rooms, group)];
    forall g ensures RoomOf(rooms, g) == RoomOf(h.rooms, g) {
    }
  }

  lemma CountKeeps(limits: Limits, h: Hub, group: Group)
    requires Inv(limits, h)
    ensures Inv(limits, CountRequest(limits, h, group))
  {
    hide Seated, Replicated, Acquainted, OnlyPastPeers, Addressed;
  }

  lemma ConnectKeeps(limits: Limits, h: Hub, group: Group, p: PeerId, info: Info)
    requires Inv(limits, h) && p !in h.inbox
    ensures Inv(limits, Connect(limits, h, group, p, info))
  {
    hide Inv, DoConnect, CountRequest;
    EnterKeeps(limits, h, group);
    var entered := h.(rooms := h.rooms[group := RoomOf(h.rooms, group)]);
    if Admitted(limits, h, group) {
      DoConnectKeeps(limits, entered, group, p, info);
      CountKeeps(limits, DoConnect(entered, group, p, info), group);
    } else {
      CountKeeps(limits, entered, group);
    }
  }

  // Updates, departures and relayed messages

  lemma {:induction false} HeardUpdate(room: Room, messages: seq<Message>, q: PeerId, p: PeerId, info: Info)
    requires q != p && View(messages) == room - {q}
    ensures View(messages + [Update(p, info)]) == room[p := info] - {q}
  {
    LearnLast(messages, Update(p, info), p);
    assert room[p := info] - {q} == (room - {q})[p := info];
  }

  lemma {:induction false} HeardLeft(room: Room, messages: seq<Message>, q: PeerId, p: PeerId)
    requires View(messages) == room - {q}
    ensures View(messages + [Left(p)]) == room - {p} - {q}
  {
    LearnLast(messages, Left(p), p);
    assert room - {p} - {q} == room - {q} - {p};
  }

  lemma UpdateKeepsReplicas(h: Hub, p: PeerId, info: Info)
    requires Seated(h.rooms, h.handlers) && Addressed(h.inbox, h.handlers) && Replicated(h.rooms, h.inbox, h.handlers)
    requires p in h.handlers
    ensures var t := ChangeInfo(h, p, info); Replicated(t.rooms, t.inbox, t.handlers)
  {
    hide Tell, View;
    var t := ChangeInfo(h, p, info);
    var group := h.handlers[p].group;
    var room := RoomOf(h.rooms, group);
    forall q | q in h.handlers && q in t.inbox ensures View(t.inbox[q]) == Others(t.rooms, h.handlers[q].group, q) {
      ToldInbox(h.inbox, room.Keys - {p}, Update(p, info), q);
      if q == p {
        assert room[p := info] - {p} == room - {p};
      } else if h.handlers[q].group == group {
        assert q in room;
        HeardUpdate(room, h.inbox[q], q, p, info);
      } else {
        assert q !in room;
      }
    }
  }

  lemma SeatsAfterUpdate(rooms: map<Group, Room>, handlers: map<PeerId, Handler>, group: Group, p: PeerId, info: Info)
    requires Seated(rooms, handlers) && p in RoomOf(rooms, group)
    ensures Seated(rooms[group := RoomOf(rooms, group)[p := info]], handlers)
  {
    var after := rooms[group := RoomOf(rooms, group)[p := info]];
    forall g, q ensures q in RoomOf(after, g) <==> q in RoomOf(rooms, g) {
    }
  }

  lemma UpdateKeeps(limits: Limits, h: Hub, p: PeerId, info: Info)
    requires Inv(limits, h) && p in h.handlers
    ensures Inv(limits, ChangeInfo(h, p, info))
  {
    var group := h.handlers[p].group;
    var room := RoomOf(h.rooms, group);
    if p in room {
      assert |room| <= limits.maxConnections;
      hide Seated, Replicated, Acquainted, OnlyPastPeers, WithinLimits, Addressed, Tell;
      SeatsAfterUpdate(h.rooms, h.handlers, group, p, info);
      UpdateKeepsReplicas(h, p, info);
      TellKeepsAddressed(h.inbox, h.handlers, room.Keys - {p}, Update(p, info));
      TellKeepsAcquainted(h.inbox, h.handlers, room.Keys - {p}, Update(p, info));
      RoomAfterInsert(room, p, info);
      SizesAfter(limits, h.rooms, h.counts, group, room[p := info]);
    }
  }

  lemma SeatsAfterLeave(rooms: map<Group, Room>, handlers: map<PeerId, Handler>, p: PeerId)
    requires Seated(rooms, handlers) && p in handlers
    ensures var group := handlers[p].group;
      Seated(RoomsWithout(rooms, group, RoomOf(rooms, group) - {p}), handlers - {p})
  {
    var group := handlers[p].group;
    var after := RoomsWithout(rooms, group, RoomOf(rooms, group) - {p});
    forall g, q ensures q in RoomOf(after, g) <==> q in RoomOf(rooms, g) && !(g == group && q == p) {
      assert q in RoomOf(rooms, group) && q != p ==> q in RoomOf(rooms, group) - {p};
    }
  }

  lemma LeaveKeepsReplicas(h: Hub, p: PeerId)
    requires Seated(h.rooms, h.handlers) && Addressed(h.inbox, h.handlers) && Replicated(h.rooms, h.inbox, h.handlers)
    requires p in h.handlers
    ensures var t := Disconnect(h, p); Replicated(t.rooms, t.inbox, t.handlers)
  {
    hide Tell, View;
    var t := Disconnect(h, p);
    var group := h.handlers[p].group;
    var room := RoomOf(h.rooms, group);
    forall q | q in t.handlers && q in t.inbox ensures View(t.inbox[q]) == Others(t.rooms, h.handlers[q].group, q) {
      ToldInbox(h.inbox, (room - {p}).Keys, Left(p), q);
      if h.handlers[q].group == group {
        assert q in room - {p};
        HeardLeft(room, h.inbox[q], q, p);
      } else {
        assert q !in room;
      }
    }
  }

  lemma LeaveKeepsOthers(inbox: map<PeerId, seq<Message>>, handlers: map<PeerId, Handler>, p: PeerId)
    requires Addressed(inbox, handlers) && Acquainted(inbox, handlers)
    ensures Addressed(inbox, handlers - {p}) && Acquainted(inbox, handlers - {p})
  {
    forall a, b | Coresident(handlers - {p}, a, b) ensures Coresident(handlers, a, b) {
    }
  }

  lemma SizesAfterLeave(limits: Limits, rooms: map<Group, Room>, counts: map<Group, nat>, group: Group, p: PeerId)
    requires WithinLimits(limits, rooms, counts)
    ensures WithinLimits(limits, RoomsWithout(rooms, group, RoomOf(rooms, group) - {p}), counts)
  {
    RoomAfterRemove(RoomOf(rooms, group), p);
  }

  lemma LeaveKeeps(limits: Limits, h: Hub, p: PeerId)
    requires Inv(limits, h) && p in h.handlers
    ensures Inv(limits, Disconnect(h, p))
  {
    hide Seated, Replicated, Acquainted, OnlyPastPeers, WithinLimits, Addressed, Tell;
    var group := h.handlers[p].group;
    var room := RoomOf(h.rooms, group) - {p};
    SeatsAfterLeave(h.rooms, h.handlers, p);
    LeaveKeepsReplicas(h, p);
    TellKeepsAddressed(h.inbox, h.handlers, room.Keys, Left(p));
    TellKeepsAcquainted(h.inbox, h.handlers, room.Keys, Left(p));
    LeaveKeepsOthers(Tell(h.inbox, room.Keys, Left(p)), h.handlers, p);
    SizesAfterLeave(limits, h.rooms, h.counts, group, p);
  }

  lemma RelayKeepsReplicas(h: Hub, peers: set<PeerId>, message: Message)
    requires Replicated(h.rooms, h.inbox, h.handlers) && message.Relay?
    ensures Replicated(h.rooms, Tell(h.inbox, peers, message), h.handlers)
  {
    hide View;
    forall q | q in h.inbox ensures View(Tell(h.inbox, peers, message)[q]) == View(h.inbox[q]) {
      LearnLast(h.inbox[q], message, q);
    }
  }

  lemma RelayKeeps(limits: Limits, h: Hub, p: PeerId, target: PeerId, sdp: string)
    requires Inv(limits, h) && p in h.handlers
    ensures Inv(limits, SendToPeer(h, p, target, sdp))
  {
    hide Seated, Replicated, Acquainted, OnlyPastPeers, WithinLimits, Addressed, Tell;
    var message := Relay(p, h.handlers[p].info, sdp);
    TellKeepsAddressed(h.inbox, h.handlers, {target}, message);
    TellKeepsAcquainted(h.inbox, h.handlers, {target}, message);
    RelayKeepsReplicas(h, {target}, message);
  }

  lemma StepKeeps(limits: Limits, h: Hub, step: Step)
    requires Inv(limits, h)
    ensures Inv(limits, Apply(limits, h, step))
  {
    hide Connect, CountRequest, ChangeInfo, SendToPeer, Disconnect;
    hide Seated, Replicated, Acquainted, OnlyPastPeers, Addressed;
    match step {
      case Connecting(group, p, info) => if p !in h.inbox { ConnectKeeps(limits, h, group, p, info); }
      case Requesting(p) => if p in h.handlers { CountKeeps(limits, h, h.handlers[p].group); }
      case ChangingInfo(p, info) => if p in h.handlers { UpdateKeeps(limits, h, p, info); }
      case Sending(p, target, sdp) => if p in h.handlers { RelayKeeps(limits, h, p, target, sdp); }
      case Disconnecting(p) => if p in h.handlers { LeaveKeeps(limits, h, p); }
      case ResettingCounts =>
    }
  }

  lemma {:induction false} ReachableInv(limits: Limits, run: seq<Step>)
    ensures Inv(limits, Run(limits, run))
    decreases |run|
  {
    if run != [] {
      hide Inv, Apply;
      ReachableInv(limits, run[..|run| - 1]);
      StepKeeps(limits, Run(limits, run[..|run| - 1]), run[|run| - 1]);
    }
  }

  // Theorems

  /** What a connected peer was told adds up to its room without itself, with everybody's current info. */
  lemma {:induction false} MembershipIsExact(limits: Limits, run: seq<Step>, p: PeerId)
    requires p in Run(limits, run).handlers
    ensures var h := Run(limits, run);
      && p in h.inbox
      && View(h.inbox[p]) == RoomOf(h.rooms, h.handlers[p].group) - {p}
      && p in RoomOf(h.rooms, h.handlers[p].group)
  {
    ReachableInv(limits, run);
    hide Run, View;
  }

  /** Of two peers in one room exactly one found the other in its snapshot, and the other was told by one Join. */
  lemma {:induction false} IntroducedExactlyOnce(limits: Limits, run: seq<Step>, p: PeerId, q: PeerId)
    requires Coresident(Run(limits, run).handlers, p, q)
    ensures var h := Run(limits, run);
      && p in h.inbox && q in h.inbox
      && (Introduced(h.inbox, p, q) <==> !Introduced(h.inbox, q, p))
  {
    ReachableInv(limits, run);
    hide Run, View, Joins;
  }

  /** No room exceeds the limit and nobody is in two rooms. */
  lemma {:induction false} RoomsAreBounded(limits: Limits, run: seq<Step>, group: Group, other: Group)
    ensures var h := Run(limits, run);
      && |RoomOf(h.rooms, group)| <= limits.maxConnections
      && CountOf(h.counts, group) <= limits.maxRequests
      && (group != other ==> RoomOf(h.rooms, group).Keys !! RoomOf(h.rooms, other).Keys)
  {
    ReachableInv(limits, run);
    hide Run, View, Joins;
    var rooms := Run(limits, run).rooms;
    assert group !in rooms ==> |RoomOf(rooms, group)| == 0;
    SeatedApart(rooms, Run(limits, run).handlers, group, other);
  }

  lemma SeatedApart(rooms: map<Group, Room>, handlers: map<PeerId, Handler>, group: Group, other: Group)
    requires Seated(rooms, handlers)
    ensures group != other ==> RoomOf(rooms, group).Keys !! RoomOf(rooms, other).Keys
  {
    forall p | p in RoomOf(rooms, group) ensures group != other ==> p !in RoomOf(rooms, other) {
      assert handlers[p].group == group;
    }
  }

  // Offers and answers

  /** The offers and answers among the messages of a peer. */
  function Relays(messages: seq<Message>): seq<Message> {
    if messages == [] then []
    else
      var last := messages[|messages| - 1];
      Relays(messages[..|messages| - 1]) + if last.Relay? then [last] else []
  }

  /** The step sends an offer or answer to `p` while sender and `p` are connected to the same room. */
  predicate SendsTo(h: Hub, step: Step, p: PeerId) {
    && step.Sending? && step.target == p
    && step.p in h.handlers && p in h.handlers && h.handlers[step.p].group == h.handlers[p].group
  }

  /** What was sent to `p` over the run, in order, with the info each sender connected with. */
  function SentTo(limits: Limits, run: seq<Step>, p: PeerId): seq<Message> {
    if run == [] then []
    else
      var before, step := run[..|run| - 1], run[|run| - 1];
      var h := Run(limits, before);
      SentTo(limits, before, p)
      + if SendsTo(h, step, p) then [Relay(step.p, h.handlers[step.p].info, step.sdp)] else []
  }

  function RelaysOf(inbox: map<PeerId, seq<Message>>, p: PeerId): seq<Message> {
    if p in inbox then Relays(inbox[p]) else []
  }

  lemma {:induction false} RelaysNext(messages: seq<Message>, message: Message)
    ensures Relays(messages + [message]) == Relays(messages) + if message.Relay? then [message] else []
  {
    assert (messages + [message])[..|messages|] == messages;
  }

  lemma {:induction false} TellKeepsRelays(inbox: map<PeerId, seq<Message>>, peers: set<PeerId>, message: Message,
                                           p: PeerId)
    requires !message.Relay?
    ensures RelaysOf(Tell(inbox, peers, message), p) == RelaysOf(inbox, p)
  {
    if p in inbox {
      RelaysNext(inbox[p], message);
    }
  }

  lemma {:induction false} NothingRelayed(info: Info, room: Room)
    ensures Relays([Hello(info, room)]) == []
  {
    assert [Hello(info, room)][..0] == [];
  }

  /**
   * A relayed message grows the inbox of its target by exactly that message,
   * if the target is in the sender's room. Every other inbox stays as it is.
   */
  lemma RelayReachesTarget(limits: Limits, h: Hub, p: PeerId, target: PeerId, sdp: string)
    requires p in h.handlers
    ensures var t := Apply(limits, h, Sending(p, target, sdp));
      && t == h.(inbox := t.inbox) && t.inbox.Keys == h.inbox.Keys
      && forall q :: q in h.inbox ==>
           t.inbox[q] ==
           if q == target && target in RoomOf(h.rooms, h.handlers[p].group)
           then h.inbox[q] + [Relay(p, h.handlers[p].info, sdp)] else h.inbox[q]
  {
  }

  lemma {:induction false} ConnectKeepsRelays(limits: Limits, h: Hub, group: Group, p: PeerId, info: Info, q: PeerId)
    requires p !in h.inbox
    ensures RelaysOf(Connect(limits, h, group, p, info).inbox, q) == RelaysOf(h.inbox, q)
  {
    hide Tell, Relays, Admitted;
    var room := RoomOf(h.rooms, group);
    TellKeepsRelays(h.inbox, room.Keys, Join(p, info), q);
    NothingRelayed(info, room);
  }

  lemma {:induction false} OtherStepKeepsRelays(limits: Limits, h: Hub, step: Step, q: PeerId)
    requires !step.Sending?
    ensures RelaysOf(Apply(limits, h, step).inbox, q) == RelaysOf(h.inbox, q)
  {
    hide Tell, RelaysOf, Connect;
    match step {
      case Connecting(group, p, info) => if p !in h.inbox { ConnectKeepsRelays(limits, h, group, p, info, q); }
      case ChangingInfo(p, info) =>
        if p in h.handlers {
          TellKeepsRelays(h.inbox, RoomOf(h.rooms, h.handlers[p].group).Keys - {p}, Update(p, info), q);
        }
      case Disconnecting(p) =>
        if p in h.handlers {
          TellKeepsRelays(h.inbox, (RoomOf(h.rooms, h.handlers[p].group) - {p}).Keys, Left(p), q);
        }
      case _ =>
    }
  }

  lemma {:induction false} SendingRelays(limits: Limits, h: Hub, step: Step, q: PeerId)
    requires Inv(limits, h) && step.Sending?
    ensures RelaysOf(Apply(limits, h, step).inbox, q) ==
      RelaysOf(h.inbox, q) + if SendsTo(h, step, q) then [Relay(step.p, h.handlers[step.p].info, step.sdp)] else []
  {
    if step.p in h.handlers {
      RelayReachesTarget(limits, h, step.p, step.target, step.sdp);
      InRoomIff(h, h.handlers[step.p].group, q);
      if q in h.inbox {
        RelaysNext(h.inbox[q], Relay(step.p, h.handlers[step.p].info, step.sdp));
      }
      assert SendsTo(h, step, q) ==> q in h.inbox;
    }
    hide Inv, Relays;
  }

  lemma InRoomIff(h: Hub, group: Group, p: PeerId)
    requires Seated(h.rooms, h.handlers)
    ensures p in RoomOf(h.rooms, group) <==> p in h.handlers && h.handlers[p].group == group
  {
  }

  /**
   * Over every run a peer gets exactly the offers and answers that peers of
   * its room addressed to it, in order, and no others.
   */
  lemma {:induction false} RelaysAreExact(limits: Limits, run: seq<Step>, p: PeerId)
    ensures RelaysOf(Run(limits, run).inbox, p) == SentTo(limits, run, p)
    decreases |run|
  {
    if run != [] {
      var before, step := run[..|run| - 1], run[|run| - 1];
      RelaysAreExact(limits, before, p);
      ReachableInv(limits, before);
      hide Inv, Apply, RelaysOf, SendsTo;
      if step.Sending? {
        SendingRelays(limits, Run(limits, before), step, p);
      } else {
        OtherStepKeepsRelays(limits, Run(limits, before), step, p);
        assert !SendsTo(Run(limits, before), step, p) by { OnlySendingSends(Run(limits, before), step, p); }
      }
    }
  }

  lemma OnlySendingSends(h: Hub, step: Step, p: PeerId)
    ensures SendsTo(h, step, p) ==> step.Sending?
  {
  }

  /** The handler and the first message of a peer stay, and a new handler comes from an admitted connection. */
  predicate SamePeer(h: Hub, t: Hub, p: PeerId) {
    && p in h.handlers && p in t.handlers && t.handlers[p] == h.handlers[p]
    && p in h.inbox && p in t.inbox && h.inbox[p] != [] && t.inbox[p] != [] && t.inbox[p][0] == h.inbox[p][0]
  }

  predicate Enters(limits: Limits, h: Hub, t: Hub, step: Step, p: PeerId) {
    && step.Connecting? && step.p == p && p !in h.inbox
    && |RoomOf(h.rooms, step.group)| < limits.maxConnections && CountOf(h.counts, step.group) < limits.maxRequests
    && p in t.handlers && t.handlers[p] == Handler(step.group, step.info)
    && p in t.inbox && t.inbox[p] == [Hello(step.info, RoomOf(h.rooms, step.group))]
  }

  lemma StepKeepsPeer(limits: Limits, h: Hub, step: Step, p: PeerId)
    requires Addressed(h.inbox, h.handlers) && p in Apply(limits, h, step).handlers
    ensures SamePeer(h, Apply(limits, h, step), p) || Enters(limits, h, Apply(limits, h, step), step, p)
  {
  }

  /** Every connected peer came in within both limits, and was greeted with its own info and the room it found. */
  lemma {:induction false} PeerComesFromConnection(limits: Limits, run: seq<Step>, p: PeerId) returns (k: nat)
    requires p in Run(limits, run).handlers
    ensures k < |run| && run[k].Connecting? && run[k].p == p
    ensures var h, t, group := Run(limits, run[..k]), Run(limits, run), run[k].group;
      && p !in h.inbox
      && |RoomOf(h.rooms, group)| < limits.maxConnections && CountOf(h.counts, group) < limits.maxRequests
      && t.handlers[p] == Handler(group, run[k].info)
      && p in t.inbox && t.inbox[p] != [] && t.inbox[p][0] == Hello(run[k].info, RoomOf(h.rooms, group))
    decreases |run|
  {
    var n := |run| - 1;
    var before := run[..n];
    ReachableInv(limits, before);
    assert Run(limits, run) == Apply(limits, Run(limits, before), run[n]);
    hide Run, Apply;
    StepKeepsPeer(limits, Run(limits, before), run[n], p);
    if SamePeer(Run(limits, before), Run(limits, run), p) {
      k := PeerComesFromConnection(limits, before, p);
      assert before[..k] == run[..k];
    } else {
      k := n;
    }
  }

  // Requests and infos

  /** The step is a request of the group that reaches its count. */
  predicate CountsFor(limits: Limits, h: Hub, step: Step, group: Group) {
    || (step.Requesting? && step.p in h.handlers && h.handlers[step.p].group == group)
    || (step.Connecting? && step.group == group && step.p !in h.inbox
        && |RoomOf(h.rooms, group)| < limits.maxConnections)
  }

  /** The requests of the group since the counts were last reset. */
  function RequestsSince(limits: Limits, run: seq<Step>, group: Group): nat {
    if run == [] then 0
    else
      var before, step := run[..|run| - 1], run[|run| - 1];
      if step.ResettingCounts? then 0
      else RequestsSince(limits, before, group) + if CountsFor(limits, Run(limits, before), step, group) then 1 else 0
  }

  function Capped(n: nat, limit: nat): nat {
    if n < limit then n else limit
  }

  lemma StepCounts(limits: Limits, h: Hub, step: Step, group: Group, n: nat)
    requires CountOf(h.counts, group) == Capped(n, limits.maxRequests)
    ensures CountOf(Apply(limits, h, step).counts, group) ==
      if step.ResettingCounts? then 0
      else Capped(n + if CountsFor(limits, h, step, group) then 1 else 0, limits.maxRequests)
  {
    hide Tell;
  }

  /** The count of a group is the number of its requests since the last reset, up to the limit. */
  lemma {:induction false} CountsAreExact(limits: Limits, run: seq<Step>, group: Group)
    ensures CountOf(Run(limits, run).counts, group) ==
      Capped(RequestsSince(limits, run, group), limits.maxRequests)
    decreases |run|
  {
    if run != [] {
      var before := run[..|run| - 1];
      hide Apply, CountsFor, Capped;
      CountsAreExact(limits, before, group);
      StepCounts(limits, Run(limits, before), run[|run| - 1], group, RequestsSince(limits, before, group));
      assert Capped(0, limits.maxRequests) == 0 by { NoneCapped(limits.maxRequests); }
    } else {
      NoneCapped(limits.maxRequests);
    }
  }

  lemma NoneCapped(limit: nat)
    ensures Capped(0, limit) == 0
  {
  }

  /** The info a connected peer gave last: on connecting, or in an update. */
  function LatestInfo(limits: Limits, run: seq<Step>, p: PeerId): Info {
    if run == [] then ""
    else
      var before, step := run[..|run| - 1], run[|run| - 1];
      if step.Connecting? && step.p == p && p !in Run(limits, before).inbox then step.info
      else if step.ChangingInfo? && step.p == p then step.info
      else LatestInfo(limits, before, p)
  }

  predicate HasInfo(h: Hub, p: PeerId, info: Info) {
    p in h.handlers ==>
      var room := RoomOf(h.rooms, h.handlers[p].group); p in room && room[p] == info
  }

  lemma StepKeepsInfo(limits: Limits, h: Hub, step: Step, p: PeerId, info: Info)
    requires Seated(h.rooms, h.handlers) && Addressed(h.inbox, h.handlers) && HasInfo(h, p, info)
    ensures HasInfo(Apply(limits, h, step), p,
                    if step.Connecting? && step.p == p && p !in h.inbox then step.info
                    else if step.ChangingInfo? && step.p == p then step.info else info)
  {
    hide Tell;
    if p in h.handlers {
      InRoomIff(h, h.handlers[p].group, p);
    }
    forall q | q in h.handlers ensures q in RoomOf(h.rooms, h.handlers[q].group) {
      InRoomIff(h, h.handlers[q].group, q);
    }
    hide Seated;
  }

  /** The room of a connected peer holds the info it gave last. */
  lemma {:induction false} InfoIsLatest(limits: Limits, run: seq<Step>, p: PeerId)
    ensures HasInfo(Run(limits, run), p, LatestInfo(limits, run, p))
    decreases |run|
  {
    if run != [] {
      var before := run[..|run| - 1];
      ReachableInv(limits, before);
      InfoIsLatest(limits, before, p);
      hide Apply, HasInfo, Seated, Addressed, Replicated, Acquainted, OnlyPastPeers, WithinLimits;
      StepKeepsInfo(limits, Run(limits, before), run[|run| - 1], p, LatestInfo(limits, before, p));
    }
  }

  // Empty rooms

  predicate IsEmptyRoom(h: Hub, group: Group) {
    group in h.rooms && h.rooms[group] == map[]
  }

  predicate ConnectsTo(h: Hub, step: Step, group: Group) {
    step.Connecting? && step.group == group && step.p !in h.inbox
  }

  predicate AdmitsTo(limits: Limits, h: Hub, step: Step, group: Group) {
    ConnectsTo(h, step, group) && Admitted(limits, h, group)
  }

  /** A connection is refused while nobody is in the room. */
  predicate RefusesAlone(limits: Limits, h: Hub, step: Step, group: Group) {
    ConnectsTo(h, step, group) && !Admitted(limits, h, group) && RoomOf(h.rooms, group) == map[]
  }

  lemma ConnectAndEmptyRooms(limits: Limits, h: Hub, step: Step, group: Group)
    requires step.Connecting?
    ensures IsEmptyRoom(Apply(limits, h, step), group) <==>
      (IsEmptyRoom(h, group) && !AdmitsTo(limits, h, step, group)) || RefusesAlone(limits, h, step, group)
  {
    hide Tell;
  }

  lemma PeersFillRooms(h: Hub, p: PeerId)
    requires Seated(h.rooms, h.handlers) && p in h.handlers
    ensures p in RoomOf(h.rooms, h.handlers[p].group) && !IsEmptyRoom(h, h.handlers[p].group)
  {
  }

  lemma PeerStepsAndEmptyRooms(limits: Limits, h: Hub, step: Step, group: Group)
    requires Seated(h.rooms, h.handlers) && !step.Connecting?
    ensures IsEmptyRoom(Apply(limits, h, step), group) <==> IsEmptyRoom(h, group)
  {
    hide Tell, Seated;
    if (step.ChangingInfo? || step.Disconnecting?) && step.p in h.handlers {
      PeersFillRooms(h, step.p);
    }
  }

  lemma StepAndEmptyRooms(limits: Limits, h: Hub, step: Step, group: Group)
    requires Inv(limits, h)
    ensures IsEmptyRoom(Apply(limits, h, step), group) <==>
      (IsEmptyRoom(h, group) && !AdmitsTo(limits, h, step, group)) || RefusesAlone(limits, h, step, group)
  {
    hide Seated, Addressed, Replicated, Acquainted, OnlyPastPeers, WithinLimits;
    if step.Connecting? {
      ConnectAndEmptyRooms(limits, h, step, group);
    } else {
      PeerStepsAndEmptyRooms(limits, h, step, group);
    }
  }

  /** A connection was refused in an empty room at `k`, and none was admitted since. */
  predicate LeftEmptyAt(limits: Limits, run: seq<Step>, group: Group, k: nat) {
    && k < |run|
    && RefusesAlone(limits, Run(limits, run[..k]), run[k], group)
    && forall j :: k < j < |run| ==> !AdmitsTo(limits, Run(limits, run[..j]), run[j], group)
  }

  lemma {:induction false} LeftEmptyNext(limits: Limits, run: seq<Step>, group: Group, k: nat)
    requires k < |run| - 1
    ensures var n := |run| - 1;
      LeftEmptyAt(limits, run, group, k) <==>
      LeftEmptyAt(limits, run[..n], group, k) && !AdmitsTo(limits, Run(limits, run[..n]), run[n], group)
  {
    hide Run, AdmitsTo, RefusesAlone;
    var n := |run| - 1;
    assert forall j :: 0 <= j < n ==> run[..n][..j] == run[..j] && run[..n][j] == run[j];
  }

  predicate LeftEmpty(limits: Limits, run: seq<Step>, group: Group) {
    exists k :: 0 <= k < |run| && LeftEmptyAt(limits, run, group, k)
  }

  lemma {:induction false} LeftEmptyGrows(limits: Limits, run: seq<Step>, group: Group)
    requires run != []
    ensures var before, step := run[..|run| - 1], run[|run| - 1];
      var h := Run(limits, before);
      LeftEmpty(limits, run, group) <==>
        (LeftEmpty(limits, before, group) && !AdmitsTo(limits, h, step, group)) || RefusesAlone(limits, h, step, group)
  {
    hide Run, AdmitsTo, RefusesAlone;
    var n := |run| - 1;
    var before, step := run[..n], run[n];
    assert LeftEmptyAt(limits, run, group, n) <==> RefusesAlone(limits, Run(limits, before), step, group);
    hide LeftEmptyAt;
    if LeftEmpty(limits, before, group) && !AdmitsTo(limits, Run(limits, before), step, group) {
      var k :| 0 <= k < n && LeftEmptyAt(limits, before, group, k);
      LeftEmptyNext(limits, run, group, k);
    }
    if LeftEmpty(limits, run, group) && !LeftEmptyAt(limits, run, group, n) {
      var k :| 0 <= k < |run| && LeftEmptyAt(limits, run, group, k);
      LeftEmptyNext(limits, run, group, k);
    }
  }

  /** The map holds an empty room exactly for the groups whose last connection to an empty room was refused. */
  lemma {:induction false} EmptyRoomIff(limits: Limits, run: seq<Step>, group: Group)
    ensures IsEmptyRoom(Run(limits, run), group) <==> LeftEmpty(limits, run, group)
    decreases |run|
  {
    if run == [] {
      EmptyRun(limits);
    } else {
      var before, step := run[..|run| - 1], run[|run| - 1];
      hide Apply, Inv, IsEmptyRoom, AdmitsTo, RefusesAlone, LeftEmpty;
      EmptyRoomIff(limits, before, group);
      ReachableInv(limits, before);
      StepAndEmptyRooms(limits, Run(limits, before), step, group);
      LeftEmptyGrows(limits, run, group);
    }
  }

  /** A peer connects and then uses up `n` more requests of its group. */
  function BusyPeer(group: Group, n: nat): seq<Step> {
    if n == 0 then [] + [Connecting(group, 0, "")] else BusyPeer(group, n - 1) + [Requesting(0)]
  }

  lemma {:induction false} NextStep(limits: Limits, run: seq<Step>, step: Step)
    ensures Run(limits, run + [step]) == Apply(limits, Run(limits, run), step)
  {
    assert (run + [step])[..|run|] == run;
  }

  lemma {:induction false} FirstConnection(limits: Limits, group: Group, p: PeerId, info: Info)
    requires limits.maxConnections >= 1 && limits.maxRequests >= 1
    ensures var h := Apply(limits, EMPTY, Connecting(group, p, info));
      && h.rooms == map[group := map[p := info]] && h.counts == map[group := 1]
      && h.handlers == map[p := Handler(group, info)] && h.inbox.Keys == {p}
  {
  }

  lemma {:induction false} BusyPeerCounts(limits: Limits, group: Group, n: nat)
    requires limits.maxConnections >= 1 && n < limits.maxRequests
    ensures var h := Run(limits, BusyPeer(group, n));
      LastPeer(h, group) && CountOf(h.counts, group) == n + 1
    decreases n
  {
    hide Run, Connect;
    if n == 0 {
      NextStep(limits, [], Connecting(group, 0, ""));
      EmptyRun(limits);
      FirstConnection(limits, group, 0, "");
    } else {
      BusyPeerCounts(limits, group, n - 1);
      NextStep(limits, BusyPeer(group, n - 1), Requesting(0));
    }
  }

  lemma {:induction false} EmptyRun(limits: Limits)
    ensures Run(limits, []) == EMPTY
  {
  }

  /** Its group used up, the peer leaves and another one is refused. */
  function RefusedNewcomer(limits: Limits, group: Group): seq<Step>
    requires limits.maxRequests >= 1
  {
    BusyPeer(group, limits.maxRequests - 1) + [Disconnecting(0)] + [Connecting(group, 1, "")]
  }

  lemma {:induction false} LastPeerLeaves(h: Hub, group: Group)
    requires LastPeer(h, group)
    ensures var t := Disconnect(h, 0); t.rooms == map[] && t.counts == h.counts && t.inbox.Keys == {0}
  {
    assert map[0 := ""] - {0} == map[];
  }

  predicate LastPeer(h: Hub, group: Group) {
    h.rooms == map[group := map[0 := ""]] && h.handlers == map[0 := Handler(group, "")] && h.inbox.Keys == {0}
  }

  lemma {:induction false} NewcomerIsRefused(limits: Limits, h: Hub, group: Group)
    requires LastPeer(h, group) && CountOf(h.counts, group) == limits.maxRequests
    ensures RefusesAlone(limits, Apply(limits, h, Disconnecting(0)), Connecting(group, 1, ""), group)
  {
    LastPeerLeaves(h, group);
    hide Disconnect;
  }

  /** With any limits that let a peer in, a run leaves an empty room behind. */
  lemma {:induction false} EmptyRoomIsReachable(limits: Limits, group: Group)
    requires limits.maxConnections >= 1 && limits.maxRequests >= 1
    ensures IsEmptyRoom(Run(limits, RefusedNewcomer(limits, group)), group)
  {
    hide Run, Apply, IsEmptyRoom, RefusesAlone, AdmitsTo, LastPeer, BusyPeer;
    var run := BusyPeer(group, limits.maxRequests - 1);
    BusyPeerCounts(limits, group, limits.maxRequests - 1);
    NextStep(limits, run, Disconnecting(0));
    NextStep(limits, run + [Disconnecting(0)], Connecting(group, 1, ""));
    NewcomerIsRefused(limits, Run(limits, run), group);
    ConnectAndEmptyRooms(limits, Run(limits, run + [Disconnecting(0)]), Connecting(group, 1, ""), group);
  }

  /** The server's maps, updated in place by the blocks that hold their locks. */
  class Server {
    const limits: Limits
    var rooms: map<Group, Room>
    var counts: map<Group, nat>
    var inbox: map<PeerId, seq<Message>>
    var handlers: map<PeerId, Handler>

    constructor (limits: Limits)
      ensures this.limits == limits && Contents() == EMPTY
    {
      this.limits := limits;
      rooms, counts, inbox, handlers := map[], map[], map[], map[];
    }

    function Contents(): Hub
      reads this
    {
      Hub(rooms, counts, inbox, handlers)
    }

    method Send(peers: set<PeerId>, message: Message)
      modifies this`inbox
      ensures inbox == Tell(old(inbox), peers, message)
    {
      var todo := peers;
      while todo != {}
        invariant todo <= peers
        invariant inbox == Tell(old(inbox), peers - todo, message)
      {
        var q :| q in todo;
        if q in inbox {
          inbox := inbox[q := inbox[q] + [message]];
        }
        todo := todo - {q};
      }
    }

    method ProtectDdosRequestCount(group: Group) returns (ok: bool)
      modifies this`counts
      ensures Contents() == CountRequest(limits, old(Contents()), group)
      ensures ok <==> CountOf(old(counts), group) < limits.maxRequests
    {
      if group !in counts {
        counts := counts[group := 0];
      }
      if counts[group] >= limits.maxRequests {
        return false;
      }
      counts := counts[group := counts[group] + 1];
      return true;
    }

    method ConnectPeer(group: Group, p: PeerId, info: Info) returns (ok: bool)
      requires p !in inbox
      modifies this
      ensures Contents() == Connect(limits, old(Contents()), group, p, info)
      ensures ok <==>
        |RoomOf(old(rooms), group)| < limits.maxConnections && CountOf(old(counts), group) < limits.maxRequests
      ensures ok ==> p in handlers && handlers[p] == Handler(group, info)
    {
      hide Tell;
      var room := if group in rooms then rooms[group] else map[];
      rooms := rooms[group := room];
      if |room| >= limits.maxConnections {
        return false;
      }
      var allowed := ProtectDdosRequestCount(group);
      if !allowed {
        return false;
      }
      Seat(group, p, info);
      return true;
    }

    method Seat(group: Group, p: PeerId, info: Info)
      requires group in rooms
      modifies this`rooms, this`handlers, this`inbox
      ensures Contents() == DoConnect(old(Contents()), group, p, info)
    {
      hide Tell;
      var room := rooms[group];
      rooms := rooms[group := room[p := info]];
      handlers := handlers[p := Handler(group, info)];
      Send(room.Keys, Join(p, info));
      inbox := inbox[p := [Hello(info, room)]];
    }

    method DisconnectPeer(p: PeerId)
      requires p in handlers
      modifies this
      ensures Contents() == Disconnect(old(Contents()), p)
    {
      var group := handlers[p].group;
      handlers := handlers - {p};
      if group in rooms {
        var room := rooms[group] - {p};
        if room == map[] {
          rooms := rooms - {group};
          Send({}, Left(p));
        } else {
          rooms := rooms[group := room];
          Send(room.Keys, Left(p));
        }
      } else {
        Send({}, Left(p));
      }
    }

    method UpdatePeer(p: PeerId, info: Info)
      requires p in handlers
      modifies this
      ensures Contents() == ChangeInfo(old(Contents()), p, info)
    {
      var group := handlers[p].group;
      if group in rooms && p in rooms[group] {
        var room := rooms[group];
        rooms := rooms[group := room[p := info]];
        Send(room.Keys - {p}, Update(p, info));
      }
    }

    method RelayTo(p: PeerId, target: PeerId, sdp: string)
      requires p in handlers
      modifies this
      ensures Contents() == SendToPeer(old(Contents()), p, target, sdp)
      ensures inbox.Keys == old(inbox).Keys && rooms == old(rooms) && handlers == old(handlers)
      ensures forall q :: q in inbox ==>
        inbox[q] ==
        if q == target && handlers[p].group in rooms && q in rooms[handlers[p].group]
        then old(inbox)[q] + [Relay(p, handlers[p].info, sdp)] else old(inbox)[q]
    {
      var group := handlers[p].group;
      if group in rooms && target in rooms[group] {
        Send({target}, Relay(p, handlers[p].info, sdp));
      }
    }
  }
}
