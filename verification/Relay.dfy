/** Delivery: signal posts, the room's channels, event streams and the clients that
    read them, as a transition system. Handlers of one room interleave at every step,
    except that a join waits until no stream is being opened. */
module Relay {
  import opened Types
  import opened Rooms

  // ---- State ---------------------------------------------------------------------------

  /** An event stream: requested by the client; its handler has taken the snapshot;
      subscribed; over. The handler is done once it is `Live` with nobody left to tell. */
  datatype Phase = Requested | Snapped | Live | Ended

  /** The server's end of a stream. `delivered` is history: what was read from the channel. */
  datatype Reader = Reader(start: nat, next: nat, sentResync: bool, delivered: seq<Entry>)

  /** What the server has sent and the client has not seen yet. */
  datatype Wire = Wire(items: seq<Entry>, gotResync: bool, arrived: nat)

  datatype Stream = Stream(
    owner: Id,
    phase: Phase,
    chan: nat,
    resync: SseEvent,
    unannounced: set<Id>,
    reader: Reader,
    wire: Wire)
  {
    predicate Subscribed() { phase == Live || phase == Ended }
  }

  function NewStream(c: Id): Stream {
    Stream(c, Requested, 0, Resync([], []), {}, Reader(0, 0, false, []), Wire([], false, 0))
  }

  /** `link` is the stream this client currently listens to, `seen` all events that
      have reached it, and `used` how many of them its mesh has processed. */
  datatype Client = Client(link: Option<nat>, seen: seq<Entry>, used: nat)

  /** A signal POST on its way. */
  datatype Post = Post(from: Id, message: SignalMessage, n: nat)

  /** Identifies the n-th signal that `from` posted to `to`. */
  datatype Tag = Tag(from: Id, to: Id, n: nat)

  /** History of a relayed signal: the streams its sender and its addressee were
      listening to, and how many signals had been posted the other way. */
  datatype Placement = Placement(sender: Option<nat>, receiver: Option<nat>, back: nat)

  /** `posted` and `placed` are history; `lost` holds the posts that failed. */
  datatype Net = Net(
    posted: map<(Id, Id), seq<Signal>>,
    flight: set<Post>,
    lost: set<Tag>,
    placed: map<Tag, Placement>)

  datatype State = State(room: Room, streams: seq<Stream>, clients: map<Id, Client>, net: Net)

  function Posted(net: Net, from: Id, to: Id): seq<Signal> {
    if (from, to) in net.posted then net.posted[(from, to)] else []
  }

  function ClientOf(clients: map<Id, Client>, c: Id): Client {
    if c in clients then clients[c] else Client(None, [], 0)
  }

  // ---- Steps -----------------------------------------------------------------------------

  datatype Action =
    | Enter(req: JoinRequest, max: nat)
    | Request(c: Id)
    | Snap(i: nat, peers: seq<PeerInfo>, chat: seq<ChatMessage>)
    | Subscribe(i: nat)
    | Announce(i: nat, x: Id)
    | Pull(i: nat)
    | Drop(i: nat)
    | Detach(c: Id)
    | Arrive(c: Id)
    | Use(c: Id)
    | PostSignal(from: Id, message: SignalMessage)
    | Relay(post: Post)
    | Lose(post: Post)
    | SendChat(x: Id, event: SseEvent)

  /** Some handler holds the room, so nobody can join. */
  predicate Busy(streams: seq<Stream>) {
    exists i :: 0 <= i < |streams| && (streams[i].phase == Snapped || streams[i].unannounced != {})
  }

  /** The stream that `c` listens to, if it is live on the current channel of `c`. */
  function LiveStream(s: State, c: Id): Option<nat> {
    var link := ClientOf(s.clients, c).link;
    if link.Some? && link.value < |s.streams| && Listening(s.room, s.streams[link.value], c) then link else None
  }

  predicate Listening(room: Room, t: Stream, c: Id) {
    t.phase == Live && t.owner == c && c in room.participants && room.participants[c] == t.chan
  }

  /** The stream's channel and its place in it exist. */
  predicate InRange(room: Room, t: Stream) {
    t.chan < |room.chans| && t.reader.next <= room.chans[t.chan].tail
  }

  ghost predicate Can(s: State, a: Action) {
    match a
    case Enter(_, _) => !Busy(s.streams)
    case Request(c) => ClientOf(s.clients, c).link.None?
    case Snap(i, peers, _) =>
      && i < |s.streams| && s.streams[i].phase == Requested
      && s.streams[i].owner != "" && s.streams[i].owner in s.room.participants
      && IsSnapshot(s.room, s.streams[i].owner, peers)
    case Subscribe(i) => i < |s.streams| && s.streams[i].phase == Snapped && s.streams[i].chan < |s.room.chans|
    case Announce(i, x) => i < |s.streams| && s.streams[i].phase == Live && x in s.streams[i].unannounced
    case Pull(i) =>
      i < |s.streams| && s.streams[i].phase == Live && s.streams[i].unannounced == {} && InRange(s.room, s.streams[i])
    case Drop(i) =>
      i < |s.streams| && s.streams[i].phase == Live && s.streams[i].unannounced == {} && InRange(s.room, s.streams[i])
    case Detach(c) => true
    case Arrive(c) =>
      var link := ClientOf(s.clients, c).link;
      link.Some? && link.value < |s.streams| && s.streams[link.value].wire.items != []
    case Use(c) => ClientOf(s.clients, c).used < |ClientOf(s.clients, c).seen|
    case PostSignal(_, _) => true
    case Relay(post) => post in s.net.flight
    case Lose(post) => post in s.net.flight
    case SendChat(_, event) => event.Chat?
  }

  function OpenedStream(room: Room, t: Stream): Stream
    requires t.chan < |room.chans|
  {
    var n := room.chans[t.chan].tail;
    t.(phase := Live,
       unannounced := room.participants.Keys - {t.owner},
       reader := Reader(n, n, false, []),
       wire := Wire([], false, n))
  }

  function Pulled(t: Stream, e: Entry): Stream {
    t.(reader := t.reader.(next := t.reader.next + 1, delivered := t.reader.delivered + [e]),
       wire := t.wire.(items := t.wire.items + [e]))
  }

  function PulledResync(t: Stream): Stream {
    t.(reader := t.reader.(sentResync := true),
       wire := t.wire.(items := t.wire.items + [Entry(t.resync, 0)]))
  }

  /** The first thing to arrive on a stream is its snapshot. */
  function Arrived(t: Stream): Stream
    requires t.wire.items != []
  {
    t.(wire := Wire(t.wire.items[1..], true, if t.wire.gotResync then t.wire.arrived + 1 else t.wire.arrived))
  }

  function TagOf(post: Post): Tag { Tag(post.from, post.message.to, post.n) }

  /** The event a relayed post turns into: `to` gives way to `from`. */
  function Relayed(post: Post): Entry {
    Entry(Media(post.from, post.message.body), post.n)
  }

  function Announcement(room: Room, t: Stream): Entry {
    Entry(PeerJoined(t.owner, NameOf(room, t.owner)), 0)
  }

  function End(s: State, i: nat): State
    requires i < |s.streams| && s.streams[i].chan < |s.room.chans|
  {
    s.(room := Unsubscribe(s.room, s.streams[i].chan, i), streams := s.streams[i := s.streams[i].(phase := Ended)])
  }

  ghost function Do(s: State, a: Action): State
    requires Can(s, a)
  {
    match a
    case Enter(req, max) => s.(room := Rooms.Enter(s.room, max, req).0)
    case Request(c) =>
      s.(streams := s.streams + [NewStream(c)],
         clients := s.clients[c := ClientOf(s.clients, c).(link := Some(|s.streams|))])
    case Snap(i, peers, chat) =>
      var t := s.streams[i];
      s.(streams := s.streams[i := t.(
        phase := Snapped, chan := s.room.participants[t.owner], resync := Resync(peers, chat))])
    case Subscribe(i) =>
      var t := s.streams[i];
      s.(room := Rooms.Subscribe(s.room, t.chan, i), streams := s.streams[i := OpenedStream(s.room, t)])
    case Announce(i, x) =>
      var t := s.streams[i];
      s.(room := SendTo(s.room, x, Announcement(s.room, t)),
         streams := s.streams[i := t.(unannounced := t.unannounced - {x})])
    case Pull(i) =>
      var t := s.streams[i];
      if !t.reader.sentResync then s.(streams := s.streams[i := PulledResync(t)])
      else
        (match Read(s.room.chans[t.chan], t.reader.next)
         case Nothing => s
         case Lagged => End(s, i)
         case Got(e) => s.(streams := s.streams[i := Pulled(t, e)]))
    case Drop(i) => End(s, i)
    case Detach(c) => s.(clients := s.clients[c := ClientOf(s.clients, c).(link := None)])
    case Arrive(c) =>
      var cl := ClientOf(s.clients, c);
      var t := s.streams[cl.link.value];
      s.(streams := s.streams[cl.link.value := Arrived(t)],
         clients := s.clients[c := cl.(seen := cl.seen + [t.wire.items[0]])])
    case Use(c) =>
      var cl := ClientOf(s.clients, c);
      s.(clients := s.clients[c := cl.(used := cl.used + 1)])
    case PostSignal(from, message) =>
      var sent := Posted(s.net, from, message.to);
      s.(net := s.net.(
        posted := s.net.posted[(from, message.to) := sent + [message.body]],
        flight := s.net.flight + {Post(from, message, |sent|)}))
    case Relay(post) => RelayPost(s, post)
    case Lose(post) => Forget(s, post)
    case SendChat(x, event) => s.(room := SendTo(s.room, x, Entry(event, 0)))
  }

  /** A sender that is not a participant is refused; a signal whose addressee is not
      listening is relayed into nothing. */
  function RelayPost(s: State, post: Post): State {
    if post.from !in s.room.participants then Forget(s, post)
    else
      s.(room := SendTo(s.room, post.message.to, Relayed(post)),
         net := s.net.(
           flight := s.net.flight - {post},
           placed := s.net.placed[TagOf(post) := Placement(
             LiveStream(s, post.from), LiveStream(s, post.message.to),
             |Posted(s.net, post.message.to, post.from)|)]))
  }

  function Forget(s: State, post: Post): State {
    s.(net := s.net.(flight := s.net.flight - {post}, lost := s.net.lost + {TagOf(post)}))
  }

  // ---- Streams follow their channels -----------------------------------------------------

  predicate ResyncOk(room: Room, owner: Id, resync: SseEvent) {
    && resync.Resync? && DistinctIds(resync.peers)
    && owner !in Ids(resync.peers) && Ids(resync.peers) <= room.participants.Keys
  }

  /** While a handler holds the room, its snapshot is up to date. */
  predicate Holding(room: Room, t: Stream) {
    && t.owner in room.participants && t.chan == room.participants[t.owner]
    && ResyncOk(room, t.owner, t.resync) && Ids(t.resync.peers) == room.participants.Keys - {t.owner}
  }

  function Unseen(t: Stream): seq<Entry> {
    if t.reader.sentResync && !t.wire.gotResync then [Entry(t.resync, 0)] else []
  }

  /** What has been read is a run of the channel's log from the subscription on, and
      what has not arrived yet is the end of that run. */
  predicate Follows(t: Stream, log: seq<Entry>) {
    var r, w := t.reader, t.wire;
    && r.start <= w.arrived <= r.next <= |log|
    && r.delivered == log[r.start..r.next]
    && w.items == Unseen(t) + log[w.arrived..r.next]
    && (w.gotResync || r.next > r.start ==> r.sentResync)
    && (w.arrived > r.start ==> w.gotResync)
  }

  ghost predicate StreamOk(room: Room, t: Stream) {
    && (t.phase == Requested ==> t == NewStream(t.owner))
    && (t.phase == Snapped ==> Holding(room, t) && t.unannounced == {} && t.wire.items == [] && !t.wire.gotResync)
    && (t.Subscribed() ==>
          && t.owner in room.participants && ResyncOk(room, t.owner, t.resync)
          && t.chan < |room.chans| && room.chans[t.chan].owner == t.owner
          && Follows(t, room.chans[t.chan].log))
    && (t.unannounced != {} ==>
          t.phase == Live && Holding(room, t) && t.unannounced <= room.participants.Keys - {t.owner})
  }

  ghost predicate StreamsOk(room: Room, streams: seq<Stream>) {
    && (forall i :: 0 <= i < |streams| ==> StreamOk(room, streams[i]))
    && (forall i :: 0 <= i < |streams| && streams[i].phase == Live ==> i in room.chans[streams[i].chan].readers)
  }

  /** A stream with a channel is always in range of it: that steps ask for this shuts
      out no behaviour. */
  lemma RangeIsNoRestriction(s: State, i: nat)
    requires RoomOk(s.room) && StreamsOk(s.room, s.streams) && i < |s.streams|
    ensures s.streams[i].phase == Snapped ==> s.streams[i].chan < |s.room.chans|
    ensures s.streams[i].phase == Live ==> InRange(s.room, s.streams[i])
  {
    assert StreamOk(s.room, s.streams[i]);
  }

  /** Everyone stays, and every channel keeps its owner, its readers and what it has sent. */
  ghost predicate Grown(room: Room, room': Room) {
    && room'.participants == room.participants && |room.chans| <= |room'.chans|
    && forall k :: 0 <= k < |room.chans| ==>
         && room'.chans[k].owner == room.chans[k].owner
         && room.chans[k].readers <= room'.chans[k].readers
         && room.chans[k].log <= room'.chans[k].log
  }

  lemma SendGrows(room: Room, x: Id, e: Entry)
    requires RoomOk(room)
    ensures RoomOk(SendTo(room, x, e)) && Grown(room, SendTo(room, x, e))
  {
    if x in room.participants { PushKeepsOk(room.chans[room.participants[x]], e); }
  }

  lemma FollowsGrown(t: Stream, log: seq<Entry>, log': seq<Entry>)
    requires Follows(t, log) && log <= log'
    ensures Follows(t, log')
  {
    assert log'[t.reader.start..t.reader.next] == log[t.reader.start..t.reader.next];
    assert log'[t.wire.arrived..t.reader.next] == log[t.wire.arrived..t.reader.next];
  }

  lemma StreamGrown(room: Room, room': Room, t: Stream)
    requires StreamOk(room, t) && Grown(room, room')
    ensures StreamOk(room', t)
  {
    if t.Subscribed() { FollowsGrown(t, room.chans[t.chan].log, room'.chans[t.chan].log); }
  }

  lemma StreamsGrown(room: Room, room': Room, streams: seq<Stream>)
    requires StreamsOk(room, streams) && Grown(room, room')
    ensures StreamsOk(room', streams)
  {
    forall i | 0 <= i < |streams| ensures StreamOk(room', streams[i]) { StreamGrown(room, room', streams[i]); }
  }

  lemma SendKeepsStreams(room: Room, streams: seq<Stream>, x: Id, e: Entry)
    requires RoomOk(room) && StreamsOk(room, streams)
    ensures RoomOk(SendTo(room, x, e)) && StreamsOk(SendTo(room, x, e), streams)
  {
    SendGrows(room, x, e);
    StreamsGrown(room, SendTo(room, x, e), streams);
  }

  /** One stream moves while the others stay. */
  lemma StreamMoves(room: Room, streams: seq<Stream>, i: nat, t: Stream)
    requires StreamsOk(room, streams) && i < |streams| && StreamOk(room, t)
    requires t.phase == Live ==> t.chan < |room.chans| && i in room.chans[t.chan].readers
    ensures StreamsOk(room, streams[i := t])
  {
  }

  lemma PullFollows(t: Stream, ch: Channel)
    requires Follows(t, ch.log) && ChannelOk(ch)
    ensures !t.reader.sentResync ==> Follows(PulledResync(t), ch.log)
    ensures t.reader.sentResync && Read(ch, t.reader.next).Got? ==>
              Follows(Pulled(t, Read(ch, t.reader.next).entry), ch.log)
  {
    if t.reader.sentResync {
      ReadFollowsLog(ch, t.reader.next);
      var r, log := t.reader, ch.log;
      if Read(ch, r.next).Got? {
        assert log[r.start..r.next + 1] == log[r.start..r.next] + [log[r.next]];
        assert log[t.wire.arrived..r.next + 1] == log[t.wire.arrived..r.next] + [log[r.next]];
      }
    }
  }

  lemma ArriveFollows(t: Stream, log: seq<Entry>)
    requires Follows(t, log) && t.wire.items != []
    ensures Follows(Arrived(t), log)
    ensures t.wire.items[0] == if t.wire.gotResync then log[t.wire.arrived] else Entry(t.resync, 0)
    ensures !t.wire.gotResync ==> t.wire.arrived == t.reader.start
    ensures t.wire.gotResync ==> t.wire.arrived < t.reader.next
  {
    if !t.wire.gotResync { assert t.reader.sentResync; }
  }

  lemma UnsubscribeKeepsOne(room: Room, k: nat, i: nat, t: Stream)
    requires RoomOk(room) && StreamOk(room, t) && k < |room.chans|
    ensures RoomOk(Unsubscribe(room, k, i)) && StreamOk(Unsubscribe(room, k, i), t)
  {
  }

  /** What ends a stream takes away only its own subscription. */
  lemma UnsubscribeKeepsStreams(room: Room, streams: seq<Stream>, i: nat)
    requires RoomOk(room) && StreamsOk(room, streams) && i < |streams|
    requires streams[i].phase == Live && streams[i].unannounced == {}
    ensures var room' := Unsubscribe(room, streams[i].chan, i);
      RoomOk(room') && StreamsOk(room', streams[i := streams[i].(phase := Ended)])
  {
    var k := streams[i].chan;
    var room', streams' := Unsubscribe(room, k, i), streams[i := streams[i].(phase := Ended)];
    assert StreamOk(room, streams[i]) && StreamOk(room, streams'[i]);
    forall j | 0 <= j < |streams'| ensures StreamOk(room', streams'[j]) {
      UnsubscribeKeepsOne(room, k, i, streams'[j]);
    }
    forall j | 0 <= j < |streams'| && streams'[j].phase == Live ensures j in room'.chans[streams'[j].chan].readers {
      assert j != i && j in room.chans[streams[j].chan].readers;
    }
  }

  /** A join leaves every stream as it was; nobody is in the middle of opening one. */
  lemma EnterKeepsStreams(room: Room, streams: seq<Stream>, max: nat, req: JoinRequest)
    requires RoomOk(room) && StreamsOk(room, streams) && !Busy(streams)
    ensures var room' := Rooms.Enter(room, max, req).0;
      && RoomOk(room') && StreamsOk(room', streams)
      && room.chans <= room'.chans && room.participants.Keys <= room'.participants.Keys
  {
    AdmitKeepsOk(room, req.sessionId, Shortened(req.displayName));
    var room' := Rooms.Enter(room, max, req).0;
    forall j | 0 <= j < |streams| ensures StreamOk(room', streams[j]) {
      assert streams[j].phase != Snapped && streams[j].unannounced == {};
    }
  }

  lemma SubscribeKeepsStreams(room: Room, streams: seq<Stream>, i: nat)
    requires RoomOk(room) && StreamsOk(room, streams) && i < |streams| && streams[i].phase == Snapped
    ensures var room' := Rooms.Subscribe(room, streams[i].chan, i);
      && RoomOk(room') && Grown(room, room') && StreamsOk(room', streams[i := OpenedStream(room, streams[i])])
  {
    var t := streams[i];
    var room', t' := Rooms.Subscribe(room, t.chan, i), OpenedStream(room, t);
    StreamsGrown(room, room', streams);
    assert room'.chans[t.chan].log == room.chans[t.chan].log;
    assert StreamOk(room', t');
    StreamMoves(room', streams, i, t');
  }

  lemma DoKeepsStreams(s: State, a: Action)
    requires RoomOk(s.room) && StreamsOk(s.room, s.streams) && Can(s, a)
    ensures var s' := Do(s, a); RoomOk(s'.room) && StreamsOk(s'.room, s'.streams)
  {
    match a {
      case Enter(req, max) => EnterKeepsStreams(s.room, s.streams, max, req);
      case Snap(i, peers, chat) => StreamMoves(s.room, s.streams, i, Do(s, a).streams[i]);
      case Subscribe(i) => SubscribeKeepsStreams(s.room, s.streams, i);
      case Announce(i, x) =>
        var t := s.streams[i];
        StreamMoves(s.room, s.streams, i, t.(unannounced := t.unannounced - {x}));
        SendKeepsStreams(s.room, Do(s, a).streams, x, Announcement(s.room, t));
      case Pull(i) => PullKeepsStreams(s, i);
      case Drop(i) => UnsubscribeKeepsStreams(s.room, s.streams, i);
      case Arrive(c) =>
        var i := ClientOf(s.clients, c).link.value;
        var t := s.streams[i];
        ArriveFollows(t, s.room.chans[t.chan].log);
        StreamMoves(s.room, s.streams, i, Arrived(t));
      case Relay(post) => SendKeepsStreams(s.room, s.streams, post.message.to, Relayed(post));
      case SendChat(x, event) => SendKeepsStreams(s.room, s.streams, x, Entry(event, 0));
      case _ =>
    }
  }

  lemma PullKeepsStreams(s: State, i: nat)
    requires RoomOk(s.room) && StreamsOk(s.room, s.streams) && Can(s, Pull(i))
    ensures var s' := Do(s, Pull(i)); RoomOk(s'.room) && StreamsOk(s'.room, s'.streams)
  {
    var t := s.streams[i];
    var ch := s.room.chans[t.chan];
    PullFollows(t, ch);
    if t.reader.sentResync && Read(ch, t.reader.next).Lagged? {
      UnsubscribeKeepsStreams(s.room, s.streams, i);
    } else {
      StreamMoves(s.room, s.streams, i, Do(s, Pull(i)).streams[i]);
    }
  }

  // ---- Discovery -----------------------------------------------------------------------

  ghost predicate JoinedIn(log: seq<Entry>, from: nat, f: Id) {
    exists p :: from <= p < |log| && log[p].event.PeerJoined? && log[p].event.peerId == f
  }

  /** If stream `r` does not list the owner of stream `t` in its snapshot, then once
      `t` has been announced to it the announcement is in what `r` reads. */
  ghost predicate Tells(room: Room, r: Stream, t: Stream)
    requires r.Subscribed() ==> r.chan < |room.chans| && r.resync.Resync?
  {
    && Listening(room, r, r.owner) && t.Subscribed() && t.owner != r.owner
    && t.owner !in Ids(r.resync.peers) && r.owner !in t.unannounced
    ==> JoinedIn(room.chans[r.chan].log, r.reader.start, t.owner)
  }

  ghost predicate Discovery(room: Room, streams: seq<Stream>)
    requires StreamsOk(room, streams)
  {
    forall i, j :: 0 <= i < |streams| && 0 <= j < |streams| ==> Tells(room, streams[i], streams[j])
  }

  lemma JoinedInGrows(log: seq<Entry>, log': seq<Entry>, from: nat, f: Id)
    requires JoinedIn(log, from, f) && log <= log'
    ensures JoinedIn(log', from, f)
  {
    var p :| from <= p < |log| && log[p].event.PeerJoined? && log[p].event.peerId == f;
    assert log'[p] == log[p];
  }

  lemma DiscoveryGrown(room: Room, room': Room, streams: seq<Stream>)
    requires StreamsOk(room, streams) && StreamsOk(room', streams) && Discovery(room, streams) && Grown(room, room')
    ensures Discovery(room', streams)
  {
    forall i, j | 0 <= i < |streams| && 0 <= j < |streams| ensures Tells(room', streams[i], streams[j]) {
      var r, t := streams[i], streams[j];
      assert Tells(room, r, t);
      if r.Subscribed() && JoinedIn(room.chans[r.chan].log, r.reader.start, t.owner) {
        JoinedInGrows(room.chans[r.chan].log, room'.chans[r.chan].log, r.reader.start, t.owner);
      }
    }
  }

  /** Reading moves a stream without changing what discovery speaks of. */
  predicate SameForDiscovery(t: Stream, t': Stream) {
    && t'.owner == t.owner && t'.chan == t.chan && t'.resync == t.resync && t'.reader.start == t.reader.start
    && t'.unannounced == t.unannounced
    && (t'.phase == Live ==> t.phase == Live) && (t'.Subscribed() ==> t.Subscribed())
  }

  lemma DiscoveryMoves(room: Room, streams: seq<Stream>, i: nat, t': Stream)
    requires StreamsOk(room, streams) && Discovery(room, streams) && i < |streams|
    requires StreamsOk(room, streams[i := t'])
    requires SameForDiscovery(streams[i], t') || !t'.Subscribed()
    ensures Discovery(room, streams[i := t'])
  {
    var streams' := streams[i := t'];
    forall j, k | 0 <= j < |streams'| && 0 <= k < |streams'| ensures Tells(room, streams'[j], streams'[k]) {
      assert Tells(room, streams[j], streams[k]);
    }
  }

  /** A stream that has just subscribed lists everyone, and has yet to be announced to everyone. */
  lemma SubscribeKeepsDiscovery(room: Room, streams: seq<Stream>, i: nat)
    requires RoomOk(room) && StreamsOk(room, streams) && Discovery(room, streams)
    requires i < |streams| && streams[i].phase == Snapped
    ensures
      var room' := Rooms.Subscribe(room, streams[i].chan, i);
      var streams' := streams[i := OpenedStream(room, streams[i])];
      StreamsOk(room', streams') && Discovery(room', streams')
  {
    SubscribeKeepsStreams(room, streams, i);
    var room', t' := Rooms.Subscribe(room, streams[i].chan, i), OpenedStream(room, streams[i]);
    var streams' := streams[i := t'];
    forall j, k | 0 <= j < |streams'| && 0 <= k < |streams'| ensures Tells(room', streams'[j], streams'[k]) {
      assert Tells(room, streams[j], streams[k]);
      assert StreamOk(room, streams[j]) && StreamOk(room, streams[k]) && StreamOk(room, streams[i]);
    }
  }

  /** An event sent to `x` is read by the stream that is live on the current channel of `x`. */
  lemma SentIsRead(room: Room, streams: seq<Stream>, j: nat, e: Entry)
    requires RoomOk(room) && StreamsOk(room, streams) && j < |streams|
    requires Listening(room, streams[j], streams[j].owner)
    ensures var r := streams[j];
      && |SendTo(room, r.owner, e).chans| == |room.chans|
      && SendTo(room, r.owner, e).chans[r.chan].log == room.chans[r.chan].log + [e]
      && r.reader.start <= |room.chans[r.chan].log|
  {
    PushKeepsOk(room.chans[streams[j].chan], e);
    assert StreamOk(room, streams[j]);
  }

  lemma AnnouncedTells(room: Room, streams: seq<Stream>, j: nat, t: Stream)
    requires RoomOk(room) && StreamsOk(room, streams) && j < |streams|
    requires Listening(room, streams[j], streams[j].owner)
    ensures var r, room' := streams[j], SendTo(room, streams[j].owner, Announcement(room, t));
      |room'.chans| == |room.chans| && JoinedIn(room'.chans[r.chan].log, r.reader.start, t.owner)
  {
    var r, e := streams[j], Announcement(room, t);
    SentIsRead(room, streams, j, e);
    var log' := SendTo(room, r.owner, e).chans[r.chan].log;
    assert log'[|room.chans[r.chan].log|] == e;
  }

  lemma AnnounceKeepsDiscovery(room: Room, streams: seq<Stream>, i: nat, x: Id)
    requires RoomOk(room) && StreamsOk(room, streams) && Discovery(room, streams)
    requires i < |streams| && streams[i].phase == Live && x in streams[i].unannounced
    ensures var room', streams' := SendTo(room, x, Announcement(room, streams[i])),
                                   streams[i := streams[i].(unannounced := streams[i].unannounced - {x})];
      StreamsOk(room', streams') && Discovery(room', streams')
  {
    var t := streams[i];
    var t', e := t.(unannounced := t.unannounced - {x}), Announcement(room, t);
    var room', streams' := SendTo(room, x, e), streams[i := t'];
    StreamMoves(room, streams, i, t');
    SendKeepsStreams(room, streams', x, e);
    SendKeepsDiscovery(room, streams, x, e);
    forall j, k | 0 <= j < |streams'| && 0 <= k < |streams'| ensures Tells(room', streams'[j], streams'[k]) {
      assert Tells(room', streams[j], streams[k]);
      if k == i && streams[j].owner == x && Listening(room, streams[j], x) {
        AnnouncedTells(room, streams, j, t);
      }
    }
  }

  lemma UnsubscribeKeepsDiscovery(room: Room, streams: seq<Stream>, i: nat)
    requires RoomOk(room) && StreamsOk(room, streams) && Discovery(room, streams) && i < |streams|
    requires streams[i].phase == Live && streams[i].unannounced == {}
    ensures var room', streams' := Unsubscribe(room, streams[i].chan, i), streams[i := streams[i].(phase := Ended)];
      StreamsOk(room', streams') && Discovery(room', streams')
  {
    UnsubscribeKeepsStreams(room, streams, i);
    var room', streams' := Unsubscribe(room, streams[i].chan, i), streams[i := streams[i].(phase := Ended)];
    forall j, k | 0 <= j < |streams'| && 0 <= k < |streams'| ensures Tells(room', streams'[j], streams'[k]) {
      assert Tells(room, streams[j], streams[k]);
    }
  }

  lemma EnterKeepsDiscovery(room: Room, streams: seq<Stream>, max: nat, req: JoinRequest)
    requires RoomOk(room) && StreamsOk(room, streams) && !Busy(streams) && Discovery(room, streams)
    ensures var room' := Rooms.Enter(room, max, req).0; StreamsOk(room', streams) && Discovery(room', streams)
  {
    EnterKeepsStreams(room, streams, max, req);
    var room' := Rooms.Enter(room, max, req).0;
    forall j, k | 0 <= j < |streams| && 0 <= k < |streams| ensures Tells(room', streams[j], streams[k]) {
      assert Tells(room, streams[j], streams[k]);
      assert StreamOk(room, streams[j]);
    }
  }

  lemma PullKeepsDiscovery(s: State, i: nat)
    requires RoomOk(s.room) && StreamsOk(s.room, s.streams) && Discovery(s.room, s.streams) && Can(s, Pull(i))
    ensures var s' := Do(s, Pull(i)); StreamsOk(s'.room, s'.streams) && Discovery(s'.room, s'.streams)
  {
    PullKeepsStreams(s, i);
    var t := s.streams[i];
    if t.reader.sentResync && Read(s.room.chans[t.chan], t.reader.next).Lagged? {
      UnsubscribeKeepsDiscovery(s.room, s.streams, i);
    } else {
      DiscoveryMoves(s.room, s.streams, i, Do(s, Pull(i)).streams[i]);
    }
  }

  lemma RequestKeepsDiscovery(room: Room, streams: seq<Stream>, c: Id)
    requires RoomOk(room) && StreamsOk(room, streams) && Discovery(room, streams)
    ensures var streams' := streams + [NewStream(c)]; StreamsOk(room, streams') && Discovery(room, streams')
  {
    var streams' := streams + [NewStream(c)];
    forall j, k | 0 <= j < |streams'| && 0 <= k < |streams'| ensures Tells(room, streams'[j], streams'[k]) {
      if j < |streams| && k < |streams| { assert Tells(room, streams[j], streams[k]); }
    }
  }

  lemma DoKeepsDiscovery(s: State, a: Action)
    requires RoomOk(s.room) && StreamsOk(s.room, s.streams) && Discovery(s.room, s.streams) && Can(s, a)
    ensures var s' := Do(s, a); StreamsOk(s'.room, s'.streams) && Discovery(s'.room, s'.streams)
  {
    match a {
      case Enter(req, max) => EnterKeepsDiscovery(s.room, s.streams, max, req);
      case Request(c) => RequestKeepsDiscovery(s.room, s.streams, c);
      case Snap(i, peers, chat) =>
        DoKeepsStreams(s, a);
        DiscoveryMoves(s.room, s.streams, i, Do(s, a).streams[i]);
      case Subscribe(i) => SubscribeKeepsDiscovery(s.room, s.streams, i);
      case Announce(i, x) => AnnounceKeepsDiscovery(s.room, s.streams, i, x);
      case Pull(i) => PullKeepsDiscovery(s, i);
      case Drop(i) => UnsubscribeKeepsDiscovery(s.room, s.streams, i);
      case Arrive(c) =>
        DoKeepsStreams(s, a);
        DiscoveryMoves(s.room, s.streams, ClientOf(s.clients, c).link.value,
                       Arrived(s.streams[ClientOf(s.clients, c).link.value]));
      case Relay(post) => SendKeepsDiscovery(s.room, s.streams, post.message.to, Relayed(post));
      case SendChat(x, event) => SendKeepsDiscovery(s.room, s.streams, x, Entry(event, 0));
      case _ =>
    }
  }

  lemma SendKeepsDiscovery(room: Room, streams: seq<Stream>, x: Id, e: Entry)
    requires RoomOk(room) && StreamsOk(room, streams) && Discovery(room, streams)
    ensures StreamsOk(SendTo(room, x, e), streams) && Discovery(SendTo(room, x, e), streams)
  {
    SendKeepsStreams(room, streams, x, e);
    SendGrows(room, x, e);
    DiscoveryGrown(room, SendTo(room, x, e), streams);
  }
}
