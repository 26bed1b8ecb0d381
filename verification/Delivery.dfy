/** What delivery guarantees about signals: each reaches its addressee at most once,
    as its sender posted it, and a reply to a signal that found both ends listening
    is not lost while they go on listening. */
module Delivery {
  import opened Types
  import opened Rooms
  import opened Relay

  // ---- Events and tags ---------------------------------------------------------------------

  /** What may be said to `c`: presence news about members other than `c`, and signals
      from members. Nobody is ever reported to have left. */
  predicate EventOk(members: set<Id>, c: Id, ev: SseEvent) {
    match ev
    case Resync(peers, _) => DistinctIds(peers) && c !in Ids(peers) && Ids(peers) <= members
    case PeerJoined(f, _) => f != c && f in members
    case PeerLeft(_) => false
    case Media(f, _) => f in members
    case Chat(_, _, _, _) => true
  }

  /** A media entry carries what its sender posted under that tag, and the post is spent. */
  predicate TagOk(net: Net, c: Id, e: Entry) {
    e.event.Media? ==>
      var f, body := e.event.from, e.event.body;
      && e.tag < |Posted(net, f, c)| && Posted(net, f, c)[e.tag] == body
      && Relay.Post(f, SignalMessage(c, body), e.tag) !in net.flight
      && Tag(f, c, e.tag) !in net.lost
  }

  predicate SameSignal(e: Entry, e': Entry) {
    e.event.Media? && e'.event.Media? && e.event.from == e'.event.from && e.tag == e'.tag
  }

  /** Entries addressed to `c`, no signal among them twice. */
  ghost predicate Tagged(net: Net, c: Id, es: seq<Entry>) {
    && (forall p :: 0 <= p < |es| ==> TagOk(net, c, es[p]))
    && (forall p, q :: 0 <= p < q < |es| ==> !SameSignal(es[p], es[q]))
  }

  ghost predicate EventsOk(members: set<Id>, c: Id, es: seq<Entry>) {
    forall p :: 0 <= p < |es| ==> EventOk(members, c, es[p].event)
  }

  ghost predicate LogOk(members: set<Id>, net: Net, c: Id, log: seq<Entry>) {
    && EventsOk(members, c, log) && Tagged(net, c, log)
    && forall p :: 0 <= p < |log| ==> !log[p].event.Resync?
  }

  ghost predicate LogsOk(room: Room, net: Net) {
    forall k :: 0 <= k < |room.chans| ==>
      LogOk(room.participants.Keys, net, room.chans[k].owner, room.chans[k].log)
  }

  predicate PostOk(net: Net, post: Post) {
    var sent := Posted(net, post.from, post.message.to);
    post.n < |sent| && sent[post.n] == post.message.body && TagOf(post) !in net.lost
  }

  predicate FlightOk(net: Net) {
    && (forall post :: post in net.flight ==> PostOk(net, post))
    && (forall t :: t in net.lost ==> t.n < |Posted(net, t.from, t.to)|)
  }

  // ---- Clients ---------------------------------------------------------------------------

  /** What is still to come on stream `t` has not been seen yet. */
  ghost predicate StillToCome(t: Stream, log: seq<Entry>, seen: seq<Entry>) {
    forall p, j :: t.wire.arrived <= p < |log| && 0 <= j < |seen| ==> !SameSignal(log[p], seen[j])
  }

  /** Where, among what the client has seen, the snapshot of its current stream is. */
  function Base(t: Stream, seen: seq<Entry>): int {
    |seen| - (t.wire.arrived - t.reader.start) - 1
  }

  /** The client has seen the snapshot of stream `t` and then what arrived on it. */
  ghost predicate SeenFrom(t: Stream, log: seq<Entry>, seen: seq<Entry>) {
    && t.reader.start <= t.wire.arrived <= |log| && 0 <= Base(t, seen)
    && seen[Base(t, seen)] == Entry(t.resync, 0)
    && seen[Base(t, seen) + 1..] == log[t.reader.start..t.wire.arrived]
  }

  ghost predicate LinkOk(room: Room, t: Stream, seen: seq<Entry>)
    requires StreamOk(room, t)
  {
    t.Subscribed() ==>
      && StillToCome(t, room.chans[t.chan].log, seen)
      && (t.wire.gotResync ==> SeenFrom(t, room.chans[t.chan].log, seen))
  }

  ghost predicate ClientOk(room: Room, streams: seq<Stream>, net: Net, c: Id, cl: Client)
    requires StreamsOk(room, streams)
  {
    && cl.used <= |cl.seen|
    && EventsOk(room.participants.Keys, c, cl.seen) && Tagged(net, c, cl.seen)
    && (cl.link.Some? ==>
          cl.link.value < |streams| && streams[cl.link.value].owner == c &&
          LinkOk(room, streams[cl.link.value], cl.seen))
  }

  ghost predicate ClientsOk(s: State)
    requires StreamsOk(s.room, s.streams)
  {
    forall c :: ClientOk(s.room, s.streams, s.net, c, ClientOf(s.clients, c))
  }

  ghost predicate Inv(s: State) {
    && RoomOk(s.room) && StreamsOk(s.room, s.streams) && Discovery(s.room, s.streams)
    && LogsOk(s.room, s.net) && FlightOk(s.net) && ClientsOk(s)
  }

  // ---- A send ------------------------------------------------------------------------------

  /** An entry that may be sent to `x`: unlike anything sent to or seen by `x`. */
  ghost predicate Sendable(room: Room, streams: seq<Stream>, clients: map<Id, Client>, net: Net, x: Id, e: Entry) {
    && EventOk(room.participants.Keys, x, e.event) && !e.event.Resync? && TagOk(net, x, e)
    && (forall k, p :: 0 <= k < |room.chans| && room.chans[k].owner == x && 0 <= p < |room.chans[k].log| ==>
          !SameSignal(room.chans[k].log[p], e))
    && (forall j :: 0 <= j < |ClientOf(clients, x).seen| ==> !SameSignal(e, ClientOf(clients, x).seen[j]))
  }

  lemma LogGrows(members: set<Id>, net: Net, c: Id, log: seq<Entry>, e: Entry)
    requires LogOk(members, net, c, log)
    requires EventOk(members, c, e.event) && !e.event.Resync? && TagOk(net, c, e)
    requires forall p :: 0 <= p < |log| ==> !SameSignal(log[p], e)
    ensures LogOk(members, net, c, log + [e])
  {
  }

  lemma SendKeepsLogs(s: State, x: Id, e: Entry)
    requires Inv(s) && Sendable(s.room, s.streams, s.clients, s.net, x, e)
    ensures LogsOk(SendTo(s.room, x, e), s.net)
  {
    if x in s.room.participants {
      var ch := s.room.chans[s.room.participants[x]];
      PushKeepsOk(ch, e);
      LogGrows(s.room.participants.Keys, s.net, x, ch.log, e);
    }
  }

  lemma SendKeepsClients(s: State, x: Id, e: Entry)
    requires Inv(s) && Sendable(s.room, s.streams, s.clients, s.net, x, e)
    ensures var s' := s.(room := SendTo(s.room, x, e)); StreamsOk(s'.room, s'.streams) && ClientsOk(s')
  {
    var s' := s.(room := SendTo(s.room, x, e));
    SendKeepsStreams(s.room, s.streams, x, e);
    SendGrows(s.room, x, e);
    forall c ensures ClientOk(s'.room, s'.streams, s'.net, c, ClientOf(s'.clients, c)) {
      var cl := ClientOf(s.clients, c);
      assert ClientOk(s.room, s.streams, s.net, c, cl);
      if cl.link.Some? { SendKeepsLink(s, x, e, c); }
    }
  }

  /** What has been read of a channel stays as it was. */
  lemma SendKeepsRead(room: Room, x: Id, e: Entry, k: nat, from: nat, to: nat)
    requires k < |room.chans| && from <= to <= |room.chans[k].log|
    ensures var log' := SendTo(room, x, e).chans[k].log;
      to <= |log'| && log'[from..to] == room.chans[k].log[from..to]
  {
  }

  lemma SendKeepsLink(s: State, x: Id, e: Entry, c: Id)
    requires Inv(s) && Sendable(s.room, s.streams, s.clients, s.net, x, e)
    requires ClientOf(s.clients, c).link.Some?
    ensures var i, room' := ClientOf(s.clients, c).link.value, SendTo(s.room, x, e);
      i < |s.streams| && StreamOk(room', s.streams[i]) && LinkOk(room', s.streams[i], ClientOf(s.clients, c).seen)
  {
    var cl := ClientOf(s.clients, c);
    assert ClientOk(s.room, s.streams, s.net, c, cl);
    var t := s.streams[cl.link.value];
    SendKeepsStreams(s.room, s.streams, x, e);
    if t.Subscribed() {
      SendKeepsRead(s.room, x, e, t.chan, t.reader.start, t.wire.arrived);
    }
  }

  lemma SendKeepsInv(s: State, x: Id, e: Entry)
    requires Inv(s) && Sendable(s.room, s.streams, s.clients, s.net, x, e)
    ensures Inv(s.(room := SendTo(s.room, x, e)))
  {
    SendKeepsDiscovery(s.room, s.streams, x, e);
    SendGrows(s.room, x, e);
    SendKeepsLogs(s, x, e);
    SendKeepsClients(s, x, e);
  }

  // ---- The other steps -------------------------------------------------------------------

  /** No log changes; the room may only gain members and empty channels. */
  ghost predicate SameLogs(room: Room, room': Room) {
    && room.participants.Keys <= room'.participants.Keys && |room.chans| <= |room'.chans|
    && (forall k :: 0 <= k < |room.chans| ==>
          room'.chans[k].owner == room.chans[k].owner && room'.chans[k].log == room.chans[k].log)
    && (forall k :: |room.chans| <= k < |room'.chans| ==> room'.chans[k].log == [])
  }

  /** The client's end of a stream stays where it is, or the stream has just begun. */
  predicate SameArrival(room: Room, t: Stream, t': Stream)
    requires t'.Subscribed() ==> t'.chan < |room.chans|
  {
    && t'.owner == t.owner
    && (t'.Subscribed() ==>
          || (t.Subscribed() && t'.chan == t.chan && t'.resync == t.resync && t'.reader.start == t.reader.start
              && t'.wire.arrived == t.wire.arrived && t'.wire.gotResync == t.wire.gotResync)
          || (!t'.wire.gotResync && t'.wire.arrived == |room.chans[t'.chan].log|))
  }

  lemma ArrivalKeepsLink(room: Room, room': Room, t: Stream, t': Stream, seen: seq<Entry>)
    requires StreamOk(room, t) && StreamOk(room', t') && SameLogs(room, room') && SameArrival(room', t, t')
    requires LinkOk(room, t, seen)
    ensures LinkOk(room', t', seen)
  {
  }

  lemma ServerKeepsClient(
    room: Room, streams: seq<Stream>, room': Room, streams': seq<Stream>, net: Net, c: Id, cl: Client)
    requires StreamsOk(room, streams) && StreamsOk(room', streams') && |streams| == |streams'|
    requires SameLogs(room, room') && ClientOk(room, streams, net, c, cl)
    requires forall i :: 0 <= i < |streams| ==> SameArrival(room', streams[i], streams'[i])
    ensures ClientOk(room', streams', net, c, cl)
  {
    if cl.link.Some? {
      var i := cl.link.value;
      assert SameArrival(room', streams[i], streams'[i]);
      ArrivalKeepsLink(room, room', streams[i], streams'[i], cl.seen);
    }
  }

  lemma ServerStepKeepsInv(s: State, room': Room, streams': seq<Stream>)
    requires Inv(s) && SameLogs(s.room, room')
    requires RoomOk(room') && StreamsOk(room', streams') && Discovery(room', streams')
    requires |s.streams| == |streams'|
    requires forall i :: 0 <= i < |s.streams| ==> SameArrival(room', s.streams[i], streams'[i])
    ensures Inv(s.(room := room', streams := streams'))
  {
    forall c ensures ClientOk(room', streams', s.net, c, ClientOf(s.clients, c)) {
      ServerKeepsClient(s.room, s.streams, room', streams', s.net, c, ClientOf(s.clients, c));
    }
    LogsStay(s.room, room', s.net);
  }

  lemma LogsStay(room: Room, room': Room, net: Net)
    requires LogsOk(room, net) && SameLogs(room, room')
    ensures LogsOk(room', net)
  {
    forall k | 0 <= k < |room'.chans|
      ensures LogOk(room'.participants.Keys, net, room'.chans[k].owner, room'.chans[k].log)
    {
      assert k < |room.chans| ==> LogOk(room.participants.Keys, net, room.chans[k].owner, room.chans[k].log);
    }
  }

  lemma EnterKeepsInv(s: State, req: JoinRequest, max: nat)
    requires Inv(s) && !Busy(s.streams)
    ensures Inv(s.(room := Rooms.Enter(s.room, max, req).0))
  {
    EnterKeepsStreams(s.room, s.streams, max, req);
    EnterKeepsDiscovery(s.room, s.streams, max, req);
    var room' := Rooms.Enter(s.room, max, req).0;
    assert forall k :: 0 <= k < |s.room.chans| ==> room'.chans[k] == s.room.chans[k];
    forall i | 0 <= i < |s.streams| ensures SameArrival(room', s.streams[i], s.streams[i]) {
      assert StreamOk(s.room, s.streams[i]);
    }
    ServerStepKeepsInv(s, room', s.streams);
  }

  /** Stream `i` moves and the logs stay. */
  lemma OneStreamKeepsInv(s: State, room': Room, i: nat, t': Stream)
    requires Inv(s) && SameLogs(s.room, room') && i < |s.streams|
    requires RoomOk(room') && StreamsOk(room', s.streams[i := t']) && Discovery(room', s.streams[i := t'])
    requires t'.Subscribed() ==> t'.chan < |room'.chans|
    requires SameArrival(room', s.streams[i], t')
    ensures Inv(s.(room := room', streams := s.streams[i := t']))
  {
    var streams' := s.streams[i := t'];
    forall j | 0 <= j < |s.streams| ensures SameArrival(room', s.streams[j], streams'[j]) {
      if j != i { assert StreamOk(room', streams'[j]) && StreamOk(s.room, s.streams[j]); }
    }
    ServerStepKeepsInv(s, room', streams');
  }

  lemma OpeningKeepsInv(s: State, a: Action)
    requires Inv(s) && Can(s, a) && (a.Snap? || a.Subscribe?)
    ensures Inv(Do(s, a))
  {
    DoKeepsStreams(s, a);
    DoKeepsDiscovery(s, a);
    assert StreamOk(s.room, s.streams[a.i]);
    OneStreamKeepsInv(s, Do(s, a).room, a.i, Do(s, a).streams[a.i]);
  }

  lemma EndKeepsInv(s: State, i: nat)
    requires Inv(s) && Can(s, Drop(i))
    ensures Inv(End(s, i))
  {
    UnsubscribeKeepsDiscovery(s.room, s.streams, i);
    UnsubscribeKeepsStreams(s.room, s.streams, i);
    assert StreamOk(s.room, s.streams[i]);
    OneStreamKeepsInv(s, End(s, i).room, i, s.streams[i].(phase := Ended));
  }

  lemma PullKeepsInv(s: State, i: nat)
    requires Inv(s) && Can(s, Pull(i))
    ensures Inv(Do(s, Pull(i)))
  {
    var t := s.streams[i];
    assert StreamOk(s.room, t);
    if t.reader.sentResync && Read(s.room.chans[t.chan], t.reader.next).Lagged? {
      EndKeepsInv(s, i);
    } else {
      PullKeepsStreams(s, i);
      PullKeepsDiscovery(s, i);
      OneStreamKeepsInv(s, s.room, i, Do(s, Pull(i)).streams[i]);
    }
  }

  lemma NetStepKeepsInv(s: State, net': Net)
    requires Inv(s) && FlightOk(net')
    requires forall c, e :: TagOk(s.net, c, e) ==> TagOk(net', c, e)
    ensures Inv(s.(net := net'))
  {
    var s' := s.(net := net');
    forall c ensures ClientOk(s'.room, s'.streams, net', c, ClientOf(s'.clients, c)) {
      assert ClientOk(s.room, s.streams, s.net, c, ClientOf(s.clients, c));
    }
  }

  lemma ForgetKeepsInv(s: State, post: Post)
    requires Inv(s) && post in s.net.flight
    ensures Inv(Forget(s, post))
  {
    NetStepKeepsInv(s, Forget(s, post).net);
  }

  function Posting(net: Net, from: Id, message: SignalMessage): Net {
    var sent := Posted(net, from, message.to);
    net.(posted := net.posted[(from, message.to) := sent + [message.body]],
         flight := net.flight + {Relay.Post(from, message, |sent|)})
  }

  lemma PostingPosts(net: Net, from: Id, message: SignalMessage, f: Id, c: Id)
    ensures Posted(Posting(net, from, message), f, c) ==
            if (f, c) == (from, message.to) then Posted(net, f, c) + [message.body] else Posted(net, f, c)
  {
  }

  lemma PostingIsPost(s: State, from: Id, message: SignalMessage)
    ensures Do(s, PostSignal(from, message)) == s.(net := Posting(s.net, from, message))
  {
  }

  lemma PostKeepsInv(s: State, from: Id, message: SignalMessage)
    requires Inv(s)
    ensures Inv(s.(net := Posting(s.net, from, message)))
  {
    var net' := Posting(s.net, from, message);
    forall c, e | TagOk(s.net, c, e) ensures TagOk(net', c, e) {
      if e.event.Media? { PostingPosts(s.net, from, message, e.event.from, c); }
    }
    forall post | post in net'.flight ensures PostOk(net', post) {
      PostingPosts(s.net, from, message, post.from, post.message.to);
    }
    forall t | t in net'.lost ensures t.n < |Posted(net', t.from, t.to)| {
      PostingPosts(s.net, from, message, t.from, t.to);
    }
    NetStepKeepsInv(s, net');
  }

  /** A relayed post leaves the network and may then be sent to its addressee. */
  function Taken(net: Net, post: Post, placement: Placement): Net {
    net.(flight := net.flight - {post}, placed := net.placed[TagOf(post) := placement])
  }

  lemma RelayIsSendable(s: State, post: Post, placement: Placement)
    requires Inv(s) && post in s.net.flight && post.from in s.room.participants
    ensures var net' := Taken(s.net, post, placement);
      && Inv(s.(net := net'))
      && Sendable(s.room, s.streams, s.clients, net', post.message.to, Relayed(post))
  {
    var net', c := Taken(s.net, post, placement), post.message.to;
    NetStepKeepsInv(s, net');
    assert ClientOk(s.room, s.streams, s.net, c, ClientOf(s.clients, c));
  }

  lemma AnnouncementIsSendable(s: State, i: nat, x: Id)
    requires Inv(s) && Can(s, Announce(i, x))
    ensures Sendable(s.room, s.streams, s.clients, s.net, x, Announcement(s.room, s.streams[i]))
  {
    assert StreamOk(s.room, s.streams[i]);
  }

  lemma AnnounceKeepsInv(s: State, i: nat, x: Id)
    requires Inv(s) && Can(s, Announce(i, x))
    ensures Inv(Do(s, Announce(i, x)))
  {
    AnnouncementIsSendable(s, i, x);
    SendKeepsInv(s, x, Announcement(s.room, s.streams[i]));
    AnnounceKeepsDiscovery(s.room, s.streams, i, x);
    var mid, s' := s.(room := SendTo(s.room, x, Announcement(s.room, s.streams[i]))), Do(s, Announce(i, x));
    ServerStepKeepsInv(mid, s'.room, s'.streams);
  }

  /** One client moves while the others stay. */
  lemma ClientMoves(s: State, c: Id, cl: Client)
    requires Inv(s) && ClientOk(s.room, s.streams, s.net, c, cl)
    ensures Inv(s.(clients := s.clients[c := cl]))
  {
    var s' := s.(clients := s.clients[c := cl]);
    forall d ensures ClientOk(s'.room, s'.streams, s'.net, d, ClientOf(s'.clients, d)) {
      assert ClientOk(s.room, s.streams, s.net, d, ClientOf(s.clients, d));
    }
  }

  lemma RequestKeepsInv(s: State, c: Id)
    requires Inv(s) && Can(s, Request(c))
    ensures Inv(Do(s, Request(c)))
  {
    RequestKeepsDiscovery(s.room, s.streams, c);
    var mid := s.(streams := s.streams + [NewStream(c)]);
    forall d ensures ClientOk(mid.room, mid.streams, mid.net, d, ClientOf(mid.clients, d)) {
      assert ClientOk(s.room, s.streams, s.net, d, ClientOf(s.clients, d));
    }
    assert ClientOk(s.room, s.streams, s.net, c, ClientOf(s.clients, c));
    ClientMoves(mid, c, ClientOf(s.clients, c).(link := Some(|s.streams|)));
  }

  /** A client keeps its own stream when another's moves. */
  lemma OthersKeepTheirs(room: Room, streams: seq<Stream>, i: nat, t': Stream, net: Net, d: Id, cl: Client)
    requires StreamsOk(room, streams) && i < |streams| && StreamsOk(room, streams[i := t'])
    requires ClientOk(room, streams, net, d, cl) && streams[i].owner != d
    ensures ClientOk(room, streams[i := t'], net, d, cl)
  {
  }

  /** What arrives is the snapshot or the next event of the log, and is new to the client. */
  lemma ArriverSees(s: State, c: Id)
    requires Inv(s) && Can(s, Arrive(c)) && StreamsOk(s.room, Do(s, Arrive(c)).streams)
    ensures ClientOk(s.room, Do(s, Arrive(c)).streams, s.net, c, Do(s, Arrive(c)).clients[c])
  {
    var cl := ClientOf(s.clients, c);
    assert ClientOk(s.room, s.streams, s.net, c, cl);
    var t := s.streams[cl.link.value];
    var log := s.room.chans[t.chan].log;
    assert StreamOk(s.room, t) && LogOk(s.room.participants.Keys, s.net, c, log);
    ArriveFollows(t, log);
    ArrivalSeen(t, log, cl.seen);
    SeenGrows(s.room.participants.Keys, s.net, c, cl.seen, t.wire.items[0]);
  }

  lemma SeenGrows(members: set<Id>, net: Net, c: Id, seen: seq<Entry>, e: Entry)
    requires EventsOk(members, c, seen) && Tagged(net, c, seen) && EventOk(members, c, e.event) && TagOk(net, c, e)
    requires forall j :: 0 <= j < |seen| ==> !SameSignal(seen[j], e)
    ensures EventsOk(members, c, seen + [e]) && Tagged(net, c, seen + [e])
  {
  }

  lemma ArriveKeepsInv(s: State, c: Id)
    requires Inv(s) && Can(s, Arrive(c))
    ensures Inv(Do(s, Arrive(c)))
  {
    var s', i := Do(s, Arrive(c)), ClientOf(s.clients, c).link.value;
    DoKeepsStreams(s, Arrive(c));
    DoKeepsDiscovery(s, Arrive(c));
    ArriverSees(s, c);
    assert ClientOk(s.room, s.streams, s.net, c, ClientOf(s.clients, c));
    forall d ensures ClientOk(s'.room, s'.streams, s'.net, d, ClientOf(s'.clients, d)) {
      if d != c { OthersKeepTheirs(s.room, s.streams, i, s'.streams[i], s.net, d, ClientOf(s.clients, d)); }
    }
  }

  lemma ArrivalSeen(t: Stream, log: seq<Entry>, seen: seq<Entry>)
    requires Follows(t, log) && t.wire.items != [] && !t.resync.Media?
    requires StillToCome(t, log, seen) && (t.wire.gotResync ==> SeenFrom(t, log, seen))
    requires forall p, q :: 0 <= p < q < |log| ==> !SameSignal(log[p], log[q])
    ensures StillToCome(Arrived(t), log, seen + [t.wire.items[0]])
    ensures SeenFrom(Arrived(t), log, seen + [t.wire.items[0]])
  {
    ArriveFollows(t, log);
    var r, w := t.reader, t.wire;
    if w.gotResync {
      assert log[r.start..w.arrived + 1] == log[r.start..w.arrived] + [log[w.arrived]];
    } else {
      assert log[r.start..w.arrived] == [];
    }
  }

  lemma UseKeepsInv(s: State, c: Id)
    requires Inv(s) && Can(s, Use(c))
    ensures Inv(Do(s, Use(c)))
  {
    var cl := ClientOf(s.clients, c);
    assert ClientOk(s.room, s.streams, s.net, c, cl);
    ClientMoves(s, c, cl.(used := cl.used + 1));
  }

  lemma DetachKeepsInv(s: State, c: Id)
    requires Inv(s)
    ensures Inv(Do(s, Detach(c)))
  {
    var cl := ClientOf(s.clients, c);
    assert ClientOk(s.room, s.streams, s.net, c, cl);
    ClientMoves(s, c, cl.(link := None));
  }

  lemma RelayKeepsInv(s: State, post: Post)
    requires Inv(s) && post in s.net.flight
    ensures Inv(RelayPost(s, post))
  {
    if post.from !in s.room.participants {
      ForgetKeepsInv(s, post);
    } else {
      var placement := Placement(LiveStream(s, post.from), LiveStream(s, post.message.to),
                                 |Posted(s.net, post.message.to, post.from)|);
      RelayIsSendable(s, post, placement);
      SendKeepsInv(s.(net := Taken(s.net, post, placement)), post.message.to, Relayed(post));
    }
  }

  lemma ChatKeepsInv(s: State, x: Id, event: SseEvent)
    requires Inv(s) && event.Chat?
    ensures Inv(Do(s, SendChat(x, event)))
  {
    SendKeepsInv(s, x, Entry(event, 0));
  }

  lemma DoKeepsInv(s: State, a: Action)
    requires Inv(s) && Can(s, a)
    ensures Inv(Do(s, a))
  {
    match a {
      case Enter(req, max) => EnterKeepsInv(s, req, max);
      case Request(c) => RequestKeepsInv(s, c);
      case Announce(i, x) => AnnounceKeepsInv(s, i, x);
      case Detach(c) => DetachKeepsInv(s, c);
      case Arrive(c) => ArriveKeepsInv(s, c);
      case Use(c) => UseKeepsInv(s, c);
      case PostSignal(from, message) => PostKeepsInv(s, from, message);
      case Relay(post) => RelayKeepsInv(s, post);
      case Lose(post) => ForgetKeepsInv(s, post);
      case SendChat(x, event) => ChatKeepsInv(s, x, event);
      case Pull(i) => PullKeepsInv(s, i);
      case Drop(i) => EndKeepsInv(s, i);
      case _ => OpeningKeepsInv(s, a);
    }
  }
}
