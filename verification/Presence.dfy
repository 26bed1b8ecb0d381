/** Who a client believes to be in the room, and what its event stream guarantees. */
module Presence {
  import opened Types
  import opened Rooms
  import opened Relay
  import opened Delivery

  // ---- The client's list of peers ------------------------------------------------------------

  /** How the page updates its list: a snapshot replaces it, a newcomer is appended unless listed. */
  function Update(list: seq<PeerInfo>, ev: SseEvent): seq<PeerInfo> {
    match ev
    case Resync(peers, _) => peers
    case PeerJoined(id, name) => if id in Ids(list) then list else list + [PeerInfo(id, name)]
    case PeerLeft(id) => Without(list, id)
    case _ => list
  }

  function Without(list: seq<PeerInfo>, id: Id): seq<PeerInfo> {
    if list == [] then []
    else
      var rest := Without(list[..|list| - 1], id);
      if list[|list| - 1].peerId == id then rest else rest + [list[|list| - 1]]
  }

  /** The list after the events `es`. */
  function Listed(es: seq<Entry>): seq<PeerInfo> {
    if es == [] then [] else Update(Listed(es[..|es| - 1]), es[|es| - 1].event)
  }

  /** Taking out an id goes entry by entry, and keeps the rest in order. */
  lemma {:induction false} WithoutEachEntry(xs: seq<PeerInfo>, ys: seq<PeerInfo>, id: Id)
    ensures Without(xs + ys, id) == Without(xs, id) + Without(ys, id)
    ensures |ys| == 1 ==> Without(ys, id) == if ys[0].peerId == id then [] else ys
  {
    if ys == [] {
      assert xs + ys == xs;
    } else {
      var n := |ys| - 1;
      assert (xs + ys)[..|xs + ys| - 1] == xs + ys[..n];
      WithoutEachEntry(xs, ys[..n], id);
    }
  }

  lemma {:induction false} WithoutRemoves(list: seq<PeerInfo>, id: Id)
    ensures forall p :: p in Without(list, id) <==> p in list && p.peerId != id
  {
    if list != [] {
      var n := |list| - 1;
      WithoutRemoves(list[..n], id);
      assert list == list[..n] + [list[n]];
    }
  }

  /** Who is listed after an event: a snapshot is the list, a newcomer comes last under the
      name announced, whoever is listed already stays as is, and whoever left is taken out. */
  lemma ListAfter(list: seq<PeerInfo>, ev: SseEvent)
    ensures var list' := Update(list, ev);
      match ev
      case Resync(peers, _) => list' == peers
      case PeerJoined(id, name) =>
        list <= list' && |list'| == |list| + (if id in Ids(list) then 0 else 1)
        && (id !in Ids(list) ==> list'[|list|] == PeerInfo(id, name))
      case PeerLeft(id) => forall p :: p in list' <==> p in list && p.peerId != id
      case _ => list' == list
  {
    if ev.PeerLeft? { WithoutRemoves(list, ev.peerId); }
  }

  /** A session that joins under a name is announced, and listed in snapshots, under the
      first 64 characters of it. */
  lemma JoinerIsKnownByName(
    room: Room, max: nat, req: JoinRequest, t: Stream, other: Id, peers: seq<PeerInfo>)
    requires RoomOk(room) && Rooms.Enter(room, max, req).1.Joined? && req.displayName.Some?
    requires t.owner == req.sessionId && other != req.sessionId
    requires IsSnapshot(Rooms.Enter(room, max, req).0, other, peers)
    ensures var info := PeerInfo(req.sessionId, Some(First(req.displayName.value, 64)));
      && Announcement(Rooms.Enter(room, max, req).0, t).event == PeerJoined(info.peerId, info.peerName)
      && info in peers
  {
    WhatJoiningDoes(room, max, req);
    SnapshotSaysWho(Rooms.Enter(room, max, req).0, other, peers, req.sessionId);
  }

  lemma IdsSnoc(list: seq<PeerInfo>, p: PeerInfo)
    ensures Ids(list + [p]) == Ids(list) + {p.peerId}
  {
    var more := list + [p];
    assert forall i :: 0 <= i < |list| ==> more[i] == list[i];
    assert more[|list|] == p;
  }

  /** A client never lists itself, and nobody twice. */
  lemma {:induction false} ListIsClean(members: set<Id>, c: Id, es: seq<Entry>)
    requires EventsOk(members, c, es)
    ensures DistinctIds(Listed(es)) && c !in Ids(Listed(es)) && Ids(Listed(es)) <= members
  {
    if es != [] {
      var n := |es| - 1;
      ListIsClean(members, c, es[..n]);
      assert EventOk(members, c, es[n].event);
      if es[n].event.PeerJoined? {
        IdsSnoc(Listed(es[..n]), PeerInfo(es[n].event.peerId, es[n].event.peerName));
      }
    }
  }

  /** `f` is named by the snapshot at `base` or by a later announcement. */
  ghost predicate NamedFrom(es: seq<Entry>, base: nat, f: Id)
    requires base < |es| && es[base].event.Resync?
  {
    f in Ids(es[base].event.peers) || JoinedIn(es, base + 1, f)
  }

  /** With one snapshot at `base` and none after it, whoever has been named since is listed. */
  lemma {:induction false} NamedIsListed(members: set<Id>, c: Id, es: seq<Entry>, base: nat, f: Id)
    requires EventsOk(members, c, es) && base < |es| && es[base].event.Resync?
    requires forall p :: base < p < |es| ==> !es[p].event.Resync?
    requires NamedFrom(es, base, f)
    ensures f in Ids(Listed(es))
  {
    var n := |es| - 1;
    if base < n {
      assert EventOk(members, c, es[n].event);
      var before := es[..n];
      if es[n].event.PeerJoined? {
        IdsSnoc(Listed(before), PeerInfo(es[n].event.peerId, es[n].event.peerName));
      }
      if !(es[n].event.PeerJoined? && es[n].event.peerId == f) {
        if f !in Ids(es[base].event.peers) {
          var p :| base + 1 <= p < |es| && es[p].event.PeerJoined? && es[p].event.peerId == f;
          assert before[p] == es[p];
        }
        NamedIsListed(members, c, before, base, f);
      }
    }
  }

  // ---- A settled client -------------------------------------------------------------------------

  /** The client listens to a stream on its current channel and has seen all of it. */
  predicate Settled(s: State, c: Id) {
    var link := ClientOf(s.clients, c).link;
    && link.Some? && link.value < |s.streams|
    && var t := s.streams[link.value];
       && Listening(s.room, t, c) && t.unannounced == {}
       && t.wire.gotResync && t.wire.items == []
       && t.chan < |s.room.chans| && t.reader.next == |s.room.chans[t.chan].log|
  }

  /** What the client has seen from the snapshot on is the log from the subscription on. */
  lemma SettledHasSeenAll(s: State, c: Id)
    requires Inv(s) && Settled(s, c)
    ensures var t, seen := s.streams[ClientOf(s.clients, c).link.value], ClientOf(s.clients, c).seen;
      && 0 <= Base(t, seen) && seen[Base(t, seen)] == Entry(t.resync, 0)
      && t.chan < |s.room.chans| && t.reader.start <= |s.room.chans[t.chan].log|
      && seen[Base(t, seen) + 1..] == s.room.chans[t.chan].log[t.reader.start..]
  {
    var t := s.streams[ClientOf(s.clients, c).link.value];
    assert ClientOk(s.room, s.streams, s.net, c, ClientOf(s.clients, c));
    assert StreamOk(s.room, t);
  }

  lemma NamedAcross(seen: seq<Entry>, base: nat, log: seq<Entry>, start: nat, f: Id)
    requires base < |seen| && seen[base].event.Resync? && start <= |log| && seen[base + 1..] == log[start..]
    requires f in Ids(seen[base].event.peers) || JoinedIn(log, start, f)
    requires forall p :: 0 <= p < |log| ==> !log[p].event.Resync?
    ensures NamedFrom(seen, base, f)
    ensures forall p :: base < p < |seen| ==> !seen[p].event.Resync?
  {
    assert forall p :: base < p < |seen| ==> seen[p] == seen[base + 1..][p - base - 1] == log[start + p - base - 1];
    if JoinedIn(log, start, f) {
      var p :| start <= p < |log| && log[p].event.PeerJoined? && log[p].event.peerId == f;
      assert seen[base + 1..][p - start] == log[p];
    }
  }

  /** The stream of a settled client tells it of every other client with a stream. */
  lemma SettledHasBeenTold(s: State, a: Id, b: Id)
    requires Inv(s) && Settled(s, a) && Settled(s, b) && a != b
    ensures var t, seen := s.streams[ClientOf(s.clients, a).link.value], ClientOf(s.clients, a).seen;
      && 0 <= Base(t, seen) && seen[Base(t, seen)].event.Resync?
      && (forall p :: Base(t, seen) < p < |seen| ==> !seen[p].event.Resync?)
      && NamedFrom(seen, Base(t, seen), b)
  {
    var t, u := s.streams[ClientOf(s.clients, a).link.value], s.streams[ClientOf(s.clients, b).link.value];
    var seen := ClientOf(s.clients, a).seen;
    assert StreamOk(s.room, t) && Tells(s.room, t, u);
    SettledHasSeenAll(s, a);
    NamedAcross(seen, Base(t, seen), s.room.chans[t.chan].log, t.reader.start, b);
  }

  /** Two settled clients list each other, themselves never, and nobody twice. */
  lemma MutualPresence(s: State, a: Id, b: Id)
    requires Inv(s) && Settled(s, a) && Settled(s, b) && a != b
    ensures var list := Listed(ClientOf(s.clients, a).seen);
      b in Ids(list) && a !in Ids(list) && DistinctIds(list) && Ids(list) <= s.room.participants.Keys
  {
    var t, cl := s.streams[ClientOf(s.clients, a).link.value], ClientOf(s.clients, a);
    assert ClientOk(s.room, s.streams, s.net, a, cl);
    SettledHasBeenTold(s, a, b);
    NamedIsListed(s.room.participants.Keys, a, cl.seen, Base(t, cl.seen), b);
    ListIsClean(s.room.participants.Keys, a, cl.seen);
  }

  // ---- No silent gap ----------------------------------------------------------------------------------

  /** What a stream has delivered is the run of its channel's log that starts at the
      subscription; the next read continues that run, or ends the stream if more than
      a buffer's worth is waiting. */
  lemma NoSilentGap(s: State, i: nat)
    requires Inv(s) && Can(s, Pull(i)) && s.streams[i].reader.sentResync
    ensures var t := s.streams[i];
      && t.chan < |s.room.chans| && t.reader.start <= t.reader.next <= |s.room.chans[t.chan].log|
      && t.reader.delivered == s.room.chans[t.chan].log[t.reader.start..t.reader.next]
    ensures var t, t', log := s.streams[i], Do(s, Pull(i)).streams[i], s.room.chans[s.streams[i].chan].log;
      if t.reader.next == |log| then t' == t
      else if |log| - t.reader.next > SSE_BUFFER_SIZE then
        t'.phase == Ended && t'.reader == t.reader && t'.wire == t.wire
      else
        t'.phase == Live && t'.reader.delivered == t.reader.delivered + [log[t.reader.next]]
  {
    var t := s.streams[i];
    assert StreamOk(s.room, t);
    ReadFollowsLog(s.room.chans[t.chan], t.reader.next);
  }

  /** A channel that nobody's session uses any more. */
  predicate Stale(room: Room, k: nat) {
    k < |room.chans| && forall id :: id in room.participants ==> room.participants[id] != k
  }

  lemma StaleThroughSend(room: Room, x: Id, e: Entry, k: nat)
    requires Stale(room, k)
    ensures Stale(SendTo(room, x, e), k) && SendTo(room, x, e).chans[k] == room.chans[k]
  {
  }

  lemma StaleThroughEnter(room: Room, req: JoinRequest, max: nat, k: nat)
    requires Stale(room, k)
    ensures var room' := Rooms.Enter(room, max, req).0; Stale(room', k) && room'.chans[k] == room.chans[k]
  {
  }

  /** A re-join leaves the older channel stale, and nothing is ever sent on it again. */
  lemma StaleStays(s: State, a: Action, k: nat)
    requires Can(s, a) && Stale(s.room, k)
    ensures Stale(Do(s, a).room, k) && Do(s, a).room.chans[k].log == s.room.chans[k].log
  {
    match a {
      case Enter(req, max) => StaleThroughEnter(s.room, req, max, k);
      case Announce(i, x) => StaleThroughSend(s.room, x, Announcement(s.room, s.streams[i]), k);
      case Relay(post) => StaleThroughSend(s.room, post.message.to, Relayed(post), k);
      case SendChat(x, event) => StaleThroughSend(s.room, x, Entry(event, 0), k);
      case _ =>
    }
  }

  lemma RejoinMakesStale(s: State, req: JoinRequest, max: nat)
    requires Inv(s) && Can(s, Enter(req, max)) && req.sessionId in s.room.participants
    ensures Stale(Do(s, Enter(req, max)).room, s.room.participants[req.sessionId])
  {
  }
}
