/** Runs in which an offer is lost, step by step. */
module Runs {
  import opened Types
  import opened Rooms
  import opened System
  import opened Theorems
  import opened Stranding
  import C = Connection
  import D = Delivery
  import Loss
  import M = Meshes
  import R = Relay

  // ---- Steps ---------------------------------------------------------------------------------------

  lemma GoesOn(password: string, run: seq<Sys>, steps: seq<Action>, x: Action, s: Sys)
    returns (run': seq<Sys>, steps': seq<Action>)
    requires IsRun(password, run, steps) && Leads(run[|steps|], x, s)
    ensures IsRun(password, run', steps') && steps' == steps + [x] && run'[|steps'|] == s
  {
    var n := |steps|;
    run', steps' := run + [s], steps + [x];
    forall k | 0 <= k <= n ensures Can(run'[k], steps'[k]) && run'[k + 1] == Next(run'[k], steps'[k]) {
      assert run'[k] == run[k];
      if k < n { assert steps'[k] == steps[k] && run'[k + 1] == run[k + 1]; }
    }
  }

  // ---- Two sessions join ------------------------------------------------------------------------------

  function Asks(c: Id): JoinRequest { JoinRequest(None, None, c, None) }

  function Quiet(c: Id, readers: set<nat>): Channel { Channel(c, 0, [], readers, []) }

  /** Both are members, with nobody but the given readers subscribed. */
  function Both(password: string, a: Id, b: Id, ra: set<nat>, rb: set<nat>): Room {
    Room(Some(password), map[a := 0, b := 1], map[], [Quiet(a, ra), Quiet(b, rb)])
  }

  const NoNet: R.Net := R.Net(map[], {}, {}, map[])

  function Joined(password: string, a: Id, b: Id): Sys {
    Sys(R.State(Both(password, a, b, {}, {}), [], map[], NoNet), map[], {})
  }

  lemma BothJoin(password: string, a: Id, b: Id) returns (run: seq<Sys>, steps: seq<Action>)
    requires a != b
    ensures IsRun(password, run, steps) && run[|steps|] == Joined(password, a, b)
  {
    run, steps := [Opening(password)], [];
    var one := Sys(R.State(Room(Some(password), map[a := 0], map[], [Quiet(a, {})]), [], map[], NoNet), map[], {});
    assert Leads(run[0], Deliver(R.Enter(Asks(a), 2)), one);
    run, steps := GoesOn(password, run, steps, Deliver(R.Enter(Asks(a), 2)), one);
    assert map[a := 0][b := 1] == map[a := 0, b := 1];
    assert Leads(one, Deliver(R.Enter(Asks(b), 2)), Joined(password, a, b));
    run, steps := GoesOn(password, run, steps, Deliver(R.Enter(Asks(b), 2)), Joined(password, a, b));
  }

  // ---- One of them opens its stream -----------------------------------------------------------------------

  function Snapshot(c: Id): SseEvent { Resync([PeerInfo(c, None)], []) }

  function StreamOf(c: Id, other: Id, chan: nat, phase: R.Phase, untold: set<Id>, sent: bool, wire: R.Wire): R.Stream {
    R.Stream(c, phase, chan, Snapshot(other), untold, R.Reader(0, 0, sent, []), wire)
  }

  const Blank: R.Wire := R.Wire([], false, 0)

  /** `a` has the stream `t`, and `b` none. */
  function Alone(password: string, a: Id, b: Id, readers: set<nat>, t: R.Stream, seen: seq<Entry>): Sys {
    Sys(R.State(Both(password, a, b, readers, {}), [t], map[a := R.Client(Some(0), seen, 0)], NoNet), map[], {})
  }

  lemma Requests(password: string, a: Id, b: Id)
    requires a != b
    ensures Leads(Joined(password, a, b), Deliver(R.Request(a)), Alone(password, a, b, {}, R.NewStream(a), []))
  {
  }

  lemma Snaps(password: string, a: Id, b: Id)
    requires a != b && a != ""
    ensures Leads(
      Alone(password, a, b, {}, R.NewStream(a), []),
      Deliver(R.Snap(0, [PeerInfo(b, None)], [])),
      Alone(password, a, b, {}, StreamOf(a, b, 0, R.Snapped, {}, false, Blank), []))
  {
    var peers := [PeerInfo(b, None)];
    assert peers[0].peerId == b;
    assert Ids(peers) == {b};
    assert IsSnapshot(Both(password, a, b, {}, {}), a, peers);
  }

  lemma Subscribes(password: string, a: Id, b: Id)
    requires a != b
    ensures Leads(
      Alone(password, a, b, {}, StreamOf(a, b, 0, R.Snapped, {}, false, Blank), []),
      Deliver(R.Action.Subscribe(0)),
      Alone(password, a, b, {0}, StreamOf(a, b, 0, R.Live, {b}, false, Blank), []))
  {
    var t := StreamOf(a, b, 0, R.Snapped, {}, false, Blank);
    var room, room' := Both(password, a, b, {}, {}), Both(password, a, b, {0}, {});
    assert Rooms.Subscribe(room, 0, 0).chans[0].readers == {0};
    assert Rooms.Subscribe(room, 0, 0).chans == room'.chans;
    assert room.participants.Keys - {a} == {b};
    assert R.OpenedStream(room, t) == StreamOf(a, b, 0, R.Live, {b}, false, Blank);
  }

  lemma Announces(password: string, a: Id, b: Id)
    requires a != b
    ensures Leads(
      Alone(password, a, b, {0}, StreamOf(a, b, 0, R.Live, {b}, false, Blank), []),
      Deliver(R.Announce(0, b)),
      Alone(password, a, b, {0}, StreamOf(a, b, 0, R.Live, {}, false, Blank), []))
  {
    var t := StreamOf(a, b, 0, R.Live, {b}, false, Blank);
    var room := Both(password, a, b, {0}, {});
    assert SendTo(room, b, R.Announcement(room, t)).chans == room.chans;
    assert {b} - {b} == {};
  }

  lemma Pulls(password: string, a: Id, b: Id)
    ensures Leads(
      Alone(password, a, b, {0}, StreamOf(a, b, 0, R.Live, {}, false, Blank), []),
      Deliver(R.Pull(0)),
      Alone(password, a, b, {0}, StreamOf(a, b, 0, R.Live, {}, true, R.Wire([Entry(Snapshot(b), 0)], false, 0)), []))
  {
    var t := StreamOf(a, b, 0, R.Live, {}, false, Blank);
    assert R.PulledResync(t).wire.items == [Entry(Snapshot(b), 0)];
    assert [t][0 := R.PulledResync(t)] == [R.PulledResync(t)];
  }

  /** `a` listens and has seen the snapshot. */
  function Listens(password: string, a: Id, b: Id): Sys {
    Alone(password, a, b, {0}, StreamOf(a, b, 0, R.Live, {}, true, R.Wire([], true, 0)), [Entry(Snapshot(b), 0)])
  }

  lemma Arrives(password: string, a: Id, b: Id)
    ensures Leads(
      Alone(password, a, b, {0}, StreamOf(a, b, 0, R.Live, {}, true, R.Wire([Entry(Snapshot(b), 0)], false, 0)), []),
      Deliver(R.Arrive(a)),
      Listens(password, a, b))
  {
    var t := StreamOf(a, b, 0, R.Live, {}, true, R.Wire([Entry(Snapshot(b), 0)], false, 0));
    assert R.Arrived(t).wire == R.Wire([], true, 0) && [] + t.wire.items == t.wire.items;
    assert [t][0 := R.Arrived(t)] == [R.Arrived(t)];
    assert map[a := R.Client(Some(0), [], 0)][a := R.Client(Some(0), [Entry(Snapshot(b), 0)], 0)]
        == map[a := R.Client(Some(0), [Entry(Snapshot(b), 0)], 0)];
  }

  // ---- It offers --------------------------------------------------------------------------------------------

  /** `a` listens; its mesh has the connection `conn` for `b`. */
  function Meshed(password: string, a: Id, b: Id, peers: map<Id, C.Peer>, used: nat, net: R.Net): Sys {
    var s := Listens(password, a, b);
    Sys(s.relay.(clients := map[a := R.Client(Some(0), [Entry(Snapshot(b), 0)], used)], net := net),
        map[a := M.MeshState(a, peers, {})], {})
  }

  /** An offering connection with one task, and what it has called and sent. */
  function Offering(t: C.Task, calls: seq<C.Call>, sent: seq<Signal>): C.Peer {
    var log := C.History(calls, [], [], sent, false, false);
    C.Peer(true, false, [], C.Pc(C.Stable, true, true, None, None), [t], 0, log)
  }

  function Offered(t: C.Task, sdp: string, sent: seq<Signal>): C.Peer {
    var d := C.Description(C.OfferKind, sdp);
    Offering(t, [C.Describe(C.Local, d, C.Stable)], sent).(pc := C.Pc(C.HaveLocalOffer, true, true, Some(d), None))
  }

  lemma Builds(password: string, a: Id, b: Id)
    ensures Leads(Listens(password, a, b), Build(a), Meshed(password, a, b, map[], 0, NoNet))
  {
  }

  lemma SnapshotMakesOffer(a: Id, b: Id)
    requires Before(a, b) && a != b
    ensures M.Handle(M.MeshState(a, map[], {}), Snapshot(b), {}) ==
            M.MeshState(a, map[b := Offering(C.OfferStart, [], [])], {})
  {
    var m := M.MeshState(a, map[], {});
    var peers := [PeerInfo(b, None)];
    assert M.NoticeAll(m, peers[..0], {}) == m;
    assert M.NoticeAll(m, peers, {}) == M.OfferTo(M.Ensure(m, b, {}), b);
    assert C.MaybeOffer(true, C.FreshPeer) == Offering(C.OfferStart, [], []);
    assert map[][b := C.FreshPeer][b := Offering(C.OfferStart, [], [])] == map[b := Offering(C.OfferStart, [], [])];
  }

  /** The mesh of `c` takes its next event, and no connection is refused. */
  lemma Takes(s: Sys, c: Id, m: M.MeshState)
    requires CanProcess(s, c) && m == M.Handle(s.meshes[c], NextEntry(s.relay, c).event, {})
    ensures Leads(s, Process(c, {}), Sys(UseOne(s.relay, c), s.meshes[c := m], s.left))
  {
  }

  lemma Processes(password: string, a: Id, b: Id)
    requires Before(a, b) && a != b
    ensures Leads(
      Meshed(password, a, b, map[], 0, NoNet),
      Process(a, {}),
      Meshed(password, a, b, map[b := Offering(C.OfferStart, [], [])], 1, NoNet))
  {
    var s, m := Meshed(password, a, b, map[], 0, NoNet), M.MeshState(a, map[b := Offering(C.OfferStart, [], [])], {});
    SnapshotMakesOffer(a, b);
    assert R.ClientOf(s.relay.clients, a) == R.Client(Some(0), [Entry(Snapshot(b), 0)], 0);
    Takes(s, a, m);
    assert s.meshes[a := m] == map[a := m];
    assert UseOne(s.relay, a).clients == map[a := R.Client(Some(0), [Entry(Snapshot(b), 0)], 1)];
  }

  /** What is posted when a connection goes from `p` to `p'`. */
  function NetAfter(net: R.Net, c: Id, f: Id, p: C.Peer, p': C.Peer): R.Net {
    if |p'.log.outbox| <= |p.log.outbox| then net
    else D.Posting(net, c, SignalMessage(f, p'.log.outbox[|p.log.outbox|]))
  }

  /** One poll of a task of `c`'s connection for `f`. */
  lemma Works(s: Sys, c: Id, f: Id, i: nat, o: C.Outcome, p': C.Peer)
    requires c in s.meshes && f in s.meshes[c].peers && i < |s.meshes[c].peers[f].tasks|
    requires p' == C.Run(s.meshes[c].peers[f], i, o)
    ensures Leads(
      s, Local(c, f, C.Step(i, o)),
      Sys(s.relay.(net := NetAfter(s.relay.net, c, f, s.meshes[c].peers[f], p')),
          s.meshes[c := s.meshes[c].(peers := s.meshes[c].peers[f := p'])], s.left))
  {
  }

  lemma Polls(password: string, a: Id, b: Id, p: C.Peer, p': C.Peer, o: C.Outcome, net: R.Net)
    requires |p.tasks| == 1 && p' == C.Run(p, 0, o) && net == NetAfter(NoNet, a, b, p, p')
    ensures Leads(
      Meshed(password, a, b, map[b := p], 1, NoNet),
      Local(a, b, C.Step(0, o)),
      Meshed(password, a, b, map[b := p'], 1, net))
  {
    var s := Meshed(password, a, b, map[b := p], 1, NoNet);
    Works(s, a, b, 0, o, p');
    assert map[b := p][b := p'] == map[b := p'];
    assert s.meshes[a := s.meshes[a].(peers := s.meshes[a].peers[b := p'])]
        == map[a := M.MeshState(a, map[b := p'], {})];
  }

  function Flying(a: Id, b: Id, sdp: string): R.Post { R.Post(a, SignalMessage(b, Offer(sdp)), 0) }

  function OfferNet(a: Id, b: Id, sdp: string): R.Net {
    R.Net(map[(a, b) := [Offer(sdp)]], {Flying(a, b, sdp)}, {}, map[])
  }

  /** The polls of the offering task, one by one. */
  lemma OfferPolls(sdp: string)
    ensures C.Run(Offering(C.OfferStart, [], []), 0, C.Rejected) == Offering(C.OfferCreating, [], [])
    ensures var d := C.Description(C.OfferKind, sdp);
      C.Run(Offering(C.OfferCreating, [], []), 0, C.Resolved(sdp)) ==
      Offering(C.OfferSetting(sdp), [C.Describe(C.Local, d, C.Stable)], [])
    ensures var d := C.Description(C.OfferKind, sdp);
      C.Run(Offering(C.OfferSetting(sdp), [C.Describe(C.Local, d, C.Stable)], []), 0, C.Resolved(sdp)) ==
      Offered(C.OfferSet(sdp), sdp, [])
    ensures C.Run(Offered(C.OfferSet(sdp), sdp, []), 0, C.Resolved(sdp)) == Offered(C.Finished, sdp, [Offer(sdp)])
  {
  }

  lemma FirstPost(a: Id, b: Id, sdp: string)
    ensures D.Posting(NoNet, a, SignalMessage(b, Offer(sdp))) == OfferNet(a, b, sdp)
  {
    assert R.Posted(NoNet, a, b) + [Offer(sdp)] == [Offer(sdp)];
  }

  /** `a` has posted its offer, and `b` has never opened a stream. */
  function OfferFlies(password: string, a: Id, b: Id, sdp: string): Sys {
    Meshed(password, a, b, map[b := Offered(C.Finished, sdp, [Offer(sdp)])], 1, OfferNet(a, b, sdp))
  }

  lemma OneListens(password: string, a: Id, b: Id) returns (run: seq<Sys>, steps: seq<Action>)
    requires a != b && a != ""
    ensures IsRun(password, run, steps) && run[|steps|] == Listens(password, a, b)
  {
    run, steps := BothJoin(password, a, b);
    Requests(password, a, b);
    run, steps := GoesOn(password, run, steps, Deliver(R.Request(a)), Alone(password, a, b, {}, R.NewStream(a), []));
    Snaps(password, a, b);
    run, steps := GoesOn(password, run, steps, Deliver(R.Snap(0, [PeerInfo(b, None)], [])),
      Alone(password, a, b, {}, StreamOf(a, b, 0, R.Snapped, {}, false, Blank), []));
    Subscribes(password, a, b);
    run, steps := GoesOn(password, run, steps, Deliver(R.Action.Subscribe(0)),
      Alone(password, a, b, {0}, StreamOf(a, b, 0, R.Live, {b}, false, Blank), []));
    Announces(password, a, b);
    run, steps := GoesOn(password, run, steps, Deliver(R.Announce(0, b)),
      Alone(password, a, b, {0}, StreamOf(a, b, 0, R.Live, {}, false, Blank), []));
    Pulls(password, a, b);
    run, steps := GoesOn(password, run, steps, Deliver(R.Pull(0)),
      Alone(password, a, b, {0}, StreamOf(a, b, 0, R.Live, {}, true, R.Wire([Entry(Snapshot(b), 0)], false, 0)), []));
    Arrives(password, a, b);
    run, steps := GoesOn(password, run, steps, Deliver(R.Arrive(a)), Listens(password, a, b));
  }

  lemma OneOffers(password: string, a: Id, b: Id, sdp: string) returns (run: seq<Sys>, steps: seq<Action>)
    requires Before(a, b) && a != b && a != ""
    ensures IsRun(password, run, steps) && run[|steps|] == OfferFlies(password, a, b, sdp)
  {
    run, steps := OneListens(password, a, b);
    Builds(password, a, b);
    run, steps := GoesOn(password, run, steps, Build(a), Meshed(password, a, b, map[], 0, NoNet));
    Processes(password, a, b);
    var p0, p1 := Offering(C.OfferStart, [], []), Offering(C.OfferCreating, [], []);
    var p2 := Offering(C.OfferSetting(sdp), [C.Describe(C.Local, C.Description(C.OfferKind, sdp), C.Stable)], []);
    var p3, p4 := Offered(C.OfferSet(sdp), sdp, []), Offered(C.Finished, sdp, [Offer(sdp)]);
    OfferPolls(sdp);
    run, steps := GoesOn(password, run, steps, Process(a, {}), Meshed(password, a, b, map[b := p0], 1, NoNet));
    FirstPost(a, b, sdp);
    Polls(password, a, b, p0, p1, C.Rejected, NoNet);
    run, steps := GoesOn(
      password, run, steps, Local(a, b, C.Step(0, C.Rejected)), Meshed(password, a, b, map[b := p1], 1, NoNet));
    Polls(password, a, b, p1, p2, C.Resolved(sdp), NoNet);
    run, steps := GoesOn(
      password, run, steps, Local(a, b, C.Step(0, C.Resolved(sdp))), Meshed(password, a, b, map[b := p2], 1, NoNet));
    Polls(password, a, b, p2, p3, C.Resolved(sdp), NoNet);
    run, steps := GoesOn(
      password, run, steps, Local(a, b, C.Step(0, C.Resolved(sdp))), Meshed(password, a, b, map[b := p3], 1, NoNet));
    Polls(password, a, b, p3, p4, C.Resolved(sdp), OfferNet(a, b, sdp));
    run, steps := GoesOn(
      password, run, steps, Local(a, b, C.Step(0, C.Resolved(sdp))), OfferFlies(password, a, b, sdp));
  }

  // ---- Nobody hears it ----------------------------------------------------------------------------------------

  /** A post in flight to somebody who listens to nothing. */
  ghost predicate FliesToNobody(s: Sys, a: Id, b: Id, sdp: string) {
    && s.relay.net == OfferNet(a, b, sdp) && Outbox(s, a, b) == [Offer(sdp)]
    && a in s.relay.room.participants && R.ClientOf(s.relay.clients, b).link == None
  }

  lemma RelayStrands(s: Sys, a: Id, b: Id, sdp: string)
    requires D.Inv(s.relay) && FliesToNobody(s, a, b, sdp)
    ensures var s' := s.(relay := R.RelayPost(s.relay, Flying(a, b, sdp)));
      Loss.SignalStranded(s', a, b, 0) && Outbox(s', a, b)[0] == Offer(sdp)
  {
    UnheardIsStranded(s.relay, Flying(a, b, sdp));
  }

  lemma RelayedToNobody(password: string, run: seq<Sys>, steps: seq<Action>, a: Id, b: Id, sdp: string)
    returns (run': seq<Sys>, steps': seq<Action>)
    requires IsRun(password, run, steps) && FliesToNobody(run[|steps|], a, b, sdp)
    ensures IsRun(password, run', steps') && steps' == steps + [Deliver(R.Action.Relay(Flying(a, b, sdp)))]
    ensures var s' := run'[|steps'|];
      && s'.relay.room == SendTo(run[|steps|].relay.room, b, R.Relayed(Flying(a, b, sdp)))
      && Loss.SignalStranded(s', a, b, 0) && Outbox(s', a, b)[0] == Offer(sdp)
  {
    var s, post := run[|steps|], Flying(a, b, sdp);
    RunHolds(password, run, steps, |steps|);
    RelayStrands(s, a, b, sdp);
    run', steps' := GoesOn(
      password, run, steps, Deliver(R.Action.Relay(post)), s.(relay := R.RelayPost(s.relay, post)));
  }

  /** A run in which an offer is lost: `a` offers to `b`, who has joined but not yet opened
      its stream. */
  lemma OfferIsLost(password: string, a: Id, b: Id, sdp: string) returns (run: seq<Sys>, steps: seq<Action>)
    requires Before(a, b) && a != b && a != ""
    ensures IsRun(password, run, steps)
    ensures Loss.SignalStranded(run[|steps|], a, b, 0) && Outbox(run[|steps|], a, b)[0] == Offer(sdp)
  {
    run, steps := OneOffers(password, a, b, sdp);
    run, steps := RelayedToNobody(password, run, steps, a, b, sdp);
  }

  // ---- Nobody reads it ----------------------------------------------------------------------------------------

  /** The offer flies, and `b` has the stream `u` with `link`. */
  function Two(
    password: string, a: Id, b: Id, sdp: string, readers: set<nat>, u: R.Stream, link: Option<nat>): Sys {
    var s := OfferFlies(password, a, b, sdp);
    s.(relay := R.State(
      Both(password, a, b, {0}, readers), s.relay.streams + [u],
      s.relay.clients[b := R.Client(link, [], 0)], s.relay.net))
  }

  lemma SecondRequests(password: string, a: Id, b: Id, sdp: string)
    requires a != b
    ensures Leads(
      OfferFlies(password, a, b, sdp), Deliver(R.Request(b)), Two(password, a, b, sdp, {}, R.NewStream(b), Some(1)))
  {
  }

  lemma SecondSnaps(password: string, a: Id, b: Id, sdp: string)
    requires a != b && b != ""
    ensures Leads(
      Two(password, a, b, sdp, {}, R.NewStream(b), Some(1)),
      Deliver(R.Snap(1, [PeerInfo(a, None)], [])),
      Two(password, a, b, sdp, {}, StreamOf(b, a, 1, R.Snapped, {}, false, Blank), Some(1)))
  {
    var peers := [PeerInfo(a, None)];
    assert peers[0].peerId == a;
    assert Ids(peers) == {a};
    assert IsSnapshot(Both(password, a, b, {0}, {}), b, peers);
    SecondStream(password, a, b, sdp, R.NewStream(b), StreamOf(b, a, 1, R.Snapped, {}, false, Blank));
  }

  /** The second of two streams moves. */
  lemma SecondStream(password: string, a: Id, b: Id, sdp: string, u: R.Stream, u': R.Stream)
    ensures var streams := OfferFlies(password, a, b, sdp).relay.streams;
      |streams| == 1 && (streams + [u])[1 := u'] == streams + [u']
  {
  }

  lemma SecondSubscribes(password: string, a: Id, b: Id, sdp: string)
    requires a != b
    ensures Leads(
      Two(password, a, b, sdp, {}, StreamOf(b, a, 1, R.Snapped, {}, false, Blank), Some(1)),
      Deliver(R.Action.Subscribe(1)),
      Two(password, a, b, sdp, {1}, StreamOf(b, a, 1, R.Live, {a}, false, Blank), Some(1)))
  {
    var u := StreamOf(b, a, 1, R.Snapped, {}, false, Blank);
    var room, room' := Both(password, a, b, {0}, {}), Both(password, a, b, {0}, {1});
    assert Rooms.Subscribe(room, 1, 1).chans[1].readers == {1};
    assert Rooms.Subscribe(room, 1, 1).chans == room'.chans;
    assert room.participants.Keys - {b} == {a};
    assert R.OpenedStream(room, u) == StreamOf(b, a, 1, R.Live, {a}, false, Blank);
    SecondStream(password, a, b, sdp, u, R.OpenedStream(room, u));
  }

  lemma SecondDetaches(password: string, a: Id, b: Id, sdp: string)
    requires a != b
    ensures Leads(
      Two(password, a, b, sdp, {1}, StreamOf(b, a, 1, R.Live, {a}, false, Blank), Some(1)),
      Deliver(R.Detach(b)),
      Two(password, a, b, sdp, {1}, StreamOf(b, a, 1, R.Live, {a}, false, Blank), None))
  {
  }

  /** A run in which an offer is lost although `b`'s channel has a subscriber and takes it:
      `b`'s client has dropped the stream, and the server has yet to notice. */
  lemma OfferIsLeftUnread(password: string, a: Id, b: Id, sdp: string) returns (run: seq<Sys>, steps: seq<Action>)
    requires Before(a, b) && a != b && a != "" && b != ""
    ensures IsRun(password, run, steps)
    ensures Loss.SignalStranded(run[|steps|], a, b, 0) && Outbox(run[|steps|], a, b)[0] == Offer(sdp)
    ensures var room := run[|steps|].relay.room;
      && b in room.participants && room.participants[b] < |room.chans|
      && var ch := room.chans[room.participants[b]];
         ch.readers != {} && ch.log == [R.Relayed(Flying(a, b, sdp))]
  {
    run, steps := OneOffers(password, a, b, sdp);
    SecondRequests(password, a, b, sdp);
    run, steps := GoesOn(password, run, steps, Deliver(R.Request(b)),
      Two(password, a, b, sdp, {}, R.NewStream(b), Some(1)));
    SecondSnaps(password, a, b, sdp);
    run, steps := GoesOn(password, run, steps, Deliver(R.Snap(1, [PeerInfo(a, None)], [])),
      Two(password, a, b, sdp, {}, StreamOf(b, a, 1, R.Snapped, {}, false, Blank), Some(1)));
    SecondSubscribes(password, a, b, sdp);
    run, steps := GoesOn(password, run, steps, Deliver(R.Action.Subscribe(1)),
      Two(password, a, b, sdp, {1}, StreamOf(b, a, 1, R.Live, {a}, false, Blank), Some(1)));
    SecondDetaches(password, a, b, sdp);
    run, steps := GoesOn(password, run, steps, Deliver(R.Detach(b)),
      Two(password, a, b, sdp, {1}, StreamOf(b, a, 1, R.Live, {a}, false, Blank), None));
    run, steps := RelayedToNobody(password, run, steps, a, b, sdp);
  }
}
