/** The whole room: the relay and one mesh per session, as a transition system. Its
    restriction to any two sessions is the pair of module Pair. */
module System {
  import opened Types
  import opened Rooms
  import C = Connection
  import M = Meshes
  import P = Pair
  import R = Relay
  import D = Delivery
  import L = Placement

  // ---- State and steps -----------------------------------------------------------------------

  /** `left` are the sessions that have closed their mesh. Their connections are kept,
      closed, for the tasks that share them. */
  datatype Sys = Sys(relay: R.State, meshes: map<Id, M.MeshState>, left: set<Id>)

  /** Delivery moves; a client builds its mesh; a mesh takes the next event that has
      reached its client; something happens to one of its connections; a session
      leaves and closes its mesh. */
  datatype Action =
    | Deliver(a: R.Action)
    | Build(c: Id)
    | Process(c: Id, refused: set<Id>)
    | Local(c: Id, f: Id, x: C.Action)
    | Leave(c: Id)

  function Opening(password: string): Sys {
    Sys(R.State(Claimed(password), [], map[], R.Net(map[], {}, {}, map[])), map[], {})
  }

  function ConnOf(meshes: map<Id, M.MeshState>, c: Id, f: Id): C.Peer {
    if c in meshes then M.Conn(meshes[c], f) else C.FreshPeer
  }

  function NextEntry(relay: R.State, c: Id): Entry
    requires R.ClientOf(relay.clients, c).used < |R.ClientOf(relay.clients, c).seen|
  {
    var cl := R.ClientOf(relay.clients, c);
    cl.seen[cl.used]
  }

  ghost predicate Can(s: Sys, x: Action) {
    match x
    case Deliver(a) => R.Can(s.relay, a) && !a.PostSignal? && !a.Use?
    case Build(c) => c !in s.meshes && c in s.relay.room.participants
    case Process(c, _) => CanProcess(s, c)
    case Local(c, f, y) => CanAct(s, c, f, y)
    case Leave(c) => c in s.meshes && c !in s.left
  }

  predicate CanAct(s: Sys, c: Id, f: Id, y: C.Action) {
    c in s.meshes && f in s.meshes[c].peers && P.Own(s.meshes[c].peers[f], y) && !y.Shut?
  }

  predicate CanProcess(s: Sys, c: Id) {
    c in s.meshes && c !in s.left && R.ClientOf(s.relay.clients, c).used < |R.ClientOf(s.relay.clients, c).seen|
  }

  function UseOne(relay: R.State, c: Id): R.State {
    var cl := R.ClientOf(relay.clients, c);
    relay.(clients := relay.clients[c := cl.(used := cl.used + 1)])
  }

  /** What a connection puts in its outbox is posted to its peer. */
  function PostNew(relay: R.State, c: Id, f: Id, before: seq<Signal>, after: seq<Signal>): R.State {
    if |after| <= |before| then relay
    else relay.(net := D.Posting(relay.net, c, SignalMessage(f, after[|before|])))
  }

  function Built(s: Sys, c: Id): Sys {
    s.(meshes := s.meshes[c := M.MeshState(c, map[], {})])
  }

  function Processed(s: Sys, c: Id, refused: set<Id>): Sys
    requires CanProcess(s, c)
  {
    Sys(UseOne(s.relay, c), s.meshes[c := M.Handle(s.meshes[c], NextEntry(s.relay, c).event, refused)], s.left)
  }

  function Acted(s: Sys, c: Id, f: Id, y: C.Action): Sys
    requires CanAct(s, c, f, y)
  {
    var m := s.meshes[c];
    var p := m.peers[f];
    var p' := C.Act(Before(c, f), p, y);
    Sys(PostNew(s.relay, c, f, p.log.outbox, p'.log.outbox), s.meshes[c := m.(peers := m.peers[f := p'])], s.left)
  }

  function Parted(s: Sys, c: Id): Sys
    requires c in s.meshes
  {
    s.(meshes := s.meshes[c := M.AllClosed(s.meshes[c])], left := s.left + {c})
  }

  ghost function Next(s: Sys, x: Action): Sys
    requires Can(s, x)
  {
    match x
    case Deliver(a) => s.(relay := R.Do(s.relay, a))
    case Build(c) => Built(s, c)
    case Process(c, refused) => Processed(s, c, refused)
    case Local(c, f, y) => Acted(s, c, f, y)
    case Leave(c) => Parted(s, c)
  }

  // ---- The pair of two sessions ------------------------------------------------------------------

  /** The tags of the signals from `f` that the mesh has processed. */
  function TakenBy(cl: R.Client, f: Id): set<nat> {
    set j | 0 <= j < cl.used && j < |cl.seen| && cl.seen[j].event.Media? && cl.seen[j].event.from == f :: cl.seen[j].tag
  }

  function Refused(meshes: map<Id, M.MeshState>, c: Id, f: Id): bool {
    c in meshes && f in meshes[c].refusals
  }

  function PairOf(s: Sys, a: Id, b: Id): P.Ends {
    P.Ends(
      ConnOf(s.meshes, a, b), ConnOf(s.meshes, b, a),
      TakenBy(R.ClientOf(s.relay.clients, b), a), TakenBy(R.ClientOf(s.relay.clients, a), b),
      Refused(s.meshes, a, b), Refused(s.meshes, b, a))
  }

  // ---- Invariant ---------------------------------------------------------------------------------

  ghost predicate MeshOk(members: set<Id>, c: Id, m: M.MeshState) {
    m.self == c && c in members && c !in m.peers && m.peers.Keys <= members
  }

  ghost predicate MeshesOk(s: Sys) {
    forall c :: c in s.meshes ==> MeshOk(s.relay.room.participants.Keys, c, s.meshes[c])
  }

  /** What a connection has put in its outbox is what its session has posted to that peer. */
  ghost predicate Outboxes(s: Sys) {
    forall c, f :: R.Posted(s.relay.net, c, f) == ConnOf(s.meshes, c, f).log.outbox
  }

  ghost predicate PairsOk(s: Sys) {
    forall a, b :: Before(a, b) ==> P.PairInv(PairOf(s, a, b))
  }

  /** Those for whom a mesh has a connection, or could not get one. */
  function Reached(meshes: map<Id, M.MeshState>, c: Id): set<Id> {
    if c in meshes then meshes[c].peers.Keys + meshes[c].refusals else {}
  }

  /** A mesh has a connection for everyone it was told of, unless the browser refused it. */
  ghost predicate Knows(s: Sys, c: Id) {
    var cl := R.ClientOf(s.relay.clients, c);
    && (cl.used > 0 ==> c in s.meshes)
    && forall j :: 0 <= j < cl.used && j < |cl.seen| ==> M.Named(cl.seen[j].event) <= Reached(s.meshes, c)
  }

  /** A session's connections are open until it leaves, and closed from then on. */
  ghost predicate OpenUntilLeft(s: Sys) {
    forall c, f :: c in s.meshes && f in s.meshes[c].peers ==> (s.meshes[c].peers[f].pc.open <==> c !in s.left)
  }

  ghost predicate MeshInv(s: Sys) {
    MeshesOk(s) && OpenUntilLeft(s) && Outboxes(s) && PairsOk(s) && forall c :: Knows(s, c)
  }

  ghost predicate SysInv(s: Sys) {
    D.Inv(s.relay) && L.AllPlaced(s.relay) && MeshInv(s)
  }

  lemma OpeningDelivers(password: string)
    ensures D.Inv(Opening(password).relay) && L.AllPlaced(Opening(password).relay)
  {
    assert forall c :: R.ClientOf(Opening(password).relay.clients, c) == R.Client(None, [], 0);
  }

  lemma OpeningMeshes(password: string)
    ensures MeshInv(Opening(password))
  {
    var s := Opening(password);
    assert forall c :: R.ClientOf(s.relay.clients, c) == R.Client(None, [], 0);
    assert forall a, b :: PairOf(s, a, b) == P.Start;
  }

  lemma OpeningHolds(password: string)
    ensures SysInv(Opening(password))
  {
    OpeningDelivers(password);
    OpeningMeshes(password);
  }

  /** What the meshes rely on about the events that reach client `c`. */
  ghost predicate SeenOk(relay: R.State, c: Id) {
    var cl := R.ClientOf(relay.clients, c);
    cl.used <= |cl.seen| && D.EventsOk(relay.room.participants.Keys, c, cl.seen) && D.Tagged(relay.net, c, cl.seen)
  }

  lemma RelaySeenOk(relay: R.State, c: Id)
    requires D.Inv(relay)
    ensures SeenOk(relay, c)
  {
    assert D.ClientOk(relay.room, relay.streams, relay.net, c, R.ClientOf(relay.clients, c));
  }

  // ---- Delivery steps -------------------------------------------------------------------------------

  /** Delivery keeps members and posts, and only adds to what clients have seen. */
  ghost predicate OnlyDelivers(s: R.State, s': R.State) {
    && s.room.participants.Keys <= s'.room.participants.Keys
    && s'.net.posted == s.net.posted
    && forall c :: SeesMore(R.ClientOf(s.clients, c), R.ClientOf(s'.clients, c))
  }

  predicate SeesMore(cl: R.Client, cl': R.Client) {
    cl'.used == cl.used && cl.seen <= cl'.seen
  }

  lemma HandlerOnlyDelivers(s: R.State, a: R.Action)
    requires R.Can(s, a)
    requires a.Enter? || a.Snap? || a.Subscribe? || a.Pull? || a.Drop? || a.Announce?
    ensures OnlyDelivers(s, R.Do(s, a))
  {
    assert R.Do(s, a).clients == s.clients;
  }

  lemma DeliveryFrame(s: R.State, a: R.Action)
    requires R.Can(s, a) && !a.PostSignal? && !a.Use?
    ensures OnlyDelivers(s, R.Do(s, a))
  {
    match a {
      case Request(c) => assert SeesMore(R.ClientOf(s.clients, c), R.Do(s, a).clients[c]);
      case Detach(c) => assert SeesMore(R.ClientOf(s.clients, c), R.Do(s, a).clients[c]);
      case Arrive(c) => assert SeesMore(R.ClientOf(s.clients, c), R.Do(s, a).clients[c]);
      case Relay(post) => assert R.RelayPost(s, post).clients == s.clients;
      case Lose(post) =>
      case SendChat(_, _) =>
      case _ => HandlerOnlyDelivers(s, a);
    }
  }

  lemma TakenByGrows(cl: R.Client, cl': R.Client, f: Id)
    requires SeesMore(cl, cl') && cl.used <= |cl.seen|
    ensures TakenBy(cl', f) == TakenBy(cl, f)
  {
  }

  lemma KnowsStays(s: Sys, s': Sys, c: Id)
    requires Knows(s, c) && SeesMore(R.ClientOf(s.relay.clients, c), R.ClientOf(s'.relay.clients, c))
    requires R.ClientOf(s.relay.clients, c).used <= |R.ClientOf(s.relay.clients, c).seen|
    requires c in s.meshes ==> c in s'.meshes && Reached(s.meshes, c) <= Reached(s'.meshes, c)
    ensures Knows(s', c)
  {
    var cl, cl' := R.ClientOf(s.relay.clients, c), R.ClientOf(s'.relay.clients, c);
    forall j | 0 <= j < cl'.used ensures M.Named(cl'.seen[j].event) <= Reached(s'.meshes, c) {
      assert cl'.seen[j] == cl.seen[j];
    }
  }

  lemma DeliverKeepsMeshes(s: Sys, relay': R.State)
    requires MeshInv(s) && OnlyDelivers(s.relay, relay')
    requires forall c :: SeenOk(s.relay, c)
    ensures MeshInv(s.(relay := relay'))
  {
    var s' := s.(relay := relay');
    forall a, b | Before(a, b) ensures P.PairInv(PairOf(s', a, b)) {
      assert SeenOk(s.relay, a) && SeenOk(s.relay, b);
      TakenByGrows(R.ClientOf(s.relay.clients, a), R.ClientOf(relay'.clients, a), b);
      TakenByGrows(R.ClientOf(s.relay.clients, b), R.ClientOf(relay'.clients, b), a);
      assert PairOf(s', a, b) == PairOf(s, a, b);
    }
    forall c ensures Knows(s', c) {
      assert Knows(s, c) && SeenOk(s.relay, c);
      assert SeesMore(R.ClientOf(s.relay.clients, c), R.ClientOf(relay'.clients, c));
      KnowsStays(s, s', c);
    }
    forall c, f ensures R.Posted(relay'.net, c, f) == ConnOf(s'.meshes, c, f).log.outbox {
      assert R.Posted(s.relay.net, c, f) == ConnOf(s.meshes, c, f).log.outbox;
    }
  }

  lemma DeliverKeepsInv(s: Sys, a: R.Action)
    requires SysInv(s) && Can(s, Deliver(a))
    ensures SysInv(Next(s, Deliver(a)))
  {
    D.DoKeepsInv(s.relay, a);
    L.DoKeepsPlaced(s.relay, a);
    DeliveryFrame(s.relay, a);
    forall c ensures SeenOk(s.relay, c) { RelaySeenOk(s.relay, c); }
    DeliverKeepsMeshes(s, R.Do(s.relay, a));
  }

  // ---- A mesh is built ---------------------------------------------------------------------------------

  lemma BuildKeepsMeshes(s: Sys, c: Id)
    requires MeshInv(s) && SeenOk(s.relay, c) && c !in s.meshes && c in s.relay.room.participants
    ensures MeshInv(Built(s, c))
  {
    var s' := Built(s, c);
    assert forall d, f :: ConnOf(s'.meshes, d, f) == ConnOf(s.meshes, d, f);
    forall a, b | Before(a, b) ensures P.PairInv(PairOf(s', a, b)) {
      assert PairOf(s', a, b) == PairOf(s, a, b);
    }
    forall d ensures Knows(s', d) {
      assert Knows(s, d);
    }
    forall d, f ensures R.Posted(s'.relay.net, d, f) == ConnOf(s'.meshes, d, f).log.outbox {
      assert R.Posted(s.relay.net, d, f) == ConnOf(s.meshes, d, f).log.outbox;
    }
  }

  // ---- A session leaves ----------------------------------------------------------------------------------

  /** Closing changes neither what connections have sent nor what is known of others. */
  lemma PartedAt(s: Sys, c: Id, d: Id, f: Id)
    requires OpenUntilLeft(s) && c in s.meshes && c !in s.left
    ensures var s', p := Parted(s, c), ConnOf(s.meshes, d, f);
      && Refused(s'.meshes, d, f) == Refused(s.meshes, d, f) && Reached(s'.meshes, d) == Reached(s.meshes, d)
      && ConnOf(s'.meshes, d, f).log.outbox == p.log.outbox
      && if d == c && f in s.meshes[c].peers then p.pc.open && ConnOf(s'.meshes, d, f) == C.Close(p)
         else ConnOf(s'.meshes, d, f) == p
  {
  }

  lemma LeaveKeepsPair(s: Sys, c: Id, a: Id, b: Id)
    requires MeshInv(s) && c in s.meshes && c !in s.left && Before(a, b)
    ensures P.PairInv(PairOf(Parted(s, c), a, b))
  {
    var e, e' := PairOf(s, a, b), PairOf(Parted(s, c), a, b);
    BeforeIsStrictTotal(a, b);
    PartedAt(s, c, a, b);
    PartedAt(s, c, b, a);
    assert P.PairInv(e);
    P.ShutKeepsPair(e);
    assert e' == e || e' == e.(a := C.Close(e.a)) || e' == e.(b := C.Close(e.b));
  }

  lemma LeaveKeepsMeshes(s: Sys, c: Id)
    requires MeshInv(s) && c in s.meshes && c !in s.left
    ensures MeshInv(Parted(s, c))
  {
    var s' := Parted(s, c);
    forall a, b | Before(a, b) ensures P.PairInv(PairOf(s', a, b)) { LeaveKeepsPair(s, c, a, b); }
    forall d ensures Knows(s', d) {
      assert Knows(s, d);
      PartedAt(s, c, d, d);
    }
    forall d, f ensures R.Posted(s'.relay.net, d, f) == ConnOf(s'.meshes, d, f).log.outbox {
      assert R.Posted(s.relay.net, d, f) == ConnOf(s.meshes, d, f).log.outbox;
      PartedAt(s, c, d, f);
    }
  }

  // ---- A connection's own steps ------------------------------------------------------------------------

  /** How a local step moves connections, clients and posts. */
  lemma ActedAt(s: Sys, c: Id, f: Id, y: C.Action, d: Id, g: Id)
    requires CanAct(s, c, f, y)
    ensures var s' := Acted(s, c, f, y);
      && s'.relay.clients == s.relay.clients && s'.relay.room == s.relay.room
      && Refused(s'.meshes, d, g) == Refused(s.meshes, d, g)
      && ConnOf(s'.meshes, d, g) ==
           if d == c && g == f then C.Act(Before(c, f), ConnOf(s.meshes, c, f), y) else ConnOf(s.meshes, d, g)
  {
  }

  /** In the pair of two sessions, a local step is one of an end's own steps, or none. */
  lemma ActedPair(s: Sys, c: Id, f: Id, y: C.Action, a: Id, b: Id)
    requires CanAct(s, c, f, y) && Before(a, b)
    ensures var e, e' := PairOf(s, a, b), PairOf(Acted(s, c, f, y), a, b);
      if (a, b) == (c, f) then P.Possible(e, P.AtA(y)) && e' == P.Next(e, P.AtA(y))
      else if (a, b) == (f, c) then P.Possible(e, P.AtB(y)) && e' == P.Next(e, P.AtB(y))
      else e' == e
  {
    BeforeIsStrictTotal(a, b);
    ActedAt(s, c, f, y, a, b);
    ActedAt(s, c, f, y, b, a);
  }

  lemma ActKeepsPair(s: Sys, c: Id, f: Id, y: C.Action, a: Id, b: Id)
    requires PairsOk(s) && CanAct(s, c, f, y) && Before(a, b)
    ensures P.PairInv(PairOf(Acted(s, c, f, y), a, b))
  {
    assert P.PairInv(PairOf(s, a, b));
    ActedPair(s, c, f, y, a, b);
    if (a, b) == (c, f) {
      P.StepKeepsPair(PairOf(s, a, b), P.AtA(y));
    } else if (a, b) == (f, c) {
      P.StepKeepsPair(PairOf(s, a, b), P.AtB(y));
    }
  }

  lemma ActKeepsOutboxes(s: Sys, c: Id, f: Id, y: C.Action)
    requires Outboxes(s) && CanAct(s, c, f, y)
    ensures Outboxes(Acted(s, c, f, y))
  {
    var s', p := Acted(s, c, f, y), s.meshes[c].peers[f];
    var p' := C.Act(Before(c, f), p, y);
    P.OwnActFrame(Before(c, f), p, y);
    forall d, g ensures R.Posted(s'.relay.net, d, g) == ConnOf(s'.meshes, d, g).log.outbox {
      assert R.Posted(s.relay.net, d, g) == ConnOf(s.meshes, d, g).log.outbox;
      ActedAt(s, c, f, y, d, g);
      if |p'.log.outbox| > |p.log.outbox| {
        D.PostingPosts(s.relay.net, c, SignalMessage(f, p'.log.outbox[|p.log.outbox|]), d, g);
      }
    }
  }

  lemma ActKeepsOpen(s: Sys, c: Id, f: Id, y: C.Action)
    requires OpenUntilLeft(s) && CanAct(s, c, f, y)
    ensures OpenUntilLeft(Acted(s, c, f, y))
  {
  }

  lemma ActKeepsMeshes(s: Sys, c: Id, f: Id, y: C.Action)
    requires MeshInv(s) && CanAct(s, c, f, y) && forall d :: SeenOk(s.relay, d)
    ensures MeshInv(Acted(s, c, f, y))
  {
    var s' := Acted(s, c, f, y);
    ActKeepsOutboxes(s, c, f, y);
    ActKeepsOpen(s, c, f, y);
    forall a, b | Before(a, b) ensures P.PairInv(PairOf(s', a, b)) { ActKeepsPair(s, c, f, y, a, b); }
    forall d ensures Knows(s', d) {
      assert Knows(s, d) && SeenOk(s.relay, d);
      KnowsStays(s, s', d);
    }
  }

  lemma ActKeepsRelay(s: Sys, c: Id, f: Id, y: C.Action)
    requires D.Inv(s.relay) && L.AllPlaced(s.relay) && CanAct(s, c, f, y)
    ensures var s' := Acted(s, c, f, y); D.Inv(s'.relay) && L.AllPlaced(s'.relay)
  {
    var p := s.meshes[c].peers[f];
    var before, after := p.log.outbox, C.Act(Before(c, f), p, y).log.outbox;
    if |after| > |before| {
      D.PostKeepsInv(s.relay, c, SignalMessage(f, after[|before|]));
      L.PostKeepsAllPlaced(s.relay, c, SignalMessage(f, after[|before|]));
    }
  }

  // ---- A mesh takes an event --------------------------------------------------------------------------

  lemma TakesOneMore(cl: R.Client, f: Id)
    requires cl.used < |cl.seen|
    ensures var e := cl.seen[cl.used];
      TakenBy(cl.(used := cl.used + 1), f) ==
        TakenBy(cl, f) + if e.event.Media? && e.event.from == f then {e.tag} else {}
  {
  }

  /** The next signal to be taken is one its sender posted, and is taken for the first time. */
  lemma NextSignal(s: Sys, c: Id)
    requires Outboxes(s) && SeenOk(s.relay, c) && CanProcess(s, c) && NextEntry(s.relay, c).event.Media?
    ensures var e, cl := NextEntry(s.relay, c), R.ClientOf(s.relay.clients, c);
      var sent := ConnOf(s.meshes, e.event.from, c).log.outbox;
      e.tag < |sent| && sent[e.tag] == e.event.body && e.tag !in TakenBy(cl, e.event.from)
  {
    var e, cl := NextEntry(s.relay, c), R.ClientOf(s.relay.clients, c);
    assert D.TagOk(s.relay.net, c, e);
    assert R.Posted(s.relay.net, e.event.from, c) == ConnOf(s.meshes, e.event.from, c).log.outbox;
    assert forall j :: 0 <= j < cl.used ==> !D.SameSignal(cl.seen[j], cl.seen[cl.used]);
  }

  lemma EventIsOk(s: Sys, c: Id)
    requires SeenOk(s.relay, c) && CanProcess(s, c)
    ensures D.EventOk(s.relay.room.participants.Keys, c, NextEntry(s.relay, c).event)
  {
  }

  /** How one end of a pair fares when its session takes an event: `p` becomes `p'`
      by nothing, by a notice, or by signal `n` of the other end; `refused` says
      that the other session is among those refused. */
  datatype Effect = Unmoved | Noticed | Took(n: nat)

  lemma ProcessedAt(s: Sys, c: Id, refused: set<Id>, f: Id) returns (x: Effect)
    requires MeshesOk(s) && OpenUntilLeft(s) && Outboxes(s) && SeenOk(s.relay, c) && CanProcess(s, c) && f != c
    ensures ConnOf(s.meshes, c, f).pc.open
    ensures var s', p := Processed(s, c, refused), ConnOf(s.meshes, c, f);
      var p', cl, cl' := ConnOf(s'.meshes, c, f), R.ClientOf(s.relay.clients, c), R.ClientOf(s'.relay.clients, c);
      && (Refused(s.meshes, c, f) ==> Refused(s'.meshes, c, f))
      && match x
         case Unmoved => p' == p && TakenBy(cl', f) == TakenBy(cl, f)
         case Noticed => p' == C.MaybeOffer(Before(c, f), p) && TakenBy(cl', f) == TakenBy(cl, f)
         case Took(n) =>
           var sent := ConnOf(s.meshes, f, c).log.outbox;
           && n < |sent| && n !in TakenBy(cl, f) && TakenBy(cl', f) == TakenBy(cl, f) + {n}
           && (p' == C.Receive(Before(c, f), p, sent[n]) || (p' == p && Refused(s'.meshes, c, f)))
  {
    var e := NextEntry(s.relay, c);
    EventIsOk(s, c);
    M.HandleAt(s.meshes[c], e.event, refused, f);
    TakesOneMore(R.ClientOf(s.relay.clients, c), f);
    if e.event.Media? && e.event.from == f {
      NextSignal(s, c);
      x := Took(e.tag);
    } else if f in M.Named(e.event) && M.Creates(s.meshes[c], f, refused) {
      x := Noticed;
    } else {
      x := Unmoved;
    }
  }

  /** A session other than the one that takes the event keeps its end. */
  lemma OthersStay(s: Sys, c: Id, refused: set<Id>, d: Id, f: Id)
    requires CanProcess(s, c) && d != c
    ensures var s' := Processed(s, c, refused);
      && ConnOf(s'.meshes, d, f) == ConnOf(s.meshes, d, f)
      && R.ClientOf(s'.relay.clients, d) == R.ClientOf(s.relay.clients, d)
      && Refused(s'.meshes, d, f) == Refused(s.meshes, d, f)
  {
  }

  lemma RefusalKeepsPair(e: P.Ends, e': P.Ends)
    requires P.PairInv(e)
    requires e' == e || e' == e.(refusedA := true) || e' == e.(refusedB := true)
    ensures P.PairInv(e')
  {
    if e' == e.(refusedA := true) { P.StepKeepsPair(e, P.RefuseA); }
    if e' == e.(refusedB := true) { P.StepKeepsPair(e, P.RefuseB); }
  }

  lemma ProcessAtA(s: Sys, a: Id, b: Id, refused: set<Id>)
    requires MeshInv(s) && SeenOk(s.relay, a) && CanProcess(s, a) && Before(a, b)
    ensures P.PairInv(PairOf(Processed(s, a, refused), a, b))
  {
    BeforeIsStrictTotal(a, b);
    var e, e' := PairOf(s, a, b), PairOf(Processed(s, a, refused), a, b);
    var x := ProcessedAt(s, a, refused, b);
    OthersStay(s, a, refused, b, a);
    var mid := match x
      case Unmoved => e
      case Noticed => P.Next(e, P.AtA(C.Notice))
      case Took(n) => P.Next(e, P.TakeAtA(n, e'.a == C.Receive(true, e.a, e.b.log.outbox[n])));
    match x {
      case Unmoved =>
      case Noticed => P.StepKeepsPair(e, P.AtA(C.Notice));
      case Took(n) => P.StepKeepsPair(e, P.TakeAtA(n, e'.a == C.Receive(true, e.a, e.b.log.outbox[n])));
    }
    RefusalKeepsPair(mid, e');
  }

  lemma ProcessAtB(s: Sys, a: Id, b: Id, refused: set<Id>)
    requires MeshInv(s) && SeenOk(s.relay, b) && CanProcess(s, b) && Before(a, b)
    ensures P.PairInv(PairOf(Processed(s, b, refused), a, b))
  {
    BeforeIsStrictTotal(a, b);
    var e, e' := PairOf(s, a, b), PairOf(Processed(s, b, refused), a, b);
    var x := ProcessedAt(s, b, refused, a);
    OthersStay(s, b, refused, a, b);
    var mid := match x
      case Unmoved => e
      case Noticed => P.Next(e, P.AtB(C.Notice))
      case Took(n) => P.Next(e, P.TakeAtB(n, e'.b == C.Receive(false, e.b, e.a.log.outbox[n])));
    match x {
      case Unmoved =>
      case Noticed => P.StepKeepsPair(e, P.AtB(C.Notice));
      case Took(n) => P.StepKeepsPair(e, P.TakeAtB(n, e'.b == C.Receive(false, e.b, e.a.log.outbox[n])));
    }
    RefusalKeepsPair(mid, e');
  }

  lemma ProcessKeepsPairs(s: Sys, c: Id, refused: set<Id>)
    requires MeshInv(s) && SeenOk(s.relay, c) && CanProcess(s, c)
    ensures PairsOk(Processed(s, c, refused))
  {
    var s' := Processed(s, c, refused);
    forall a, b | Before(a, b) ensures P.PairInv(PairOf(s', a, b)) {
      if a == c { ProcessAtA(s, a, b, refused); }
      else if b == c { ProcessAtB(s, a, b, refused); }
      else {
        OthersStay(s, c, refused, a, b);
        OthersStay(s, c, refused, b, a);
        assert PairOf(s', a, b) == PairOf(s, a, b);
      }
    }
  }

  /** Taking an event keeps the mesh within the room, and sends nothing by itself. */
  lemma HandleKeepsMesh(members: set<Id>, c: Id, m: M.MeshState, ev: SseEvent, refused: set<Id>)
    requires MeshOk(members, c, m) && D.EventOk(members, c, ev)
    ensures var m' := M.Handle(m, ev, refused);
      && MeshOk(members, c, m')
      && m.refusals <= m'.refusals && m.peers.Keys <= m'.peers.Keys
      && M.Named(ev) <= m'.peers.Keys + m'.refusals
      && forall f :: M.Conn(m', f).log.outbox == M.Conn(m, f).log.outbox
  {
    var m' := M.Handle(m, ev, refused);
    M.HandleAt(m, ev, refused, c);
    forall f
      ensures f in m'.peers ==> f in members
      ensures f in m.peers ==> f in m'.peers
      ensures f in M.Named(ev) ==> f in m'.peers || f in m'.refusals
      ensures M.Conn(m', f).log.outbox == M.Conn(m, f).log.outbox
    {
      M.HandleAt(m, ev, refused, f);
      if ev.Media? { P.ReceiveFrame(Before(m.self, f), M.Conn(m, f), ev.body); }
    }
  }

  lemma ProcessKeepsKnowing(s: Sys, c: Id, refused: set<Id>, d: Id)
    requires MeshInv(s) && SeenOk(s.relay, c) && SeenOk(s.relay, d) && CanProcess(s, c)
    ensures Knows(Processed(s, c, refused), d)
  {
    var s', ev := Processed(s, c, refused), NextEntry(s.relay, c).event;
    assert Knows(s, d);
    if d == c {
      EventIsOk(s, c);
      HandleKeepsMesh(s.relay.room.participants.Keys, c, s.meshes[c], ev, refused);
      var cl := R.ClientOf(s.relay.clients, c);
      forall j | 0 <= j < cl.used + 1 ensures M.Named(cl.seen[j].event) <= Reached(s'.meshes, c) {
        assert j < cl.used ==> M.Named(cl.seen[j].event) <= Reached(s.meshes, c) <= Reached(s'.meshes, c);
      }
    } else {
      KnowsStays(s, s', d);
    }
  }

  lemma ProcessKeepsOpen(s: Sys, c: Id, refused: set<Id>)
    requires MeshesOk(s) && OpenUntilLeft(s) && SeenOk(s.relay, c) && CanProcess(s, c)
    ensures OpenUntilLeft(Processed(s, c, refused))
  {
    var ev, s' := NextEntry(s.relay, c).event, Processed(s, c, refused);
    EventIsOk(s, c);
    forall f | f in s'.meshes[c].peers ensures s'.meshes[c].peers[f].pc.open {
      M.HandleAt(s.meshes[c], ev, refused, f);
    }
  }

  lemma ProcessKeepsMeshes(s: Sys, c: Id, refused: set<Id>)
    requires MeshInv(s) && CanProcess(s, c) && forall d :: SeenOk(s.relay, d)
    ensures MeshInv(Processed(s, c, refused))
  {
    var s' := Processed(s, c, refused);
    assert SeenOk(s.relay, c);
    EventIsOk(s, c);
    HandleKeepsMesh(s.relay.room.participants.Keys, c, s.meshes[c], NextEntry(s.relay, c).event, refused);
    ProcessKeepsOpen(s, c, refused);
    ProcessKeepsPairs(s, c, refused);
    forall d ensures Knows(s', d) {
      assert SeenOk(s.relay, d);
      ProcessKeepsKnowing(s, c, refused, d);
    }
    forall d, f ensures R.Posted(s'.relay.net, d, f) == ConnOf(s'.meshes, d, f).log.outbox {
      assert R.Posted(s.relay.net, d, f) == ConnOf(s.meshes, d, f).log.outbox;
    }
  }

  lemma ProcessKeepsRelay(s: Sys, c: Id, refused: set<Id>)
    requires D.Inv(s.relay) && L.AllPlaced(s.relay) && CanProcess(s, c)
    ensures var s' := Processed(s, c, refused); D.Inv(s'.relay) && L.AllPlaced(s'.relay)
  {
    D.UseKeepsInv(s.relay, c);
    L.DoKeepsPlaced(s.relay, R.Use(c));
  }

  // ---- Every step keeps the invariant -------------------------------------------------------------------

  lemma NextKeepsInv(s: Sys, x: Action)
    requires SysInv(s) && Can(s, x)
    ensures SysInv(Next(s, x))
  {
    forall c ensures SeenOk(s.relay, c) { RelaySeenOk(s.relay, c); }
    match x {
      case Deliver(a) => DeliverKeepsInv(s, a);
      case Build(c) => BuildKeepsMeshes(s, c);
      case Process(c, refused) =>
        ProcessKeepsRelay(s, c, refused);
        ProcessKeepsMeshes(s, c, refused);
      case Local(c, f, y) =>
        ActKeepsRelay(s, c, f, y);
        ActKeepsMeshes(s, c, f, y);
      case Leave(c) => LeaveKeepsMeshes(s, c);
    }
  }
}
