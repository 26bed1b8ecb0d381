/** The mesh of one room visit: one connection per other participant. */
module Meshes {
  import opened Types
  import opened Connection

  // ---- Specification -------------------------------------------------------------------

  /** `refusals` is history: the peers for which the browser would not create a connection. */
  datatype MeshState = MeshState(self: Id, peers: map<Id, Peer>, refusals: set<Id>)

  /** The connection for `f`; an entry that does not exist yet is as good as fresh. */
  function Conn(m: MeshState, f: Id): Peer {
    if f in m.peers then m.peers[f] else FreshPeer
  }

  /** `refused` are the peers for which creating a connection fails this time. */
  function Ensure(m: MeshState, f: Id, refused: set<Id>): MeshState {
    if f == m.self || f in m.peers then m
    else if f in refused then m.(refusals := m.refusals + {f})
    else m.(peers := m.peers[f := FreshPeer])
  }

  function OfferTo(m: MeshState, f: Id): MeshState {
    if f !in m.peers then m
    else m.(peers := m.peers[f := MaybeOffer(Before(m.self, f), m.peers[f])])
  }

  function NoticeAll(m: MeshState, peers: seq<PeerInfo>, refused: set<Id>): MeshState {
    if peers == [] then m
    else
      var n := |peers| - 1;
      OfferTo(Ensure(NoticeAll(m, peers[..n], refused), peers[n].peerId, refused), peers[n].peerId)
  }

  function TakeSignal(m: MeshState, f: Id, s: Signal, refused: set<Id>): MeshState {
    var e := if s.Answer? then m else Ensure(m, f, refused);
    if f !in e.peers then e
    else e.(peers := e.peers[f := Receive(Before(e.self, f), e.peers[f], s)])
  }

  /** Every connection closed. The entries stand for the handles that tasks go on sharing. */
  function AllClosed(m: MeshState): MeshState {
    m.(peers := map f | f in m.peers :: Close(m.peers[f]))
  }

  function Handle(m: MeshState, ev: SseEvent, refused: set<Id>): MeshState {
    match ev
    case Resync(peers, _) => NoticeAll(m, peers, refused)
    case PeerJoined(f, _) => OfferTo(Ensure(m, f, refused), f)
    case PeerLeft(f) => m.(peers := m.peers - {f})
    case Media(f, s) => TakeSignal(m, f, s, refused)
    case Chat(_, _, _, _) => m
  }

  // ---- What one event does to one connection --------------------------------------------

  lemma OfferOnce(initiate: bool, p: Peer)
    ensures MaybeOffer(initiate, MaybeOffer(initiate, p)) == MaybeOffer(initiate, p)
  {
  }

  predicate Creates(m: MeshState, f: Id, refused: set<Id>) {
    f != m.self && (f in m.peers || f !in refused)
  }

  /** How connection `f` fares when a presence event names `named`. */
  ghost predicate Noticed(m: MeshState, m': MeshState, named: set<Id>, refused: set<Id>, f: Id) {
    && m'.self == m.self && m.refusals <= m'.refusals
    && (f in m.peers ==> f in m'.peers)
    && (f in m'.peers ==> f in m.peers || f in named)
    && (f !in named ==> Conn(m', f) == Conn(m, f))
    && (f in named && f != m.self ==> if Creates(m, f, refused)
          then f in m'.peers && m'.peers[f] == MaybeOffer(Before(m.self, f), Conn(m, f))
          else Conn(m', f) == Conn(m, f) && f !in m'.peers && f in m'.refusals)
    && (f == m.self && f !in m.peers ==> f !in m'.peers)
  }

  lemma NoticeOneAt(m: MeshState, g: Id, refused: set<Id>, f: Id)
    ensures Noticed(m, OfferTo(Ensure(m, g, refused), g), {g}, refused, f)
  {
  }

  lemma NoticedTwice(m: MeshState, m1: MeshState, m2: MeshState, s1: set<Id>, s2: set<Id>, refused: set<Id>, f: Id)
    requires Noticed(m, m1, s1, refused, f) && Noticed(m1, m2, s2, refused, f)
    ensures Noticed(m, m2, s1 + s2, refused, f)
  {
    OfferOnce(Before(m.self, f), Conn(m, f));
  }

  /** A presence list touches exactly the connections it names, each as if named once. */
  lemma {:induction false} NoticeAllAt(m: MeshState, peers: seq<PeerInfo>, refused: set<Id>, f: Id)
    ensures Noticed(m, NoticeAll(m, peers, refused), Ids(peers), refused, f)
  {
    if peers != [] {
      var n := |peers| - 1;
      var g, m1 := peers[n].peerId, NoticeAll(m, peers[..n], refused);
      NoticeAllAt(m, peers[..n], refused, f);
      NoticeOneAt(m1, g, refused, f);
      NoticedTwice(m, m1, NoticeAll(m, peers, refused), Ids(peers[..n]), {g}, refused, f);
      assert Ids(peers) == Ids(peers[..n]) + {g} by {
        assert peers == peers[..n] + [peers[n]];
      }
    }
  }

  /** The ids a presence event names. */
  function Named(ev: SseEvent): set<Id> {
    match ev
    case Resync(peers, _) => Ids(peers)
    case PeerJoined(f, _) => {f}
    case _ => {}
  }

  /** An event reaches the connection for `f` in one of three ways: it names `f`, it
      is a signal from `f`, or not at all. */
  lemma HandleAt(m: MeshState, ev: SseEvent, refused: set<Id>, f: Id)
    requires !ev.PeerLeft? && m.self !in m.peers
    ensures var m' := Handle(m, ev, refused);
      if ev.Media? && ev.from == f && f != m.self then
        && m'.self == m.self && m.refusals <= m'.refusals
        && (f in m.peers ==> f in m'.peers)
        && (|| Conn(m', f) == Receive(Before(m.self, f), Conn(m, f), ev.body)
            || (Conn(m', f) == Conn(m, f) && f in m'.refusals))
      else Noticed(m, m', Named(ev), refused, f)
  {
    match ev {
      case Resync(peers, _) => NoticeAllAt(m, peers, refused, f);
      case PeerJoined(g, _) => NoticeOneAt(m, g, refused, f);
      case _ =>
    }
  }

  /** Who has an entry after an event: an answer or chat brings in nobody, news of a peer
      and its offer or candidate bring it in unless the browser refuses, and only the
      news that a peer has left takes an entry away, its own. */
  lemma WhoHasAnEntry(m: MeshState, ev: SseEvent, refused: set<Id>)
    ensures var m' := Handle(m, ev, refused);
      match ev
      case Chat(_, _, _, _) => m' == m
      case PeerLeft(f) => m'.peers.Keys == m.peers.Keys - {f} && forall g :: g in m'.peers ==> m'.peers[g] == m.peers[g]
      case Media(f, Answer(_)) => m'.peers.Keys == m.peers.Keys
      case Media(f, _) => m'.peers.Keys == m.peers.Keys + if f == m.self || f in refused then {} else {f}
      case PeerJoined(f, _) => m'.peers.Keys == m.peers.Keys + if f == m.self || f in refused then {} else {f}
      case Resync(peers, _) => m'.peers.Keys == m.peers.Keys + (Ids(peers) - {m.self} - refused)
  {
    if ev.Resync? {
      forall f ensures f in NoticeAll(m, ev.peers, refused).peers <==>
          f in m.peers || f in Ids(ev.peers) - {m.self} - refused
      {
        NoticeAllAt(m, ev.peers, refused, f);
      }
    }
  }

  /** A presence list of peers that are known, with nothing left to offer them, changes nothing. */
  lemma {:induction false} KnownPeersAreNoOp(m: MeshState, peers: seq<PeerInfo>, refused: set<Id>)
    requires forall f :: f in Ids(peers) && f != m.self ==>
               f in m.peers && MaybeOffer(Before(m.self, f), m.peers[f]) == m.peers[f]
    requires m.self !in m.peers
    ensures NoticeAll(m, peers, refused) == m
  {
    if peers != [] {
      var n := |peers| - 1;
      assert peers == peers[..n] + [peers[n]];
      assert forall f :: f in Ids(peers[..n]) ==> f in Ids(peers);
      KnownPeersAreNoOp(m, peers[..n], refused);
      var f := peers[n].peerId;
      assert f in Ids(peers);
      if f in m.peers { assert m.peers[f := m.peers[f]] == m.peers; }
    }
  }

  /** A candidate is first taken for news of its sender, then queued. */
  lemma IceIsNoticedThenQueued(m: MeshState, f: Id, c: Candidate, refused: set<Id>)
    ensures var n := OfferTo(Ensure(m, f, refused), f);
      TakeSignal(m, f, IceCandidate(c), refused) ==
      if f in n.peers then n.(peers := n.peers[f := Queued(n.peers[f], c)]) else n
  {
    var e := Ensure(m, f, refused);
    if f in e.peers {
      var n := OfferTo(e, f);
      assert n.peers[f := Queued(n.peers[f], c)] == e.peers[f := Queued(n.peers[f], c)];
    }
  }

  // ---- The objects -----------------------------------------------------------------------

  /** A handle is shared between the mesh and the tasks it has spawned, as the
      connection and the queue are: a task goes on working on a handle that the mesh
      has let go of. */
  class PeerHandle {
    var negotiated: bool
    var remoteSet: bool
    var pending: seq<Candidate>
    var pc: Pc
    var tasks: seq<Task>
    ghost var lead: nat
    ghost var log: History

    ghost function View(): Peer
      reads this
    {
      Peer(negotiated, remoteSet, pending, pc, tasks, lead, log)
    }

    constructor ()
      ensures View() == FreshPeer
    {
      negotiated, remoteSet, pending := false, false, [];
      pc := Pc(Stable, true, true, None, None);
      tasks := [];
      lead, log := 0, FreshPeer.log;
    }

    method SpawnLead(t: Task)
      modifies `tasks, `lead
      ensures View() == Connection.SpawnLead(old(View()), t)
    {
      lead := |tasks|;
      tasks := tasks + [t];
    }

    method MaybeOffer(initiate: bool)
      modifies this
      ensures View() == Connection.MaybeOffer(initiate, old(View()))
    {
      if !initiate { return; }
      if negotiated || pc.State() != Stable || !pc.isNew { return; }
      negotiated := true;
      SpawnLead(OfferStart);
    }

    method ApplyOffer(initiate: bool, sdp: string)
      modifies this
      ensures View() == Connection.ApplyOffer(initiate, old(View()), sdp)
    {
      if initiate && negotiated { return; }
      if remoteSet || pc.State() != Stable { return; }
      remoteSet := true;
      SpawnLead(AnswerStart(sdp));
    }

    method ApplyAnswer(sdp: string)
      modifies this
      ensures View() == Connection.ApplyAnswer(old(View()), sdp)
    {
      if pc.State() != HaveLocalOffer { return; }
      remoteSet := true;
      SpawnLead(ReplyStart(sdp));
    }

    method PushCandidate(c: Candidate)
      modifies this
      ensures View() == Queued(old(View()), c)
    {
      pending := pending + [c];
      log := log.(received := log.received + [c]);
      if remoteSet { tasks := tasks + [DrainStart]; }
    }

    method Close()
      modifies this
      ensures View() == Connection.Close(old(View()))
    {
      pc := pc.(open := false, isNew := false);
      log := log.(discarded := log.discarded + pending);
      pending := [];
    }

    /** One poll of task `i`, whose awaited promise settled as `o`. */
    method Poll(i: nat, o: Outcome)
      requires i < |tasks|
      modifies this
      ensures View() == Run(old(View()), i, o)
    {
      var r := PollTask(tasks[i], pc.State(), pending == [], o);
      match r.deed {
        case Nothing =>
        case Issue(side, d) => log := log.(calls := log.calls + [Describe(side, d, pc.State())]);
        case Apply(Local, d) => pc := pc.(reached := After(Local, d.kind), local := Some(d));
        case Apply(Remote, d) => pc := pc.(reached := After(Remote, d.kind), remote := Some(d));
        case Post(s) => log := log.(outbox := log.outbox + [s]);
        case AddNext =>
          log := log.(calls := log.calls + [AddCandidate(pending[0])]);
          pending := pending[1..];
        case Fail(rejected) => log := log.(failed := true, offerRejected := log.offerRejected || rejected);
      }
      tasks := tasks[i := r.next];
    }

    /** The candidate loop of a drain that nothing interrupts: it adds what was
        queued, oldest first, and leaves the queue empty. */
    method DrainIce()
      modifies `pending, `log
      ensures pending == []
      ensures Added(log.calls) == Added(old(log.calls)) + old(pending)
      ensures log == old(log).(calls := log.calls)
    {
      while pending != []
        invariant Added(log.calls) + pending == Added(old(log.calls)) + old(pending)
        invariant log == old(log).(calls := log.calls)
        decreases |pending|
      {
        AddedSnoc(log.calls, AddCandidate(pending[0]));
        MoveHead(Added(log.calls), pending, []);
        log := log.(calls := log.calls + [AddCandidate(pending[0])]);
        pending := pending[1..];
      }
    }
  }

  class Mesh {
    const selfId: Id
    var peers: map<Id, PeerHandle>
    ghost var refusals: set<Id>
    /** History: the events applied, in order. */
    ghost var processed: seq<SseEvent>

    /** No two entries share a handle. */
    ghost predicate Valid()
      reads this
    {
      forall x, y :: x in peers && y in peers && x != y ==> peers[x] != peers[y]
    }

    /** Entries stay, and an entry that is new has a handle of its own. */
    twostate predicate KeepsHandles()
      reads this
    {
      && (forall f :: f in old(peers) ==> f in peers && peers[f] == old(peers)[f])
      && (forall f :: f in peers && f !in old(peers) ==> fresh(peers[f]))
    }

    /** An entry is one of the old ones, or has a handle of its own. */
    twostate predicate OwnsHandles()
      reads this
    {
      forall f :: f in peers ==> (f in old(peers) && peers[f] == old(peers)[f]) || fresh(peers[f])
    }

    ghost function View(): MeshState
      reads this, peers.Values
    {
      MeshState(selfId, map f | f in peers :: peers[f].View(), refusals)
    }

    constructor (selfId: Id)
      ensures Valid() && peers == map[] && processed == []
      ensures View() == MeshState(selfId, map[], {})
    {
      this.selfId := selfId;
      peers := map[];
      refusals, processed := {}, [];
    }

    method EnsurePeer(peer: Id, refused: set<Id>)
      requires Valid()
      modifies `peers, `refusals
      ensures Valid() && KeepsHandles()
      ensures View() == Ensure(old(View()), peer, refused)
    {
      if peer == selfId || peer in peers { return; }
      if peer in refused {
        refusals := refusals + {peer};
      } else {
        var handle := new PeerHandle();
        assert forall f :: f in peers ==> peers[f] != handle;
        peers := peers[peer := handle];
        assert View().peers == old(View()).peers[peer := FreshPeer];
      }
    }

    method OfferPeer(peer: Id)
      requires Valid()
      modifies peers.Values
      ensures View() == OfferTo(old(View()), peer)
    {
      if peer in peers {
        assert forall f :: f in peers && f != peer ==> peers[f] != peers[peer];
        peers[peer].MaybeOffer(Before(selfId, peer));
      }
    }

    method NoticePeer(peer: Id, refused: set<Id>)
      requires Valid()
      modifies `peers, `refusals, peers.Values
      ensures Valid() && KeepsHandles()
      ensures View() == OfferTo(Ensure(old(View()), peer, refused), peer)
    {
      EnsurePeer(peer, refused);
      OfferPeer(peer);
    }

    method HandOver(from: Id, sdp: string)
      requires Valid() && from in peers
      modifies peers[from]
      ensures View() == old(View()).(peers := old(View()).peers[from :=
                Connection.ApplyOffer(Before(selfId, from), old(View()).peers[from], sdp)])
    {
      assert forall f :: f in peers && f != from ==> peers[f] != peers[from];
      peers[from].ApplyOffer(Before(selfId, from), sdp);
      assert View().peers == old(View()).peers[from := peers[from].View()];
    }

    method ApplyOffer(from: Id, sdp: string, refused: set<Id>)
      requires Valid()
      modifies `peers, `refusals, peers.Values
      ensures Valid() && KeepsHandles()
      ensures View() == TakeSignal(old(View()), from, Offer(sdp), refused)
    {
      EnsurePeer(from, refused);
      if from in peers {
        HandOver(from, sdp);
      }
    }

    method ApplyAnswer(from: Id, sdp: string)
      requires Valid()
      modifies peers.Values
      ensures View() == TakeSignal(old(View()), from, Answer(sdp), {})
    {
      if from in peers {
        assert forall f :: f in peers && f != from ==> peers[f] != peers[from];
        peers[from].ApplyAnswer(sdp);
      }
    }

    method PushCandidate(from: Id, c: Candidate)
      requires Valid() && from in peers
      modifies peers[from]
      ensures View() == old(View()).(peers := old(View()).peers[from := Queued(old(View()).peers[from], c)])
    {
      assert forall f :: f in peers && f != from ==> peers[f] != peers[from];
      peers[from].PushCandidate(c);
      assert View().peers == old(View()).peers[from := peers[from].View()];
    }

    method OnIce(from: Id, c: Candidate, refused: set<Id>)
      requires Valid()
      modifies `peers, `refusals, peers.Values
      ensures Valid() && KeepsHandles()
      ensures View() == TakeSignal(old(View()), from, IceCandidate(c), refused)
    {
      IceIsNoticedThenQueued(View(), from, c, refused);
      NoticePeer(from, refused);
      if from in peers {
        PushCandidate(from, c);
      }
    }

    /** The handle is closed and let go of; tasks that share it see it closed. */
    method ClosePeer(peer: Id)
      requires Valid()
      modifies `peers, if peer in peers then {peers[peer]} else {}
      ensures Valid() && peers == old(peers) - {peer}
      ensures View() == old(View()).(peers := old(View()).peers - {peer})
      ensures peer in old(peers) ==> old(peers)[peer].View() == Close(old(peers[peer].View()))
    {
      if peer in peers {
        assert forall f :: f in peers && f != peer ==> peers[f] != peers[peer];
        LetGo(peer);
      }
    }

    method LetGo(peer: Id)
      requires peer in peers
      modifies `peers, peers[peer]
      ensures peers == old(peers) - {peer}
      ensures old(peers)[peer].View() == Close(old(peers[peer].View()))
    {
      var handle := peers[peer];
      peers := peers - {peer};
      handle.Close();
    }

    /** Of `handles`, those still in the mesh are as they were in `was`, the others closed. */
    ghost predicate ClosedBut(handles: map<Id, PeerHandle>, was: map<Id, Peer>)
      reads this, handles.Values
    {
      && was.Keys == handles.Keys && peers.Keys <= handles.Keys
      && forall f :: f in handles ==>
           && (f in peers ==> peers[f] == handles[f])
           && handles[f].View() == if f in peers then was[f] else Close(was[f])
    }

    /** Closes every connection and lets go of it. */
    method CloseAll()
      requires Valid()
      modifies `peers, peers.Values
      ensures peers == map[]
      ensures forall f :: f in old(peers) ==> old(peers)[f].View() == Close(old(View()).peers[f])
    {
      ghost var handles, was := peers, View().peers;
      while peers != map[]
        invariant peers.Keys <= handles.Keys && Valid() && ClosedBut(handles, was)
        invariant forall x, y :: x in handles && y in handles && x != y ==> handles[x] != handles[y]
        decreases |peers|
      {
        var peer :| peer in peers;
        CloseOne(peer, handles, was);
      }
    }

    method CloseOne(peer: Id, ghost handles: map<Id, PeerHandle>, ghost was: map<Id, Peer>)
      requires Valid() && peer in peers && ClosedBut(handles, was)
      requires forall x, y :: x in handles && y in handles && x != y ==> handles[x] != handles[y]
      modifies `peers, peers[peer]
      ensures Valid() && peers == old(peers) - {peer} && |peers| < |old(peers)|
      ensures ClosedBut(handles, was)
    {
      ghost var handle := peers[peer];
      assert handle == handles[peer] && handle.View() == was[peer];
      LetGo(peer);
      assert peers.Keys < old(peers).Keys;
      forall f | f in handles
        ensures handles[f].View() == if f in peers then was[f] else Close(was[f])
      {
        if f != peer { assert handles[f] != handle; }
      }
    }

    method NoticeEach(list: seq<PeerInfo>, refused: set<Id>)
      requires Valid()
      modifies `peers, `refusals, peers.Values
      ensures Valid() && KeepsHandles()
      ensures View() == NoticeAll(old(View()), list, refused)
    {
      for i := 0 to |list|
        invariant Valid() && KeepsHandles()
        invariant View() == NoticeAll(old(View()), list[..i], refused)
      {
        assert list[..i + 1][..i] == list[..i];
        NoticePeer(list[i].peerId, refused);
      }
      assert list[..|list|] == list;
    }

    /** Applies one room event. */
    method OnEvent(ev: SseEvent, refused: set<Id>)
      requires Valid()
      modifies this, peers.Values
      ensures Valid() && OwnsHandles() && (ev.PeerLeft? || KeepsHandles())
      ensures View() == Handle(old(View()), ev, refused)
      ensures processed == old(processed) + [ev]
    {
      processed := processed + [ev];
      assert View() == old(View());
      match ev {
        case Resync(list, _) => NoticeEach(list, refused);
        case PeerJoined(peer, _) => NoticePeer(peer, refused);
        case PeerLeft(peer) => ClosePeer(peer);
        case Media(from, body) =>
          match body {
            case Offer(sdp) => ApplyOffer(from, sdp, refused);
            case Answer(sdp) => ApplyAnswer(from, sdp);
            case IceCandidate(c) => OnIce(from, c, refused);
          }
        case Chat(_, _, _, _) =>
      }
    }
  }
}
