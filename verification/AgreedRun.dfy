/** A run of the whole room that ends in agreement, so that what is promised of pairs at
    rest does come about. */
module AgreedRun {
  import opened Types
  import opened Rooms
  import opened System
  import opened Theorems
  import opened Runs
  import C = Connection
  import D = Delivery
  import M = Meshes
  import Outcomes
  import P = Pair
  import R = Relay

  // ---- States ----------------------------------------------------------------------------------------

  /** What passes in the room after `a` has posted its offer. */
  datatype Talk = Talk(password: string, a: Id, b: Id, sdp: string, answer: string)
  {
    ghost predicate Proper() { Before(a, b) && a != b && a != "" && b != "" }

    function Joins(): Entry { Entry(PeerJoined(b, None), 0) }
    function Offers(): Entry { Entry(Media(a, Offer(sdp)), 0) }
    function Answers(): Entry { Entry(Media(b, Answer(answer)), 0) }
  }

  function Held(c: Id, log: seq<Entry>, reader: nat): Channel { Channel(c, |log|, log, {reader}, log) }

  function Hall(k: Talk, logA: seq<Entry>, logB: seq<Entry>): Room {
    Room(Some(k.password), map[k.a := 0, k.b := 1], map[], [Held(k.a, logA, 0), Held(k.b, logB, 1)])
  }

  /** A live stream that has read `read` and whose client has everything but `wire`. */
  function Reading(c: Id, other: Id, chan: nat, sent: bool, read: seq<Entry>, wire: R.Wire): R.Stream {
    R.Stream(c, R.Live, chan, Snapshot(other), {}, R.Reader(0, |read|, sent, read), wire)
  }

  datatype Side = Side(log: seq<Entry>, sent: bool, read: nat, wire: R.Wire, seen: seq<Entry>, used: nat)

  function StreamAt(c: Id, other: Id, chan: nat, x: Side): R.Stream {
    Reading(c, other, chan, x.sent, First(x.log, x.read), x.wire)
  }

  function Scene(k: Talk, x: Side, y: Side, net: R.Net, meshes: map<Id, M.MeshState>): Sys {
    Sys(R.State(
          Hall(k, x.log, y.log),
          [StreamAt(k.a, k.b, 0, x), StreamAt(k.b, k.a, 1, y)],
          map[k.a := R.Client(Some(0), x.seen, x.used), k.b := R.Client(Some(1), y.seen, y.used)],
          net),
        meshes, {})
  }

  function MeshA(k: Talk, p: C.Peer): M.MeshState { M.MeshState(k.a, map[k.b := p], {}) }

  function MeshB(k: Talk, p: C.Peer): M.MeshState { M.MeshState(k.b, map[k.a := p], {}) }

  function Out(k: Talk): C.Peer { Offered(C.Finished, k.sdp, [Offer(k.sdp)]) }

  const Fresh: Side := Side([], false, 0, Blank, [], 0)

  // ---- b announces itself -------------------------------------------------------------------------------

  /** `a` has read and used its snapshot. */
  function Start(k: Talk): Side {
    Side([], true, 0, R.Wire([], true, 0), [Entry(Snapshot(k.b), 0)], 1)
  }

  function Told(k: Talk): Side { Start(k).(log := [k.Joins()]) }

  lemma Announced(k: Talk)
    requires k.Proper()
    ensures Leads(
      Two(k.password, k.a, k.b, k.sdp, {1}, StreamOf(k.b, k.a, 1, R.Live, {k.a}, false, Blank), Some(1)),
      Deliver(R.Announce(1, k.a)),
      Scene(k, Told(k), Fresh, OfferNet(k.a, k.b, k.sdp), map[k.a := MeshA(k, Out(k))]))
  {
    var s := Two(k.password, k.a, k.b, k.sdp, {1}, StreamOf(k.b, k.a, 1, R.Live, {k.a}, false, Blank), Some(1));
    var u, e := s.relay.streams[1], k.Joins();
    assert R.Announcement(s.relay.room, u) == e;
    assert Push(s.relay.room.chans[0], e) == Held(k.a, [e], 0);
    assert SendTo(s.relay.room, k.a, e).chans == Hall(k, [e], []).chans;
    assert {k.a} - {k.a} == {};
    assert u.(unannounced := {}) == StreamAt(k.b, k.a, 1, Fresh);
    SecondStream(k.password, k.a, k.b, k.sdp, u, u.(unannounced := {}));
    assert s.relay.streams[0] == StreamAt(k.a, k.b, 0, Told(k));
    assert s.relay.streams[1 := u.(unannounced := {})]
        == [StreamAt(k.a, k.b, 0, Told(k)), StreamAt(k.b, k.a, 1, Fresh)];
  }

  // ---- Streams and clients, either side -------------------------------------------------------------------

  function Index(first: bool): nat { if first then 0 else 1 }

  function Moved(
    k: Talk, first: bool, x: Side, y: Side, z: Side, net: R.Net, meshes: map<Id, M.MeshState>): Sys {
    if first then Scene(k, z, y, net, meshes) else Scene(k, x, z, net, meshes)
  }

  function Greeting(k: Talk, first: bool): Entry { Entry(Snapshot(if first then k.b else k.a), 0) }

  function Greeted(k: Talk, first: bool, z: Side): Side {
    z.(sent := true, wire := z.wire.(items := z.wire.items + [Greeting(k, first)]))
  }

  lemma Greets(k: Talk, first: bool, x: Side, y: Side, net: R.Net, meshes: map<Id, M.MeshState>)
    requires k.Proper()
    requires var z := if first then x else y; !z.sent && z.read == 0
    ensures Leads(
      Scene(k, x, y, net, meshes), Deliver(R.Pull(Index(first))),
      Moved(k, first, x, y, Greeted(k, first, if first then x else y), net, meshes))
  {
    var s := Scene(k, x, y, net, meshes).relay;
    var i := Index(first);
    assert s.streams[i := R.PulledResync(s.streams[i])]
        == Moved(k, first, x, y, Greeted(k, first, if first then x else y), net, meshes).relay.streams;
  }

  function Further(z: Side): Side
    requires z.read < |z.log|
  {
    z.(read := z.read + 1, wire := z.wire.(items := z.wire.items + [z.log[z.read]]))
  }

  lemma Reads(k: Talk, first: bool, x: Side, y: Side, net: R.Net, meshes: map<Id, M.MeshState>)
    requires k.Proper()
    requires var z := if first then x else y; z.sent && z.read < |z.log| <= 4
    ensures Leads(
      Scene(k, x, y, net, meshes), Deliver(R.Pull(Index(first))),
      Moved(k, first, x, y, Further(if first then x else y), net, meshes))
  {
    var s := Scene(k, x, y, net, meshes).relay;
    var i, z := Index(first), if first then x else y;
    assert First(z.log, z.read) + [z.log[z.read]] == First(z.log, z.read + 1);
    assert s.streams[i := R.Pulled(s.streams[i], z.log[z.read])]
        == Moved(k, first, x, y, Further(z), net, meshes).relay.streams;
  }

  function Received(z: Side): Side
    requires z.wire.items != []
  {
    var n := if z.wire.gotResync then z.wire.arrived + 1 else z.wire.arrived;
    z.(wire := R.Wire(z.wire.items[1..], true, n), seen := z.seen + [z.wire.items[0]])
  }

  lemma Receives(k: Talk, first: bool, x: Side, y: Side, net: R.Net, meshes: map<Id, M.MeshState>)
    requires k.Proper()
    requires (if first then x else y).wire.items != []
    ensures Leads(
      Scene(k, x, y, net, meshes), Deliver(R.Arrive(if first then k.a else k.b)),
      Moved(k, first, x, y, Received(if first then x else y), net, meshes))
  {
    var s, s' := Scene(k, x, y, net, meshes).relay,
                 Moved(k, first, x, y, Received(if first then x else y), net, meshes).relay;
    var i := Index(first);
    assert s.streams[i := R.Arrived(s.streams[i])] == s'.streams;
    var z := Received(if first then x else y);
    assert s.clients[if first then k.a else k.b := R.Client(Some(i), z.seen, z.used)] == s'.clients;
  }

  // ---- Posts, meshes and tasks ---------------------------------------------------------------------------------

  function Heard(z: Side, e: Entry): Side { z.(log := z.log + [e]) }

  /** `post` was relayed while both were listening. */
  function Relaid(net: R.Net, post: R.Post, first: bool): R.Net {
    net.(flight := net.flight - {post},
         placed := net.placed[R.TagOf(post) := R.Placement(
           Some(Index(!first)), Some(Index(first)), |R.Posted(net, post.message.to, post.from)|)])
  }

  lemma Relays(k: Talk, first: bool, x: Side, y: Side, net: R.Net, meshes: map<Id, M.MeshState>, post: R.Post)
    requires k.Proper() && post in net.flight && |(if first then x else y).log| < 4
    requires post.message.to == (if first then k.a else k.b) && post.from == if first then k.b else k.a
    requires x.read <= |x.log| && y.read <= |y.log|
    ensures Leads(
      Scene(k, x, y, net, meshes), Deliver(R.Action.Relay(post)),
      Moved(k, first, x, y, Heard(if first then x else y, R.Relayed(post)), Relaid(net, post, first), meshes))
  {
    var s := Scene(k, x, y, net, meshes).relay;
    var z, e := if first then x else y, R.Relayed(post);
    HeardChannel(k, first, x, y, e);
    assert R.LiveStream(s, k.a) == Some(0) && R.LiveStream(s, k.b) == Some(1);
    assert First(z.log + [e], z.read) == First(z.log, z.read);
  }

  lemma HeardChannel(k: Talk, first: bool, x: Side, y: Side, e: Entry)
    requires k.Proper() && |(if first then x else y).log| < 4
    ensures SendTo(Hall(k, x.log, y.log), if first then k.a else k.b, e) ==
            if first then Hall(k, x.log + [e], y.log) else Hall(k, x.log, y.log + [e])
  {
    var z, i := if first then x else y, Index(first);
    var c := if first then k.a else k.b;
    assert Push(Held(c, z.log, i), e) == Held(c, z.log + [e], i);
  }

  lemma BuildsToo(k: Talk, x: Side, y: Side, net: R.Net, meshes: map<Id, M.MeshState>)
    requires k.Proper() && k.b !in meshes
    ensures Leads(
      Scene(k, x, y, net, meshes), Build(k.b), Scene(k, x, y, net, meshes[k.b := M.MeshState(k.b, map[], {})]))
  {
  }

  lemma Uses(k: Talk, first: bool, x: Side, y: Side, net: R.Net, meshes: map<Id, M.MeshState>, m: M.MeshState)
    requires k.Proper()
    requires var z, c := if first then x else y, if first then k.a else k.b;
      c in meshes && z.used < |z.seen| && m == M.Handle(meshes[c], z.seen[z.used].event, {})
    ensures var z, c := if first then x else y, if first then k.a else k.b;
      Leads(
        Scene(k, x, y, net, meshes), Process(c, {}),
        Moved(k, first, x, y, z.(used := z.used + 1), net, meshes[c := m]))
  {
    var z, c := if first then x else y, if first then k.a else k.b;
    var s := Scene(k, x, y, net, meshes);
    Takes(s, c, m);
    assert R.ClientOf(s.relay.clients, c) == R.Client(Some(Index(first)), z.seen, z.used);
    assert s.relay.clients[c := R.Client(Some(Index(first)), z.seen, z.used + 1)]
        == Moved(k, first, x, y, z.(used := z.used + 1), net, meshes[c := m]).relay.clients;
  }

  // ---- The two connections -------------------------------------------------------------------------------------

  function OfferOf(k: Talk): C.Description { C.Description(C.OfferKind, k.sdp) }

  function AnswerOf(k: Talk): C.Description { C.Description(C.AnswerKind, k.answer) }

  /** `b`'s connection with its task at `t`. */
  function Replier(t: C.Task, pc: C.Pc, calls: seq<C.Call>, sent: seq<Signal>): C.Peer {
    C.Peer(false, true, [], pc, [t], 0, C.History(calls, [], [], sent, false, false))
  }

  const Idle: C.Pc := C.Pc(C.Stable, true, true, None, None)

  function Given(k: Talk): C.Pc { C.Pc(C.HaveRemoteOffer, true, true, None, Some(OfferOf(k))) }

  function Settled(k: Talk): C.Pc { C.Pc(C.Stable, true, true, Some(AnswerOf(k)), Some(OfferOf(k))) }

  function Asked(k: Talk): seq<C.Call> { [C.Describe(C.Remote, OfferOf(k), C.Stable)] }

  function Replied(k: Talk): seq<C.Call> { Asked(k) + [C.Describe(C.Local, AnswerOf(k), C.HaveRemoteOffer)] }

  /** `b`'s connection after `n` polls of its answering task. */
  function Answering(k: Talk, n: nat): C.Peer {
    if n == 0 then Replier(C.AnswerStart(k.sdp), Idle, [], [])
    else if n == 1 then Replier(C.AnswerSetting(k.sdp), Idle, Asked(k), [])
    else if n == 2 then Replier(C.AnswerDraining, Given(k), Asked(k), [])
    else if n == 3 then Replier(C.AnswerCreating, Given(k), Asked(k), [])
    else if n == 4 then Replier(C.AnswerSettingLocal(k.answer), Given(k), Replied(k), [])
    else if n == 5 then Replier(C.AnswerReady(k.answer), Settled(k), Replied(k), [])
    else if n == 6 then Replier(C.Draining, Settled(k), Replied(k), [Answer(k.answer)])
    else Replier(C.Finished, Settled(k), Replied(k), [Answer(k.answer)])
  }

  lemma AnsweringGoesOn(k: Talk, n: nat)
    requires n < 7
    ensures C.Run(Answering(k, n), 0, C.Resolved(k.answer)) == Answering(k, n + 1)
  {
  }

  lemma OfferStartsAnswering(k: Talk)
    ensures C.ApplyOffer(false, C.FreshPeer, k.sdp) == Answering(k, 0)
  {
  }

  /** `a`'s connection after `n` polls of the task that takes up the answer. */
  function TakingUp(k: Talk, n: nat): C.Peer {
    var call := C.Describe(C.Remote, AnswerOf(k), C.HaveLocalOffer);
    var p := Out(k);
    var before, done := p.pc, C.Pc(C.Stable, true, true, Some(OfferOf(k)), Some(AnswerOf(k)));
    var t := if n == 0 then C.ReplyStart(k.answer) else if n == 1 then C.ReplySetting(k.answer)
             else if n == 2 then C.Draining else C.Finished;
    p.(remoteSet := true, tasks := [C.Finished, t], lead := 1,
       pc := if n < 2 then before else done,
       log := p.log.(calls := if n == 0 then p.log.calls else p.log.calls + [call]))
  }

  lemma AnswerIsTakenUp(k: Talk)
    ensures C.ApplyAnswer(Out(k), k.answer) == TakingUp(k, 0)
  {
  }

  lemma TakingUpGoesOn(k: Talk, n: nat)
    requires n < 3
    ensures C.Run(TakingUp(k, n), 1, C.Resolved("")) == TakingUp(k, n + 1)
  {
  }

  // ---- The run ------------------------------------------------------------------------------------------------------

  function MeshesAt(k: Talk, p: C.Peer): map<Id, M.MeshState> { map[k.a := MeshA(k, p)] }

  function MeshesOf(k: Talk, p: C.Peer, q: C.Peer): map<Id, M.MeshState> {
    map[k.a := MeshA(k, p), k.b := MeshB(k, q)]
  }

  function Net0(k: Talk): R.Net { OfferNet(k.a, k.b, k.sdp) }

  function Net1(k: Talk): R.Net { Relaid(Net0(k), Flying(k.a, k.b, k.sdp), false) }

  function Net2(k: Talk): R.Net { D.Posting(Net1(k), k.b, SignalMessage(k.a, Answer(k.answer))) }

  function Reply(k: Talk): R.Post { R.Post(k.b, SignalMessage(k.a, Answer(k.answer)), 0) }

  function Net3(k: Talk): R.Net { Relaid(Net2(k), Reply(k), true) }

  lemma BothListen(k: Talk) returns (run: seq<Sys>, steps: seq<Action>)
    requires k.Proper()
    ensures IsRun(k.password, run, steps)
    ensures run[|steps|] == Scene(k, Told(k), Fresh, Net0(k), MeshesAt(k, Out(k)))
  {
    run, steps := OneOffers(k.password, k.a, k.b, k.sdp);
    SecondRequests(k.password, k.a, k.b, k.sdp);
    run, steps := GoesOn(k.password, run, steps, Deliver(R.Request(k.b)),
      Two(k.password, k.a, k.b, k.sdp, {}, R.NewStream(k.b), Some(1)));
    SecondSnaps(k.password, k.a, k.b, k.sdp);
    run, steps := GoesOn(k.password, run, steps, Deliver(R.Snap(1, [PeerInfo(k.a, None)], [])),
      Two(k.password, k.a, k.b, k.sdp, {}, StreamOf(k.b, k.a, 1, R.Snapped, {}, false, Blank), Some(1)));
    SecondSubscribes(k.password, k.a, k.b, k.sdp);
    run, steps := GoesOn(k.password, run, steps, Deliver(R.Action.Subscribe(1)),
      Two(k.password, k.a, k.b, k.sdp, {1}, StreamOf(k.b, k.a, 1, R.Live, {k.a}, false, Blank), Some(1)));
    Announced(k);
    run, steps := GoesOn(k.password, run, steps, Deliver(R.Announce(1, k.a)),
      Scene(k, Told(k), Fresh, Net0(k), MeshesAt(k, Out(k))));
  }

  /** `b` has the snapshot and the offer. */
  function Informed(k: Talk): Side {
    Side([k.Offers()], true, 1, R.Wire([], true, 1), [Greeting(k, false), k.Offers()], 0)
  }

  lemma OfferReachesB(k: Talk) returns (run: seq<Sys>, steps: seq<Action>)
    requires k.Proper()
    ensures IsRun(k.password, run, steps)
    ensures run[|steps|] == Scene(k, Told(k), Informed(k), Net1(k), MeshesAt(k, Out(k)))
  {
    run, steps := BothListen(k);
    var x, m, net := Told(k), MeshesAt(k, Out(k)), Net0(k);
    var y1 := Greeted(k, false, Fresh);
    Greets(k, false, x, Fresh, net, m);
    run, steps := GoesOn(k.password, run, steps, Deliver(R.Pull(1)), Scene(k, x, y1, net, m));
    var y2 := Received(y1);
    Receives(k, false, x, y1, net, m);
    run, steps := GoesOn(k.password, run, steps, Deliver(R.Arrive(k.b)), Scene(k, x, y2, net, m));
    var y3, post := Heard(y2, k.Offers()), Flying(k.a, k.b, k.sdp);
    Relays(k, false, x, y2, net, m, post);
    run, steps := GoesOn(k.password, run, steps, Deliver(R.Action.Relay(post)), Scene(k, x, y3, Net1(k), m));
    var y4 := Further(y3);
    Reads(k, false, x, y3, Net1(k), m);
    run, steps := GoesOn(k.password, run, steps, Deliver(R.Pull(1)), Scene(k, x, y4, Net1(k), m));
    var y5 := Received(y4);
    Receives(k, false, x, y4, Net1(k), m);
    run, steps := GoesOn(k.password, run, steps, Deliver(R.Arrive(k.b)), Scene(k, x, y5, Net1(k), m));
    assert y5 == Informed(k);
  }

  lemma MeshTakesOffer(k: Talk)
    requires k.Proper()
    ensures M.Handle(M.MeshState(k.b, map[], {}), Snapshot(k.a), {}) == MeshB(k, C.FreshPeer)
    ensures M.Handle(MeshB(k, C.FreshPeer), Media(k.a, Offer(k.sdp)), {}) == MeshB(k, Answering(k, 0))
  {
    BeforeIsStrictTotal(k.a, k.b);
    var m, peers := M.MeshState(k.b, map[], {}), [PeerInfo(k.a, None)];
    assert M.NoticeAll(m, peers[..0], {}) == m;
    assert M.NoticeAll(m, peers, {}) == M.OfferTo(M.Ensure(m, k.a, {}), k.a);
    assert map[k.a := C.FreshPeer][k.a := C.FreshPeer] == map[k.a := C.FreshPeer];
    OfferStartsAnswering(k);
    assert map[k.a := C.FreshPeer][k.a := Answering(k, 0)] == map[k.a := Answering(k, 0)];
  }

  lemma BAnswers(k: Talk) returns (run: seq<Sys>, steps: seq<Action>)
    requires k.Proper()
    ensures IsRun(k.password, run, steps)
    ensures run[|steps|] ==
            Scene(k, Told(k), Informed(k).(used := 2), Net1(k), MeshesOf(k, Out(k), Answering(k, 0)))
  {
    run, steps := OfferReachesB(k);
    MeshTakesOffer(k);
    var x, y, net, m := Told(k), Informed(k), Net1(k), MeshesAt(k, Out(k));
    var m0, m1 := m[k.b := M.MeshState(k.b, map[], {})], m[k.b := MeshB(k, C.FreshPeer)];
    BuildsToo(k, x, y, net, m);
    run, steps := GoesOn(k.password, run, steps, Build(k.b), Scene(k, x, y, net, m0));
    Uses(k, false, x, y, net, m0, MeshB(k, C.FreshPeer));
    assert m0[k.b := MeshB(k, C.FreshPeer)] == m1;
    run, steps := GoesOn(k.password, run, steps, Process(k.b, {}), Scene(k, x, y.(used := 1), net, m1));
    Uses(k, false, x, y.(used := 1), net, m1, MeshB(k, Answering(k, 0)));
    assert m1[k.b := MeshB(k, Answering(k, 0))] == MeshesOf(k, Out(k), Answering(k, 0));
    run, steps := GoesOn(k.password, run, steps, Process(k.b, {}),
      Scene(k, x, y.(used := 2), net, MeshesOf(k, Out(k), Answering(k, 0))));
  }

  lemma {:induction false} BWorks(k: Talk, n: nat) returns (run: seq<Sys>, steps: seq<Action>)
    requires k.Proper() && n <= 7
    ensures IsRun(k.password, run, steps)
    ensures run[|steps|] ==
            Scene(k, Told(k), Informed(k).(used := 2), if n < 6 then Net1(k) else Net2(k),
              MeshesOf(k, Out(k), Answering(k, n)))
  {
    if n == 0 {
      run, steps := BAnswers(k);
    } else {
      run, steps := BWorks(k, n - 1);
      var p, p' := Answering(k, n - 1), Answering(k, n);
      var net, net' := if n < 7 then Net1(k) else Net2(k), if n < 6 then Net1(k) else Net2(k);
      AnsweringGoesOn(k, n - 1);
      AnswerPosted(k, n - 1);
      Works(run[|steps|], k.b, k.a, 0, C.Resolved(k.answer), p');
      MeshBMoves(k, Out(k), p, p');
      run, steps := GoesOn(k.password, run, steps, Local(k.b, k.a, C.Step(0, C.Resolved(k.answer))),
        Scene(k, Told(k), Informed(k).(used := 2), net', MeshesOf(k, Out(k), p')));
    }
  }

  lemma AnswerPosted(k: Talk, n: nat)
    requires n < 7
    ensures NetAfter(if n < 6 then Net1(k) else Net2(k), k.b, k.a, Answering(k, n), Answering(k, n + 1)) ==
            if n < 5 then Net1(k) else Net2(k)
  {
  }

  lemma MeshBMoves(k: Talk, p: C.Peer, q: C.Peer, q': C.Peer)
    requires k.Proper()
    ensures var m := MeshesOf(k, p, q);
      m[k.b := m[k.b].(peers := m[k.b].peers[k.a := q'])] == MeshesOf(k, p, q')
  {
    assert map[k.a := q][k.a := q'] == map[k.a := q'];
  }

  /** `a` has what `b` announced and the answer. */
  function Answered(k: Talk): Side {
    Side([k.Joins(), k.Answers()], true, 2, R.Wire([], true, 2),
      [Entry(Snapshot(k.b), 0), k.Joins(), k.Answers()], 1)
  }

  lemma AnswerReachesA(k: Talk) returns (run: seq<Sys>, steps: seq<Action>)
    requires k.Proper()
    ensures IsRun(k.password, run, steps)
    ensures run[|steps|] ==
            Scene(k, Answered(k), Informed(k).(used := 2), Net3(k), MeshesOf(k, Out(k), Answering(k, 7)))
  {
    run, steps := BWorks(k, 7);
    var y, m := Informed(k).(used := 2), MeshesOf(k, Out(k), Answering(k, 7));
    var x1 := Heard(Told(k), k.Answers());
    AnswerFlies(k);
    Relays(k, true, Told(k), y, Net2(k), m, Reply(k));
    run, steps := GoesOn(k.password, run, steps, Deliver(R.Action.Relay(Reply(k))), Scene(k, x1, y, Net3(k), m));
    var x2 := Further(x1);
    Reads(k, true, x1, y, Net3(k), m);
    run, steps := GoesOn(k.password, run, steps, Deliver(R.Pull(0)), Scene(k, x2, y, Net3(k), m));
    var x3 := Further(x2);
    Reads(k, true, x2, y, Net3(k), m);
    run, steps := GoesOn(k.password, run, steps, Deliver(R.Pull(0)), Scene(k, x3, y, Net3(k), m));
    var x4 := Received(x3);
    Receives(k, true, x3, y, Net3(k), m);
    run, steps := GoesOn(k.password, run, steps, Deliver(R.Arrive(k.a)), Scene(k, x4, y, Net3(k), m));
    Receives(k, true, x4, y, Net3(k), m);
    run, steps := GoesOn(k.password, run, steps, Deliver(R.Arrive(k.a)), Scene(k, Received(x4), y, Net3(k), m));
    assert Received(x4) == Answered(k);
  }

  lemma AnswerFlies(k: Talk)
    requires k.Proper()
    ensures Reply(k) in Net2(k).flight
  {
    assert R.Posted(Net1(k), k.b, k.a) == [];
  }

  lemma MeshTakesAnswer(k: Talk)
    requires k.Proper()
    ensures M.Handle(MeshA(k, Out(k)), PeerJoined(k.b, None), {}) == MeshA(k, Out(k))
    ensures M.Handle(MeshA(k, Out(k)), Media(k.b, Answer(k.answer)), {}) == MeshA(k, TakingUp(k, 0))
  {
    AnswerIsTakenUp(k);
    assert map[k.b := Out(k)][k.b := Out(k)] == map[k.b := Out(k)];
    assert map[k.b := Out(k)][k.b := TakingUp(k, 0)] == map[k.b := TakingUp(k, 0)];
  }

  lemma AIsToldAgain(k: Talk) returns (run: seq<Sys>, steps: seq<Action>)
    requires k.Proper()
    ensures IsRun(k.password, run, steps)
    ensures run[|steps|] ==
            Scene(k, Answered(k).(used := 2), Informed(k).(used := 2), Net3(k), MeshesOf(k, Out(k), Answering(k, 7)))
  {
    run, steps := AnswerReachesA(k);
    MeshTakesAnswer(k);
    var x, y, m := Answered(k), Informed(k).(used := 2), MeshesOf(k, Out(k), Answering(k, 7));
    Uses(k, true, x, y, Net3(k), m, MeshA(k, Out(k)));
    assert m[k.a := MeshA(k, Out(k))] == m;
    run, steps := GoesOn(k.password, run, steps, Process(k.a, {}), Scene(k, x.(used := 2), y, Net3(k), m));
  }

  lemma ATakesUp(k: Talk) returns (run: seq<Sys>, steps: seq<Action>)
    requires k.Proper()
    ensures IsRun(k.password, run, steps)
    ensures run[|steps|] ==
            Scene(k, Answered(k).(used := 3), Informed(k).(used := 2), Net3(k),
              MeshesOf(k, TakingUp(k, 0), Answering(k, 7)))
  {
    run, steps := AIsToldAgain(k);
    MeshTakesAnswer(k);
    var x, y := Answered(k).(used := 2), Informed(k).(used := 2);
    var m, m' := MeshesOf(k, Out(k), Answering(k, 7)), MeshesOf(k, TakingUp(k, 0), Answering(k, 7));
    Uses(k, true, x, y, Net3(k), m, MeshA(k, TakingUp(k, 0)));
    assert m[k.a := MeshA(k, TakingUp(k, 0))] == m';
    run, steps := GoesOn(k.password, run, steps, Process(k.a, {}), Scene(k, x.(used := 3), y, Net3(k), m'));
  }

  lemma {:induction false} AWorks(k: Talk, n: nat) returns (run: seq<Sys>, steps: seq<Action>)
    requires k.Proper() && n <= 3
    ensures IsRun(k.password, run, steps)
    ensures run[|steps|] ==
            Scene(k, Answered(k).(used := 3), Informed(k).(used := 2), Net3(k),
              MeshesOf(k, TakingUp(k, n), Answering(k, 7)))
  {
    if n == 0 {
      run, steps := ATakesUp(k);
    } else {
      run, steps := AWorks(k, n - 1);
      var x, y, q := Answered(k).(used := 3), Informed(k).(used := 2), Answering(k, 7);
      var p, p' := TakingUp(k, n - 1), TakingUp(k, n);
      TakingUpGoesOn(k, n - 1);
      Works(run[|steps|], k.a, k.b, 1, C.Resolved(""), p');
      MeshAMoves(k, p, p', q);
      run, steps := GoesOn(k.password, run, steps, Local(k.a, k.b, C.Step(1, C.Resolved(""))),
        Scene(k, x, y, Net3(k), MeshesOf(k, p', q)));
    }
  }

  lemma MeshAMoves(k: Talk, p: C.Peer, p': C.Peer, q: C.Peer)
    requires k.Proper()
    ensures var m := MeshesOf(k, p, q);
      m[k.a := m[k.a].(peers := m[k.a].peers[k.b := p'])] == MeshesOf(k, p', q)
  {
    assert map[k.b := p][k.b := p'] == map[k.b := p'];
  }

  function End(k: Talk): Sys {
    Scene(k, Answered(k).(used := 3), Informed(k).(used := 2), Net3(k), MeshesOf(k, TakingUp(k, 3), Answering(k, 7)))
  }

  /** From two joins to agreement: a run that meets every premise of `Outcomes.PairAgreement`. */
  lemma AgreementComesAbout(k: Talk) returns (run: seq<Sys>, steps: seq<Action>)
    requires k.Proper()
    ensures IsRun(k.password, run, steps)
    ensures var s := run[|steps|];
      && Outbox(s, k.a, k.b) == [Offer(k.sdp)]
      && Outcomes.AtRest(s, k.a, k.b) && Outcomes.Faultless(s, k.a, k.b)
      && Outcomes.HeardBy(s, R.Tag(k.a, k.b, 0)) && Outcomes.AnswersHeard(s, k.a, k.b)
      && P.Agreed(ConnOf(s.meshes, k.a, k.b), ConnOf(s.meshes, k.b, k.a))
  {
    run, steps := AWorks(k, 3);
    EndConnections(k);
    EndIsHeard(k);
    EndIsAtRest(k);
    Outcomes.PairAgreement(k.password, run, steps, |steps|, k.a, k.b, 0);
  }

  lemma EndConnections(k: Talk)
    requires k.Proper()
    ensures ConnOf(End(k).meshes, k.a, k.b) == TakingUp(k, 3) && ConnOf(End(k).meshes, k.b, k.a) == Answering(k, 7)
    ensures Outbox(End(k), k.a, k.b) == [Offer(k.sdp)] && Outbox(End(k), k.b, k.a) == [Answer(k.answer)]
    ensures Outcomes.Faultless(End(k), k.a, k.b)
  {
  }

  lemma EndIsHeard(k: Talk)
    requires k.Proper()
    ensures Outcomes.HeardBy(End(k), R.Tag(k.a, k.b, 0)) && Outcomes.AnswersHeard(End(k), k.a, k.b)
  {
    EndConnections(k);
    assert R.LiveStream(End(k).relay, k.a) == Some(0) && R.LiveStream(End(k).relay, k.b) == Some(1);
    assert R.Tag(k.a, k.b, 0) in Net3(k).placed && R.Tag(k.b, k.a, 0) in Net3(k).placed;
  }

  lemma EndIsAtRest(k: Talk)
    requires k.Proper()
    ensures Outcomes.AtRest(End(k), k.a, k.b)
  {
    EndConnections(k);
  }
}
