/** What a run leads to: sessions find each other, pairs agree, and what happens to a
    pair whose offer is lost. */
module Outcomes {
  import opened Types
  import opened Rooms
  import opened System
  import opened Theorems
  import opened Stranding
  import C = Connection
  import M = Meshes
  import P = Pair
  import R = Relay
  import D = Delivery
  import L = Placement
  import V = Presence

  /** The mesh has processed everything that has reached its client. */
  predicate CaughtUp(s: Sys, c: Id) {
    R.ClientOf(s.relay.clients, c).used == |R.ClientOf(s.relay.clients, c).seen|
  }

  // ---- Mutual discovery ------------------------------------------------------------------------

  /** If each of two sessions has fully consumed a stream on its current channel, each
      lists the other, itself never and nobody twice, and its mesh has a connection
      for the other, open until it leaves, unless the browser refused to create one. */
  lemma MutualDiscovery(password: string, run: seq<Sys>, steps: seq<Action>, k: nat, a: Id, b: Id)
    requires IsRun(password, run, steps) && k < |run| && a != b
    requires V.Settled(run[k].relay, a) && V.Settled(run[k].relay, b)
    ensures var list := V.Listed(R.ClientOf(run[k].relay.clients, a).seen);
      b in Ids(list) && a !in Ids(list) && DistinctIds(list)
    ensures CaughtUp(run[k], a) ==>
      && a in run[k].meshes && (b in run[k].meshes[a].peers || b in run[k].meshes[a].refusals)
      && (b in run[k].meshes[a].peers && a !in run[k].left ==> run[k].meshes[a].peers[b].pc.open)
  {
    RunHolds(password, run, steps, k);
    var s := run[k];
    V.MutualPresence(s.relay, a, b);
    V.SettledHasBeenTold(s.relay, a, b);
    if CaughtUp(s, a) {
      var seen := R.ClientOf(s.relay.clients, a).seen;
      var base := D.Base(s.relay.streams[R.ClientOf(s.relay.clients, a).link.value], seen);
      assert Knows(s, a);
      if b in Ids(seen[base].event.peers) {
        assert b in M.Named(seen[base].event);
      } else {
        var p :| base + 1 <= p < |seen| && seen[p].event.PeerJoined? && seen[p].event.peerId == b;
        assert b in M.Named(seen[p].event);
      }
    }
  }

  // ---- Pair agreement ------------------------------------------------------------------------------

  /** Nothing between `a` and `b` is on its way, and neither mesh nor task has work left. */
  ghost predicate Quiet(s: Sys, a: Id, b: Id) {
    && (forall n :: Arrived(s, R.Tag(a, b, n)) && Arrived(s, R.Tag(b, a, n)))
    && CaughtUp(s, a) && CaughtUp(s, b)
    && P.Idle(ConnOf(s.meshes, a, b)) && P.Idle(ConnOf(s.meshes, b, a))
  }

  /** The signal is neither in flight nor on the stream that its addressee listens to. */
  ghost predicate Arrived(s: Sys, t: R.Tag) {
    !InFlight(s.relay, t) && !Coming(s.relay, t)
  }

  /** No browser operation of the pair failed. */
  ghost predicate Faultless(s: Sys, a: Id, b: Id) {
    && !ConnOf(s.meshes, a, b).log.failed && !ConnOf(s.meshes, b, a).log.failed
    && !Refused(s.meshes, a, b) && !Refused(s.meshes, b, a)
  }

  /** A signal that has arrived is stranded, or has been taken. */
  lemma TakenUnlessStranded(s: Sys, from: Id, to: Id, n: nat)
    requires SysInv(s) && n < |Outbox(s, from, to)| && Arrived(s, R.Tag(from, to, n)) && CaughtUp(s, to)
    ensures Stranded(s.relay, R.Tag(from, to, n)) <==> n !in TakenBy(R.ClientOf(s.relay.clients, to), from)
  {
    var cl, t := R.ClientOf(s.relay.clients, to), R.Tag(from, to, n);
    assert R.Posted(s.relay.net, from, to) == Outbox(s, from, to);
    assert forall j :: 0 <= j < |cl.seen| && Is(cl.seen[j], t) ==>
        cl.seen[j].event.Media? && cl.seen[j].event.from == from && cl.seen[j].tag == n;
  }

  /** No answer of `b` to `a` is stranded. */
  ghost predicate AnswersGetThrough(s: Sys, a: Id, b: Id) {
    forall m :: 0 <= m < |Outbox(s, b, a)| && Outbox(s, b, a)[m].Answer? ==> !Stranded(s.relay, R.Tag(b, a, m))
  }

  lemma AgreementInState(s: Sys, a: Id, b: Id, n: nat)
    requires SysInv(s) && Before(a, b) && Quiet(s, a, b) && Faultless(s, a, b)
    requires n < |Outbox(s, a, b)| && Outbox(s, a, b)[n].Offer?
    ensures P.Agreed(ConnOf(s.meshes, a, b), ConnOf(s.meshes, b, a)) <==>
            !Stranded(s.relay, R.Tag(a, b, n)) && AnswersGetThrough(s, a, b)
    ensures P.Agreed(ConnOf(s.meshes, a, b), ConnOf(s.meshes, b, a)) ==>
            ConnOf(s.meshes, b, a).pc.remote == Some(C.Description(C.OfferKind, Outbox(s, a, b)[n].sdp))
  {
    var e := PairOf(s, a, b);
    assert P.PairInv(e);
    assert Arrived(s, R.Tag(a, b, n));
    TakenUnlessStranded(s, a, b, n);
    forall m | 0 <= m < |e.b.log.outbox|
      ensures Stranded(s.relay, R.Tag(b, a, m)) <==> m !in e.toA
    {
      assert Arrived(s, R.Tag(b, a, m));
      TakenUnlessStranded(s, b, a, m);
    }
    P.QuietPairAgreesExactly(e, n);
    if P.Agreed(e.a, e.b) { P.AgreedOnTheOffer(e, n); }
  }

  /** Once all is quiet and if no browser operation failed, an offer has led to both ends
      stable on it and its answer exactly when neither it nor an answer to it is stranded. */
  lemma QuietAgreement(password: string, run: seq<Sys>, steps: seq<Action>, k: nat, a: Id, b: Id, n: nat)
    requires IsRun(password, run, steps) && k < |run| && Before(a, b)
    requires Quiet(run[k], a, b) && Faultless(run[k], a, b)
    requires n < |Outbox(run[k], a, b)| && Outbox(run[k], a, b)[n].Offer?
    ensures P.Agreed(ConnOf(run[k].meshes, a, b), ConnOf(run[k].meshes, b, a)) <==>
            !Stranded(run[k].relay, R.Tag(a, b, n)) && AnswersGetThrough(run[k], a, b)
    ensures P.Agreed(ConnOf(run[k].meshes, a, b), ConnOf(run[k].meshes, b, a)) ==>
            ConnOf(run[k].meshes, b, a).pc.remote == Some(C.Description(C.OfferKind, Outbox(run[k], a, b)[n].sdp))
  {
    RunHolds(password, run, steps, k);
    AgreementInState(run[k], a, b, n);
  }

  // ---- Pair agreement from what was heard ------------------------------------------------------------

  /** When signal `t` was relayed, its addressee was listening to the stream that it
      listens to now. */
  predicate HeardBy(s: Sys, t: R.Tag) {
    && t in s.relay.net.placed && s.relay.net.placed[t].receiver.Some?
    && R.LiveStream(s.relay, t.to) == s.relay.net.placed[t].receiver
  }

  /** A settled client that has caught up has taken every signal in what its stream reads. */
  lemma CarriedIsTaken(s: Sys, c: Id, f: Id, n: nat)
    requires D.Inv(s.relay) && V.Settled(s.relay, c) && CaughtUp(s, c)
    requires var t := s.relay.streams[R.ClientOf(s.relay.clients, c).link.value];
      L.Carries(s.relay.room.chans[t.chan].log, t.reader.start, f, n)
    ensures n in TakenBy(R.ClientOf(s.relay.clients, c), f)
  {
    var cl := R.ClientOf(s.relay.clients, c);
    var t := s.relay.streams[cl.link.value];
    var log, start, base := s.relay.room.chans[t.chan].log, t.reader.start, D.Base(t, cl.seen);
    V.SettledHasSeenAll(s.relay, c);
    var p :| start <= p < |log| && log[p].event.Media? && log[p].event.from == f && log[p].tag == n;
    SameFromThere(cl.seen, base + 1, log, start, p);
  }

  lemma SameFromThere(seen: seq<Entry>, base: nat, log: seq<Entry>, start: nat, p: nat)
    requires base <= |seen| && start <= p < |log| && seen[base..] == log[start..]
    ensures base + p - start < |seen| && seen[base + p - start] == log[p]
  {
    assert seen[base + p - start] == seen[base..][p - start] == log[start..][p - start];
  }

  lemma HeardIsTaken(s: Sys, t: R.Tag)
    requires SysInv(s) && HeardBy(s, t) && V.Settled(s.relay, t.to) && CaughtUp(s, t.to)
    ensures t.n in TakenBy(R.ClientOf(s.relay.clients, t.to), t.from)
  {
    assert L.PlacedOk(s.relay, t, s.relay.net.placed[t]);
    CarriedIsTaken(s, t.to, t.from, t.n);
  }

  /** Both clients have consumed their streams, and neither mesh nor task has work left. */
  ghost predicate AtRest(s: Sys, a: Id, b: Id) {
    && V.Settled(s.relay, a) && V.Settled(s.relay, b) && CaughtUp(s, a) && CaughtUp(s, b)
    && P.Idle(ConnOf(s.meshes, a, b)) && P.Idle(ConnOf(s.meshes, b, a))
  }

  ghost predicate AnswersHeard(s: Sys, a: Id, b: Id) {
    forall m :: 0 <= m < |Outbox(s, b, a)| && Outbox(s, b, a)[m].Answer? ==> HeardBy(s, R.Tag(b, a, m))
  }

  lemma AgreementWhenHeard(s: Sys, a: Id, b: Id, n: nat)
    requires SysInv(s) && Before(a, b) && AtRest(s, a, b) && Faultless(s, a, b)
    requires n < |Outbox(s, a, b)| && Outbox(s, a, b)[n].Offer?
    requires HeardBy(s, R.Tag(a, b, n)) && AnswersHeard(s, a, b)
    ensures P.Agreed(ConnOf(s.meshes, a, b), ConnOf(s.meshes, b, a))
    ensures ConnOf(s.meshes, b, a).pc.remote == Some(C.Description(C.OfferKind, Outbox(s, a, b)[n].sdp))
  {
    var e := PairOf(s, a, b);
    assert P.PairInv(e);
    HeardIsTaken(s, R.Tag(a, b, n));
    if !P.NoAnswer(e.b.log.outbox) {
      var m :| 0 <= m < |e.b.log.outbox| && e.b.log.outbox[m].Answer?;
      HeardIsTaken(s, R.Tag(b, a, m));
    }
    P.QuietPairAgrees(e);
    P.AgreedOnTheOffer(e, n);
  }

  /** If the offer and the answer to it were each relayed to a stream that their addressee
      has listened to since, then at rest and with nothing failed both ends are stable,
      on `a`'s offer and on `b`'s answer to it. */
  lemma PairAgreement(password: string, run: seq<Sys>, steps: seq<Action>, k: nat, a: Id, b: Id, n: nat)
    requires IsRun(password, run, steps) && k < |run| && Before(a, b)
    requires AtRest(run[k], a, b) && Faultless(run[k], a, b)
    requires n < |Outbox(run[k], a, b)| && Outbox(run[k], a, b)[n].Offer?
    requires HeardBy(run[k], R.Tag(a, b, n)) && AnswersHeard(run[k], a, b)
    ensures P.Agreed(ConnOf(run[k].meshes, a, b), ConnOf(run[k].meshes, b, a))
    ensures ConnOf(run[k].meshes, b, a).pc.remote == Some(C.Description(C.OfferKind, Outbox(run[k], a, b)[n].sdp))
  {
    RunHolds(password, run, steps, k);
    AgreementWhenHeard(run[k], a, b, n);
  }

  // ---- Pair agreement from the moment of the offer ---------------------------------------------------

  /** When `a`'s offer, number `n`, was relayed, `a` was listening to stream `ra` and
      `b` to `rb`, and they have been listening to them ever since. */
  predicate OfferedLive(s: Sys, a: Id, b: Id, n: nat, ra: nat, rb: nat) {
    var t := R.Tag(a, b, n);
    && n < |Outbox(s, a, b)| && Outbox(s, a, b)[n].Offer?
    && t in s.relay.net.placed
    && s.relay.net.placed[t].sender == Some(ra) && s.relay.net.placed[t].receiver == Some(rb)
    && R.LiveStream(s.relay, a) == Some(ra) && R.LiveStream(s.relay, b) == Some(rb)
  }

  /** No post of `b` to `a` is in flight, or was lost. */
  ghost predicate PostsThrough(s: Sys, a: Id, b: Id) {
    && (forall post :: post in s.relay.net.flight ==> (post.from, post.message.to) != (b, a))
    && forall m :: R.Tag(b, a, m) !in s.relay.net.lost
  }

  lemma AnswerWasTaken(s: Sys, a: Id, b: Id, n: nat, ra: nat, rb: nat, m: nat)
    requires SysInv(s) && AnswersFollow(s) && Before(a, b) && OfferedLive(s, a, b, n, ra, rb)
    requires V.Settled(s.relay, a) && CaughtUp(s, a) && PostsThrough(s, a, b)
    requires m < |Outbox(s, b, a)| && Outbox(s, b, a)[m].Answer?
    ensures m in TakenBy(R.ClientOf(s.relay.clients, a), b)
  {
    var t := R.Tag(a, b, n);
    var p := s.relay.net.placed[t];
    assert L.PlacedOk(s.relay, t, p);
    assert NoAnswerYet(s, t, p.back);
    assert R.Posted(s.relay.net, b, a) == Outbox(s, b, a);
    assert L.Reaches(s.relay, ra, b, a, m);
    assert R.Post(b, SignalMessage(a, R.Posted(s.relay.net, b, a)[m]), m) !in s.relay.net.flight;
    CarriedIsTaken(s, a, b, m);
  }

  /** If both ends were listening when the offer was relayed and have been since, the
      answer has been heard too, and they agree. */
  lemma ListeningPairAgrees(
    password: string, run: seq<Sys>, steps: seq<Action>, k: nat, a: Id, b: Id, n: nat, ra: nat, rb: nat)
    requires IsRun(password, run, steps) && k < |run| && Before(a, b)
    requires OfferedLive(run[k], a, b, n, ra, rb) && AtRest(run[k], a, b)
    requires Faultless(run[k], a, b) && PostsThrough(run[k], a, b)
    ensures P.Agreed(ConnOf(run[k].meshes, a, b), ConnOf(run[k].meshes, b, a))
  {
    RunHolds(password, run, steps, k);
    AgreementWhenListening(run[k], a, b, n, ra, rb);
  }

  lemma AgreementWhenListening(s: Sys, a: Id, b: Id, n: nat, ra: nat, rb: nat)
    requires SysInv(s) && AnswersFollow(s) && Before(a, b) && OfferedLive(s, a, b, n, ra, rb)
    requires AtRest(s, a, b) && Faultless(s, a, b) && PostsThrough(s, a, b)
    ensures P.Agreed(ConnOf(s.meshes, a, b), ConnOf(s.meshes, b, a))
  {
    var e := PairOf(s, a, b);
    assert P.PairInv(e);
    HeardIsTaken(s, R.Tag(a, b, n));
    if !P.NoAnswer(e.b.log.outbox) {
      var m :| 0 <= m < |e.b.log.outbox| && e.b.log.outbox[m].Answer?;
      AnswerWasTaken(s, a, b, n, ra, rb, m);
    }
    P.QuietPairAgrees(e);
  }

  // ---- Known peers -----------------------------------------------------------------------------------

  /** The side that sorts first has offered to everyone it has a connection for. */
  ghost predicate HasOffered(m: M.MeshState) {
    forall f :: f in m.peers && Before(m.self, f) ==> m.peers[f].negotiated
  }

  lemma EventKeepsOffered(m: M.MeshState, ev: SseEvent, refused: set<Id>)
    requires HasOffered(m) && m.self !in m.peers && !ev.PeerLeft?
    requires ev.Media? && ev.body.Offer? ==> !Before(m.self, ev.from)
    ensures HasOffered(M.Handle(m, ev, refused))
  {
    var m' := M.Handle(m, ev, refused);
    forall f | f in m'.peers && Before(m.self, f) ensures m'.peers[f].negotiated {
      M.HandleAt(m, ev, refused, f);
      BeforeIsStrictTotal(m.self, f);
    }
    M.HandleAt(m, ev, refused, m.self);
  }

  ghost predicate AllOffered(s: Sys) {
    forall c :: c in s.meshes ==> HasOffered(s.meshes[c])
  }

  /** No offer comes down from a session that sorts later. */
  lemma OffersComeFromBelow(s: Sys, c: Id)
    requires SysInv(s) && CanProcess(s, c)
    ensures var ev := NextEntry(s.relay, c).event; ev.Media? && ev.body.Offer? ==> !Before(c, ev.from)
  {
    var e := NextEntry(s.relay, c);
    RelaySeenOk(s.relay, c);
    if e.event.Media? && Before(c, e.event.from) {
      NextSignal(s, c);
      assert P.PairInv(PairOf(s, c, e.event.from));
    }
  }

  lemma ProcessKeepsOffered(s: Sys, c: Id, refused: set<Id>)
    requires SysInv(s) && AllOffered(s) && CanProcess(s, c)
    ensures AllOffered(Processed(s, c, refused))
  {
    OffersComeFromBelow(s, c);
    RelaySeenOk(s.relay, c);
    EventIsOk(s, c);
    EventKeepsOffered(s.meshes[c], NextEntry(s.relay, c).event, refused);
  }

  lemma ActKeepsOffered(s: Sys, c: Id, f: Id, y: C.Action)
    requires AllOffered(s) && CanAct(s, c, f, y)
    ensures AllOffered(Acted(s, c, f, y))
  {
    StepKeepsNegotiated(Before(c, f), s.meshes[c].peers[f], y);
  }

  lemma BuildKeepsOffered(s: Sys, c: Id)
    requires AllOffered(s)
    ensures AllOffered(Built(s, c))
  {
  }

  lemma LeaveKeepsOffered(s: Sys, c: Id)
    requires AllOffered(s) && c in s.meshes
    ensures AllOffered(Parted(s, c))
  {
  }

  lemma NextKeepsOffered(s: Sys, x: Action)
    requires SysInv(s) && AllOffered(s) && Can(s, x)
    ensures AllOffered(Next(s, x))
  {
    match x {
      case Deliver(a) =>
      case Build(c) => BuildKeepsOffered(s, c);
      case Process(c, refused) => ProcessKeepsOffered(s, c, refused);
      case Local(c, f, y) => ActKeepsOffered(s, c, f, y);
      case Leave(c) => LeaveKeepsOffered(s, c);
    }
  }

  lemma StepKeepsNegotiated(initiate: bool, p: C.Peer, y: C.Action)
    requires P.Own(p, y)
    ensures p.negotiated ==> C.Act(initiate, p, y).negotiated
  {
  }

  lemma RunKeepsOffered(password: string, run: seq<Sys>, steps: seq<Action>, k: nat)
    requires IsRun(password, run, steps) && k < |run|
    ensures AllOffered(run[k])
  {
    assert run[0].meshes == map[];
    forall s, x | SysInv(s) && Can(s, x) && AllOffered(s) ensures AllOffered(Next(s, x)) {
      NextKeepsOffered(s, x);
    }
    Stays(password, run, steps, 0, k, s => AllOffered(s));
  }

  /** A snapshot that lists only peers the mesh already has a connection for changes
      nothing: no connection is created and no offer made. */
  lemma KnownSnapshotIsNoOp(
    password: string, run: seq<Sys>, steps: seq<Action>, k: nat, c: Id, peers: seq<PeerInfo>, refused: set<Id>)
    requires IsRun(password, run, steps) && k < |run| && c in run[k].meshes
    requires forall f :: f in Ids(peers) && f != c ==> f in run[k].meshes[c].peers
    ensures M.NoticeAll(run[k].meshes[c], peers, refused) == run[k].meshes[c]
  {
    RunHolds(password, run, steps, k);
    RunKeepsOffered(password, run, steps, k);
    var m := run[k].meshes[c];
    assert MeshOk(run[k].relay.room.participants.Keys, c, m) && HasOffered(m);
    M.KnownPeersAreNoOp(m, peers, refused);
  }
}
