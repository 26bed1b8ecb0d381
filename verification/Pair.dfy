/** The two connections of a pair and the signals between them, over a network that
    may lose, delay and reorder signals but delivers each at most once. The end whose
    id sorts first is `a`, the other `b`. */
module Pair {
  import opened Types
  import opened Connection

  // ---- What a connection takes from the other end ----------------------------------

  function SignalOf(d: Description): Signal {
    match d.kind case OfferKind => Offer(d.sdp) case AnswerKind => Answer(d.sdp)
  }

  predicate CallFrom(c: Call, sent: seq<Signal>) {
    match c
    case Describe(Remote, d, _) => SignalOf(d) in sent
    case Describe(Local, _, _) => true
    case AddCandidate(x) => IceCandidate(x) in sent
  }

  predicate TaskFrom(t: Task, sent: seq<Signal>) {
    match t
    case AnswerStart(sdp) => Offer(sdp) in sent
    case AnswerSetting(sdp) => Offer(sdp) in sent
    case ReplyStart(sdp) => Answer(sdp) in sent
    case ReplySetting(sdp) => Answer(sdp) in sent
    case _ => true
  }

  /** Whatever was or will be applied to `p` was sent by the connection whose outbox is `sent`. */
  ghost predicate From(p: Peer, sent: seq<Signal>) {
    && (forall k :: 0 <= k < |p.log.calls| ==> CallFrom(p.log.calls[k], sent))
    && (forall k :: 0 <= k < |p.tasks| ==> TaskFrom(p.tasks[k], sent))
    && (forall k :: 0 <= k < |p.pending| ==> IceCandidate(p.pending[k]) in sent)
    && (forall k :: 0 <= k < |p.log.received| ==> IceCandidate(p.log.received[k]) in sent)
    && (p.pc.remote.Some? ==> SignalOf(p.pc.remote.value) in sent)
  }

  lemma FromGrows(p: Peer, sent: seq<Signal>, more: seq<Signal>)
    requires From(p, sent)
    ensures From(p, sent + more)
  {
    assert forall s :: s in sent ==> s in sent + more;
  }

  lemma TouchKeepsFrom(initiate: bool, p: Peer, sent: seq<Signal>)
    requires From(p, sent)
    ensures From(MaybeOffer(initiate, p), sent)
  {
  }

  lemma ReceiveKeepsFrom(initiate: bool, p: Peer, s: Signal, sent: seq<Signal>)
    requires From(p, sent) && s in sent
    ensures From(Receive(initiate, p, s), sent)
  {
    if s.IceCandidate? { TouchKeepsFrom(initiate, p, sent); }
  }

  lemma PollFrom(t: Task, at: Signaling, empty: bool, o: Outcome, sent: seq<Signal>)
    requires TaskFrom(t, sent)
    ensures var r := PollTask(t, at, empty, o);
      && TaskFrom(r.next, sent)
      && (r.deed.Issue? && r.deed.side == Remote ==> SignalOf(r.deed.description) in sent)
      && (r.deed.Apply? && r.deed.side == Remote ==> SignalOf(r.deed.description) in sent)
  {
  }

  lemma RunKeepsFrom(p: Peer, i: nat, o: Outcome, sent: seq<Signal>)
    requires i < |p.tasks| && From(p, sent)
    ensures From(Run(p, i, o), sent)
  {
    var r := PollOf(p, i, o);
    PollFrom(p.tasks[i], p.pc.State(), p.pending == [], o, sent);
    DeedKeepsFrom(p, r.deed, sent);
  }

  lemma DeedKeepsFrom(p: Peer, deed: Deed, sent: seq<Signal>)
    requires From(p, sent)
    requires deed.AddNext? ==> p.pending != []
    requires deed.Issue? && deed.side == Remote ==> SignalOf(deed.description) in sent
    requires deed.Apply? && deed.side == Remote ==> SignalOf(deed.description) in sent
    ensures From(Do(p, deed), sent)
  {
  }

  lemma ActKeepsFrom(initiate: bool, p: Peer, x: Action, sent: seq<Signal>)
    requires Enabled(p, x) && From(p, sent) && (x.Got? ==> x.signal in sent)
    ensures From(Act(initiate, p, x), sent)
  {
    match x {
      case Notice => TouchKeepsFrom(initiate, p, sent);
      case Got(s) => ReceiveKeepsFrom(initiate, p, s, sent);
      case Step(i, o) => RunKeepsFrom(p, i, o, sent);
      case _ =>
    }
  }

  // ---- The two roles -----------------------------------------------------------------

  predicate NoOffer(sent: seq<Signal>) { forall n :: 0 <= n < |sent| ==> !sent[n].Offer? }

  predicate NoAnswer(sent: seq<Signal>) { forall n :: 0 <= n < |sent| ==> !sent[n].Answer? }

  predicate OneOffer(sent: seq<Signal>) {
    forall m, n :: 0 <= m < |sent| && 0 <= n < |sent| && sent[m].Offer? && sent[n].Offer? ==> m == n
  }

  predicate OneAnswer(sent: seq<Signal>) {
    forall m, n :: 0 <= m < |sent| && 0 <= n < |sent| && sent[m].Answer? && sent[n].Answer? ==> m == n
  }

  /** A closed connection refuses every description, whatever it is asked. */
  predicate CallAllowed(c: Call) {
    c.Describe? ==> Allowed(c.side, c.description.kind, c.at) || c.at == Closed
  }

  predicate AllAllowed(calls: seq<Call>) {
    forall k :: 0 <= k < |calls| ==> CallAllowed(calls[k])
  }

  /** At most one description task is live, the one spawned last. */
  predicate Pinned(p: Peer) {
    forall i :: 0 <= i < |p.tasks| && p.tasks[i].Negotiating() ==> i == p.lead
  }

  /** The local description is an offer (answer) that has been sent. */
  predicate Sent(p: Peer, kind: Kind) {
    p.pc.local.Some? && p.pc.local.value.kind == kind && SignalOf(p.pc.local.value) in p.log.outbox
  }

  predicate Untouched(p: Peer) {
    p.pc.reached == Stable && p.pc.local.None? && p.pc.remote.None?
  }

  /** Where the offering end stands. */
  predicate OfferingPhase(p: Peer) {
    var t := Lead(p);
    if t.Offering() then
      && p.negotiated && !p.remoteSet && NoOffer(p.log.outbox)
      && if t.OfferSet? then p.pc.reached == HaveLocalOffer && p.pc.remote.None? &&
                             p.pc.local == Some(Description(OfferKind, t.sdp))
         else Untouched(p)
    else if t.Replying() then
      p.negotiated && p.remoteSet && Sent(p, OfferKind) && p.pc.remote.None? && p.pc.reached == HaveLocalOffer
    else if !p.negotiated then
      !p.remoteSet && NoOffer(p.log.outbox) && Untouched(p)
    else if !p.remoteSet then
      && p.pc.remote.None?
      && ((Sent(p, OfferKind) && p.pc.reached == HaveLocalOffer) || (p.log.failed && NoOffer(p.log.outbox)))
    else
      && Sent(p, OfferKind)
      && ((p.pc.remote.Some? && p.pc.remote.value.kind == AnswerKind && p.pc.reached == Stable) ||
          (p.log.failed && p.pc.remote.None? && p.pc.reached == HaveLocalOffer))
  }

  ghost predicate Initiator(p: Peer) {
    && Pinned(p) && p.pc.reached != Closed
    && (forall i :: 0 <= i < |p.tasks| ==> !p.tasks[i].Answering())
    && AllAllowed(p.log.calls)
    && OneOffer(p.log.outbox) && NoAnswer(p.log.outbox)
    && OfferingPhase(p)
  }

  /** Where the answering end stands. */
  predicate AnsweringPhase(p: Peer) {
    var t := Lead(p);
    if t.AnswerStart? || t.AnswerSetting? then
      p.remoteSet && NoAnswer(p.log.outbox) && Untouched(p)
    else if t.AnswerReady? then
      && p.remoteSet && NoAnswer(p.log.outbox) && p.pc.reached == Stable
      && p.pc.local == Some(Description(AnswerKind, t.sdp))
      && p.pc.remote.Some? && p.pc.remote.value.kind == OfferKind
    else if t.Answering() then
      && p.remoteSet && NoAnswer(p.log.outbox) && p.pc.reached == HaveRemoteOffer && p.pc.local.None?
      && p.pc.remote.Some? && p.pc.remote.value.kind == OfferKind
    else if !p.remoteSet then
      NoAnswer(p.log.outbox) && Untouched(p)
    else
      || (Sent(p, AnswerKind) && p.pc.reached == Stable && p.pc.remote.Some? && p.pc.remote.value.kind == OfferKind)
      || (p.log.failed && NoAnswer(p.log.outbox) && p.pc.reached != HaveLocalOffer)
  }

  ghost predicate Responder(p: Peer) {
    && Pinned(p) && !p.negotiated && p.pc.reached != Closed
    && (forall i :: 0 <= i < |p.tasks| ==> !p.tasks[i].Offering() && !p.tasks[i].Replying())
    && AllAllowed(p.log.calls)
    && OneAnswer(p.log.outbox) && NoOffer(p.log.outbox)
    && AnsweringPhase(p)
  }

  // ---- The roles are kept ---------------------------------------------------------------

  lemma IdlePoll(t: Task, at: Signaling, empty: bool, o: Outcome)
    requires !t.Negotiating()
    ensures var r := PollTask(t, at, empty, o);
      !r.next.Negotiating() && (r.deed == Nothing || r.deed == AddNext)
  {
  }

  /** Candidate work changes nothing a role speaks of. */
  lemma IdleStepKeepsRole(p: Peer, q: Peer)
    requires q.negotiated == p.negotiated && q.remoteSet == p.remoteSet && q.pc == p.pc && q.lead == p.lead
    requires q.log.outbox == p.log.outbox && q.log.failed == p.log.failed
    requires q.log.calls == p.log.calls || exists c :: q.log.calls == p.log.calls + [AddCandidate(c)]
    requires |p.tasks| <= |q.tasks|
    requires forall k :: 0 <= k < |p.tasks| ==>
               q.tasks[k] == p.tasks[k] || (!p.tasks[k].Negotiating() && !q.tasks[k].Negotiating())
    requires forall k :: |p.tasks| <= k < |q.tasks| ==> !q.tasks[k].Negotiating()
    ensures Initiator(p) ==> Initiator(q)
    ensures Responder(p) ==> Responder(q)
  {
    assert Lead(q) == Lead(p) || (!Lead(p).Negotiating() && !Lead(q).Negotiating());
    assert AllAllowed(p.log.calls) ==> AllAllowed(q.log.calls);
  }

  lemma IdlePollKeepsRole(p: Peer, i: nat, o: Outcome)
    requires i < |p.tasks| && !p.tasks[i].Negotiating()
    ensures Initiator(p) ==> Initiator(Run(p, i, o))
    ensures Responder(p) ==> Responder(Run(p, i, o))
  {
    IdlePoll(p.tasks[i], p.pc.State(), p.pending == [], o);
    IdleStepKeepsRole(p, Run(p, i, o));
  }

  lemma OfferPollKeepsRole(p: Peer, i: nat, o: Outcome)
    requires Initiator(p) && i < |p.tasks| && p.tasks[i].Offering()
    ensures Initiator(Run(p, i, o))
  {
    assert Lead(p) == p.tasks[i];
  }

  lemma ReplyPollKeepsRole(p: Peer, i: nat, o: Outcome)
    requires Initiator(p) && i < |p.tasks| && p.tasks[i].Replying()
    ensures Initiator(Run(p, i, o))
  {
    assert Lead(p) == p.tasks[i];
  }

  lemma AnswerPollKeepsRole(p: Peer, i: nat, o: Outcome)
    requires Responder(p) && i < |p.tasks| && p.tasks[i].Answering()
    ensures Responder(Run(p, i, o))
  {
    assert Lead(p) == p.tasks[i];
  }

  lemma TouchKeepsInitiator(p: Peer)
    requires Initiator(p)
    ensures Initiator(MaybeOffer(true, p))
  {
  }

  lemma IceKeepsRole(initiate: bool, p: Peer, c: Candidate)
    requires if initiate then Initiator(p) else Responder(p)
    ensures if initiate then Initiator(OnIce(initiate, p, c)) else Responder(OnIce(initiate, p, c))
  {
    if initiate { TouchKeepsInitiator(p); }
    IdleStepKeepsRole(MaybeOffer(initiate, p), OnIce(initiate, p, c));
  }

  lemma OfferKeepsResponder(p: Peer, sdp: string)
    requires Responder(p) && p.pc.open
    ensures Responder(ApplyOffer(false, p, sdp))
    ensures ApplyOffer(false, p, sdp).remoteSet
  {
  }

  /** An answer is taken up only when the offer it answers is out and unanswered. */
  lemma AnswerKeepsInitiator(p: Peer, sdp: string)
    requires Initiator(p) && Sent(p, OfferKind) && !p.remoteSet && p.pc.open
    ensures Initiator(ApplyAnswer(p, sdp))
    ensures ApplyAnswer(p, sdp).remoteSet
  {
  }

  /** An action of one end that takes no signal from the other. */
  predicate Own(p: Peer, x: Action) {
    Enabled(p, x) && !x.Got?
  }

  lemma OwnActKeepsRole(initiate: bool, p: Peer, x: Action)
    requires Own(p, x)
    requires if initiate then Initiator(p) else Responder(p)
    ensures if initiate then Initiator(Act(initiate, p, x)) else Responder(Act(initiate, p, x))
  {
    match x {
      case Notice => if initiate { TouchKeepsInitiator(p); }
      case Step(i, o) =>
        var t := p.tasks[i];
        if t.Offering() { OfferPollKeepsRole(p, i, o); }
        else if t.Replying() { ReplyPollKeepsRole(p, i, o); }
        else if t.Answering() { AnswerPollKeepsRole(p, i, o); }
        else { IdlePollKeepsRole(p, i, o); }
      case _ =>
    }
  }

  /** What the end's own actions leave alone. */
  lemma OwnActFrame(initiate: bool, p: Peer, x: Action)
    requires Own(p, x)
    ensures var q := Act(initiate, p, x);
      && q.remoteSet == p.remoteSet
      && p.log.outbox <= q.log.outbox && |q.log.outbox| <= |p.log.outbox| + 1
  {
  }

  // ---- The pair -----------------------------------------------------------------------

  /** `toB` holds the positions in `a`'s outbox of the signals that `b` has taken,
      `toA` the other way round. `refusedA` says that the browser refused to create
      the connection at `a` when one was needed. */
  datatype Ends = Ends(a: Peer, b: Peer, toB: set<nat>, toA: set<nat>, refusedA: bool, refusedB: bool)

  const Start: Ends := Ends(FreshPeer, FreshPeer, {}, {}, false, false)

  datatype PairAction =
    | AtA(action: Action)
    | AtB(action: Action)
    | TakeAtA(n: nat, created: bool)
    | TakeAtB(n: nat, created: bool)
    | RefuseA
    | RefuseB

  predicate Possible(e: Ends, x: PairAction) {
    match x
    case AtA(y) => Own(e.a, y)
    case AtB(y) => Own(e.b, y)
    case TakeAtA(n, created) => n < |e.b.log.outbox| && n !in e.toA && (created ==> e.a.pc.open)
    case TakeAtB(n, created) => n < |e.a.log.outbox| && n !in e.toB && (created ==> e.b.pc.open)
    case _ => true
  }

  function Next(e: Ends, x: PairAction): Ends
    requires Possible(e, x)
  {
    match x
    case AtA(y) => e.(a := Act(true, e.a, y))
    case AtB(y) => e.(b := Act(false, e.b, y))
    case TakeAtA(n, true) => e.(a := Receive(true, e.a, e.b.log.outbox[n]), toA := e.toA + {n})
    case TakeAtB(n, true) => e.(b := Receive(false, e.b, e.a.log.outbox[n]), toB := e.toB + {n})
    case TakeAtA(n, false) => e.(toA := e.toA + {n}, refusedA := true)
    case TakeAtB(n, false) => e.(toB := e.toB + {n}, refusedB := true)
    case RefuseA => e.(refusedA := true)
    case RefuseB => e.(refusedB := true)
  }

  /** Some offer (answer) among the signals sent has been taken. */
  ghost predicate OfferTaken(sent: seq<Signal>, taken: set<nat>) {
    exists n :: n in taken && n < |sent| && sent[n].Offer?
  }

  ghost predicate AnswerTaken(sent: seq<Signal>, taken: set<nat>) {
    exists n :: n in taken && n < |sent| && sent[n].Answer?
  }

  ghost predicate PairInv(e: Ends) {
    && Initiator(e.a) && Responder(e.b)
    && From(e.a, e.b.log.outbox) && From(e.b, e.a.log.outbox)
    && (forall n :: n in e.toB ==> n < |e.a.log.outbox|)
    && (forall n :: n in e.toA ==> n < |e.b.log.outbox|)
    && (e.b.remoteSet ==> OfferTaken(e.a.log.outbox, e.toB))
    && (OfferTaken(e.a.log.outbox, e.toB) ==> e.b.remoteSet || e.refusedB)
    && (e.a.remoteSet ==> AnswerTaken(e.b.log.outbox, e.toA))
    && (AnswerTaken(e.b.log.outbox, e.toA) ==> e.a.remoteSet || e.refusedA)
  }

  lemma TakenGrows(sent: seq<Signal>, more: seq<Signal>, taken: set<nat>)
    requires forall n :: n in taken ==> n < |sent|
    ensures OfferTaken(sent, taken) <==> OfferTaken(sent + more, taken)
    ensures AnswerTaken(sent, taken) <==> AnswerTaken(sent + more, taken)
  {
    assert forall n :: 0 <= n < |sent| ==> (sent + more)[n] == sent[n];
  }

  lemma OwnStepKeepsPair(e: Ends, x: PairAction)
    requires PairInv(e) && Possible(e, x) && (x.AtA? || x.AtB?)
    ensures PairInv(Next(e, x))
  {
    if x.AtA? {
      OwnActKeepsRole(true, e.a, x.action);
      OwnActFrame(true, e.a, x.action);
      ActKeepsFrom(true, e.a, x.action, e.b.log.outbox);
      var sent, sent' := e.a.log.outbox, Next(e, x).a.log.outbox;
      assert sent' == sent + sent'[|sent|..];
      FromGrows(e.b, sent, sent'[|sent|..]);
      TakenGrows(sent, sent'[|sent|..], e.toB);
    } else {
      OwnActKeepsRole(false, e.b, x.action);
      OwnActFrame(false, e.b, x.action);
      ActKeepsFrom(false, e.b, x.action, e.a.log.outbox);
      var sent, sent' := e.b.log.outbox, Next(e, x).b.log.outbox;
      assert sent' == sent + sent'[|sent|..];
      FromGrows(e.a, sent, sent'[|sent|..]);
      TakenGrows(sent, sent'[|sent|..], e.toA);
    }
  }

  lemma TakenMore(sent: seq<Signal>, taken: set<nat>, n: nat)
    requires n < |sent|
    ensures OfferTaken(sent, taken + {n}) <==> OfferTaken(sent, taken) || sent[n].Offer?
    ensures AnswerTaken(sent, taken + {n}) <==> AnswerTaken(sent, taken) || sent[n].Answer?
  {
    assert n in taken + {n};
  }

  lemma ReceiveFrame(initiate: bool, p: Peer, s: Signal)
    ensures var q := Receive(initiate, p, s);
      && q.log.outbox == p.log.outbox
      && (p.remoteSet ==> q.remoteSet)
      && (s.IceCandidate? ==> q.remoteSet == p.remoteSet)
  {
  }

  /** The answering end has answered only an offer it took, and that offer is the
      one the other end sent. */
  lemma AnswerMeansOffered(e: Ends, n: nat)
    requires PairInv(e) && n < |e.b.log.outbox| && e.b.log.outbox[n].Answer?
    ensures Sent(e.a, OfferKind) && OfferTaken(e.a.log.outbox, e.toB)
  {
    assert e.b.remoteSet;
  }

  lemma TakeAtBKeepsPair(e: Ends, n: nat, created: bool)
    requires PairInv(e) && Possible(e, TakeAtB(n, created))
    ensures PairInv(Next(e, TakeAtB(n, created)))
  {
    var s := e.a.log.outbox[n];
    TakenMore(e.a.log.outbox, e.toB, n);
    if created {
      ReceiveKeepsFrom(false, e.b, s, e.a.log.outbox);
      ReceiveFrame(false, e.b, s);
      match s {
        case Offer(sdp) => OfferKeepsResponder(e.b, sdp);
        case IceCandidate(c) => IceKeepsRole(false, e.b, c);
        case Answer(_) => assert false;
      }
    }
  }

  lemma TakeAtAKeepsPair(e: Ends, n: nat, created: bool)
    requires PairInv(e) && Possible(e, TakeAtA(n, created))
    ensures PairInv(Next(e, TakeAtA(n, created)))
  {
    var s := e.b.log.outbox[n];
    TakenMore(e.b.log.outbox, e.toA, n);
    if created {
      ReceiveKeepsFrom(true, e.a, s, e.b.log.outbox);
      ReceiveFrame(true, e.a, s);
      match s {
        case Answer(sdp) =>
          AnswerMeansOffered(e, n);
          assert !e.a.remoteSet;
          AnswerKeepsInitiator(e.a, sdp);
        case IceCandidate(c) => IceKeepsRole(true, e.a, c);
        case Offer(_) => assert false;
      }
    }
  }

  lemma StepKeepsPair(e: Ends, x: PairAction)
    requires PairInv(e) && Possible(e, x)
    ensures PairInv(Next(e, x))
  {
    match x {
      case TakeAtA(n, created) => TakeAtAKeepsPair(e, n, created);
      case TakeAtB(n, created) => TakeAtBKeepsPair(e, n, created);
      case RefuseA =>
      case RefuseB =>
      case _ => OwnStepKeepsPair(e, x);
    }
  }

  lemma ShutKeepsPair(e: Ends)
    requires PairInv(e)
    ensures e.a.pc.open ==> PairInv(e.(a := Close(e.a)))
    ensures e.b.pc.open ==> PairInv(e.(b := Close(e.b)))
  {
    if e.a.pc.open {
      StepKeepsPair(e, AtA(Shut));
      assert Next(e, AtA(Shut)) == e.(a := Close(e.a));
    }
    if e.b.pc.open {
      StepKeepsPair(e, AtB(Shut));
      assert Next(e, AtB(Shut)) == e.(b := Close(e.b));
    }
  }

  // ---- What the invariant gives ---------------------------------------------------------

  ghost predicate IsPairRun(run: seq<Ends>, steps: seq<PairAction>) {
    && |run| == |steps| + 1
    && run[0] == Start
    && forall k :: 0 <= k < |steps| ==> Possible(run[k], steps[k]) && run[k + 1] == Next(run[k], steps[k])
  }

  lemma {:induction false} PairRunKeepsInv(run: seq<Ends>, steps: seq<PairAction>, k: nat)
    requires IsPairRun(run, steps) && k < |run|
    ensures PairInv(run[k])
  {
    if k > 0 {
      PairRunKeepsInv(run, steps, k - 1);
      StepKeepsPair(run[k - 1], steps[k - 1]);
    }
  }

  predicate Idle(p: Peer) {
    forall i :: 0 <= i < |p.tasks| ==> p.tasks[i].Finished?
  }

  /** Both ends are stable, or were when they closed, on the same offer and the same answer. */
  predicate Agreed(a: Peer, b: Peer) {
    && a.pc.reached == Stable && b.pc.reached == Stable
    && Sent(a, OfferKind) && Sent(b, AnswerKind)
    && b.pc.remote == a.pc.local && a.pc.remote == b.pc.local
  }

  /** With nothing left to do and nothing gone wrong, an offer that was taken has
      led to agreement as soon as the answer to it, if any, was taken too. */
  lemma QuietPairAgrees(e: Ends)
    requires PairInv(e)
    requires Idle(e.a) && Idle(e.b)
    requires !e.a.log.failed && !e.b.log.failed && !e.refusedA && !e.refusedB
    requires OfferTaken(e.a.log.outbox, e.toB)
    requires NoAnswer(e.b.log.outbox) || AnswerTaken(e.b.log.outbox, e.toA)
    ensures Agreed(e.a, e.b)
  {
    assert Sent(e.b, AnswerKind);
    assert SignalOf(e.b.pc.remote.value) in e.a.log.outbox;
    assert e.a.remoteSet;
    assert SignalOf(e.a.pc.remote.value) in e.b.log.outbox;
  }

  /** And only then: a quiet pair without faults agrees exactly when its offer, number
      `n`, and every answer have been taken. */
  lemma QuietPairAgreesExactly(e: Ends, n: nat)
    requires PairInv(e) && Idle(e.a) && Idle(e.b)
    requires !e.a.log.failed && !e.b.log.failed && !e.refusedA && !e.refusedB
    requires n < |e.a.log.outbox| && e.a.log.outbox[n].Offer?
    ensures Agreed(e.a, e.b) <==>
      n in e.toB && forall m :: 0 <= m < |e.b.log.outbox| && e.b.log.outbox[m].Answer? ==> m in e.toA
  {
    if n in e.toB && forall m :: 0 <= m < |e.b.log.outbox| && e.b.log.outbox[m].Answer? ==> m in e.toA {
      assert NoAnswer(e.b.log.outbox) || AnswerTaken(e.b.log.outbox, e.toA);
      QuietPairAgrees(e);
    }
  }

  /** The offer the two have agreed on is the one that was sent. */
  lemma AgreedOnTheOffer(e: Ends, n: nat)
    requires PairInv(e) && Agreed(e.a, e.b)
    requires n < |e.a.log.outbox| && e.a.log.outbox[n].Offer?
    ensures e.b.pc.remote == Some(Description(OfferKind, e.a.log.outbox[n].sdp))
  {
  }

  /** An offer that has not been taken leaves the answering end untouched. */
  lemma UntakenOfferLeavesDark(e: Ends)
    requires PairInv(e) && !OfferTaken(e.a.log.outbox, e.toB)
    ensures Untouched(e.b) && NoAnswer(e.b.log.outbox) && e.a.pc.remote.None?
  {
  }

  /** An answer that was sent and has not been taken leaves the offering end waiting. */
  lemma UntakenAnswerLeavesWaiting(e: Ends, n: nat)
    requires PairInv(e) && n < |e.b.log.outbox| && e.b.log.outbox[n].Answer? && n !in e.toA
    ensures e.a.pc.reached == HaveLocalOffer && e.a.pc.remote.None?
  {
    AnswerMeansOffered(e, n);
    assert !AnswerTaken(e.b.log.outbox, e.toA);
  }

  // ---- Agreement can be reached ------------------------------------------------------------

  lemma GoesOn(run: seq<Ends>, steps: seq<PairAction>, x: PairAction)
    returns (run': seq<Ends>, steps': seq<PairAction>)
    requires IsPairRun(run, steps) && Possible(run[|steps|], x)
    ensures run' == run + [Next(run[|steps|], x)] && steps' == steps + [x]
    ensures IsPairRun(run', steps')
  {
    run', steps' := run + [Next(run[|steps|], x)], steps + [x];
  }

  /** The offering end while it waits for the answer. */
  predicate Waiting(a: Peer, sdp: string) {
    && a.tasks == [Finished] && a.pending == [] && !a.log.failed && a.log.outbox == [Offer(sdp)]
    && a.pc.State() == HaveLocalOffer
  }

  lemma OfferIsMade(sdp: string) returns (run: seq<Ends>, steps: seq<PairAction>)
    ensures IsPairRun(run, steps)
    ensures run[|steps|] == Start.(a := run[|steps|].a) && Waiting(run[|steps|].a, sdp)
  {
    run, steps := [Start], [];
    run, steps := GoesOn(run, steps, AtA(Notice));
    run, steps := GoesOn(run, steps, AtA(Step(0, Rejected)));
    run, steps := GoesOn(run, steps, AtA(Step(0, Resolved(sdp))));
    run, steps := GoesOn(run, steps, AtA(Step(0, Resolved(sdp))));
    run, steps := GoesOn(run, steps, AtA(Step(0, Resolved(sdp))));
  }

  predicate Between(e: Ends, sdp: string, t: Task, at: Signaling, sent: seq<Signal>, toA: set<nat>) {
    && e == Ends(e.a, e.b, {0}, toA, false, false) && Waiting(e.a, sdp)
    && e.b.tasks == [t] && e.b.pending == [] && e.b.log.outbox == sent && !e.b.log.failed && e.b.pc.State() == at
  }

  lemma OfferIsTaken(sdp: string) returns (run: seq<Ends>, steps: seq<PairAction>)
    ensures IsPairRun(run, steps) && Between(run[|steps|], sdp, AnswerCreating, HaveRemoteOffer, [], {})
  {
    run, steps := OfferIsMade(sdp);
    run, steps := GoesOn(run, steps, TakeAtB(0, true));
    run, steps := GoesOn(run, steps, AtB(Step(0, Resolved(""))));
    run, steps := GoesOn(run, steps, AtB(Step(0, Resolved(""))));
    run, steps := GoesOn(run, steps, AtB(Step(0, Resolved(""))));
  }

  lemma OfferIsAnswered(sdp: string, answer: string) returns (run: seq<Ends>, steps: seq<PairAction>)
    ensures IsPairRun(run, steps) && Between(run[|steps|], sdp, AnswerReady(answer), Stable, [], {})
  {
    run, steps := OfferIsTaken(sdp);
    run, steps := GoesOn(run, steps, AtB(Step(0, Resolved(answer))));
    run, steps := GoesOn(run, steps, AtB(Step(0, Resolved(""))));
  }

  lemma AnswerIsSent(sdp: string, answer: string) returns (run: seq<Ends>, steps: seq<PairAction>)
    ensures IsPairRun(run, steps) && Between(run[|steps|], sdp, Finished, Stable, [Answer(answer)], {})
  {
    run, steps := OfferIsAnswered(sdp, answer);
    run, steps := GoesOn(run, steps, AtB(Step(0, Resolved(""))));
    run, steps := GoesOn(run, steps, AtB(Step(0, Resolved(""))));
  }

  predicate Answered(e: Ends, sdp: string, answer: string, t: Task) {
    && e == Ends(e.a, e.b, {0}, {0}, false, false)
    && e.a.tasks == [Finished, t] && e.a.pending == [] && e.a.log.outbox == [Offer(sdp)] && !e.a.log.failed
    && e.b.tasks == [Finished] && e.b.log.outbox == [Answer(answer)] && !e.b.log.failed
  }

  lemma AnswerArrives(sdp: string, answer: string) returns (run: seq<Ends>, steps: seq<PairAction>)
    ensures IsPairRun(run, steps) && run[|steps|].a.pc.State() == HaveLocalOffer
    ensures Answered(run[|steps|], sdp, answer, ReplySetting(answer))
  {
    run, steps := AnswerIsSent(sdp, answer);
    run, steps := GoesOn(run, steps, TakeAtA(0, true));
    run, steps := GoesOn(run, steps, AtA(Step(1, Resolved(""))));
  }

  lemma AnswerIsTaken(sdp: string, answer: string) returns (run: seq<Ends>, steps: seq<PairAction>)
    ensures IsPairRun(run, steps) && Answered(run[|steps|], sdp, answer, Finished)
  {
    run, steps := AnswerArrives(sdp, answer);
    run, steps := GoesOn(run, steps, AtA(Step(1, Resolved(""))));
    run, steps := GoesOn(run, steps, AtA(Step(1, Resolved(""))));
  }

  /** A run that ends in agreement: what quiet pairs are promised does come about. */
  lemma AgreementIsReached(sdp: string, answer: string) returns (run: seq<Ends>, steps: seq<PairAction>)
    ensures IsPairRun(run, steps)
    ensures var e := run[|steps|];
      && Agreed(e.a, e.b) && Idle(e.a) && Idle(e.b)
      && e.b.pc.remote == Some(Description(OfferKind, sdp)) && e.a.pc.remote == Some(Description(AnswerKind, answer))
  {
    run, steps := AnswerIsTaken(sdp, answer);
    var e := run[|steps|];
    PairRunKeepsInv(run, steps, |steps|);
    assert e.a.log.outbox[0].Offer? && e.b.log.outbox[0].Answer?;
    QuietPairAgrees(e);
    AgreedOnTheOffer(e, 0);
  }
}
