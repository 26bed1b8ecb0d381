/** One entry of the mesh: a peer connection, its flags, its candidate queue and the
    tasks working on it. Everything here is a value; class `PeerHandle` in module Meshes
    is proved against it. */
module Connection {
  import opened Types

  // ---- The browser's connection -------------------------------------------------

  /** The states of section 3.2 of RFC 8829 that are reachable without provisional
      answers, and the closed state. */
  datatype Signaling = Stable | HaveLocalOffer | HaveRemoteOffer | Closed

  datatype Side = Local | Remote
  datatype Kind = OfferKind | AnswerKind
  datatype Description = Description(kind: Kind, sdp: string)

  /** When a description of this kind may be applied on this side. */
  predicate Allowed(side: Side, kind: Kind, at: Signaling) {
    match (side, kind)
    case (Local, OfferKind) => at == Stable || at == HaveLocalOffer
    case (Remote, OfferKind) => at == Stable || at == HaveRemoteOffer
    case (Local, AnswerKind) => at == HaveRemoteOffer
    case (Remote, AnswerKind) => at == HaveLocalOffer
  }

  function After(side: Side, kind: Kind): Signaling {
    match (side, kind)
    case (Local, OfferKind) => HaveLocalOffer
    case (Remote, OfferKind) => HaveRemoteOffer
    case (_, AnswerKind) => Stable
  }

  /** A call made on the connection, with the signaling state it was made in. */
  datatype Call =
    | Describe(side: Side, description: Description, at: Signaling)
    | AddCandidate(candidate: Candidate)

  // ---- Tasks --------------------------------------------------------------------

  /** Where a spawned task stands. `...Start` has not been polled yet, `...Setting`
      awaits a description call, `AnswerDraining` and `Draining` are at the head of
      the candidate loop (with the previous add, if any, awaited there). */
  datatype Task =
    | OfferStart | OfferCreating | OfferSetting(sdp: string) | OfferSet(sdp: string)
    | AnswerStart(sdp: string) | AnswerSetting(sdp: string) | AnswerDraining | AnswerCreating
    | AnswerSettingLocal(sdp: string) | AnswerReady(sdp: string)
    | ReplyStart(sdp: string) | ReplySetting(sdp: string)
    | DrainStart | Draining
    | Finished
  {
    predicate Offering() { OfferStart? || OfferCreating? || OfferSetting? || OfferSet? }

    predicate Answering() {
      AnswerStart? || AnswerSetting? || AnswerDraining? || AnswerCreating? || AnswerSettingLocal? || AnswerReady?
    }

    predicate Replying() { ReplyStart? || ReplySetting? }

    /** A task that still has a description to apply or to send. */
    predicate Negotiating() { Offering() || Answering() || Replying() }

    /** A task that awaits a promise whose failure it notices. */
    predicate Awaits() {
      OfferCreating? || OfferSetting? || AnswerSetting? || AnswerCreating? || AnswerSettingLocal? || ReplySetting?
    }

    predicate Unpolled() { OfferStart? || AnswerStart? || ReplyStart? || DrainStart? }

    /** A task that will pop the candidate queue until it is empty. */
    predicate WillDrain() {
      AnswerStart? || AnswerSetting? || AnswerDraining? || Replying() || DrainStart? || Draining?
    }
  }

  /** How the awaited promise settled. */
  datatype Outcome = Resolved(text: string) | Rejected

  // ---- The handle ---------------------------------------------------------------

  /** The browser's side of the connection; `isNew` says that its connection state is
      `new`. What negotiation had reached when the connection was closed is history. */
  datatype Pc = Pc(
    reached: Signaling,
    open: bool,
    isNew: bool,
    local: Option<Description>,
    remote: Option<Description>)
  {
    function State(): Signaling { if open then reached else Closed }
  }

  /** History only: all calls made on the connection, candidates received and
      discarded, signals posted, and whether an operation failed. */
  datatype History = History(
    calls: seq<Call>,
    received: seq<Candidate>,
    discarded: seq<Candidate>,
    outbox: seq<Signal>,
    failed: bool,
    offerRejected: bool)

  /** `lead` is the index of the description task spawned last. */
  datatype Peer = Peer(
    negotiated: bool,
    remoteSet: bool,
    pending: seq<Candidate>,
    pc: Pc,
    tasks: seq<Task>,
    lead: nat,
    log: History)

  const FreshPeer: Peer :=
    Peer(false, false, [], Pc(Stable, true, true, None, None), [], 0, History([], [], [], [], false, false))

  /** The description task spawned last. */
  function Lead(p: Peer): Task {
    if p.lead < |p.tasks| then p.tasks[p.lead] else Finished
  }

  function SpawnLead(p: Peer, t: Task): Peer {
    p.(tasks := p.tasks + [t], lead := |p.tasks|)
  }

  // ---- Events -------------------------------------------------------------------

  function MaybeOffer(initiate: bool, p: Peer): Peer {
    if !initiate || p.negotiated || p.pc.State() != Stable || !p.pc.isNew then p
    else SpawnLead(p.(negotiated := true), OfferStart)
  }

  function ApplyOffer(initiate: bool, p: Peer, sdp: string): Peer {
    if initiate && p.negotiated then p
    else if p.remoteSet || p.pc.State() != Stable then p
    else SpawnLead(p.(remoteSet := true), AnswerStart(sdp))
  }

  function ApplyAnswer(p: Peer, sdp: string): Peer {
    if p.pc.State() != HaveLocalOffer then p
    else SpawnLead(p.(remoteSet := true), ReplyStart(sdp))
  }

  /** The candidate is queued; a drain is started if there is something to attach it to. */
  function Queued(p: Peer, c: Candidate): Peer {
    var q := p.(pending := p.pending + [c], log := p.log.(received := p.log.received + [c]));
    if q.remoteSet then q.(tasks := q.tasks + [DrainStart]) else q
  }

  function OnIce(initiate: bool, p: Peer, c: Candidate): Peer {
    Queued(MaybeOffer(initiate, p), c)
  }

  function Receive(initiate: bool, p: Peer, s: Signal): Peer {
    match s
    case Offer(sdp) => ApplyOffer(initiate, p, sdp)
    case Answer(sdp) => ApplyAnswer(p, sdp)
    case IceCandidate(c) => OnIce(initiate, p, c)
  }

  /** Closing ends the connection and clears the queue; the tasks keep their share of both. */
  function Close(p: Peer): Peer {
    p.(pc := p.pc.(open := false, isNew := false),
       pending := [],
       log := p.log.(discarded := p.log.discarded + p.pending))
  }

  // ---- One poll of a task, or the settling of its description call ----------------

  /** What a poll does besides moving the task on. */
  datatype Deed =
    | Nothing
    | Issue(side: Side, description: Description)
    | Apply(side: Side, description: Description)
    | Post(signal: Signal)
    | AddNext
    | Fail(offerRejected: bool)

  datatype Poll = Poll(next: Task, deed: Deed)

  /** The browser applies the description, or refuses it in a state that forbids it. */
  function Settle(side: Side, d: Description, at: Signaling, o: Outcome, next: Task, failed: Poll): Poll {
    if o.Resolved? && Allowed(side, d.kind, at) then Poll(next, Apply(side, d)) else failed
  }

  /** The head of the candidate loop: add the oldest candidate and come back to
      `loop`, or go on to `exit` when the queue has run dry. */
  function Drain(empty: bool, loop: Task, exit: Task): Poll {
    if empty then Poll(exit, Nothing) else Poll(loop, AddNext)
  }

  /** One poll of a task, given the signaling state, whether the queue is empty and
      how the promise it awaits settled. */
  function PollTask(t: Task, at: Signaling, empty: bool, o: Outcome): (r: Poll)
    ensures r.deed.AddNext? ==> !empty
    ensures r.deed.Apply? ==> Allowed(r.deed.side, r.deed.description.kind, at)
  {
    match t
    case OfferStart => Poll(OfferCreating, Nothing)
    case OfferCreating =>
      if o.Rejected? then Poll(Finished, Fail(false))
      else Poll(OfferSetting(o.text), Issue(Local, Description(OfferKind, o.text)))
    case OfferSetting(sdp) =>
      Settle(Local, Description(OfferKind, sdp), at, o, OfferSet(sdp), Poll(Finished, Fail(false)))
    case OfferSet(sdp) => Poll(Finished, Post(Offer(sdp)))
    case AnswerStart(sdp) => Poll(AnswerSetting(sdp), Issue(Remote, Description(OfferKind, sdp)))
    case AnswerSetting(sdp) =>
      Settle(Remote, Description(OfferKind, sdp), at, o, AnswerDraining, Poll(Finished, Fail(true)))
    case AnswerDraining => Drain(empty, AnswerDraining, AnswerCreating)
    case AnswerCreating =>
      if o.Rejected? then Poll(Finished, Fail(false))
      else Poll(AnswerSettingLocal(o.text), Issue(Local, Description(AnswerKind, o.text)))
    case AnswerSettingLocal(sdp) =>
      Settle(Local, Description(AnswerKind, sdp), at, o, AnswerReady(sdp), Poll(Finished, Fail(false)))
    case AnswerReady(sdp) => Poll(Draining, Post(Answer(sdp)))
    case ReplyStart(sdp) => Poll(ReplySetting(sdp), Issue(Remote, Description(AnswerKind, sdp)))
    case ReplySetting(sdp) =>
      Settle(Remote, Description(AnswerKind, sdp), at, o, Draining, Poll(Draining, Fail(false)))
    case DrainStart => Drain(empty, Draining, Finished)
    case Draining => Drain(empty, Draining, Finished)
    case Finished => Poll(Finished, Nothing)
  }

  /** A task at the candidate loop adds the oldest candidate if there is one, and leaves
      the loop if there is none. */
  lemma DrainAddsOrEnds(t: Task, at: Signaling, empty: bool, o: Outcome)
    requires t.DrainStart? || t.Draining? || t.AnswerDraining?
    ensures var r := PollTask(t, at, empty, o);
      if empty then r.deed == Nothing && !r.next.WillDrain() else r.deed == AddNext && r.next.WillDrain()
  {
  }

  /** A task whose awaited promise is rejected makes no further call and posts nothing:
      it ends there, or goes on only to add the candidates that wait. */
  lemma RejectionEndsTask(t: Task, at: Signaling, empty: bool)
    requires t.Awaits()
    ensures var r := PollTask(t, at, empty, Rejected);
      r.deed.Fail? && r.next == if t.ReplySetting? then Draining else Finished
  {
  }

  /** A text is posted only after the browser has made and applied it as a description. */
  lemma PostedIsApplied(t: Task, at: Signaling, empty: bool, o: Outcome, sdp: string)
    ensures var r := PollTask(t, at, empty, o);
      && (r.next == OfferSet(sdp) <==> t == OfferSetting(sdp) && r.deed == Apply(Local, Description(OfferKind, sdp)))
      && (r.next == AnswerReady(sdp) <==>
            t == AnswerSettingLocal(sdp) && r.deed == Apply(Local, Description(AnswerKind, sdp)))
      && (r.deed == Post(Offer(sdp)) <==> t == OfferSet(sdp))
      && (r.deed == Post(Answer(sdp)) <==> t == AnswerReady(sdp))
      && (r.next == OfferSetting(sdp) <==> t.OfferCreating? && o == Resolved(sdp))
      && (r.next == AnswerSettingLocal(sdp) <==> t.AnswerCreating? && o == Resolved(sdp))
  {
  }

  function Do(p: Peer, deed: Deed): Peer
    requires deed.AddNext? ==> p.pending != []
  {
    match deed
    case Nothing => p
    case Issue(side, d) => p.(log := p.log.(calls := p.log.calls + [Describe(side, d, p.pc.State())]))
    case Apply(Local, d) => p.(pc := p.pc.(reached := After(Local, d.kind), local := Some(d)))
    case Apply(Remote, d) => p.(pc := p.pc.(reached := After(Remote, d.kind), remote := Some(d)))
    case Post(s) => p.(log := p.log.(outbox := p.log.outbox + [s]))
    case AddNext => p.(pending := p.pending[1..], log := p.log.(calls := p.log.calls + [AddCandidate(p.pending[0])]))
    case Fail(rejected) => p.(log := p.log.(failed := true, offerRejected := p.log.offerRejected || rejected))
  }

  function PollOf(p: Peer, i: nat, o: Outcome): Poll
    requires i < |p.tasks|
  {
    PollTask(p.tasks[i], p.pc.State(), p.pending == [], o)
  }

  function Run(p: Peer, i: nat, o: Outcome): Peer
    requires i < |p.tasks|
  {
    var r := PollOf(p, i, o);
    Do(p, r.deed).(tasks := p.tasks[i := r.next])
  }

  /** Closing is seen by everyone who shares the connection; what was agreed stays on record. */
  lemma ClosedIsSeen(p: Peer)
    ensures var q := Close(p);
      && q.pc.State() == Closed && !q.pc.isNew && q.pc.local == p.pc.local && q.pc.remote == p.pc.remote
      && q.pending == [] && q.log.discarded == p.log.discarded + p.pending && q.tasks == p.tasks
  {
  }

  /** A closed connection takes nothing up, however its promises settle. */
  lemma NothingIsAppliedOnceClosed(p: Peer, i: nat, o: Outcome)
    requires i < |p.tasks| && !p.pc.open
    ensures Run(p, i, o).pc == p.pc
  {
  }

  // ---- Everything that can happen to one handle -----------------------------------

  /** `Notice` is a presence event naming the peer, `Gather` a candidate found by
      this connection and posted, `ConnectionState` a browser state change. */
  datatype Action =
    | Notice
    | Got(signal: Signal)
    | Step(task: nat, outcome: Outcome)
    | Gather(candidate: Candidate)
    | ConnectionState(isNew: bool)
    | Shut

  predicate Enabled(p: Peer, a: Action) {
    match a
    case Step(i, _) => i < |p.tasks|
    case _ => p.pc.open
  }

  function Act(initiate: bool, p: Peer, a: Action): Peer
    requires Enabled(p, a)
  {
    match a
    case Notice => MaybeOffer(initiate, p)
    case Got(s) => Receive(initiate, p, s)
    case Step(i, o) => Run(p, i, o)
    case Gather(c) => p.(log := p.log.(outbox := p.log.outbox + [IceCandidate(c)]))
    case ConnectionState(n) => p.(pc := p.pc.(isNew := n))
    case Shut => Close(p)
  }

  /** The states one handle can reach, whoever sends whatever to it. */
  ghost predicate IsRun(initiate: bool, run: seq<Peer>, actions: seq<Action>) {
    && |run| == |actions| + 1
    && run[0] == FreshPeer
    && forall k :: 0 <= k < |actions| ==>
         Enabled(run[k], actions[k]) && run[k + 1] == Act(initiate, run[k], actions[k])
  }

  // ---- Signals out of turn ----------------------------------------------------------------

  /** A connection that offers ignores offers, one that has taken up an offer ignores
      further ones, and an answer is ignored unless an offer is outstanding. */
  lemma OutOfTurnIsIgnored(initiate: bool, p: Peer, s: Signal)
    requires
      || (s.Offer? && ((initiate && p.negotiated) || p.remoteSet || p.pc.State() != Stable))
      || (s.Answer? && p.pc.State() != HaveLocalOffer)
    ensures Receive(initiate, p, s) == p
  {
  }

  /** In its turn a signal is taken up, by one new task. */
  lemma InTurnIsTakenUp(initiate: bool, p: Peer, s: Signal)
    requires
      || (s.Offer? && !(initiate && p.negotiated) && !p.remoteSet && p.pc.State() == Stable)
      || (s.Answer? && p.pc.State() == HaveLocalOffer)
    ensures var q := Receive(initiate, p, s);
      && q.remoteSet && |q.tasks| == |p.tasks| + 1 && q.tasks[..|p.tasks|] == p.tasks
      && Lead(q) == if s.Offer? then AnswerStart(s.sdp) else ReplyStart(s.sdp)
  {
  }

  /** No offer is made by the side that does not own it, a second time, or on a
      connection already under way. */
  lemma OffersOnlyWhenFresh(initiate: bool, p: Peer)
    ensures var q := MaybeOffer(initiate, p);
      if initiate && !p.negotiated && p.pc.State() == Stable && p.pc.isNew
      then q.negotiated && Lead(q) == OfferStart && |q.tasks| == |p.tasks| + 1
      else q == p
  {
  }

  /** Once the browser has reported a connection under way, no offer is made on it while
      that is so. */
  lemma UnderWayMakesNoOffer(initiate: bool, p: Peer)
    requires p.pc.open
    ensures var q := Act(initiate, p, ConnectionState(false));
      MaybeOffer(initiate, q) == q && q == p.(pc := p.pc.(isNew := false))
    ensures Act(initiate, p, ConnectionState(true)) == p.(pc := p.pc.(isNew := true))
  {
  }

  predicate TakesOffer(c: Call) { c.Describe? && c.side == Remote && c.description.kind == OfferKind }

  predicate AtMostOneStart(tasks: seq<Task>) {
    forall i, j :: 0 <= i < |tasks| && 0 <= j < |tasks| && tasks[i].AnswerStart? && tasks[j].AnswerStart? ==> i == j
  }

  predicate AtMostOneTaken(calls: seq<Call>) {
    forall k, l :: 0 <= k < |calls| && 0 <= l < |calls| && TakesOffer(calls[k]) && TakesOffer(calls[l]) ==> k == l
  }

  predicate NoStart(tasks: seq<Task>) { forall i :: 0 <= i < |tasks| ==> !tasks[i].AnswerStart? }

  predicate NoneTaken(calls: seq<Call>) { forall k :: 0 <= k < |calls| ==> !TakesOffer(calls[k]) }

  /** At most one offer has been handed to the browser, or is about to be. */
  ghost predicate OneTaken(p: Peer) {
    && (p.remoteSet || (NoStart(p.tasks) && NoneTaken(p.log.calls)))
    && AtMostOneStart(p.tasks) && AtMostOneTaken(p.log.calls)
    && (NoStart(p.tasks) || NoneTaken(p.log.calls))
  }

  lemma PollTakesOffer(t: Task, at: Signaling, empty: bool, o: Outcome)
    ensures var r := PollTask(t, at, empty, o);
      && !r.next.AnswerStart?
      && (r.deed.Issue? && r.deed.side == Remote && r.deed.description.kind == OfferKind ==> t.AnswerStart?)
  {
  }

  lemma PollKeepsOneTaken(p: Peer, i: nat, o: Outcome)
    requires i < |p.tasks| && OneTaken(p)
    ensures OneTaken(Run(p, i, o))
  {
    PollTakesOffer(p.tasks[i], p.pc.State(), p.pending == [], o);
    DeedKeepsOneTaken(p, i, PollOf(p, i, o));
  }

  lemma DeedKeepsOneTaken(p: Peer, i: nat, r: Poll)
    requires i < |p.tasks| && OneTaken(p) && !r.next.AnswerStart?
    requires r.deed.AddNext? ==> p.pending != []
    requires r.deed.Issue? && r.deed.side == Remote && r.deed.description.kind == OfferKind ==> p.tasks[i].AnswerStart?
    ensures OneTaken(Do(p, r.deed).(tasks := p.tasks[i := r.next]))
  {
  }

  /** A new task starts an answer only for a connection that has taken no offer yet. */
  lemma SpawnKeepsOneTaken(p: Peer, q: Peer, t: Task)
    requires OneTaken(p) && q.tasks == p.tasks + [t] && q.log.calls == p.log.calls
    requires (p.remoteSet ==> q.remoteSet) && (t.AnswerStart? ==> !p.remoteSet && q.remoteSet)
    ensures OneTaken(q)
  {
    assert NoStart(p.tasks) && !t.AnswerStart? ==> NoStart(q.tasks);
  }

  lemma EventKeepsOneTaken(initiate: bool, p: Peer, a: Action)
    requires Enabled(p, a) && !a.Step? && OneTaken(p)
    ensures OneTaken(Act(initiate, p, a))
  {
    var q, m := Act(initiate, p, a), MaybeOffer(initiate, p);
    if m != p { SpawnKeepsOneTaken(p, m, OfferStart); }
    match a {
      case Got(Offer(sdp)) => if q != p { SpawnKeepsOneTaken(p, q, AnswerStart(sdp)); }
      case Got(Answer(sdp)) => if q != p { SpawnKeepsOneTaken(p, q, ReplyStart(sdp)); }
      case Got(IceCandidate(_)) => if q.remoteSet { SpawnKeepsOneTaken(m, q, DrainStart); }
      case _ =>
    }
  }

  /** Whatever signals a connection is sent, in whatever order, at most one offer is ever
      handed to the browser. */
  lemma {:induction false} OneOfferIsTakenUp(initiate: bool, run: seq<Peer>, actions: seq<Action>, k: nat)
    requires IsRun(initiate, run, actions) && k < |run|
    ensures OneTaken(run[k])
  {
    if k > 0 {
      OneOfferIsTakenUp(initiate, run, actions, k - 1);
      var a := actions[k - 1];
      if a.Step? { PollKeepsOneTaken(run[k - 1], a.task, a.outcome); }
      else { EventKeepsOneTaken(initiate, run[k - 1], a); }
    }
  }

  // ---- Candidates out and in ------------------------------------------------------------

  /** The candidates among the signals sent, in order. */
  function CandidatesOf(sent: seq<Signal>): seq<Candidate> {
    if sent == [] then []
    else
      var s := sent[|sent| - 1];
      CandidatesOf(sent[..|sent| - 1]) + if s.IceCandidate? then [s.candidate] else []
  }

  /** The candidates that the connection found, in order. */
  function Gathered(actions: seq<Action>): seq<Candidate> {
    if actions == [] then []
    else
      var a := actions[|actions| - 1];
      Gathered(actions[..|actions| - 1]) + if a.Gather? then [a.candidate] else []
  }

  /** The candidates that were handed to the connection, in order. */
  function Handed(actions: seq<Action>): seq<Candidate> {
    if actions == [] then []
    else
      var a := actions[|actions| - 1];
      Handed(actions[..|actions| - 1]) + if a.Got? && a.signal.IceCandidate? then [a.signal.candidate] else []
  }

  lemma CandidatesOfSnoc(sent: seq<Signal>, s: Signal)
    ensures CandidatesOf(sent + [s]) == CandidatesOf(sent) + if s.IceCandidate? then [s.candidate] else []
  {
    assert (sent + [s])[..|sent|] == sent;
  }

  /** Polls post descriptions only. */
  lemma PollPostsNoCandidate(t: Task, at: Signaling, empty: bool, o: Outcome)
    ensures var r := PollTask(t, at, empty, o); r.deed.Post? ==> !r.deed.signal.IceCandidate?
  {
  }

  lemma DeedCandidates(p: Peer, deed: Deed)
    requires deed.AddNext? ==> p.pending != []
    requires deed.Post? ==> !deed.signal.IceCandidate?
    ensures CandidatesOf(Do(p, deed).log.outbox) == CandidatesOf(p.log.outbox)
    ensures Do(p, deed).log.received == p.log.received
  {
    if deed.Post? { CandidatesOfSnoc(p.log.outbox, deed.signal); }
  }

  lemma ActionsCandidates(initiate: bool, p: Peer, a: Action)
    requires Enabled(p, a)
    ensures CandidatesOf(Act(initiate, p, a).log.outbox) ==
            CandidatesOf(p.log.outbox) + if a.Gather? then [a.candidate] else []
    ensures Act(initiate, p, a).log.received ==
            p.log.received + if a.Got? && a.signal.IceCandidate? then [a.signal.candidate] else []
  {
    match a {
      case Step(i, o) =>
        PollPostsNoCandidate(p.tasks[i], p.pc.State(), p.pending == [], o);
        DeedCandidates(p, PollOf(p, i, o).deed);
      case Gather(c) => CandidatesOfSnoc(p.log.outbox, IceCandidate(c));
      case _ => assert Act(initiate, p, a).log.outbox == p.log.outbox;
    }
  }

  /** Every candidate found is posted, and every candidate handed over is taken in, each
      once and in order. */
  lemma {:induction false} CandidatesGoOutAndIn(initiate: bool, run: seq<Peer>, actions: seq<Action>, k: nat)
    requires IsRun(initiate, run, actions) && k < |run|
    ensures CandidatesOf(run[k].log.outbox) == Gathered(actions[..k])
    ensures run[k].log.received == Handed(actions[..k])
  {
    if k > 0 {
      CandidatesGoOutAndIn(initiate, run, actions, k - 1);
      ActionsCandidates(initiate, run[k - 1], actions[k - 1]);
      assert actions[..k][..k - 1] == actions[..k - 1];
    }
  }

  // ---- Candidates are conserved -----------------------------------------------------

  /** The candidates handed to the browser, in call order. */
  function Added(calls: seq<Call>): seq<Candidate> {
    if calls == [] then []
    else
      var c := calls[|calls| - 1];
      Added(calls[..|calls| - 1]) + if c.AddCandidate? then [c.candidate] else []
  }

  ghost predicate Conserved(p: Peer) {
    && p.log.received == Added(p.log.calls) + p.pending + p.log.discarded
    && (!p.pc.open ==> p.pending == [])
    && (p.pc.open ==> p.log.discarded == [])
  }

  lemma AddedSnoc(calls: seq<Call>, c: Call)
    ensures c.Describe? ==> Added(calls + [c]) == Added(calls)
    ensures c.AddCandidate? ==> Added(calls + [c]) == Added(calls) + [c.candidate]
  {
    assert (calls + [c])[..|calls|] == calls;
  }

  lemma QueuedConserves(p: Peer, c: Candidate)
    requires Conserved(p) && p.pc.open
    ensures Conserved(Queued(p, c))
  {
    var q := Queued(p, c);
    assert q.log.received == Added(q.log.calls) + q.pending + [];
  }

  lemma EventConserves(initiate: bool, p: Peer, a: Action)
    requires Enabled(p, a) && Conserved(p) && !a.Step?
    ensures Conserved(Act(initiate, p, a))
  {
    match a {
      case Got(IceCandidate(c)) => QueuedConserves(MaybeOffer(initiate, p), c);
      case _ =>
    }
  }

  lemma DeedConserves(p: Peer, deed: Deed)
    requires Conserved(p)
    requires deed.AddNext? ==> p.pending != []
    requires deed.Apply? ==> p.pc.open
    ensures Conserved(Do(p, deed))
  {
    match deed {
      case Issue(side, d) => AddedSnoc(p.log.calls, Describe(side, d, p.pc.State()));
      case AddNext =>
        AddedSnoc(p.log.calls, AddCandidate(p.pending[0]));
        MoveHead(Added(p.log.calls), p.pending, p.log.discarded);
      case _ =>
        assert Do(p, deed).log.calls == p.log.calls;
    }
  }

  lemma MoveHead<T>(a: seq<T>, b: seq<T>, c: seq<T>)
    requires b != []
    ensures a + b + c == (a + [b[0]]) + b[1..] + c
  {
    assert b == [b[0]] + b[1..];
  }

  lemma {:induction false} ConservedOverRun(initiate: bool, run: seq<Peer>, actions: seq<Action>, k: nat)
    requires IsRun(initiate, run, actions) && k < |run|
    ensures Conserved(run[k])
  {
    if k > 0 {
      ConservedOverRun(initiate, run, actions, k - 1);
      if actions[k - 1].Step? {
        var r := PollOf(run[k - 1], actions[k - 1].task, actions[k - 1].outcome);
        DeedConserves(run[k - 1], r.deed);
      } else {
        EventConserves(initiate, run[k - 1], actions[k - 1]);
      }
    }
  }

  /** However many drains run at once and however they interleave, the candidates
      handed to the connection are those added, in arrival order and each once, then
      those still queued; only closing the connection discards any. */
  lemma CandidatesAreConserved(initiate: bool, run: seq<Peer>, actions: seq<Action>, k: nat)
    requires IsRun(initiate, run, actions) && k < |run|
    ensures run[k].pc.open ==> Handed(actions[..k]) == Added(run[k].log.calls) + run[k].pending
    ensures Handed(actions[..k]) == Added(run[k].log.calls) + run[k].pending + run[k].log.discarded
  {
    CandidatesGoOutAndIn(initiate, run, actions, k);
    ConservedOverRun(initiate, run, actions, k);
  }

  // ---- Candidates follow the remote description -----------------------------------

  /** Tasks are first polled in the order they were spawned. */
  predicate InSpawnOrder(p: Peer, a: Action)
    requires Enabled(p, a)
  {
    a.Step? && p.tasks[a.task].Unpolled() ==> forall j :: 0 <= j < a.task ==> !p.tasks[j].Unpolled()
  }

  predicate RemoteCall(c: Call) { c.Describe? && c.side == Remote }

  ghost predicate RemoteCalled(calls: seq<Call>) {
    exists j :: 0 <= j < |calls| && RemoteCall(calls[j])
  }

  /** Before every add-candidate call there is a set-remote-description call. */
  ghost predicate RemoteFirst(calls: seq<Call>) {
    forall i :: 0 <= i < |calls| && calls[i].AddCandidate? ==> RemoteCalled(calls[..i])
  }

  predicate WillCallRemote(t: Task) { t.AnswerStart? || t.ReplyStart? }

  ghost predicate AwaitsRemoteCall(p: Peer) {
    && (forall i :: 0 <= i < |p.log.calls| ==> !p.log.calls[i].AddCandidate?)
    && (forall i :: 0 <= i < |p.tasks| ==>
          p.tasks[i].Offering() || WillCallRemote(p.tasks[i]) || p.tasks[i].DrainStart? || p.tasks[i].Finished?)
    && (p.remoteSet ==> exists j :: 0 <= j < |p.tasks| && WillCallRemote(p.tasks[j]))
    && (forall i :: 0 <= i < |p.tasks| && p.tasks[i].DrainStart? ==>
          exists j :: 0 <= j < i && WillCallRemote(p.tasks[j]))
  }

  ghost predicate Ordered(p: Peer) {
    RemoteFirst(p.log.calls) && (RemoteCalled(p.log.calls) || AwaitsRemoteCall(p))
  }

  lemma RemoteFirstSnoc(calls: seq<Call>, c: Call)
    requires RemoteFirst(calls) && (c.AddCandidate? ==> RemoteCalled(calls))
    ensures RemoteFirst(calls + [c])
    ensures RemoteCalled(calls) || RemoteCall(c) ==> RemoteCalled(calls + [c])
  {
    var calls' := calls + [c];
    assert RemoteCall(c) ==> RemoteCall(calls'[|calls|]);
    if RemoteCalled(calls) {
      var j :| 0 <= j < |calls| && RemoteCall(calls[j]);
      assert RemoteCall(calls'[j]);
    }
    forall i | 0 <= i < |calls'| && calls'[i].AddCandidate? ensures RemoteCalled(calls'[..i]) {
      assert calls'[..i] == calls[..i];
      if i == |calls| { assert calls[..i] == calls; }
    }
  }

  lemma SpawnKeepsAwaiting(p: Peer, q: Peer, t: Task)
    requires AwaitsRemoteCall(p)
    requires q.log.calls == p.log.calls && q.tasks == p.tasks + [t]
    requires
      || (t.OfferStart? && q.remoteSet == p.remoteSet) || WillCallRemote(t)
      || (t.DrainStart? && p.remoteSet && q.remoteSet)
    ensures AwaitsRemoteCall(q)
  {
    var n := |p.tasks|;
    if WillCallRemote(t) { assert WillCallRemote(q.tasks[n]); }
    if p.remoteSet {
      var j :| 0 <= j < n && WillCallRemote(p.tasks[j]);
      assert WillCallRemote(q.tasks[j]);
    }
    forall i | 0 <= i < |q.tasks| && q.tasks[i].DrainStart?
      ensures exists j :: 0 <= j < i && WillCallRemote(q.tasks[j])
    {
      if i < n {
        var j :| 0 <= j < i && WillCallRemote(p.tasks[j]);
        assert WillCallRemote(q.tasks[j]);
      }
    }
  }

  /** An event makes no call; it may spawn one description task and one drain. */
  lemma EventFrame(initiate: bool, p: Peer, a: Action)
    requires Enabled(p, a) && !a.Step?
    ensures var q := Act(initiate, p, a);
      && q.log.calls == p.log.calls && (p.remoteSet ==> q.remoteSet)
      && |p.tasks| <= |q.tasks| <= |p.tasks| + 2 && q.tasks[..|p.tasks|] == p.tasks
  {
  }

  lemma EventKeepsOrder(initiate: bool, p: Peer, a: Action)
    requires Enabled(p, a) && Ordered(p) && !a.Step?
    ensures Ordered(Act(initiate, p, a))
  {
    var q := Act(initiate, p, a);
    EventFrame(initiate, p, a);
    if !RemoteCalled(p.log.calls) {
      var m := MaybeOffer(initiate, p);
      if m != p { SpawnKeepsAwaiting(p, m, OfferStart); }
      match a {
        case Got(Offer(sdp)) => if q != p { SpawnKeepsAwaiting(p, q, AnswerStart(sdp)); }
        case Got(Answer(sdp)) => if q != p { SpawnKeepsAwaiting(p, q, ReplyStart(sdp)); }
        case Got(IceCandidate(c)) => if q.remoteSet { SpawnKeepsAwaiting(m, q, DrainStart); }
        case _ =>
      }
    }
  }

  lemma PollKeepsOrder(p: Peer, i: nat, o: Outcome)
    requires i < |p.tasks| && Ordered(p) && InSpawnOrder(p, Step(i, o))
    ensures Ordered(Run(p, i, o))
  {
    var t, r, q := p.tasks[i], PollOf(p, i, o), Run(p, i, o);
    if !RemoteCalled(p.log.calls) && t.DrainStart? {
      assert false;
    }
    match r.deed {
      case Issue(side, d) => RemoteFirstSnoc(p.log.calls, Describe(side, d, p.pc.State()));
      case AddNext => RemoteFirstSnoc(p.log.calls, AddCandidate(p.pending[0]));
      case _ =>
    }
    if !RemoteCalled(p.log.calls) && !WillCallRemote(t) {
      assert forall j :: 0 <= j < |p.tasks| && WillCallRemote(p.tasks[j]) ==> WillCallRemote(q.tasks[j]);
    }
  }

  /** With tasks first polled in spawn order, no candidate is added before a remote
      description was set, however the candidates overtake the descriptions. */
  lemma {:induction false} CandidatesFollowDescription(
    initiate: bool, run: seq<Peer>, actions: seq<Action>, k: nat)
    requires IsRun(initiate, run, actions) && k < |run|
    requires forall j :: 0 <= j < |actions| ==> InSpawnOrder(run[j], actions[j])
    ensures var calls := run[k].log.calls;
      forall i :: 0 <= i < |calls| && calls[i].AddCandidate? ==> RemoteCalled(calls[..i])
    ensures Ordered(run[k])
  {
    if k > 0 {
      CandidatesFollowDescription(initiate, run, actions, k - 1);
      assert InSpawnOrder(run[k - 1], actions[k - 1]);
      if actions[k - 1].Step? {
        PollKeepsOrder(run[k - 1], actions[k - 1].task, actions[k - 1].outcome);
      } else {
        EventKeepsOrder(initiate, run[k - 1], actions[k - 1]);
      }
    }
  }

  // ---- No candidate is stranded ----------------------------------------------------

  ghost predicate DrainLive(p: Peer) {
    exists i :: 0 <= i < |p.tasks| && p.tasks[i].WillDrain()
  }

  ghost predicate NotStranded(p: Peer) {
    p.remoteSet && !p.log.offerRejected && p.pending != [] ==> DrainLive(p)
  }

  /** A task that will drain still will after a poll, unless the queue was found
      empty or its offer was refused. */
  lemma DrainingContinues(t: Task, at: Signaling, empty: bool, o: Outcome)
    requires t.WillDrain()
    ensures var r := PollTask(t, at, empty, o);
      r.next.WillDrain() || (empty && r.deed == Nothing) || r.deed == Fail(true)
  {
  }

  lemma EventStrandsNothing(initiate: bool, p: Peer, a: Action)
    requires Enabled(p, a) && NotStranded(p) && !a.Step?
    ensures NotStranded(Act(initiate, p, a))
  {
    var q := Act(initiate, p, a);
    EventFrame(initiate, p, a);
    if DrainLive(p) {
      var i :| 0 <= i < |p.tasks| && p.tasks[i].WillDrain();
      assert q.tasks[..|p.tasks|][i] == q.tasks[i];
    }
    if a.Got? && |q.tasks| > |p.tasks| {
      assert q.remoteSet ==> q.tasks[|q.tasks| - 1].WillDrain();
    }
  }

  lemma PollStrandsNothing(p: Peer, i: nat, o: Outcome)
    requires i < |p.tasks| && NotStranded(p)
    ensures NotStranded(Run(p, i, o))
  {
    var q := Run(p, i, o);
    if DrainLive(p) {
      var j :| 0 <= j < |p.tasks| && p.tasks[j].WillDrain();
      if i == j {
        DrainingContinues(p.tasks[i], p.pc.State(), p.pending == [], o);
        assert q.tasks[i].WillDrain() || q.pending == [] || q.log.offerRejected;
      } else {
        assert q.tasks[j].WillDrain();
      }
    }
  }

  /** Once a remote description is in place, every queued candidate has a task that
      will add it: with no such task live, the queue is empty. */
  lemma {:induction false} NoStrandedCandidates(initiate: bool, run: seq<Peer>, actions: seq<Action>, k: nat)
    requires IsRun(initiate, run, actions) && k < |run|
    ensures run[k].remoteSet && !run[k].log.offerRejected && !DrainLive(run[k]) ==> run[k].pending == []
    ensures NotStranded(run[k])
  {
    if k > 0 {
      NoStrandedCandidates(initiate, run, actions, k - 1);
      if actions[k - 1].Step? {
        PollStrandsNothing(run[k - 1], actions[k - 1].task, actions[k - 1].outcome);
      } else {
        EventStrandsNothing(initiate, run[k - 1], actions[k - 1]);
      }
    }
  }

  // ---- Exactly when one is ---------------------------------------------------------

  ghost predicate Served(p: Peer) {
    p.remoteSet && p.pending != [] ==> DrainLive(p)
  }

  /** The poll finds that the browser refuses the offer which the task awaits. */
  predicate RefusesOffer(p: Peer, i: nat, o: Outcome)
    requires i < |p.tasks|
  {
    p.tasks[i].AnswerSetting? && !(o.Resolved? && Allowed(Remote, OfferKind, p.pc.State()))
  }

  /** The only step that strands candidates: the offer is refused while some are queued
      and no other task is about to drain. */
  ghost predicate Strands(p: Peer, a: Action) {
    && a.Step? && a.task < |p.tasks| && RefusesOffer(p, a.task, a.outcome)
    && p.remoteSet && p.pending != []
    && forall j :: 0 <= j < |p.tasks| && j != a.task ==> !p.tasks[j].WillDrain()
  }

  lemma PollStrandsExactly(p: Peer, i: nat, o: Outcome)
    requires i < |p.tasks| && Served(p)
    ensures !Served(Run(p, i, o)) <==> Strands(p, Step(i, o))
  {
    var q := Run(p, i, o);
    if DrainLive(p) {
      var j :| 0 <= j < |p.tasks| && p.tasks[j].WillDrain();
      DrainingContinues(p.tasks[j], p.pc.State(), p.pending == [], o);
      assert j != i ==> q.tasks[j].WillDrain();
    }
    assert forall j :: 0 <= j < |p.tasks| && j != i ==> q.tasks[j] == p.tasks[j];
    assert q.tasks[i] == PollOf(p, i, o).next;
  }

  /** No event strands a candidate, and one that arrives gets those before it added as well. */
  lemma EventServes(initiate: bool, p: Peer, a: Action)
    requires Enabled(p, a) && !a.Step?
    ensures Served(p) ==> Served(Act(initiate, p, a))
    ensures a.Got? && a.signal.IceCandidate? ==> Served(Act(initiate, p, a))
  {
    var q := Act(initiate, p, a);
    EventFrame(initiate, p, a);
    assert forall i :: 0 <= i < |p.tasks| ==> q.tasks[i] == q.tasks[..|p.tasks|][i];
    if a.Got? && |q.tasks| > |p.tasks| {
      assert q.remoteSet ==> q.tasks[|q.tasks| - 1].WillDrain();
    }
  }

  lemma StepServes(initiate: bool, p: Peer, a: Action)
    requires Enabled(p, a) && Served(p)
    ensures !Served(Act(initiate, p, a)) <==> Strands(p, a)
  {
    if a.Step? { PollStrandsExactly(p, a.task, a.outcome); } else { EventServes(initiate, p, a); }
  }

  /** What gets stranded candidates added, or thrown away: another candidate, an answer
      that is taken up, an answer that goes out, the close of the connection. */
  predicate Restores(p: Peer, a: Action) {
    match a
    case Got(IceCandidate(_)) => true
    case Got(Answer(_)) => p.pc.State() == HaveLocalOffer
    case Step(i, _) => i < |p.tasks| && p.tasks[i].AnswerReady?
    case Shut => true
    case _ => false
  }

  lemma PollRestores(p: Peer, i: nat, o: Outcome)
    requires i < |p.tasks| && !Served(p)
    ensures Served(Run(p, i, o)) <==> p.tasks[i].AnswerReady?
  {
    var q := Run(p, i, o);
    assert !p.tasks[i].WillDrain() && q.tasks[i] == PollOf(p, i, o).next;
    assert forall j :: 0 <= j < |p.tasks| && j != i ==> q.tasks[j] == p.tasks[j];
  }

  lemma EventRestores(initiate: bool, p: Peer, a: Action)
    requires Enabled(p, a) && !a.Step? && !Served(p)
    ensures Served(Act(initiate, p, a)) <==> Restores(p, a)
  {
    EventServes(initiate, p, a);
    var q := Act(initiate, p, a);
    if a.Got? && a.signal.Answer? && Restores(p, a) { assert q.tasks[|p.tasks|].WillDrain(); }
    assert forall j :: 0 <= j < |p.tasks| ==> !p.tasks[j].WillDrain();
  }

  /** The last step of the run up to `k` that stranded candidates is `j`, and none has
      restored them since. */
  ghost predicate StrandedSince(run: seq<Peer>, actions: seq<Action>, j: nat, k: nat)
    requires |run| == |actions| + 1
  {
    && j < k < |run| && Strands(run[j], actions[j])
    && forall i :: j < i < k ==> !Restores(run[i], actions[i])
  }

  lemma {:induction false} StrandedStays(initiate: bool, run: seq<Peer>, actions: seq<Action>, j: nat, k: nat)
    requires IsRun(initiate, run, actions) && StrandedSince(run, actions, j, k)
    ensures !Served(run[k])
  {
    if k == j + 1 {
      assert run[j].tasks[actions[j].task].WillDrain();
      StepServes(initiate, run[j], actions[j]);
    } else {
      StrandedStays(initiate, run, actions, j, k - 1);
      var p, a := run[k - 1], actions[k - 1];
      if a.Step? { PollRestores(p, a.task, a.outcome); } else { EventRestores(initiate, p, a); }
    }
  }

  /** Over any run, candidates are stranded exactly when the browser refused an offer
      while they waited and nothing else was about to drain, and nothing since then has
      restored them. */
  lemma {:induction false} StrandedExactly(initiate: bool, run: seq<Peer>, actions: seq<Action>, k: nat)
    requires IsRun(initiate, run, actions) && k < |run|
    ensures !Served(run[k]) <==> exists j :: StrandedSince(run, actions, j, k)
  {
    if j :| StrandedSince(run, actions, j, k) {
      StrandedStays(initiate, run, actions, j, k);
    } else if k > 0 {
      StrandedExactly(initiate, run, actions, k - 1);
      var p, a := run[k - 1], actions[k - 1];
      if Served(p) {
        StepServes(initiate, p, a);
        assert Strands(p, a) ==> StrandedSince(run, actions, k - 1, k);
      } else {
        var j :| StrandedSince(run, actions, j, k - 1);
        assert !Restores(p, a) ==> StrandedSince(run, actions, j, k);
        if a.Step? { PollRestores(p, a.task, a.outcome); } else { EventRestores(initiate, p, a); }
      }
    }
  }

  /** That does happen: a candidate that came first stays queued when the browser
      refuses the offer it was waiting for. */
  lemma RefusedOfferStrandsCandidate(sdp: string, c: Candidate) returns (run: seq<Peer>, actions: seq<Action>)
    ensures IsRun(false, run, actions) && |run| == 5
    ensures run[4].remoteSet && run[4].pending == [c] && run[4].tasks == [Finished]
  {
    actions := [Got(IceCandidate(c)), Got(Offer(sdp)), Step(0, Rejected), Step(0, Rejected)];
    var p1 := Act(false, FreshPeer, actions[0]);
    var p2 := Act(false, p1, actions[1]);
    var p3 := Act(false, p2, actions[2]);
    run := [FreshPeer, p1, p2, p3, Act(false, p3, actions[3])];
  }
}
