/** What a stranded signal means for its pair, over whole runs. */
module Loss {
  import opened Types
  import opened System
  import opened Theorems
  import opened Stranding
  import C = Connection
  import P = Pair
  import R = Relay
  import D = Delivery

  // ---- What is stranded stays stranded -----------------------------------------------------------

  lemma ActKeepsStranded(s: Sys, c: Id, f: Id, y: C.Action, t: R.Tag)
    requires Stranded(s.relay, t) && CanAct(s, c, f, y)
    ensures Stranded(Acted(s, c, f, y).relay, t)
  {
    var before, after := s.meshes[c].peers[f].log.outbox, C.Act(Before(c, f), s.meshes[c].peers[f], y).log.outbox;
    if |after| > |before| { PostKeepsStranded(s.relay, c, SignalMessage(f, after[|before|]), t); }
  }

  lemma NextKeepsStranded(s: Sys, x: Action, t: R.Tag)
    requires D.Inv(s.relay) && Stranded(s.relay, t) && Can(s, x)
    ensures Stranded(Next(s, x).relay, t)
  {
    match x {
      case Deliver(a) => DoKeepsStranded(s.relay, a, t);
      case Process(c, _) => ClientKeepsStranded(s.relay, R.Use(c), t);
      case Local(c, f, y) => ActKeepsStranded(s, c, f, y, t);
      case _ =>
    }
  }

  /** `from`'s `n`-th signal to `to` is stranded. */
  ghost predicate SignalStranded(s: Sys, from: Id, to: Id, n: nat) {
    n < |Outbox(s, from, to)| && Stranded(s.relay, R.Tag(from, to, n))
  }

  lemma NextKeepsSignalStranded(s: Sys, x: Action, from: Id, to: Id, n: nat)
    requires SysInv(s) && Can(s, x) && SignalStranded(s, from, to, n)
    ensures SignalStranded(Next(s, x), from, to, n) && Outbox(Next(s, x), from, to)[n] == Outbox(s, from, to)[n]
  {
    NextKeepsStranded(s, x, R.Tag(from, to, n));
    OutboxGrows(s, x, from, to);
  }

  /** The signal is `signal`, and is stranded. */
  ghost predicate StrandedAs(s: Sys, from: Id, to: Id, n: nat, signal: Signal) {
    SignalStranded(s, from, to, n) && Outbox(s, from, to)[n] == signal
  }

  lemma LossStays(
    password: string, run: seq<Sys>, steps: seq<Action>, k: nat, m: nat, from: Id, to: Id, n: nat, signal: Signal)
    requires IsRun(password, run, steps) && k <= m < |run| && StrandedAs(run[k], from, to, n, signal)
    ensures StrandedAs(run[m], from, to, n, signal)
  {
    forall s, x | SysInv(s) && Can(s, x) && StrandedAs(s, from, to, n, signal)
      ensures StrandedAs(Next(s, x), from, to, n, signal)
    {
      NextKeepsSignalStranded(s, x, from, to, n);
    }
    Stays(password, run, steps, k, m, s => StrandedAs(s, from, to, n, signal));
  }

  /** What a mesh has taken has been seen. */
  lemma StrandedIsUntaken(s: Sys, from: Id, to: Id, n: nat)
    requires SysInv(s) && Stranded(s.relay, R.Tag(from, to, n))
    ensures n !in TakenBy(R.ClientOf(s.relay.clients, to), from)
  {
    var seen := R.ClientOf(s.relay.clients, to).seen;
    assert forall j :: 0 <= j < |seen| ==> !Is(seen[j], R.Tag(from, to, n));
  }

  // ---- A lost offer is never made good ------------------------------------------------------------

  /** The answering end knows of no offer, and the offering end has no answer. */
  predicate Dark(s: Sys, a: Id, b: Id) {
    P.Untouched(ConnOf(s.meshes, b, a)) && ConnOf(s.meshes, a, b).pc.remote.None?
  }

  lemma StrandedOfferLeavesDark(s: Sys, a: Id, b: Id, n: nat)
    requires SysInv(s) && Before(a, b) && SignalStranded(s, a, b, n) && Outbox(s, a, b)[n].Offer?
    ensures Dark(s, a, b)
  {
    assert P.PairInv(PairOf(s, a, b));
    StrandedIsUntaken(s, a, b, n);
    P.UntakenOfferLeavesDark(PairOf(s, a, b));
  }

  /** Once `a`'s offer to `b` is stranded, the pair stays dark for the rest of the run,
      whatever snapshots, reconnects and re-joins follow: nothing makes a second offer. */
  lemma LostOfferIsNeverReplaced(
    password: string, run: seq<Sys>, steps: seq<Action>, k: nat, m: nat, a: Id, b: Id, n: nat)
    requires IsRun(password, run, steps) && k <= m < |run| && Before(a, b)
    requires SignalStranded(run[k], a, b, n) && Outbox(run[k], a, b)[n].Offer?
    ensures Dark(run[m], a, b)
  {
    LossStays(password, run, steps, k, m, a, b, n, Outbox(run[k], a, b)[n]);
    RunHolds(password, run, steps, m);
    StrandedOfferLeavesDark(run[m], a, b, n);
  }

  // ---- A lost answer leaves the offer open ------------------------------------------------------------

  /** The offering end waits for an answer, or did when its session left. */
  predicate Waiting(s: Sys, a: Id, b: Id) {
    ConnOf(s.meshes, a, b).pc.reached == C.HaveLocalOffer && ConnOf(s.meshes, a, b).pc.remote.None?
  }

  lemma StrandedAnswerLeavesWaiting(s: Sys, a: Id, b: Id, n: nat)
    requires SysInv(s) && Before(a, b) && SignalStranded(s, b, a, n) && Outbox(s, b, a)[n].Answer?
    ensures Waiting(s, a, b)
  {
    assert P.PairInv(PairOf(s, a, b));
    StrandedIsUntaken(s, b, a, n);
    P.UntakenAnswerLeavesWaiting(PairOf(s, a, b), n);
  }

  /** Once `b`'s answer to `a` is stranded, `a` goes on waiting for it for the rest of the run. */
  lemma LostAnswerLeavesWaiting(
    password: string, run: seq<Sys>, steps: seq<Action>, k: nat, m: nat, a: Id, b: Id, n: nat)
    requires IsRun(password, run, steps) && k <= m < |run| && Before(a, b)
    requires SignalStranded(run[k], b, a, n) && Outbox(run[k], b, a)[n].Answer?
    ensures Waiting(run[m], a, b)
  {
    LossStays(password, run, steps, k, m, b, a, n, Outbox(run[k], b, a)[n]);
    RunHolds(password, run, steps, m);
    StrandedAnswerLeavesWaiting(run[m], a, b, n);
  }
}
