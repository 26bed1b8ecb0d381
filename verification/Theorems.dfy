/** What holds over whole runs of a room, for any order of joins, reconnects, delays,
    losses and reordered signals. */
module Theorems {
  import opened Types
  import opened System
  import C = Connection
  import P = Pair
  import R = Relay
  import D = Delivery
  import L = Placement
  import Counting

  ghost predicate IsRun(password: string, run: seq<Sys>, steps: seq<Action>) {
    && |run| == |steps| + 1
    && run[0] == Opening(password)
    && forall k :: 0 <= k < |steps| ==> Can(run[k], steps[k]) && run[k + 1] == Next(run[k], steps[k])
  }

  ghost predicate Leads(s: Sys, x: Action, s': Sys) {
    Can(s, x) && s' == Next(s, x)
  }

  lemma RunOf(password: string, run: seq<Sys>, steps: seq<Action>)
    requires |run| == |steps| + 1 && run[0] == Opening(password)
    requires forall k :: 0 <= k < |steps| ==> Leads(run[k], steps[k], run[k + 1])
    ensures IsRun(password, run, steps)
  {
    forall k | 0 <= k < |steps| ensures Can(run[k], steps[k]) && run[k + 1] == Next(run[k], steps[k]) {
      assert Leads(run[k], steps[k], run[k + 1]);
    }
  }

  /** One step of a run, out of a state that the invariant holds in. */
  lemma StepOf(password: string, run: seq<Sys>, steps: seq<Action>, k: nat)
    requires IsRun(password, run, steps) && k < |steps|
    ensures SysInv(run[k]) && Can(run[k], steps[k]) && run[k + 1] == Next(run[k], steps[k])
  {
    RunHolds(password, run, steps, k);
  }

  ghost predicate EveryStepKeeps(holds: Sys -> bool) {
    forall s, x :: SysInv(s) && Can(s, x) && holds(s) ==> holds(Next(s, x))
  }

  lemma KeptBy(s: Sys, x: Action, holds: Sys -> bool)
    requires EveryStepKeeps(holds) && SysInv(s) && Can(s, x) && holds(s)
    ensures holds(Next(s, x))
  {
  }

  lemma StepKeeps(password: string, run: seq<Sys>, steps: seq<Action>, k: nat, holds: Sys -> bool)
    requires IsRun(password, run, steps) && k < |steps| && EveryStepKeeps(holds) && holds(run[k])
    ensures holds(run[k + 1])
  {
    StepOf(password, run, steps, k);
    KeptBy(run[k], steps[k], holds);
  }

  /** What every step keeps, the rest of the run keeps. */
  lemma {:induction false} Stays(
    password: string, run: seq<Sys>, steps: seq<Action>, k: nat, m: nat, holds: Sys -> bool)
    requires IsRun(password, run, steps) && EveryStepKeeps(holds) && k <= m < |run| && holds(run[k])
    ensures holds(run[m])
  {
    if m > k {
      Stays(password, run, steps, k, m - 1, holds);
      StepKeeps(password, run, steps, m - 1, holds);
    }
  }

  /** A signal has been sent by a connection; `s` is a state of some run. */
  function Outbox(s: Sys, c: Id, f: Id): seq<Signal> {
    ConnOf(s.meshes, c, f).log.outbox
  }

  // ---- An answer is posted only after the offer has been relayed ----------------------------------

  ghost predicate NoAnswerYet(s: Sys, t: R.Tag, back: nat) {
    Before(t.from, t.to) && t.n < |Outbox(s, t.from, t.to)| && Outbox(s, t.from, t.to)[t.n].Offer? ==>
      forall m :: 0 <= m < back && m < |Outbox(s, t.to, t.from)| ==> !Outbox(s, t.to, t.from)[m].Answer?
  }

  ghost predicate AnswersFollow(s: Sys) {
    forall t :: t in s.relay.net.placed ==> NoAnswerYet(s, t, s.relay.net.placed[t].back)
  }

  /** While the offer is in flight nobody has answered it. */
  lemma OfferInFlightIsUnanswered(s: Sys, post: R.Post)
    requires SysInv(s) && post in s.relay.net.flight && post.message.body.Offer?
    requires Before(post.from, post.message.to)
    ensures P.NoAnswer(Outbox(s, post.message.to, post.from))
  {
    var a, b := post.from, post.message.to;
    var e, cl := PairOf(s, a, b), R.ClientOf(s.relay.clients, b);
    assert P.PairInv(e);
    assert D.PostOk(s.relay.net, post);
    assert R.Posted(s.relay.net, a, b) == Outbox(s, a, b);
    if !P.NoAnswer(e.b.log.outbox) {
      var n :| 0 <= n < |e.b.log.outbox| && e.b.log.outbox[n].Answer?;
      P.AnswerMeansOffered(e, n);
      assert false;
    }
  }

  lemma ActGrowsOutbox(s: Sys, d: Id, g: Id, y: C.Action, c: Id, f: Id)
    requires CanAct(s, d, g, y)
    ensures Outbox(s, c, f) <= Outbox(Acted(s, d, g, y), c, f)
  {
    P.OwnActFrame(Before(d, g), s.meshes[d].peers[g], y);
    ActedAt(s, d, g, y, c, f);
  }

  lemma ProcessKeepsOutbox(s: Sys, d: Id, refused: set<Id>, c: Id, f: Id)
    requires MeshesOk(s) && SeenOk(s.relay, d) && CanProcess(s, d)
    ensures Outbox(Processed(s, d, refused), c, f) == Outbox(s, c, f)
  {
    EventIsOk(s, d);
    HandleKeepsMesh(s.relay.room.participants.Keys, d, s.meshes[d], NextEntry(s.relay, d).event, refused);
  }

  /** Outboxes only grow. */
  lemma OutboxGrows(s: Sys, x: Action, c: Id, f: Id)
    requires SysInv(s) && Can(s, x)
    ensures Outbox(s, c, f) <= Outbox(Next(s, x), c, f)
  {
    match x {
      case Local(d, g, y) => ActGrowsOutbox(s, d, g, y, c, f);
      case Process(d, refused) =>
        RelaySeenOk(s.relay, d);
        ProcessKeepsOutbox(s, d, refused, c, f);
      case Leave(d) => PartedAt(s, d, c, f);
      case _ =>
    }
  }

  /** Steps other than a relay leave the placements alone. */
  lemma OnlyRelayPlaces(s: R.State, a: R.Action)
    requires R.Can(s, a) && !a.Relay?
    ensures R.Do(s, a).net.placed == s.net.placed
  {
  }

  lemma PlacementsStay(s: Sys, x: Action)
    requires Can(s, x) && !(x.Deliver? && x.a.Relay?)
    ensures Next(s, x).relay.net.placed == s.relay.net.placed
  {
    if x.Deliver? { OnlyRelayPlaces(s.relay, x.a); }
  }

  lemma GrowthKeepsFollowing(s: Sys, s': Sys, t: R.Tag, back: nat)
    requires NoAnswerYet(s, t, back)
    requires Outbox(s, t.from, t.to) <= Outbox(s', t.from, t.to) && Outbox(s, t.to, t.from) <= Outbox(s', t.to, t.from)
    requires t.n < |Outbox(s, t.from, t.to)| && back <= |Outbox(s, t.to, t.from)|
    ensures NoAnswerYet(s', t, back)
  {
  }

  lemma NextKeepsFollowing(s: Sys, x: Action)
    requires SysInv(s) && AnswersFollow(s) && Can(s, x)
    ensures AnswersFollow(Next(s, x))
  {
    var s' := Next(s, x);
    forall t | t in s'.relay.net.placed ensures NoAnswerYet(s', t, s'.relay.net.placed[t].back) {
      OutboxGrows(s, x, t.from, t.to);
      OutboxGrows(s, x, t.to, t.from);
      assert R.Posted(s.relay.net, t.from, t.to) == Outbox(s, t.from, t.to);
      assert R.Posted(s.relay.net, t.to, t.from) == Outbox(s, t.to, t.from);
      if x.Deliver? && x.a.Relay? && t == R.TagOf(x.a.post) && x.a.post.from in s.relay.room.participants {
        assert D.PostOk(s.relay.net, x.a.post);
        if x.a.post.message.body.Offer? && Before(t.from, t.to) { OfferInFlightIsUnanswered(s, x.a.post); }
      } else {
        if !(x.Deliver? && x.a.Relay?) { PlacementsStay(s, x); }
        assert L.PlacedOk(s.relay, t, s.relay.net.placed[t]);
        GrowthKeepsFollowing(s, s', t, s.relay.net.placed[t].back);
      }
    }
  }

  lemma {:induction false} RunHolds(password: string, run: seq<Sys>, steps: seq<Action>, k: nat)
    requires IsRun(password, run, steps) && k < |run|
    ensures SysInv(run[k]) && AnswersFollow(run[k])
  {
    if k == 0 {
      OpeningHolds(password);
    } else {
      RunHolds(password, run, steps, k - 1);
      NextKeepsInv(run[k - 1], steps[k - 1]);
      NextKeepsFollowing(run[k - 1], steps[k - 1]);
    }
  }

  // ---- No glare ------------------------------------------------------------------------------------

  /** A connection posts only to another session, and only members have connections. */
  lemma OutboxesAreMembers(s: Sys, c: Id, f: Id)
    requires SysInv(s) && Outbox(s, c, f) != []
    ensures c != f && c in s.relay.room.participants && f in s.relay.room.participants
  {
    assert c in s.meshes && f in s.meshes[c].peers;
    assert MeshOk(s.relay.room.participants.Keys, c, s.meshes[c]);
  }

  /** Of any two sessions only the one that sorts first ever offers, and only the
      other ever answers; each does so at most once in the whole run. */
  lemma NoGlare(password: string, run: seq<Sys>, steps: seq<Action>, k: nat, a: Id, b: Id)
    requires IsRun(password, run, steps) && k < |run| && Before(a, b)
    ensures P.OneOffer(Outbox(run[k], a, b)) && P.NoAnswer(Outbox(run[k], a, b))
    ensures P.OneAnswer(Outbox(run[k], b, a)) && P.NoOffer(Outbox(run[k], b, a))
  {
    RunHolds(password, run, steps, k);
    assert P.PairInv(PairOf(run[k], a, b));
  }

  /** Every offer on its way goes from the smaller id to the larger. */
  lemma OffersGoUp(password: string, run: seq<Sys>, steps: seq<Action>, k: nat, post: R.Post)
    requires IsRun(password, run, steps) && k < |run|
    requires post in run[k].relay.net.flight
    ensures post.message.body.Offer? ==> Before(post.from, post.message.to)
    ensures post.message.body.Answer? ==> Before(post.message.to, post.from)
  {
    RunHolds(password, run, steps, k);
    var s, a, b := run[k], post.from, post.message.to;
    assert D.PostOk(s.relay.net, post);
    assert R.Posted(s.relay.net, a, b) == Outbox(s, a, b);
    OutboxesAreMembers(s, a, b);
    BeforeIsStrictTotal(a, b);
    if Before(a, b) { NoGlare(password, run, steps, k, a, b); } else { NoGlare(password, run, steps, k, b, a); }
  }

  /** Every offer posted so far, by sender, addressee and position. */
  ghost function Offers(s: Sys): set<R.Tag> {
    set c, f, n | c in s.meshes && f in s.meshes[c].peers && 0 <= n < |s.meshes[c].peers[f].log.outbox| &&
                  s.meshes[c].peers[f].log.outbox[n].Offer? :: R.Tag(c, f, n)
  }

  lemma OffersAreOrdered(s: Sys, t: R.Tag)
    requires SysInv(s) && t in Offers(s)
    ensures Before(t.from, t.to) && t.from in s.relay.room.participants && t.to in s.relay.room.participants
  {
    OutboxesAreMembers(s, t.from, t.to);
    BeforeIsStrictTotal(t.from, t.to);
    assert Before(t.to, t.from) ==> P.PairInv(PairOf(s, t.to, t.from));
  }

  lemma OffersAreSingle(s: Sys, t: R.Tag, u: R.Tag)
    requires SysInv(s) && t in Offers(s) && u in Offers(s) && t.from == u.from && t.to == u.to
    ensures t == u
  {
    OffersAreOrdered(s, t);
    assert P.PairInv(PairOf(s, t.from, t.to));
    assert P.OneOffer(Outbox(s, t.from, t.to));
  }

  /** A room of n members sees at most n(n-1)/2 offers, however long the run. */
  lemma OffersAreBounded(password: string, run: seq<Sys>, steps: seq<Action>, k: nat)
    requires IsRun(password, run, steps) && k < |run|
    ensures var n := |run[k].relay.room.participants|; |Offers(run[k])| <= n * (n - 1) / 2
  {
    RunHolds(password, run, steps, k);
    OffersInState(run[k]);
  }

  lemma OffersInState(s: Sys)
    requires SysInv(s)
    ensures var n := |s.relay.room.participants|; |Offers(s)| <= n * (n - 1) / 2
  {
    OffersAreCountable(s);
    Counting.AtMostOnePerPair(Offers(s), s.relay.room.participants.Keys);
  }

  lemma OffersAreCountable(s: Sys)
    requires SysInv(s)
    ensures forall t :: t in Offers(s) ==>
      Before(t.from, t.to) && t.from in s.relay.room.participants.Keys && t.to in s.relay.room.participants.Keys
    ensures forall t, u :: t in Offers(s) && u in Offers(s) && t.from == u.from && t.to == u.to ==> t == u
  {
    forall t | t in Offers(s)
      ensures Before(t.from, t.to) && t.from in s.relay.room.participants && t.to in s.relay.room.participants
    {
      OffersAreOrdered(s, t);
    }
    forall t, u | t in Offers(s) && u in Offers(s) && t.from == u.from && t.to == u.to ensures t == u {
      OffersAreSingle(s, t, u);
    }
  }

  // ---- Candidates are posted ---------------------------------------------------------------------------

  /** What a step finds for `c`'s connection to `f`. */
  function FoundBy(x: Action, c: Id, f: Id): seq<Candidate> {
    if x.Local? && x.c == c && x.f == f && x.x.Gather? then [x.x.candidate] else []
  }

  /** The candidates found for `c`'s connection to `f`, in order. */
  function GatheredBy(steps: seq<Action>, c: Id, f: Id): seq<Candidate> {
    if steps == [] then []
    else GatheredBy(steps[..|steps| - 1], c, f) + FoundBy(steps[|steps| - 1], c, f)
  }

  lemma NextPostsCandidates(s: Sys, x: Action, c: Id, f: Id)
    requires SysInv(s) && Can(s, x)
    ensures C.CandidatesOf(Outbox(Next(s, x), c, f)) == C.CandidatesOf(Outbox(s, c, f)) + FoundBy(x, c, f)
  {
    match x {
      case Local(d, g, y) => ActPostsCandidates(s, d, g, y, c, f);
      case Process(d, refused) =>
        RelaySeenOk(s.relay, d);
        ProcessKeepsOutbox(s, d, refused, c, f);
      case Leave(d) => PartedAt(s, d, c, f);
      case _ => assert Outbox(Next(s, x), c, f) == Outbox(s, c, f);
    }
  }

  lemma ActPostsCandidates(s: Sys, d: Id, g: Id, y: C.Action, c: Id, f: Id)
    requires CanAct(s, d, g, y)
    ensures C.CandidatesOf(Outbox(Acted(s, d, g, y), c, f)) ==
            C.CandidatesOf(Outbox(s, c, f)) + FoundBy(Local(d, g, y), c, f)
  {
    ActedAt(s, d, g, y, c, f);
    if d == c && g == f { C.ActionsCandidates(Before(c, f), s.meshes[c].peers[f], y); }
  }

  /** Every candidate that `c`'s connection for `f` finds is posted to `f`, once and in order. */
  lemma CandidatesArePosted(
    password: string, run: seq<Sys>, steps: seq<Action>, k: nat, c: Id, f: Id)
    requires IsRun(password, run, steps) && k < |run|
    ensures C.CandidatesOf(R.Posted(run[k].relay.net, c, f)) == GatheredBy(steps[..k], c, f)
  {
    RunHolds(password, run, steps, k);
    assert R.Posted(run[k].relay.net, c, f) == Outbox(run[k], c, f);
    CandidatesInOutbox(password, run, steps, k, c, f);
  }

  lemma {:induction false} CandidatesInOutbox(
    password: string, run: seq<Sys>, steps: seq<Action>, k: nat, c: Id, f: Id)
    requires IsRun(password, run, steps) && k < |run|
    ensures C.CandidatesOf(Outbox(run[k], c, f)) == GatheredBy(steps[..k], c, f)
  {
    if k == 0 {
      assert Outbox(run[0], c, f) == [];
    } else {
      CandidatesInOutbox(password, run, steps, k - 1, c, f);
      CandidatesInStep(password, run, steps, k - 1, c, f);
      assert steps[..k][..k - 1] == steps[..k - 1];
    }
  }

  lemma CandidatesInStep(password: string, run: seq<Sys>, steps: seq<Action>, k: nat, c: Id, f: Id)
    requires IsRun(password, run, steps) && k < |steps|
    ensures C.CandidatesOf(Outbox(run[k + 1], c, f)) == C.CandidatesOf(Outbox(run[k], c, f)) + FoundBy(steps[k], c, f)
  {
    StepOf(password, run, steps, k);
    NextPostsCandidates(run[k], steps[k], c, f);
  }

  // ---- Legality and provenance -----------------------------------------------------------------------

  /** Every description call on every connection was made in a state that section 3.2
      of RFC 8829 allows, or on a connection that had been closed, and everything
      applied to `c`'s connection for `f` was sent by `f`'s connection for `c`. */
  lemma CallsAreLegalAndFromThePeer(
    password: string, run: seq<Sys>, steps: seq<Action>, k: nat, c: Id, f: Id)
    requires IsRun(password, run, steps) && k < |run| && c != f
    ensures P.AllAllowed(ConnOf(run[k].meshes, c, f).log.calls)
    ensures P.From(ConnOf(run[k].meshes, c, f), Outbox(run[k], f, c))
  {
    RunHolds(password, run, steps, k);
    BeforeIsStrictTotal(c, f);
    assert Before(c, f) ==> P.PairInv(PairOf(run[k], c, f));
    assert Before(f, c) ==> P.PairInv(PairOf(run[k], f, c));
  }

  /** `c` has left, and `pc` is what its connection for `f` then was. */
  predicate LeftWith(s: Sys, c: Id, f: Id, pc: C.Pc) {
    c in s.left && ConnOf(s.meshes, c, f).pc == pc
  }

  lemma ActKeepsLeft(s: Sys, d: Id, g: Id, y: C.Action, c: Id, f: Id, pc: C.Pc)
    requires OpenUntilLeft(s) && CanAct(s, d, g, y) && LeftWith(s, c, f, pc)
    ensures LeftWith(Acted(s, d, g, y), c, f, pc)
  {
    ActedAt(s, d, g, y, c, f);
    if d == c && g == f { C.NothingIsAppliedOnceClosed(s.meshes[c].peers[f], y.task, y.outcome); }
  }

  lemma NextKeepsLeft(s: Sys, x: Action, c: Id, f: Id, pc: C.Pc)
    requires OpenUntilLeft(s) && Can(s, x) && LeftWith(s, c, f, pc)
    ensures LeftWith(Next(s, x), c, f, pc)
  {
    match x {
      case Process(d, refused) => OthersStay(s, d, refused, c, f);
      case Local(d, g, y) =>
        ActKeepsLeft(s, d, g, y, c, f, pc);
      case Leave(d) => PartedAt(s, d, c, f);
      case _ =>
    }
  }

  /** After a session has left, its tasks may go on, but nothing is applied to its
      connections any more. */
  lemma NothingIsAppliedAfterLeaving(
    password: string, run: seq<Sys>, steps: seq<Action>, k: nat, m: nat, c: Id, f: Id)
    requires IsRun(password, run, steps) && k <= m < |run| && c in run[k].left
    ensures c in run[m].left && ConnOf(run[m].meshes, c, f).pc == ConnOf(run[k].meshes, c, f).pc
  {
    var pc := ConnOf(run[k].meshes, c, f).pc;
    forall s, x | SysInv(s) && Can(s, x) && LeftWith(s, c, f, pc) ensures LeftWith(Next(s, x), c, f, pc) {
      NextKeepsLeft(s, x, c, f, pc);
    }
    Stays(password, run, steps, k, m, s => LeftWith(s, c, f, pc));
  }
}
