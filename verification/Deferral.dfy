/** When a client builds its mesh makes no difference to the room: the step can be made
    as early as the client is a member. */
module Deferral {
  import opened Types
  import opened System
  import opened Theorems
  import C = Connection
  import R = Relay
  import D = Delivery

  // ---- One step --------------------------------------------------------------------------------

  /** The mesh of `c` can be built, and building it commutes with `x`. */
  ghost predicate Commutes(s: Sys, x: Action, c: Id) {
    && Can(s, x) && Can(Built(s, c), x) && Can(Next(s, x), Build(c))
    && Next(Built(s, c), x) == Built(Next(s, x), c)
  }

  lemma DeliverCommutes(s: Sys, a: R.Action, c: Id)
    requires D.Inv(s.relay) && Can(s, Deliver(a)) && Can(s, Build(c))
    ensures Commutes(s, Deliver(a), c)
  {
    DeliveryFrame(s.relay, a);
  }

  lemma BuildsCommute(s: Sys, d: Id, c: Id)
    requires c != d && Can(s, Build(d)) && Can(s, Build(c))
    ensures Commutes(s, Build(d), c)
  {
    assert Built(Built(s, c), d) == Built(Built(s, d), c);
  }

  lemma ProcessCommutes(s: Sys, d: Id, refused: set<Id>, c: Id)
    requires Can(s, Process(d, refused)) && Can(s, Build(c))
    ensures Commutes(s, Process(d, refused), c)
  {
    assert Processed(Built(s, c), d, refused) == Built(Processed(s, d, refused), c);
  }

  lemma ActCommutes(s: Sys, d: Id, f: Id, y: C.Action, c: Id)
    requires Can(s, Local(d, f, y)) && Can(s, Build(c))
    ensures Commutes(s, Local(d, f, y), c)
  {
    assert Acted(Built(s, c), d, f, y) == Built(Acted(s, d, f, y), c);
  }

  lemma LeaveCommutes(s: Sys, d: Id, c: Id)
    requires Can(s, Leave(d)) && Can(s, Build(c))
    ensures Commutes(s, Leave(d), c)
  {
    assert Parted(Built(s, c), d) == Built(Parted(s, d), c);
  }

  lemma BuildCommutes(s: Sys, x: Action, c: Id)
    requires D.Inv(s.relay) && Can(s, x) && x != Build(c) && Can(s, Build(c))
    ensures Commutes(s, x, c)
  {
    match x {
      case Deliver(a) => DeliverCommutes(s, a, c);
      case Build(d) => BuildsCommute(s, d, c);
      case Process(d, refused) => ProcessCommutes(s, d, refused, c);
      case Local(d, f, y) => ActCommutes(s, d, f, y, c);
      case Leave(d) => LeaveCommutes(s, d, c);
    }
  }

  // ---- Whole runs ---------------------------------------------------------------------------------

  /** Members stay, and so do meshes. */
  lemma MembersStay(s: Sys, x: Action)
    requires D.Inv(s.relay) && Can(s, x)
    ensures s.relay.room.participants.Keys <= Next(s, x).relay.room.participants.Keys
    ensures s.meshes.Keys <= Next(s, x).meshes.Keys
  {
    if x.Deliver? { DeliveryFrame(s.relay, x.a); }
  }

  lemma MemberSince(password: string, run: seq<Sys>, steps: seq<Action>, i: nat, j: nat, c: Id)
    requires IsRun(password, run, steps) && i <= j < |run| && c in run[i].relay.room.participants
    ensures c in run[j].relay.room.participants
  {
    forall s, x | SysInv(s) && Can(s, x) && c in s.relay.room.participants
      ensures c in Next(s, x).relay.room.participants
    {
      MembersStay(s, x);
    }
    Stays(password, run, steps, i, j, (s: Sys) => c in s.relay.room.participants);
  }

  lemma StatesSwap(s: Sys, x: Action, c: Id)
    requires D.Inv(s.relay) && Can(s, x) && c in s.relay.room.participants && c !in Next(s, x).meshes
    ensures Leads(s, Build(c), Built(s, c)) && Leads(Built(s, c), x, Built(Next(s, x), c))
  {
    MembersStay(s, x);
    BuildCommutes(s, x, c);
  }

  lemma BuildStep(password: string, run: seq<Sys>, steps: seq<Action>, j: nat, c: Id)
    requires IsRun(password, run, steps) && j < |steps| && steps[j] == Build(c)
    ensures c !in run[j].meshes && run[j + 1] == Built(run[j], c)
  {
  }

  /** The step after `i` builds the mesh of `c`, which could have been built before: the
      two steps in the other order. */
  lemma StepsSwap(password: string, run: seq<Sys>, steps: seq<Action>, i: nat, c: Id)
    requires IsRun(password, run, steps) && i + 1 < |steps| && steps[i + 1] == Build(c)
    requires c in run[i].relay.room.participants
    ensures Leads(run[i], Build(c), Built(run[i], c))
    ensures Leads(Built(run[i], c), steps[i], run[i + 1 + 1])
  {
    StepOf(password, run, steps, i);
    BuildStep(password, run, steps, i + 1, c);
    StatesSwap(run[i], steps[i], c);
  }

  /** The mesh built at step `j` can be built one step earlier, with the same outcome. */
  lemma BuiltOneEarlier(password: string, run: seq<Sys>, steps: seq<Action>, j: nat, c: Id)
    requires IsRun(password, run, steps) && 0 < j < |steps| && steps[j] == Build(c)
    requires c in run[j - 1].relay.room.participants
    ensures IsRun(password, run[j := Built(run[j - 1], c)], steps[j - 1 := Build(c)][j := steps[j - 1]])
  {
    var run', steps' := run[j := Built(run[j - 1], c)], steps[j - 1 := Build(c)][j := steps[j - 1]];
    StepsSwap(password, run, steps, j - 1, c);
    forall k | 0 <= k < |steps'| ensures Leads(run'[k], steps'[k], run'[k + 1]) {
      if k != j - 1 && k != j { StepStays(password, run, steps, k); }
    }
    RunOf(password, run', steps');
  }

  lemma StepStays(password: string, run: seq<Sys>, steps: seq<Action>, k: nat)
    requires IsRun(password, run, steps) && k < |steps|
    ensures Leads(run[k], steps[k], run[k + 1])
  {
  }

  /** `steps` with step `j`, a build for `c`, moved forward to `i`. */
  function Moved(steps: seq<Action>, i: nat, j: nat, c: Id): seq<Action>
    requires i <= j < |steps|
  {
    steps[..i] + [Build(c)] + steps[i..j] + steps[j + 1..]
  }

  /** `run` with an idle mesh for `c` between `i` and `j`. */
  function WithIdle(run: seq<Sys>, i: nat, j: nat, c: Id): seq<Sys>
    requires i <= j < |run|
  {
    run[..i + 1] + seq(j - i, m requires 0 <= m < j - i => Built(run[i + m], c)) + run[j + 1..]
  }

  /** One step of the way: the build of step `j` made at `j - 1`. */
  lemma OneEarlier(password: string, run: seq<Sys>, steps: seq<Action>, i: nat, j: nat, c: Id)
    returns (run': seq<Sys>, steps': seq<Action>)
    requires IsRun(password, run, steps) && i < j < |steps| && steps[j] == Build(c)
    requires c in run[i].relay.room.participants
    ensures IsRun(password, run', steps') && |steps'| == |steps| && steps'[j - 1] == Build(c)
    ensures c in run'[i].relay.room.participants
    ensures Moved(steps', i, j - 1, c) == Moved(steps, i, j, c) && WithIdle(run', i, j - 1, c) == WithIdle(run, i, j, c)
  {
    MemberSince(password, run, steps, i, j - 1, c);
    BuiltOneEarlier(password, run, steps, j, c);
    run', steps' := run[j := Built(run[j - 1], c)], steps[j - 1 := Build(c)][j := steps[j - 1]];
    MovedOne(steps, i, j, c);
    WithIdleOne(run, i, j, c);
  }

  lemma MovedOne(steps: seq<Action>, i: nat, j: nat, c: Id)
    requires i < j < |steps|
    ensures Moved(steps[j - 1 := Build(c)][j := steps[j - 1]], i, j - 1, c) == Moved(steps, i, j, c)
  {
  }

  lemma WithIdleOne(run: seq<Sys>, i: nat, j: nat, c: Id)
    requires i < j < |run|
    ensures WithIdle(run[j := Built(run[j - 1], c)], i, j - 1, c) == WithIdle(run, i, j, c)
  {
  }

  /** A mesh built at step `j` could have been built at any step `i` before, once its
      session was a member: the same other steps then lead to the same states, with an
      idle mesh for `c` in between. */
  lemma {:induction false} EarlyBuildIsTheSame(
    password: string, run: seq<Sys>, steps: seq<Action>, i: nat, j: nat, c: Id)
    requires IsRun(password, run, steps) && i <= j < |steps| && steps[j] == Build(c)
    requires c in run[i].relay.room.participants
    ensures IsRun(password, WithIdle(run, i, j, c), Moved(steps, i, j, c))
    decreases j
  {
    if i == j {
      assert WithIdle(run, i, j, c) == run && Moved(steps, i, j, c) == steps;
    } else {
      var earlier, order := OneEarlier(password, run, steps, i, j, c);
      EarlyBuildIsTheSame(password, earlier, order, i, j - 1, c);
    }
  }
}
