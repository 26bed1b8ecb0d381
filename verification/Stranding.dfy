/** Signals that will never be seen: when a signal becomes one, and that nothing that
    happens later saves it. */
module Stranding {
  import opened Types
  import opened Rooms
  import opened Relay
  import opened Delivery

  // ---- Where a signal can be -----------------------------------------------------------------

  /** The entry carries signal `t`. */
  predicate Is(e: Entry, t: Tag) {
    e.event.Media? && e.event.from == t.from && e.tag == t.n
  }

  ghost predicate InFlight(s: State, t: Tag) {
    exists post :: post in s.net.flight && TagOf(post) == t
  }

  ghost predicate Seen(s: State, t: Tag) {
    exists j :: 0 <= j < |ClientOf(s.clients, t.to).seen| && Is(ClientOf(s.clients, t.to).seen[j], t)
  }

  /** How far a stream gets in its channel's log as it stands: to the end, unless the
      stream is over, or is about to be for lagging too far behind. */
  function Limit(u: Stream, log: seq<Entry>): int {
    if u.phase == Live && |log| - u.reader.next <= SSE_BUFFER_SIZE then |log| else u.reader.next
  }

  /** Stream `u` has yet to bring signal `t` to its client. */
  ghost predicate Brings(room: Room, u: Stream, t: Tag) {
    && u.Subscribed() && u.chan < |room.chans|
    && var log := room.chans[u.chan].log;
      exists p :: u.wire.arrived <= p < Limit(u, log) && p < |log| && Is(log[p], t)
  }

  /** The stream that the addressee listens to has yet to bring the signal. */
  ghost predicate Coming(s: State, t: Tag) {
    var link := ClientOf(s.clients, t.to).link;
    link.Some? && link.value < |s.streams| && Brings(s.room, s.streams[link.value], t)
  }

  /** Signal `t` was posted, and is neither on its way nor seen nor still to come. */
  ghost predicate Stranded(s: State, t: Tag) {
    && t.n < |Posted(s.net, t.from, t.to)|
    && !InFlight(s, t) && !Seen(s, t) && !Coming(s, t)
  }

  // ---- When a signal is stranded --------------------------------------------------------------

  /** A signal in flight is in no channel of its addressee, and has not been seen by it. */
  lemma FlightIsUnseen(s: State, post: Post)
    requires Inv(s) && post in s.net.flight
    ensures var t := TagOf(post);
      && t.n < |Posted(s.net, t.from, t.to)| && !Seen(s, t)
      && (forall k, p :: 0 <= k < |s.room.chans| && s.room.chans[k].owner == t.to && 0 <= p < |s.room.chans[k].log| ==>
            !Is(s.room.chans[k].log[p], t))
      && (forall other :: other in s.net.flight && other != post ==> TagOf(other) != t)
  {
    var t := TagOf(post);
    assert PostOk(s.net, post);
    assert ClientOk(s.room, s.streams, s.net, t.to, ClientOf(s.clients, t.to));
    forall k, p | 0 <= k < |s.room.chans| && s.room.chans[k].owner == t.to && 0 <= p < |s.room.chans[k].log|
      ensures !Is(s.room.chans[k].log[p], t)
    {
      assert LogOk(s.room.participants.Keys, s.net, t.to, s.room.chans[k].log);
    }
    forall other | other in s.net.flight && other != post ensures TagOf(other) != t {
      assert PostOk(s.net, other);
    }
  }

  /** `c` listens on its current channel, and one more event will not make it lag too far. */
  predicate Hears(s: State, c: Id) {
    var live := LiveStream(s, c);
    && live.Some? && s.streams[live.value].chan < |s.room.chans|
    && |s.room.chans[s.streams[live.value].chan].log| - s.streams[live.value].reader.next < SSE_BUFFER_SIZE
  }

  lemma LinkedIsOwn(s: State, c: Id)
    requires Inv(s) && ClientOf(s.clients, c).link.Some?
    ensures var i := ClientOf(s.clients, c).link.value;
      && i < |s.streams| && s.streams[i].owner == c && StreamOk(s.room, s.streams[i])
  {
    assert ClientOk(s.room, s.streams, s.net, c, ClientOf(s.clients, c));
  }

  /** Relaying strands a signal exactly when its addressee does not hear it. */
  lemma UnheardIsStranded(s: State, post: Post)
    requires Inv(s) && post in s.net.flight && post.from in s.room.participants
    ensures Stranded(RelayPost(s, post), TagOf(post)) <==> !Hears(s, post.message.to)
  {
    var t, s' := TagOf(post), RelayPost(s, post);
    FlightIsUnseen(s, post);
    assert !InFlight(s', t) && !Seen(s', t);
    if ClientOf(s.clients, t.to).link.Some? {
      LinkedIsOwn(s, t.to);
      RelayedComes(s.room, s.streams[ClientOf(s.clients, t.to).link.value], post);
    }
  }

  /** What a stream brings of an event sent to its owner and unlike those before it. */
  lemma RelayedComes(room: Room, u: Stream, post: Post)
    requires RoomOk(room) && StreamOk(room, u) && u.owner == post.message.to
    requires u.Subscribed() ==>
      forall p :: 0 <= p < |room.chans[u.chan].log| ==> !Is(room.chans[u.chan].log[p], TagOf(post))
    requires u.phase == Live ==> room.chans[u.chan].readers != {}
    ensures Brings(SendTo(room, u.owner, Relayed(post)), u, TagOf(post)) <==>
      Listening(room, u, u.owner) && |room.chans[u.chan].log| - u.reader.next < SSE_BUFFER_SIZE
  {
    var room', t := SendTo(room, u.owner, Relayed(post)), TagOf(post);
    if u.Subscribed() {
      var log, log' := room.chans[u.chan].log, room'.chans[u.chan].log;
      if u.owner in room.participants { PushKeepsOk(room.chans[room.participants[u.owner]], Relayed(post)); }
      if Listening(room, u, u.owner) {
        assert log' == log + [Relayed(post)];
        assert Is(log'[|log|], t);
      }
      assert forall p :: 0 <= p < |log| ==> log'[p] == log[p];
    }
  }

  /** A post that fails, or is refused, is stranded. */
  lemma LostIsStranded(s: State, post: Post)
    requires Inv(s) && post in s.net.flight
    ensures Stranded(Do(s, Lose(post)), TagOf(post))
    ensures post.from !in s.room.participants ==> Stranded(RelayPost(s, post), TagOf(post))
  {
    FlightIsUnseen(s, post);
    var t, s' := TagOf(post), Forget(s, post);
    assert !InFlight(s', t) && !Seen(s', t);
    if Coming(s', t) { LinkedIsOwn(s, t.to); }
  }

  // ---- What is stranded stays stranded -------------------------------------------------------------

  lemma SendBrings(room: Room, u: Stream, x: Id, e: Entry, t: Tag)
    requires RoomOk(room) && StreamOk(room, u) && (x == u.owner ==> !Is(e, t))
    requires Brings(SendTo(room, x, e), u, t)
    ensures Brings(room, u, t)
  {
    var room' := SendTo(room, x, e);
    var log, log' := room.chans[u.chan].log, room'.chans[u.chan].log;
    if x in room.participants { PushKeepsOk(room.chans[room.participants[x]], e); }
    var p :| u.wire.arrived <= p < Limit(u, log') && p < |log'| && Is(log'[p], t);
    assert p < |log| && log[p] == log'[p];
  }

  lemma SendKeepsStranded(s: State, x: Id, e: Entry, t: Tag)
    requires Inv(s) && Stranded(s, t) && (x == t.to ==> !Is(e, t))
    ensures Stranded(s.(room := SendTo(s.room, x, e)), t)
  {
    var s' := s.(room := SendTo(s.room, x, e));
    assert !InFlight(s', t) && !Seen(s', t);
    if Coming(s', t) {
      LinkedIsOwn(s, t.to);
      SendBrings(s.room, s.streams[ClientOf(s.clients, t.to).link.value], x, e, t);
    }
  }

  /** A step of the server that moves stream `i`, adds to no log and touches no client. */
  lemma MoveKeepsStranded(s: State, room': Room, i: nat, u': Stream, t: Tag)
    requires Stranded(s, t) && i < |s.streams|
    requires |s.room.chans| <= |room'.chans|
    requires forall k :: 0 <= k < |s.room.chans| ==> room'.chans[k].log == s.room.chans[k].log
    requires forall j :: 0 <= j < |s.streams| && s.streams[j].Subscribed() ==> s.streams[j].chan < |s.room.chans|
    requires Brings(room', u', t) ==> Brings(s.room, s.streams[i], t)
    ensures Stranded(s.(room := room', streams := s.streams[i := u']), t)
  {
    var s' := s.(room := room', streams := s.streams[i := u']);
    assert !InFlight(s', t) && !Seen(s', t);
    assert forall j :: 0 <= j < |s.streams| && j != i && Brings(room', s.streams[j], t) ==>
        Brings(s.room, s.streams[j], t);
  }

  lemma ChansInRange(s: State)
    requires Inv(s)
    ensures forall j :: 0 <= j < |s.streams| && s.streams[j].Subscribed() ==> s.streams[j].chan < |s.room.chans|
  {
    forall j | 0 <= j < |s.streams| && s.streams[j].Subscribed() ensures s.streams[j].chan < |s.room.chans| {
      assert StreamOk(s.room, s.streams[j]);
    }
  }

  lemma EnterKeepsStranded(s: State, req: JoinRequest, max: nat, t: Tag)
    requires Inv(s) && Stranded(s, t)
    ensures Stranded(s.(room := Rooms.Enter(s.room, max, req).0), t)
  {
    var s' := s.(room := Rooms.Enter(s.room, max, req).0);
    ChansInRange(s);
    assert !InFlight(s', t) && !Seen(s', t);
    assert forall k :: 0 <= k < |s.room.chans| ==> s'.room.chans[k] == s.room.chans[k];
    assert forall j :: 0 <= j < |s.streams| && Brings(s'.room, s.streams[j], t) ==> Brings(s.room, s.streams[j], t);
  }

  /** A stream that begins brings only what is sent from then on. */
  lemma OpeningKeepsStranded(s: State, a: Action, t: Tag)
    requires Inv(s) && Stranded(s, t) && Can(s, a) && (a.Snap? || a.Subscribe?)
    ensures Stranded(Do(s, a), t)
  {
    ChansInRange(s);
    var s' := Do(s, a);
    assert StreamOk(s.room, s.streams[a.i]);
    assert !Brings(s'.room, s'.streams[a.i], t);
    MoveKeepsStranded(s, s'.room, a.i, s'.streams[a.i], t);
  }

  lemma EndKeepsStranded(s: State, i: nat, t: Tag)
    requires Inv(s) && Stranded(s, t) && i < |s.streams| && s.streams[i].phase == Live
    requires s.streams[i].chan < |s.room.chans|
    ensures Stranded(End(s, i), t)
  {
    ChansInRange(s);
    var s', u := End(s, i), s.streams[i];
    assert StreamOk(s.room, u);
    if Brings(s'.room, s'.streams[i], t) {
      var log := s.room.chans[u.chan].log;
      var p :| u.wire.arrived <= p < u.reader.next && p < |log| && Is(log[p], t);
      assert Brings(s.room, u, t);
    }
    MoveKeepsStranded(s, s'.room, i, s'.streams[i], t);
  }

  lemma PullKeepsStranded(s: State, i: nat, t: Tag)
    requires Inv(s) && Stranded(s, t) && Can(s, Pull(i))
    ensures Stranded(Do(s, Pull(i)), t)
  {
    ChansInRange(s);
    var u, s' := s.streams[i], Do(s, Pull(i));
    assert StreamOk(s.room, u);
    ReadFollowsLog(s.room.chans[u.chan], u.reader.next);
    if u.reader.sentResync && Read(s.room.chans[u.chan], u.reader.next).Lagged? {
      EndKeepsStranded(s, i, t);
    } else {
      assert Limit(s'.streams[i], s.room.chans[u.chan].log) == Limit(u, s.room.chans[u.chan].log);
      MoveKeepsStranded(s, s.room, i, s'.streams[i], t);
    }
  }

  lemma ArriveKeepsStranded(s: State, c: Id, t: Tag)
    requires Inv(s) && Stranded(s, t) && Can(s, Arrive(c))
    ensures Stranded(Do(s, Arrive(c)), t)
  {
    var s', i := Do(s, Arrive(c)), ClientOf(s.clients, c).link.value;
    LinkedIsOwn(s, c);
    var u := s.streams[i];
    FirstIsBrought(s.room, u, t);
    assert !InFlight(s', t) && (c == t.to ==> !Is(u.wire.items[0], t));
    ArrivedBrings(s.room, u, t);
  }

  lemma FirstIsBrought(room: Room, u: Stream, t: Tag)
    requires StreamOk(room, u) && u.wire.items != []
    ensures Is(u.wire.items[0], t) ==> Brings(room, u, t)
  {
    var log := room.chans[u.chan].log;
    ArriveFollows(u, log);
    assert u.wire.gotResync ==> log[u.wire.arrived] == u.wire.items[0];
  }

  lemma ArrivedBrings(room: Room, u: Stream, t: Tag)
    requires u.wire.items != []
    ensures Brings(room, Arrived(u), t) ==> Brings(room, u, t)
  {
  }

  lemma ClientKeepsStranded(s: State, a: Action, t: Tag)
    requires Inv(s) && Stranded(s, t) && Can(s, a) && (a.Request? || a.Detach? || a.Use?)
    ensures Stranded(Do(s, a), t)
  {
    var s' := Do(s, a);
    assert !InFlight(s', t) && !Seen(s', t);
    ChansInRange(s);
  }

  lemma PostKeepsStranded(s: State, from: Id, message: SignalMessage, t: Tag)
    requires Stranded(s, t)
    ensures Stranded(s.(net := Posting(s.net, from, message)), t)
  {
    var s' := s.(net := Posting(s.net, from, message));
    PostingPosts(s.net, from, message, t.from, t.to);
    assert !InFlight(s', t) && !Seen(s', t) && !Coming(s', t);
  }

  lemma ForgetKeepsStranded(s: State, post: Post, t: Tag)
    requires Stranded(s, t)
    ensures Stranded(Forget(s, post), t)
  {
    var s' := Forget(s, post);
    assert !InFlight(s', t) && !Seen(s', t) && !Coming(s', t);
  }

  lemma RelayKeepsStranded(s: State, post: Post, t: Tag)
    requires Inv(s) && Stranded(s, t) && post in s.net.flight
    ensures Stranded(RelayPost(s, post), t)
  {
    assert TagOf(post) != t;
    if post.from !in s.room.participants {
      ForgetKeepsStranded(s, post, t);
    } else {
      SendKeepsStranded(s, post.message.to, Relayed(post), t);
      var mid, s' := s.(room := SendTo(s.room, post.message.to, Relayed(post))), RelayPost(s, post);
      assert !InFlight(s', t) && !Seen(s', t) && (Coming(s', t) ==> Coming(mid, t));
    }
  }

  /** What is stranded stays stranded: no resync, reconnect or re-join brings it back. */
  lemma DoKeepsStranded(s: State, a: Action, t: Tag)
    requires Inv(s) && Stranded(s, t) && Can(s, a)
    ensures Stranded(Do(s, a), t)
  {
    match a {
      case Enter(req, max) => EnterKeepsStranded(s, req, max, t);
      case Snap(_, _, _) => OpeningKeepsStranded(s, a, t);
      case Subscribe(_) => OpeningKeepsStranded(s, a, t);
      case Announce(i, x) => AnnounceKeepsStranded(s, i, x, t);
      case Pull(i) => PullKeepsStranded(s, i, t);
      case Drop(i) => EndKeepsStranded(s, i, t);
      case Arrive(c) => ArriveKeepsStranded(s, c, t);
      case PostSignal(from, message) => PostKeepsStranded(s, from, message, t);
      case Relay(post) => RelayKeepsStranded(s, post, t);
      case Lose(post) => ForgetKeepsStranded(s, post, t);
      case SendChat(x, event) => SendKeepsStranded(s, x, Entry(event, 0), t);
      case _ => ClientKeepsStranded(s, a, t);
    }
  }

  lemma AnnounceKeepsStranded(s: State, i: nat, x: Id, t: Tag)
    requires Inv(s) && Stranded(s, t) && Can(s, Announce(i, x))
    ensures Stranded(Do(s, Announce(i, x)), t)
  {
    var u := s.streams[i];
    var mid, u' := s.(room := SendTo(s.room, x, Announcement(s.room, u))), u.(unannounced := u.unannounced - {x});
    SendKeepsStranded(s, x, Announcement(s.room, u), t);
    SendKeepsRange(s, x, Announcement(s.room, u));
    MoveKeepsStranded(mid, mid.room, i, u', t);
  }

  lemma SendKeepsRange(s: State, x: Id, e: Entry)
    requires Inv(s)
    ensures forall j :: 0 <= j < |s.streams| && s.streams[j].Subscribed() ==>
              s.streams[j].chan < |SendTo(s.room, x, e).chans|
  {
    ChansInRange(s);
  }

  // ---- Stranded means never to arrive ------------------------------------------------------------

  ghost predicate IsPath(run: seq<State>, steps: seq<Action>) {
    && |run| == |steps| + 1
    && forall k :: 0 <= k < |steps| ==> Can(run[k], steps[k]) && run[k + 1] == Do(run[k], steps[k])
  }

  /** Some continuation brings the signal to its addressee. */
  ghost predicate MayArrive(s: State, t: Tag) {
    exists run: seq<State>, steps :: IsPath(run, steps) && run[0] == s && Seen(run[|steps|], t)
  }

  lemma {:induction false} PathKeepsStranded(run: seq<State>, steps: seq<Action>, k: nat, t: Tag)
    requires IsPath(run, steps) && k <= |steps| && Inv(run[0]) && Stranded(run[0], t)
    ensures Inv(run[k]) && Stranded(run[k], t)
  {
    if k > 0 {
      PathKeepsStranded(run, steps, k - 1, t);
      DoKeepsInv(run[k - 1], steps[k - 1]);
      DoKeepsStranded(run[k - 1], steps[k - 1], t);
      assert run[k] == Do(run[k - 1], steps[k - 1]);
    }
  }

  lemma StepsLater(s: State, a: Action, t: Tag)
    requires Can(s, a) && MayArrive(Do(s, a), t)
    ensures MayArrive(s, t)
  {
    var run: seq<State>, steps :| IsPath(run, steps) && run[0] == Do(s, a) && Seen(run[|steps|], t);
    var run', steps' := [s] + run, [a] + steps;
    assert IsPath(run', steps') && run'[0] == s && run'[|steps'|] == run[|steps|];
  }

  lemma SeenHasArrived(s: State, t: Tag)
    requires Seen(s, t)
    ensures MayArrive(s, t)
  {
    var run, steps: seq<Action> := [s], [];
    assert IsPath(run, steps) && run[0] == s && Seen(run[|steps|], t);
  }

  /** The addressee's stream `i` holds the signal at `p`, and will get there. */
  ghost predicate On(s: State, i: nat, p: nat, t: Tag) {
    && Inv(s) && ClientOf(s.clients, t.to).link == Some(i) && i < |s.streams|
    && var u := s.streams[i];
      && u.Subscribed() && u.chan < |s.room.chans|
      && var log := s.room.chans[u.chan].log;
         u.wire.arrived <= p < Limit(u, log) && p < |log| && Is(log[p], t)
  }

  function Unread(s: State, i: nat): int
    requires i < |s.streams| && s.streams[i].chan < |s.room.chans|
  {
    var r := s.streams[i].reader;
    |s.room.chans[s.streams[i].chan].log| - r.next + if r.sentResync then 0 else 1
  }

  /** What arrives first is entry `p` itself, or leaves it still to come. */
  lemma ArrivesInTurn(u: Stream, log: seq<Entry>, p: nat)
    requires Follows(u, log) && u.wire.items != [] && u.wire.arrived <= p < Limit(u, log) && p < |log|
    ensures u.wire.items[0] == log[p] || Arrived(u).wire.arrived <= p
    ensures Limit(Arrived(u), log) == Limit(u, log)
  {
    ArriveFollows(u, log);
  }

  lemma ArriveMovesOn(s: State, i: nat, p: nat, t: Tag)
    requires On(s, i, p, t) && s.streams[i].wire.items != []
    ensures Can(s, Arrive(t.to))
    ensures var u, s' := s.streams[i], Do(s, Arrive(t.to));
      || Seen(s', t)
      || (On(s', i, p, t) && s'.streams[i].unannounced == u.unannounced && Unread(s', i) == Unread(s, i)
          && |s'.streams[i].wire.items| < |u.wire.items|)
  {
    var u := s.streams[i];
    assert StreamOk(s.room, u);
    ArrivesInTurn(u, s.room.chans[u.chan].log, p);
    ArrivalIsSeen(s, i, t);
    DoKeepsInv(s, Arrive(t.to));
  }

  lemma ArrivalIsSeen(s: State, i: nat, t: Tag)
    requires ClientOf(s.clients, t.to).link == Some(i) && i < |s.streams| && s.streams[i].wire.items != []
    ensures Is(s.streams[i].wire.items[0], t) ==> Seen(Do(s, Arrive(t.to)), t)
  {
    var seen := ClientOf(Do(s, Arrive(t.to)).clients, t.to).seen;
    assert seen[|seen| - 1] == s.streams[i].wire.items[0];
  }

  lemma AnnounceMovesOn(s: State, i: nat, p: nat, t: Tag, x: Id)
    requires On(s, i, p, t) && x in s.streams[i].unannounced
    ensures Can(s, Announce(i, x))
    ensures var u, s' := s.streams[i], Do(s, Announce(i, x));
      On(s', i, p, t) && s'.streams[i].unannounced < u.unannounced
  {
    var u := s.streams[i];
    assert StreamOk(s.room, u) && u.phase == Live && x != u.owner;
    DoKeepsInv(s, Announce(i, x));
    assert s.room.participants[x] != u.chan;
  }

  lemma PullMovesOn(s: State, i: nat, p: nat, t: Tag)
    requires On(s, i, p, t) && s.streams[i].wire.items == [] && s.streams[i].unannounced == {}
    ensures Can(s, Pull(i))
    ensures var s' := Do(s, Pull(i));
      On(s', i, p, t) && s'.streams[i].unannounced == {} && 0 <= Unread(s', i) < Unread(s, i)
  {
    var u := s.streams[i];
    var ch := s.room.chans[u.chan];
    assert StreamOk(s.room, u);
    assert Unseen(u) == [] && u.wire.arrived == u.reader.next;
    RangeIsNoRestriction(s, i);
    ReadFollowsLog(ch, u.reader.next);
    DoKeepsInv(s, Pull(i));
  }

  /** What a stream has yet to bring does get there if the stream is left to go on. */
  lemma {:induction false} BroughtInTime(s: State, i: nat, p: nat, t: Tag)
    requires On(s, i, p, t)
    ensures MayArrive(s, t)
    decreases s.streams[i].unannounced, Unread(s, i), |s.streams[i].wire.items|
  {
    var u := s.streams[i];
    if u.wire.items != [] {
      ArriveMovesOn(s, i, p, t);
      var s' := Do(s, Arrive(t.to));
      if Seen(s', t) { SeenHasArrived(s', t); } else { BroughtInTime(s', i, p, t); }
      StepsLater(s, Arrive(t.to), t);
    } else if u.unannounced != {} {
      var x :| x in u.unannounced;
      AnnounceMovesOn(s, i, p, t, x);
      BroughtInTime(Do(s, Announce(i, x)), i, p, t);
      StepsLater(s, Announce(i, x), t);
    } else {
      PullMovesOn(s, i, p, t);
      BroughtInTime(Do(s, Pull(i)), i, p, t);
      StepsLater(s, Pull(i), t);
    }
  }

  /** A signal that is no longer on its way and not yet seen is stranded exactly when
      nothing that can happen from here on brings it to its addressee. */
  lemma StrandedIsForGood(s: State, t: Tag)
    requires Inv(s) && t.n < |Posted(s.net, t.from, t.to)| && !InFlight(s, t) && !Seen(s, t)
    ensures Stranded(s, t) <==> !MayArrive(s, t)
  {
    if Coming(s, t) {
      var i := ClientOf(s.clients, t.to).link.value;
      var u := s.streams[i];
      var log := s.room.chans[u.chan].log;
      var p :| u.wire.arrived <= p < Limit(u, log) && p < |log| && Is(log[p], t);
      BroughtInTime(s, i, p, t);
    } else {
      forall run: seq<State>, steps | IsPath(run, steps) && run[0] == s ensures !Seen(run[|steps|], t) {
        PathKeepsStranded(run, steps, |steps|, t);
      }
    }
  }
}
