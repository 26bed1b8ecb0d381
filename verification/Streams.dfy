/** What event streams carry over whole runs: whoever is announced is listening, nothing
    is skipped, and a re-join closes the older streams to new events. */
module Streams {
  import opened Types
  import opened Rooms
  import opened System
  import opened Theorems
  import R = Relay
  import D = Delivery
  import L = Placement
  import V = Presence

  // ---- One handler's announcements are a broadcast ---------------------------------------------

  /** Sends `e` to each of `xs` in turn. */
  function TellAll(room: Room, e: Entry, xs: seq<Id>): Room {
    if xs == [] then room else SendTo(TellAll(room, e, xs[..|xs| - 1]), xs[|xs| - 1], e)
  }

  lemma {:induction false} TellAllAt(room: Room, e: Entry, xs: seq<Id>, k: nat)
    requires RoomOk(room) && k < |room.chans|
    requires forall i, j :: 0 <= i < j < |xs| ==> xs[i] != xs[j]
    ensures var room' := TellAll(room, e, xs);
      && room'.participants == room.participants && room'.names == room.names && room'.password == room.password
      && |room'.chans| == |room.chans|
      && room'.chans[k] == if Current(room, k, None) && room.chans[k].owner in xs
                           then Push(room.chans[k], e) else room.chans[k]
  {
    if xs != [] {
      var n := |xs| - 1;
      TellAllAt(room, e, xs[..n], k);
      assert xs == xs[..n] + [xs[n]];
      assert xs[n] !in xs[..n];
    }
  }

  lemma {:induction false} TellAllKeeps(room: Room, e: Entry, xs: seq<Id>)
    ensures TellAll(room, e, xs).(chans := room.chans) == room
    ensures |TellAll(room, e, xs).chans| == |room.chans|
  {
    if xs != [] { TellAllKeeps(room, e, xs[..|xs| - 1]); }
  }

  /** `xs` lists every participant but the one left out, each once. */
  ghost predicate Lists(room: Room, exclude: Option<Id>, xs: seq<Id>) {
    && (forall i, j :: 0 <= i < j < |xs| ==> xs[i] != xs[j])
    && forall x :: x in xs <==> x in room.participants && exclude != Some(x)
  }

  /** Telling everyone but the one left out, if any, one at a time and in any order, comes
      to the same as one broadcast. */
  lemma TellingAllIsBroadcast(room: Room, e: Entry, exclude: Option<Id>, xs: seq<Id>)
    requires RoomOk(room) && Lists(room, exclude, xs)
    ensures TellAll(room, e, xs) == Broadcast(room, e, exclude)
  {
    TellAllKeeps(room, e, xs);
    if room.chans != [] {
      forall k | 0 <= k < |room.chans|
        ensures TellAll(room, e, xs).chans[k] == Broadcast(room, e, exclude).chans[k]
      {
        TellAllAt(room, e, xs, k);
      }
      assert TellAll(room, e, xs).chans == Broadcast(room, e, exclude).chans;
    }
  }

  /** A chat message sent to each of `xs` in turn. */
  ghost function ChatToAll(s: R.State, event: SseEvent, xs: seq<Id>): R.State
    requires event.Chat?
  {
    if xs == [] then s else R.Do(ChatToAll(s, event, xs[..|xs| - 1]), R.SendChat(xs[|xs| - 1], event))
  }

  lemma {:induction false} ChatTellsAll(s: R.State, event: SseEvent, xs: seq<Id>)
    requires event.Chat?
    ensures ChatToAll(s, event, xs) == s.(room := TellAll(s.room, Entry(event, 0), xs))
  {
    if xs != [] { ChatTellsAll(s, event, xs[..|xs| - 1]); }
  }

  /** A chat message goes to every participant, its sender included: the steps that send it
      come to one broadcast that leaves nobody out, which reaches every channel that is read. */
  lemma ChatReachesAll(s: R.State, event: SseEvent, xs: seq<Id>)
    requires event.Chat? && RoomOk(s.room) && Lists(s.room, None, xs)
    ensures ChatToAll(s, event, xs) == s.(room := Broadcast(s.room, Entry(event, 0), None))
    ensures forall id :: id in s.room.participants ==>
      var k := s.room.participants[id];
      && k < |ChatToAll(s, event, xs).room.chans|
      && ChatToAll(s, event, xs).room.chans[k].log ==
         s.room.chans[k].log + if s.room.chans[k].readers == {} then [] else [Entry(event, 0)]
  {
    ChatTellsAll(s, event, xs);
    TellingAllIsBroadcast(s.room, Entry(event, 0), None, xs);
    BroadcastReaches(s.room, Entry(event, 0), None);
  }

  // ---- Streams over a run --------------------------------------------------------------------------

  /** A mesh at work changes what is posted and used, never the room or a stream. */
  lemma MeshStepKeepsStreams(s: Sys, x: Action)
    requires Can(s, x) && !x.Deliver?
    ensures Next(s, x).relay.room == s.relay.room && Next(s, x).relay.streams == s.relay.streams
  {
  }

  predicate SubscribedAt(s: Sys, i: nat, owner: Id, chan: nat) {
    && i < |s.relay.streams| && s.relay.streams[i].Subscribed()
    && s.relay.streams[i].owner == owner && s.relay.streams[i].chan == chan
  }

  lemma NextKeepsSubscription(s: Sys, x: Action, i: nat, owner: Id, chan: nat)
    requires SysInv(s) && Can(s, x) && SubscribedAt(s, i, owner, chan)
    ensures SubscribedAt(Next(s, x), i, owner, chan)
  {
    match x {
      case Deliver(a) =>
        L.DoIsLater(s.relay, a);
        assert L.Continues(s.relay.streams[i], Next(s, x).relay.streams[i]);
      case _ => MeshStepKeepsStreams(s, x);
    }
  }

  lemma SubscriptionStays(
    password: string, run: seq<Sys>, steps: seq<Action>, k: nat, m: nat, i: nat, owner: Id, chan: nat)
    requires IsRun(password, run, steps) && k <= m < |run| && SubscribedAt(run[k], i, owner, chan)
    ensures SubscribedAt(run[m], i, owner, chan)
  {
    forall s, x | SysInv(s) && Can(s, x) && SubscribedAt(s, i, owner, chan)
      ensures SubscribedAt(Next(s, x), i, owner, chan)
    {
      NextKeepsSubscription(s, x, i, owner, chan);
    }
    Stays(password, run, steps, k, m, s => SubscribedAt(s, i, owner, chan));
  }

  /** Whenever `PeerJoined` for a session is sent, the session is subscribed; a signal
      posted to it later, in reaction say, is added to what that very stream has yet
      to read, unless the stream has ended or the session has re-joined meanwhile. */
  lemma AnnouncedHearsReplies(
    password: string, run: seq<Sys>, steps: seq<Action>, k: nat, m: nat, i: nat, x: Id, post: R.Post)
    requires IsRun(password, run, steps) && k < m < |steps|
    requires steps[k] == Deliver(R.Announce(i, x)) && steps[m] == Deliver(R.Action.Relay(post))
    requires i < |run[k].relay.streams| && i < |run[m].relay.streams|
    requires post.message.to == run[k].relay.streams[i].owner && post.from in run[m].relay.room.participants
    requires R.Listening(run[m].relay.room, run[m].relay.streams[i], post.message.to)
    ensures R.Listening(run[k].relay.room, run[k].relay.streams[i], post.message.to)
    ensures var t := run[m].relay.streams[i];
      && t.chan == run[k].relay.streams[i].chan
      && t.chan < |run[m].relay.room.chans| && t.chan < |run[m + 1].relay.room.chans|
      && run[m + 1].relay.room.chans[t.chan].log == run[m].relay.room.chans[t.chan].log + [R.Relayed(post)]
      && t.reader.start <= t.reader.next <= |run[m].relay.room.chans[t.chan].log|
  {
    StepOf(password, run, steps, k);
    AnnouncerIsListening(run[k].relay, i, x);
    var t := run[k].relay.streams[i];
    SubscriptionStays(password, run, steps, k, m, i, t.owner, t.chan);
    StepOf(password, run, steps, m);
    RelayIsRead(run[m].relay, i, post);
  }

  lemma AnnouncerIsListening(s: R.State, i: nat, x: Id)
    requires D.Inv(s) && R.Can(s, R.Announce(i, x))
    ensures R.Listening(s.room, s.streams[i], s.streams[i].owner)
  {
    assert R.StreamOk(s.room, s.streams[i]);
  }

  lemma RelayIsRead(s: R.State, i: nat, post: R.Post)
    requires D.Inv(s) && post in s.net.flight && post.from in s.room.participants && i < |s.streams|
    requires R.Listening(s.room, s.streams[i], post.message.to)
    ensures var t, s' := s.streams[i], R.RelayPost(s, post);
      && t.chan < |s.room.chans| && t.chan < |s'.room.chans|
      && s'.room.chans[t.chan].log == s.room.chans[t.chan].log + [R.Relayed(post)]
      && t.reader.start <= t.reader.next <= |s.room.chans[t.chan].log|
  {
    assert R.StreamOk(s.room, s.streams[i]);
    R.SentIsRead(s.room, s.streams, i, R.Relayed(post));
  }

  // ---- No silent gap ------------------------------------------------------------------------------

  /** Whenever a stream reads, what it has delivered is the unbroken run of its
      channel's log from the subscription on, and the read continues that run or ends
      the stream. */
  lemma NothingIsSkipped(password: string, run: seq<Sys>, steps: seq<Action>, k: nat, i: nat)
    requires IsRun(password, run, steps) && k < |steps| && steps[k] == Deliver(R.Pull(i))
    requires i < |run[k].relay.streams| && run[k].relay.streams[i].reader.sentResync
    ensures i < |run[k + 1].relay.streams|
    ensures var room, t, t' := run[k].relay.room, run[k].relay.streams[i], run[k + 1].relay.streams[i];
      && t.chan < |room.chans| && t.reader.start <= t.reader.next <= |room.chans[t.chan].log|
      && t.reader.delivered == room.chans[t.chan].log[t.reader.start..t.reader.next]
      && if t.reader.next == |room.chans[t.chan].log| then t' == t
         else if |room.chans[t.chan].log| - t.reader.next > 128 then
           t'.phase == R.Ended && t'.reader == t.reader && t'.wire == t.wire
         else
           t'.phase == R.Live && t'.reader.delivered == t.reader.delivered + [room.chans[t.chan].log[t.reader.next]]
  {
    StepOf(password, run, steps, k);
    V.NoSilentGap(run[k].relay, i);
  }

  /** Channel `chan` has been replaced, and carried `log` when it was. */
  ghost predicate ClosedWith(s: Sys, chan: nat, log: seq<Entry>) {
    V.Stale(s.relay.room, chan) && s.relay.room.chans[chan].log == log
  }

  lemma NextKeepsClosed(s: Sys, x: Action, chan: nat, log: seq<Entry>)
    requires Can(s, x) && ClosedWith(s, chan, log)
    ensures ClosedWith(Next(s, x), chan, log)
  {
    match x {
      case Deliver(a) => V.StaleStays(s.relay, a, chan);
      case _ => MeshStepKeepsStreams(s, x);
    }
  }

  /** From a re-join on, nothing is ever sent on the channel that the session had before. */
  lemma RejoinClosesOldChannel(
    password: string, run: seq<Sys>, steps: seq<Action>, k: nat, m: nat, req: JoinRequest, max: nat)
    requires IsRun(password, run, steps) && k < m < |run| && steps[k] == Deliver(R.Enter(req, max))
    requires req.sessionId in run[k].relay.room.participants
    ensures var chan := run[k].relay.room.participants[req.sessionId];
      && chan < |run[k].relay.room.chans| && chan < |run[m].relay.room.chans|
      && run[m].relay.room.chans[chan].log == run[k].relay.room.chans[chan].log
      && V.Stale(run[m].relay.room, chan)
  {
    var chan := run[k].relay.room.participants[req.sessionId];
    var log := ReplacedAt(password, run, steps, k, req, max);
    forall s, x | SysInv(s) && Can(s, x) && ClosedWith(s, chan, log) ensures ClosedWith(Next(s, x), chan, log) {
      NextKeepsClosed(s, x, chan, log);
    }
    Stays(password, run, steps, k + 1, m, s => ClosedWith(s, chan, log));
  }

  lemma ReplacedAt(
    password: string, run: seq<Sys>, steps: seq<Action>, k: nat, req: JoinRequest, max: nat)
    returns (log: seq<Entry>)
    requires IsRun(password, run, steps) && k < |steps| && steps[k] == Deliver(R.Enter(req, max))
    requires req.sessionId in run[k].relay.room.participants
    ensures var room, chan := run[k].relay.room, run[k].relay.room.participants[req.sessionId];
      chan < |room.chans| && log == room.chans[chan].log && ClosedWith(run[k + 1], chan, log)
  {
    StepOf(password, run, steps, k);
    var room := run[k].relay.room;
    V.RejoinMakesStale(run[k].relay, req, max);
    log := room.chans[room.participants[req.sessionId]].log;
  }

  // ---- A channel's readers are its live streams ----------------------------------------------------

  predicate LiveOn(s: R.State, i: nat, k: nat) {
    i < |s.streams| && s.streams[i].phase == R.Live && s.streams[i].chan == k
  }

  ghost predicate ReadersAreLive(s: R.State) {
    forall k: nat, i: nat :: k < |s.room.chans| && i in s.room.chans[k].readers ==> LiveOn(s, i, k)
  }

  lemma SendKeepsReaders(room: Room, x: Id, e: Entry)
    ensures |SendTo(room, x, e).chans| == |room.chans|
    ensures forall k :: 0 <= k < |room.chans| ==> SendTo(room, x, e).chans[k].readers == room.chans[k].readers
  {
  }

  lemma SentKeepsReaders(s: R.State, x: Id, e: Entry)
    requires ReadersAreLive(s)
    ensures ReadersAreLive(s.(room := SendTo(s.room, x, e)))
  {
    SendKeepsReaders(s.room, x, e);
    assert forall k: nat, j: nat :: LiveOn(s, j, k) ==> LiveOn(s.(room := SendTo(s.room, x, e)), j, k);
  }

  lemma RelayKeepsReaders(s: R.State, post: R.Post)
    requires ReadersAreLive(s)
    ensures ReadersAreLive(R.RelayPost(s, post))
  {
    var mid, s' := s.(room := SendTo(s.room, post.message.to, R.Relayed(post))), R.RelayPost(s, post);
    SentKeepsReaders(s, post.message.to, R.Relayed(post));
    assert forall k: nat, j: nat :: LiveOn(mid, j, k) ==> LiveOn(s', j, k);
    assert forall k: nat, j: nat :: LiveOn(s, j, k) ==> LiveOn(s', j, k);
  }

  lemma AnnounceKeepsReaders(s: R.State, i: nat, x: Id)
    requires ReadersAreLive(s) && R.Can(s, R.Announce(i, x))
    ensures ReadersAreLive(R.Do(s, R.Announce(i, x)))
  {
    var e, s' := R.Announcement(s.room, s.streams[i]), R.Do(s, R.Announce(i, x));
    SentKeepsReaders(s, x, e);
    assert forall k: nat, j: nat :: LiveOn(s.(room := SendTo(s.room, x, e)), j, k) ==> LiveOn(s', j, k);
  }

  lemma EndKeepsReaders(s: R.State, i: nat)
    requires ReadersAreLive(s) && i < |s.streams| && s.streams[i].phase == R.Live
    requires s.streams[i].chan < |s.room.chans|
    ensures ReadersAreLive(R.End(s, i))
  {
    var s', chan := R.End(s, i), s.streams[i].chan;
    forall k: nat, j: nat | k < |s'.room.chans| && j in s'.room.chans[k].readers ensures LiveOn(s', j, k) {
      assert j in s.room.chans[k].readers;
      assert LiveOn(s, j, k);
    }
  }

  /** A stream that is dropped is over, and its place among the readers is free; nothing
      else changes. */
  lemma DropEndsStream(s: R.State, i: nat)
    requires D.Inv(s) && R.Can(s, R.Drop(i))
    ensures var s', chan := R.Do(s, R.Drop(i)), s.streams[i].chan;
      && s'.streams == s.streams[i := s.streams[i].(phase := R.Ended)]
      && |s'.room.chans| == |s.room.chans| && s'.clients == s.clients && s'.net == s.net
      && s'.room.chans[chan].readers == s.room.chans[chan].readers - {i}
      && forall k :: 0 <= k < |s.room.chans| ==> s'.room.chans[k].log == s.room.chans[k].log
  {
  }

  lemma HandlerKeepsReaders(s: R.State, a: R.Action)
    requires D.Inv(s) && ReadersAreLive(s) && R.Can(s, a) && (a.Snap? || a.Subscribe?)
    ensures ReadersAreLive(R.Do(s, a))
  {
    assert R.StreamOk(s.room, s.streams[a.i]);
  }

  lemma PullKeepsReaders(s: R.State, i: nat)
    requires ReadersAreLive(s) && R.Can(s, R.Pull(i))
    ensures ReadersAreLive(R.Do(s, R.Pull(i)))
  {
    EndKeepsReaders(s, i);
    var s' := R.Do(s, R.Pull(i));
    if s' != R.End(s, i) {
      assert s'.room == s.room && forall j: nat, k: nat :: LiveOn(s, j, k) ==> LiveOn(s', j, k);
    }
  }

  lemma DoKeepsReaders(s: R.State, a: R.Action)
    requires D.Inv(s) && ReadersAreLive(s) && R.Can(s, a)
    ensures ReadersAreLive(R.Do(s, a))
  {
    match a {
      case Snap(_, _, _) => HandlerKeepsReaders(s, a);
      case Subscribe(_) => HandlerKeepsReaders(s, a);
      case Announce(i, x) => AnnounceKeepsReaders(s, i, x);
      case Pull(i) => PullKeepsReaders(s, i);
      case Drop(i) => EndKeepsReaders(s, i);
      case Relay(post) => RelayKeepsReaders(s, post);
      case SendChat(x, event) => SentKeepsReaders(s, x, Entry(event, 0));
      case _ => OthersKeepReaders(s, a);
    }
  }

  lemma OthersKeepReaders(s: R.State, a: R.Action)
    requires ReadersAreLive(s) && R.Can(s, a)
    requires a.Enter? || a.Request? || a.Detach? || a.Arrive? || a.Use? || a.PostSignal? || a.Lose?
    ensures ReadersAreLive(R.Do(s, a))
  {
    var s' := R.Do(s, a);
    forall k: nat, j: nat | k < |s'.room.chans| && j in s'.room.chans[k].readers ensures LiveOn(s', j, k) {
      assert k < |s.room.chans| && j in s.room.chans[k].readers;
      assert LiveOn(s, j, k);
    }
  }

  lemma NextKeepsReaders(s: Sys, x: Action)
    requires SysInv(s) && Can(s, x) && ReadersAreLive(s.relay)
    ensures ReadersAreLive(Next(s, x).relay)
  {
    match x {
      case Deliver(a) => DoKeepsReaders(s.relay, a);
      case _ => MeshStepKeepsStreams(s, x);
    }
  }

  /** At every moment, those subscribed to a channel are exactly the live streams on it: a
      stream that has ended holds nothing back. */
  lemma ReadersAreTheLiveStreams(
    password: string, run: seq<Sys>, steps: seq<Action>, k: nat, chan: nat, i: nat)
    requires IsRun(password, run, steps) && k < |run| && chan < |run[k].relay.room.chans|
    ensures i in run[k].relay.room.chans[chan].readers <==> LiveOn(run[k].relay, i, chan)
  {
    ReadersStayLive(password, run, steps, k);
    RunHolds(password, run, steps, k);
    LiveIsReader(run[k].relay, i);
  }

  lemma ReadersStayLive(password: string, run: seq<Sys>, steps: seq<Action>, k: nat)
    requires IsRun(password, run, steps) && k < |run|
    ensures ReadersAreLive(run[k].relay)
  {
    assert ReadersAreLive(run[0].relay);
    forall s, x | SysInv(s) && Can(s, x) && ReadersAreLive(s.relay) ensures ReadersAreLive(Next(s, x).relay) {
      NextKeepsReaders(s, x);
    }
    Stays(password, run, steps, 0, k, (s: Sys) => ReadersAreLive(s.relay));
  }

  lemma LiveIsReader(s: R.State, i: nat)
    requires D.Inv(s)
    ensures i < |s.streams| && s.streams[i].phase == R.Live ==>
      s.streams[i].chan < |s.room.chans| && i in s.room.chans[s.streams[i].chan].readers
  {
    if i < |s.streams| { assert R.StreamOk(s.room, s.streams[i]); }
  }
}
