/** Where relayed signals end up: what is sent to a client that is listening, and goes
    on listening, is in what it reads. */
module Placement {
  import opened Types
  import opened Rooms
  import opened Relay
  import opened Delivery

  // ---- Time only adds ----------------------------------------------------------------------

  /** Channels and subscriptions stay, and a stream that a client has stopped
      listening to is never taken up again. */
  ghost predicate Later(s: State, s': State) {
    && |s.room.chans| <= |s'.room.chans| && |s.streams| <= |s'.streams|
    && (forall k :: 0 <= k < |s.room.chans| ==> s.room.chans[k].log <= s'.room.chans[k].log)
    && (forall q :: 0 <= q < |s.streams| && s.streams[q].Subscribed() ==> Continues(s.streams[q], s'.streams[q]))
    && (forall x, q :: 0 <= q < |s.streams| && s.streams[q].Subscribed() && LiveStream(s', x) == Some(q) ==>
          LiveStream(s, x) == Some(q))
  }

  predicate Continues(t: Stream, t': Stream) {
    && t'.Subscribed() && t'.owner == t.owner && t'.chan == t.chan && t'.reader.start == t.reader.start
    && (t'.phase == Live ==> t.phase == Live)
  }

  lemma SendIsLater(s: State, x: Id, e: Entry)
    requires Inv(s)
    ensures Later(s, s.(room := SendTo(s.room, x, e)))
  {
    SendGrows(s.room, x, e);
  }

  lemma EnterIsLater(s: State, req: JoinRequest, max: nat)
    requires Inv(s) && !Busy(s.streams)
    ensures Later(s, s.(room := Rooms.Enter(s.room, max, req).0))
  {
    var s' := s.(room := Rooms.Enter(s.room, max, req).0);
    forall x, q | 0 <= q < |s.streams| && s.streams[q].Subscribed() && LiveStream(s', x) == Some(q)
      ensures LiveStream(s, x) == Some(q)
    {
      assert StreamOk(s.room, s.streams[q]);
    }
  }

  /** One stream moves on; if it was subscribed it stays so. */
  lemma MoveIsLater(s: State, room': Room, i: nat, t': Stream)
    requires i < |s.streams| && room'.participants == s.room.participants
    requires |s.room.chans| == |room'.chans|
    requires forall k :: 0 <= k < |s.room.chans| ==> s.room.chans[k].log <= room'.chans[k].log
    requires s.streams[i].Subscribed() ==> Continues(s.streams[i], t')
    ensures Later(s, s.(room := room', streams := s.streams[i := t']))
  {
  }

  lemma ClientIsLater(s: State, c: Id, cl: Client)
    requires cl.link == ClientOf(s.clients, c).link || cl.link == None
    ensures Later(s, s.(clients := s.clients[c := cl]))
  {
  }

  lemma RequestIsLater(s: State, c: Id)
    requires Inv(s) && Can(s, Request(c))
    ensures Later(s, Do(s, Request(c)))
  {
  }

  lemma PullIsLater(s: State, i: nat)
    requires Can(s, Pull(i)) && StreamOk(s.room, s.streams[i])
    ensures Later(s, Do(s, Pull(i)))
  {
    MoveIsLater(s, Do(s, Pull(i)).room, i, Do(s, Pull(i)).streams[i]);
  }

  lemma ArriveIsLater(s: State, c: Id)
    requires Inv(s) && Can(s, Arrive(c))
    ensures Later(s, Do(s, Arrive(c)))
  {
    var cl := ClientOf(s.clients, c);
    var i := cl.link.value;
    MoveIsLater(s, s.room, i, Arrived(s.streams[i]));
    ClientIsLater(s, c, Do(s, Arrive(c)).clients[c]);
  }

  lemma AnnounceIsLater(s: State, i: nat, x: Id)
    requires Inv(s) && Can(s, Announce(i, x))
    ensures Later(s, Do(s, Announce(i, x)))
  {
    SendGrows(s.room, x, Announcement(s.room, s.streams[i]));
    MoveIsLater(s, Do(s, Announce(i, x)).room, i, Do(s, Announce(i, x)).streams[i]);
  }

  lemma OpeningIsLater(s: State, a: Action)
    requires Inv(s) && Can(s, a) && (a.Snap? || a.Subscribe?)
    ensures Later(s, Do(s, a))
  {
    assert StreamOk(s.room, s.streams[a.i]);
    MoveIsLater(s, Do(s, a).room, a.i, Do(s, a).streams[a.i]);
  }

  lemma EndIsLater(s: State, i: nat)
    requires Inv(s) && Can(s, Drop(i))
    ensures Later(s, End(s, i))
  {
    assert StreamOk(s.room, s.streams[i]);
    MoveIsLater(s, End(s, i).room, i, s.streams[i].(phase := Ended));
  }

  lemma RelayIsLater(s: State, post: Post)
    requires Inv(s) && post in s.net.flight
    ensures Later(s, RelayPost(s, post))
  {
    SendIsLater(s, post.message.to, Relayed(post));
    AnyNetIsLater(s, s.(room := SendTo(s.room, post.message.to, Relayed(post))), RelayPost(s, post).net);
    NetIsLater(s, RelayPost(s, post).net);
  }

  lemma AnyNetIsLater(s: State, s': State, net': Net)
    requires Later(s, s')
    ensures Later(s, s'.(net := net'))
  {
    NetIsLater(s', net');
  }

  lemma NetIsLater(s: State, net': Net)
    ensures Later(s, s.(net := net'))
  {
  }

  lemma DoIsLater(s: State, a: Action)
    requires Inv(s) && Can(s, a)
    ensures Later(s, Do(s, a))
  {
    match a {
      case Enter(req, max) => EnterIsLater(s, req, max);
      case Request(c) => RequestIsLater(s, c);
      case Snap(_, _, _) => OpeningIsLater(s, a);
      case Subscribe(_) => OpeningIsLater(s, a);
      case Announce(i, x) => AnnounceIsLater(s, i, x);
      case Pull(i) => assert StreamOk(s.room, s.streams[i]); PullIsLater(s, i);
      case Drop(i) => EndIsLater(s, i);
      case Detach(c) => ClientIsLater(s, c, ClientOf(s.clients, c).(link := None));
      case Arrive(c) => ArriveIsLater(s, c);
      case Use(c) => ClientIsLater(s, c, ClientOf(s.clients, c).(used := ClientOf(s.clients, c).used + 1));
      case Relay(post) => RelayIsLater(s, post);
      case SendChat(x, event) => SendIsLater(s, x, Entry(event, 0));
      case PostSignal(_, _) => NetIsLater(s, Do(s, a).net);
      case Lose(_) => NetIsLater(s, Do(s, a).net);
    }
  }

  // ---- Placed signals are read --------------------------------------------------------------

  /** From `start` on, `log` holds signal `n` of `f`. */
  ghost predicate Carries(log: seq<Entry>, start: nat, f: Id, n: nat) {
    exists p :: start <= p < |log| && log[p].event.Media? && log[p].event.from == f && log[p].tag == n
  }

  /** Signal `m` of `y` to `x` is still on its way as a post, was lost as one, or is
      in what stream `q` reads. */
  ghost predicate Reaches(s: State, q: nat, y: Id, x: Id, m: nat)
    requires q < |s.streams| && s.streams[q].chan < |s.room.chans| && m < |Posted(s.net, y, x)|
  {
    || Tag(y, x, m) in s.net.lost
    || Relay.Post(y, SignalMessage(x, Posted(s.net, y, x)[m]), m) in s.net.flight
    || Carries(s.room.chans[s.streams[q].chan].log, s.streams[q].reader.start, y, m)
  }

  ghost predicate Subscription(s: State, q: nat) {
    q < |s.streams| && s.streams[q].Subscribed() && s.streams[q].chan < |s.room.chans|
  }

  ghost predicate PlacedOk(s: State, t: Tag, p: Placement) {
    && t.n < |Posted(s.net, t.from, t.to)| && p.back <= |Posted(s.net, t.to, t.from)|
    && Relay.Post(t.from, SignalMessage(t.to, Posted(s.net, t.from, t.to)[t.n]), t.n) !in s.net.flight
    && (p.receiver.Some? ==>
          && Subscription(s, p.receiver.value)
          && var r := s.streams[p.receiver.value]; Carries(s.room.chans[r.chan].log, r.reader.start, t.from, t.n))
    && (p.sender.Some? ==> Subscription(s, p.sender.value))
    && (p.sender.Some? && LiveStream(s, t.from) == p.sender ==>
          forall m :: p.back <= m < |Posted(s.net, t.to, t.from)| ==> Reaches(s, p.sender.value, t.to, t.from, m))
  }

  ghost predicate AllPlaced(s: State) {
    forall t :: t in s.net.placed ==> PlacedOk(s, t, s.net.placed[t])
  }

  lemma CarriesGrows(log: seq<Entry>, log': seq<Entry>, start: nat, f: Id, n: nat)
    requires Carries(log, start, f, n) && log <= log'
    ensures Carries(log', start, f, n)
  {
    var p :| start <= p < |log| && log[p].event.Media? && log[p].event.from == f && log[p].tag == n;
    assert log'[p] == log[p];
  }

  /** Nothing about placed signals changes while the posts stay as they are. */
  lemma LaterKeepsPlaced(s: State, s': State, t: Tag, p: Placement)
    requires Later(s, s') && s'.net == s.net && PlacedOk(s, t, p)
    ensures PlacedOk(s', t, p)
  {
    if p.receiver.Some? {
      var r := s.streams[p.receiver.value];
      assert Continues(r, s'.streams[p.receiver.value]);
      CarriesGrows(s.room.chans[r.chan].log, s'.room.chans[r.chan].log, r.reader.start, t.from, t.n);
    }
    if p.sender.Some? {
      var q := p.sender.value;
      assert Continues(s.streams[q], s'.streams[q]);
      if LiveStream(s', t.from) == p.sender {
        forall m | p.back <= m < |Posted(s.net, t.to, t.from)| ensures Reaches(s', q, t.to, t.from, m) {
          assert Reaches(s, q, t.to, t.from, m);
          var r := s.streams[q];
          if Carries(s.room.chans[r.chan].log, r.reader.start, t.to, m) {
            CarriesGrows(s.room.chans[r.chan].log, s'.room.chans[r.chan].log, r.reader.start, t.to, m);
          }
        }
      }
    }
  }

  lemma PostKeepsPlaced(s: State, from: Id, message: SignalMessage, t: Tag, p: Placement)
    requires Inv(s) && PlacedOk(s, t, p)
    ensures PlacedOk(s.(net := Posting(s.net, from, message)), t, p)
  {
    var s' := s.(net := Posting(s.net, from, message));
    PostingPosts(s.net, from, message, t.from, t.to);
    PostingPosts(s.net, from, message, t.to, t.from);
    if p.sender.Some? && LiveStream(s', t.from) == p.sender {
      forall m | p.back <= m < |Posted(s'.net, t.to, t.from)| ensures Reaches(s', p.sender.value, t.to, t.from, m) {
        if m < |Posted(s.net, t.to, t.from)| { assert Reaches(s, p.sender.value, t.to, t.from, m); }
      }
    }
  }

  lemma ForgetKeepsPlaced(s: State, post: Post, t: Tag, p: Placement)
    requires Inv(s) && post in s.net.flight && PlacedOk(s, t, p)
    ensures PlacedOk(Forget(s, post), t, p)
  {
    var s' := Forget(s, post);
    assert PostOk(s.net, post);
    if p.sender.Some? && LiveStream(s', t.from) == p.sender {
      forall m | p.back <= m < |Posted(s.net, t.to, t.from)| ensures Reaches(s', p.sender.value, t.to, t.from, m) {
        assert Reaches(s, p.sender.value, t.to, t.from, m);
      }
    }
  }

  /** A signal relayed to a client that is listening is in what that client reads. */
  lemma RelayedIsRead(s: State, post: Post, q: nat)
    requires Inv(s) && post in s.net.flight && LiveStream(s, post.message.to) == Some(q)
    ensures Subscription(s, q)
    ensures var r, room' := s.streams[q], SendTo(s.room, post.message.to, Relayed(post));
      |room'.chans| == |s.room.chans| && Carries(room'.chans[r.chan].log, r.reader.start, post.from, post.n)
  {
    var r := s.streams[q];
    assert StreamOk(s.room, r);
    SentIsRead(s.room, s.streams, q, Relayed(post));
    var log' := SendTo(s.room, r.owner, Relayed(post)).chans[r.chan].log;
    assert log'[|s.room.chans[r.chan].log|] == Relayed(post);
  }

  lemma RelayKeepsPlaced(s: State, post: Post, t: Tag, p: Placement)
    requires Inv(s) && post in s.net.flight && post.from in s.room.participants && PlacedOk(s, t, p)
    ensures PlacedOk(RelayPost(s, post), t, p)
  {
    var mid := s.(room := SendTo(s.room, post.message.to, Relayed(post)));
    var s' := RelayPost(s, post);
    SendIsLater(s, post.message.to, Relayed(post));
    LaterKeepsPlaced(s, mid, t, p);
    if p.sender.Some? && LiveStream(s', t.from) == p.sender {
      var q := p.sender.value;
      assert LiveStream(mid, t.from) == p.sender;
      forall m | p.back <= m < |Posted(s.net, t.to, t.from)| ensures Reaches(s', q, t.to, t.from, m) {
        assert Reaches(mid, q, t.to, t.from, m);
        if TagOf(post) == Tag(t.to, t.from, m) { RelayedIsRead(s, post, q); }
      }
    }
  }

  lemma NewPlacement(s: State, post: Post)
    requires Inv(s) && post in s.net.flight && post.from in s.room.participants
    ensures var s' := RelayPost(s, post); PlacedOk(s', TagOf(post), s'.net.placed[TagOf(post)])
  {
    assert PostOk(s.net, post);
    SendGrows(s.room, post.message.to, Relayed(post));
    var to := LiveStream(s, post.message.to);
    if to.Some? { RelayedIsRead(s, post, to.value); }
    var from := LiveStream(s, post.from);
    if from.Some? { assert StreamOk(s.room, s.streams[from.value]); }
  }

  lemma ForgetKeepsAllPlaced(s: State, post: Post)
    requires Inv(s) && AllPlaced(s) && post in s.net.flight
    ensures AllPlaced(Forget(s, post))
  {
    forall t | t in s.net.placed ensures PlacedOk(Forget(s, post), t, s.net.placed[t]) {
      ForgetKeepsPlaced(s, post, t, s.net.placed[t]);
    }
  }

  lemma RelayKeepsAllPlaced(s: State, post: Post)
    requires Inv(s) && AllPlaced(s) && post in s.net.flight
    ensures AllPlaced(RelayPost(s, post))
  {
    if post.from !in s.room.participants {
      ForgetKeepsAllPlaced(s, post);
    } else {
      var s' := RelayPost(s, post);
      forall t | t in s'.net.placed ensures PlacedOk(s', t, s'.net.placed[t]) {
        if t == TagOf(post) { NewPlacement(s, post); }
        else { RelayKeepsPlaced(s, post, t, s.net.placed[t]); }
      }
    }
  }

  lemma PostKeepsAllPlaced(s: State, from: Id, message: SignalMessage)
    requires Inv(s) && AllPlaced(s)
    ensures AllPlaced(s.(net := Posting(s.net, from, message)))
  {
    forall t | t in s.net.placed ensures PlacedOk(s.(net := Posting(s.net, from, message)), t, s.net.placed[t]) {
      PostKeepsPlaced(s, from, message, t, s.net.placed[t]);
    }
  }

  lemma LaterKeepsAllPlaced(s: State, s': State)
    requires Later(s, s') && s'.net == s.net && AllPlaced(s)
    ensures AllPlaced(s')
  {
    forall t | t in s.net.placed ensures PlacedOk(s', t, s.net.placed[t]) {
      LaterKeepsPlaced(s, s', t, s.net.placed[t]);
    }
  }

  lemma NetStays(s: State, a: Action)
    requires Can(s, a) && !a.Lose? && !a.Relay? && !a.PostSignal?
    ensures Do(s, a).net == s.net
  {
  }

  lemma DoKeepsPlaced(s: State, a: Action)
    requires Inv(s) && AllPlaced(s) && Can(s, a)
    ensures AllPlaced(Do(s, a))
  {
    match a {
      case Lose(post) => ForgetKeepsAllPlaced(s, post);
      case Relay(post) => RelayKeepsAllPlaced(s, post);
      case PostSignal(from, message) => PostKeepsAllPlaced(s, from, message);
      case _ =>
        NetStays(s, a);
        DoIsLater(s, a);
        LaterKeepsAllPlaced(s, Do(s, a));
    }
  }
}
