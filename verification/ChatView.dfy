/** What a client's chat list holds, however handlers, reconnects, re-joins and ring
    eviction interleave. */
module ChatView {
  import opened Types
  import opened Rooms
  import opened Chat

  // ---- The invariant over every step -----------------------------------------------------------

  lemma PushGrows(chans: seq<Channel>, e: Entry, k: nat)
    requires k < |chans|
    ensures |PushLast(chans, e)| == |chans| && PushLast(chans, e)[k].readers == chans[k].readers
    ensures PushLast(chans, e)[k].log ==
            if k == |chans| - 1 && chans[k].readers != {} then chans[k].log + [e] else chans[k].log
  {
  }

  lemma PushKeeps(board: Board, chans: seq<Channel>, e: Entry, k: nat)
    requires k < |chans| && ChanOk(board, chans[k]) && EntryOk(board, e)
    ensures |PushLast(chans, e)| == |chans| && ChanOk(board, PushLast(chans, e)[k])
  {
    PushKeepsOk(chans[k], e);
    PushGrows(chans, e, k);
  }

  lemma TagsSnoc(es: seq<Entry>, e: Entry)
    ensures Tags(es + [e]) == if e.event.Chat? then Tags(es) + [e.tag] else Tags(es)
  {
    assert (es + [e])[..|es|] == es;
  }

  predicate Pushes(board: Board, board': Board, e: Entry) {
    && board' == board.(sent := board'.sent, chans := PushLast(board.chans, e))
    && EntryOk(board', e)
    && if e.event.Chat? then e.tag !in board.sent && board'.sent == board.sent + {e.tag} else board'.sent == board.sent
  }

  lemma PushKeepsBoard(board: Board, board': Board, e: Entry)
    requires BoardOk(board) && Pushes(board, board', e)
    ensures BoardOk(board')
  {
    forall k | 0 <= k < |board'.chans| ensures ChanOk(board', board'.chans[k]) {
      PushKeeps(board', board.chans, e, k);
    }
  }

  lemma PushKeepsLive(board: Board, board': Board, ch: Channel, ch': Channel, r: Reader, current: bool, e: Entry)
    requires LiveOk(board, ch, r, current) && Pushes(board, board', e)
    requires ch'.log == ch.log + [e] || (!current && ch'.log == ch.log)
    ensures LiveOk(board', ch', r, current)
  {
    if ch'.log == ch.log + [e] {
      assert From(ch', r.start) == From(ch, r.start) + [e];
      TagsSnoc(From(ch, r.start), e);
    }
  }

  /** An entry pushed to the current channel: chat that is sent now, or anything else. */
  lemma PushKeepsStream(board: Board, board': Board, e: Entry, conns: nat, stream: Stream)
    requires BoardOk(board) && StreamOk(board, conns, stream) && Pushes(board, board', e)
    ensures BoardOk(board') && StreamOk(board', conns, stream)
  {
    PushKeepsBoard(board, board', e);
    if stream.Subscribed? {
      var k := stream.o.chan;
      PushGrows(board.chans, e, k);
      PushKeepsLive(board, board', board.chans[k], board'.chans[k], stream.r, stream.open && k == |board.chans| - 1, e);
    }
  }

  lemma AppendKeeps(s: State, mine: Id, msg: ChatMessage)
    requires Inv(s, mine)
    ensures Inv(s.(board := Appended(s.board, msg)), mine)
  {
    AppendKeepsLast(s.board.log, msg);
    if !s.stream.Idle? {
      assert Appended(s.board, msg).log[..s.stream.o.read] == s.board.log[..s.stream.o.read];
    }
  }

  lemma JoinKeeps(s: State, mine: Id)
    requires Inv(s, mine)
    ensures Inv(Next(s, mine, Join), mine)
  {
  }

  lemma OpenKeeps(s: State, mine: Id, peers: seq<PeerInfo>)
    requires Inv(s, mine) && s.board.chans != []
    ensures Inv(OpenedFor(s, peers), mine)
  {
    assert s.board.log[..|s.board.log|] == s.board.log;
  }

  lemma SubscribeKeeps(s: State, mine: Id)
    requires Inv(s, mine) && Can(s, Subscribe)
    ensures Inv(SubscribedTo(s), mine)
  {
  }

  lemma WithoutKeeps(s: State, mine: Id, reader: nat)
    requires Inv(s, mine)
    ensures var board' := s.board.(chans := Without(s.board.chans, reader));
      && BoardOk(board')
      && (!(s.stream.Subscribed? && s.stream.open && reader == s.conns) ==> StreamOk(board', s.conns, s.stream))
  {
    var board' := s.board.(chans := Without(s.board.chans, reader));
    forall k | 0 <= k < |board'.chans| ensures ChanOk(board', board'.chans[k]) {
      assert ChanOk(s.board, s.board.chans[k]);
    }
    if s.stream.Subscribed? {
      var k, r := s.stream.o.chan, s.stream.r;
      assert From(board'.chans[k], r.start) == From(s.board.chans[k], r.start);
    }
  }

  lemma EndKeeps(s: State, mine: Id)
    requires Inv(s, mine) && s.stream.Subscribed?
    ensures Inv(Ended(s), mine)
  {
    WithoutKeeps(s.(stream := s.stream.(open := false)), mine, s.conns);
  }

  lemma PullKeepsWire(ch: Channel, resync: SseEvent, r: Reader)
    requires WireOk(ch, resync, r) && r.next < |ch.log|
    ensures WireOk(ch, resync, r.(next := r.next + 1, wire := r.wire + [ch.log[r.next]]))
  {
    assert ch.log[r.start..r.next + 1] == ch.log[r.start..r.next] + [ch.log[r.next]];
    assert r.arrived + (r.wire + [ch.log[r.next]]) == (r.arrived + r.wire) + [ch.log[r.next]];
  }

  lemma PullKeeps(s: State, mine: Id)
    requires Inv(s, mine) && Can(s, Pull)
    ensures Inv(Pulled(s), mine)
  {
    var ch, r := s.board.chans[s.stream.o.chan], s.stream.r;
    ReadFollowsLog(ch, r.next);
    if Read(ch, r.next).Got? {
      PullKeepsWire(ch, s.stream.o.resync, r);
    } else {
      EndKeeps(s, mine);
    }
  }

  lemma ArriveKeepsWire(ch: Channel, resync: SseEvent, r: Reader)
    requires WireOk(ch, resync, r) && r.wire != []
    ensures WireOk(ch, resync, r.(wire := r.wire[1..], arrived := r.arrived + [r.wire[0]]))
    ensures r.arrived == [] ==> r.wire[0] == Entry(resync, 0)
  {
    assert r.arrived == [] ==> r.wire[0] == (r.arrived + r.wire)[0];
    assert r.arrived + r.wire == (r.arrived + [r.wire[0]]) + r.wire[1..];
  }

  lemma ArriveKeeps(s: State, mine: Id)
    requires Inv(s, mine) && Can(s, Arrive)
    ensures Inv(Arrived(s, mine), mine)
  {
    var r := s.stream.r;
    ArriveKeepsWire(s.board.chans[s.stream.o.chan], s.stream.o.resync, r);
    assert (r.arrived + [r.wire[0]])[..|r.arrived|] == r.arrived;
  }

  lemma NextKeeps(s: State, mine: Id, a: Action)
    requires Inv(s, mine) && Can(s, a)
    ensures Inv(Next(s, mine, a), mine)
  {
    match a {
      case Append(msg) => AppendKeeps(s, mine, msg);
      case Send(i) => PushKeepsStream(s.board, Sent(s.board, i), Entry(Live(s.board.log[i]), i), s.conns, s.stream);
      case Other(e) =>
        PushKeepsStream(s.board, s.board.(chans := PushLast(s.board.chans, e)), e, s.conns, s.stream);
      case Join => JoinKeeps(s, mine);
      case Open(peers) => OpenKeeps(s, mine, peers);
      case Subscribe => SubscribeKeeps(s, mine);
      case Pull => PullKeeps(s, mine);
      case Arrive => ArriveKeeps(s, mine);
      case End => EndKeeps(s, mine);
      case Leave(reader) => WithoutKeeps(s, mine, reader);
    }
  }

  /** What goes on around the stream: an event other than chat is put on the current
      channel, a join opens a new one, and whoever ends or leaves stops reading. */
  lemma Surroundings(s: State, mine: Id, e: Entry, reader: nat)
    ensures Can(s, Other(e)) ==>
      var chans, chans' := s.board.chans, Next(s, mine, Other(e)).board.chans;
      chans' == chans[|chans| - 1 := Push(chans[|chans| - 1], e)]
    ensures Next(s, mine, Join).board.chans == s.board.chans + [Channel(mine, 0, [], {}, [])]
    ensures Can(s, End) ==>
      var s' := Next(s, mine, End);
      && s'.stream == s.stream.(open := false)
      && forall k :: 0 <= k < |s'.board.chans| ==> s'.board.chans[k].readers == s.board.chans[k].readers - {s.conns}
    ensures Can(s, Leave(reader)) ==>
      var s' := Next(s, mine, Leave(reader));
      && |s'.board.chans| == |s.board.chans|
      && forall k :: 0 <= k < |s'.board.chans| ==>
           s'.board.chans[k] == s.board.chans[k].(readers := s.board.chans[k].readers - {reader})
  {
  }

  ghost predicate IsRun(mine: Id, run: seq<State>, steps: seq<Action>) {
    && |run| == |steps| + 1 && run[0] == Empty
    && forall k :: 0 <= k < |steps| ==> Can(run[k], steps[k]) && run[k + 1] == Next(run[k], mine, steps[k])
  }

  lemma {:induction false} RunHolds(mine: Id, run: seq<State>, steps: seq<Action>, k: nat)
    requires IsRun(mine, run, steps) && k < |run|
    ensures Inv(run[k], mine)
  {
    if k > 0 {
      RunHolds(mine, run, steps, k - 1);
      NextKeeps(run[k - 1], mine, steps[k - 1]);
      assert run[k] == Next(run[k - 1], mine, steps[k - 1]);
    }
  }

  // ---- The list is the history read, then what was sent since ------------------------------------

  /** The messages of the log at the places `idx`, as shown. */
  function Picked(log: seq<ChatMessage>, idx: seq<nat>, mine: Id): seq<UiChatMsg>
    requires forall j :: 0 <= j < |idx| ==> idx[j] < |log|
  {
    seq(|idx|, j requires 0 <= j < |idx| => Stored(log[idx[j]], Some(mine)))
  }

  /** The places `from`, `from + 1`, ... up to but not including `to`. */
  function Range(from: nat, to: nat): (r: seq<nat>)
    requires from <= to
    ensures |r| == to - from && forall j :: 0 <= j < |r| ==> r[j] == from + j
  {
    seq(to - from, j requires 0 <= j < to - from => from + j)
  }

  /** Where the history read at `read` begins. */
  function Window(read: nat): (w: nat)
    ensures w <= read
  {
    if read <= RESYNC_HISTORY then 0 else read - RESYNC_HISTORY
  }

  /** What a stream has shown: the window of history, then the live messages. */
  function ShownBy(stream: Stream): seq<nat>
    requires stream.Subscribed? && stream.r.arrived != []
  {
    Range(Window(stream.o.read), stream.o.read) + Tags(stream.r.arrived[1..])
  }

  lemma {:induction false} LiveTags(board: Board, es: seq<Entry>)
    requires forall p :: 0 <= p < |es| ==> EntryOk(board, es[p])
    ensures forall j :: 0 <= j < |Tags(es)| ==> Tags(es)[j] < |board.log|
  {
    if es != [] { LiveTags(board, es[..|es| - 1]); }
  }

  lemma HistoryIsPicked(board: Board, mine: Id, o: Opening)
    requires OpeningOk(board, o)
    ensures Shown(o.resync.chat, Some(mine)) == Picked(board.log, Range(Window(o.read), o.read), mine)
  {
  }

  lemma PickedSnoc(log: seq<ChatMessage>, idx: seq<nat>, i: nat, mine: Id)
    requires i < |log| && forall j :: 0 <= j < |idx| ==> idx[j] < |log|
    ensures Picked(log, idx + [i], mine) == Picked(log, idx, mine) + [Stored(log[i], Some(mine))]
  {
  }

  lemma {:induction false} LiveIsPicked(board: Board, mine: Id, first: Entry, idx: seq<nat>, es: seq<Entry>)
    requires first.event.Resync? && forall j :: 0 <= j < |idx| ==> idx[j] < |board.log|
    requires Shown(first.event.chat, Some(mine)) == Picked(board.log, idx, mine)
    requires forall p :: 0 <= p < |es| ==> EntryOk(board, es[p])
    ensures forall j :: 0 <= j < |idx + Tags(es)| ==> (idx + Tags(es))[j] < |board.log|
    ensures ListAfter([first] + es, mine) == Picked(board.log, idx + Tags(es), mine)
  {
    LiveTags(board, es);
    var all, n := [first] + es, |es|;
    if n == 0 {
      assert all == [first] && all[..0] == [];
      assert idx + Tags(es) == idx;
    } else {
      var e, rest := es[n - 1], es[..n - 1];
      LiveIsPicked(board, mine, first, idx, rest);
      assert all[..n] == [first] + rest && all[n] == e;
      if e.event.Chat? {
        PickedSnoc(board.log, idx + Tags(rest), e.tag, mine);
        assert (idx + Tags(rest)) + [e.tag] == idx + Tags(es);
      }
    }
  }

  /** What a client shows of a stream is the history read, then what it got live. */
  lemma ListIsHistoryThenLive(s: State, mine: Id)
    requires Inv(s, mine) && s.stream.Subscribed? && s.stream.r.arrived != []
    ensures (forall j :: 0 <= j < |ShownBy(s.stream)| ==> ShownBy(s.stream)[j] < |s.board.log|)
    ensures s.list == Picked(s.board.log, ShownBy(s.stream), mine)
  {
    var o, r, ch := s.stream.o, s.stream.r, s.board.chans[s.stream.o.chan];
    assert r.arrived[0] == (r.arrived + r.wire)[0];
    forall p | 1 <= p < |r.arrived| ensures EntryOk(s.board, r.arrived[p]) {
      assert r.arrived[p] == (r.arrived + r.wire)[p] == ch.log[r.start..r.next][p - 1];
    }
    assert r.arrived == [r.arrived[0]] + r.arrived[1..];
    HistoryIsPicked(s.board, mine, o);
    LiveIsPicked(s.board, mine, r.arrived[0], Range(Window(o.read), o.read), r.arrived[1..]);
  }

  /** What a broadcast does to the channel of one participant is what `Sent` does to the
      channel of this session. */
  lemma SentIsBroadcast(room: Rooms.Room, id: Id, board: Board, i: nat)
    requires RoomOk(room) && id in room.participants && i < |board.log|
    requires board.chans != [] && board.chans[|board.chans| - 1] == room.chans[room.participants[id]]
    ensures Sent(board, i).chans == board.chans[|board.chans| - 1 :=
              Broadcast(room, Entry(Live(board.log[i]), i), None).chans[room.participants[id]]]
  {
  }

  // ---- Which messages a settled client shows, and how often ----------------------------------------

  /** The client listens on its current channel and has received all of it. */
  predicate Settled(s: State) {
    && s.stream.Subscribed? && s.stream.open && s.stream.o.chan == |s.board.chans| - 1
    && s.stream.r.wire == [] && s.stream.r.next == s.board.chans[s.stream.o.chan].tail
  }

  lemma SettledHasAll(s: State, mine: Id)
    requires Inv(s, mine) && Settled(s)
    ensures s.stream.r.arrived != []
    ensures var live := Tags(s.stream.r.arrived[1..]);
      NoDup(live) && forall i :: i in live <==> i in s.board.sent && i !in s.stream.r.before
  {
    var r, ch := s.stream.r, s.board.chans[s.stream.o.chan];
    assert r.arrived + r.wire == r.arrived;
    assert r.arrived[1..] == From(ch, r.start);
  }

  lemma {:induction false} NoDupCounts(xs: seq<nat>, i: nat)
    requires NoDup(xs)
    ensures multiset(xs)[i] == if i in xs then 1 else 0
  {
    if xs != [] {
      var n := |xs| - 1;
      assert xs == xs[..n] + [xs[n]];
      NoDupCounts(xs[..n], i);
    }
  }

  /** How often a settled client shows each message that was sent to it: once for the
      history window, once more if it was sent after the subscription. */
  lemma SettledShows(mine: Id, run: seq<State>, steps: seq<Action>, k: nat, i: nat)
    requires IsRun(mine, run, steps) && k < |run| && Settled(run[k]) && i in run[k].board.sent
    ensures run[k].stream.r.arrived != []
    ensures var s, o := run[k], run[k].stream.o;
      && (forall j :: 0 <= j < |ShownBy(s.stream)| ==> ShownBy(s.stream)[j] < |s.board.log|)
      && s.list == Picked(s.board.log, ShownBy(s.stream), mine)
      && multiset(ShownBy(s.stream))[i] ==
           (if Window(o.read) <= i < o.read then 1 else 0) + (if i !in s.stream.r.before then 1 else 0)
  {
    RunHolds(mine, run, steps, k);
    var s := run[k];
    SettledHasAll(s, mine);
    ListIsHistoryThenLive(s, mine);
    var window := Range(Window(s.stream.o.read), s.stream.o.read);
    var live := Tags(s.stream.r.arrived[1..]);
    NoDupCounts(window, i);
    NoDupCounts(live, i);
    assert i in window <==> Window(s.stream.o.read) <= i < s.stream.o.read by {
      if Window(s.stream.o.read) <= i < s.stream.o.read { assert window[i - Window(s.stream.o.read)] == i; }
    }
  }

  /** Among the messages since the window began, a settled client misses exactly those
      appended after the history was read and sent before the subscription, and shows
      twice exactly those appended before the one and sent after the other. */
  lemma MissedAndDoubled(mine: Id, run: seq<State>, steps: seq<Action>, k: nat, i: nat)
    requires IsRun(mine, run, steps) && k < |run| && Settled(run[k]) && i in run[k].board.sent
    requires Window(run[k].stream.o.read) <= i
    ensures run[k].stream.r.arrived != []
    ensures var s := run[k];
      && (i !in ShownBy(s.stream) <==> s.stream.o.read <= i && i in s.stream.r.before)
      && (multiset(ShownBy(s.stream))[i] == 2 <==> i < s.stream.o.read && i !in s.stream.r.before)
      && multiset(ShownBy(s.stream))[i] <= 2
  {
    SettledShows(mine, run, steps, k, i);
  }

  // ---- Both happen ------------------------------------------------------------------------------------

  /** A message posted while a stream is being opened can be missing from the list for
      as long as the stream lasts. */
  lemma MessageMissed(m: ChatMessage, mine: Id) returns (run: seq<State>, steps: seq<Action>)
    ensures IsRun(mine, run, steps) && |run| == 7 && Settled(run[6])
    ensures run[6].board.log == [m] && run[6].board.sent == {0} && run[6].list == []
  {
    run, steps := [Empty], [];
    run, steps := RunGoesOn(mine, run, steps, Join);
    run, steps := RunGoesOn(mine, run, steps, Open([]));
    run, steps := RunGoesOn(mine, run, steps, Append(m));
    run, steps := RunGoesOn(mine, run, steps, Send(0));
    run, steps := RunGoesOn(mine, run, steps, Subscribe);
    run, steps := RunGoesOn(mine, run, steps, Arrive);
  }

  lemma RunGoesOn(mine: Id, run: seq<State>, steps: seq<Action>, a: Action)
    returns (run': seq<State>, steps': seq<Action>)
    requires IsRun(mine, run, steps) && Can(run[|steps|], a)
    ensures run' == run + [Next(run[|steps|], mine, a)] && steps' == steps + [a]
    ensures IsRun(mine, run', steps')
  {
    var n := |steps|;
    run', steps' := run + [Next(run[n], mine, a)], steps + [a];
    forall k | 0 <= k <= n ensures Can(run'[k], steps'[k]) && run'[k + 1] == Next(run'[k], mine, steps'[k]) {
      assert run'[k] == run[k];
      if k < n { assert steps'[k] == steps[k] && run'[k + 1] == run[k + 1]; }
    }
  }

  lemma PostedThenOpened(m: ChatMessage, mine: Id) returns (run: seq<State>, steps: seq<Action>)
    ensures IsRun(mine, run, steps) && |run| == 5
    ensures var o := Opening(0, 1, Resync([], [m]));
      run[4] == State(Board([m], [m], {}, [Channel(mine, 0, [], {1}, [])]), 1,
        Subscribed(o, Reader({}, 0, 0, [Entry(o.resync, 0)], []), true), [])
  {
    steps := [Join, Append(m), Open([]), Subscribe];
    var s1 := Next(Empty, mine, Join);
    var s2 := Next(s1, mine, Append(m));
    var s3 := Next(s2, mine, Open([]));
    assert s2.board.store == [m] && Last([m], RESYNC_HISTORY) == [m];
    assert s3.stream.o == Opening(0, 1, Resync([], [m]));
    run := [Empty, s1, s2, s3, Next(s3, mine, Subscribe)];
    assert run[4].board.chans[0].readers == {1};
    assert run[4].board.chans == [Channel(mine, 0, [], {1}, [])];
  }

  /** A message whose broadcast comes after the subscription can be shown twice. */
  lemma MessageDoubled(m: ChatMessage, mine: Id) returns (run: seq<State>, steps: seq<Action>)
    ensures IsRun(mine, run, steps) && |run| == 9 && Settled(run[8])
    ensures run[8].board.log == [m] && run[8].list == [Stored(m, Some(mine)), Stored(m, Some(mine))]
  {
    run, steps := PostedThenOpened(m, mine);
    run, steps := RunGoesOn(mine, run, steps, Send(0));
    run, steps := RunGoesOn(mine, run, steps, Pull);
    run, steps := RunGoesOn(mine, run, steps, Arrive);
    run, steps := RunGoesOn(mine, run, steps, Arrive);
  }

  // ---- With whole handlers as steps --------------------------------------------------------------------

  /** A message is appended and broadcast, and a stream's history read and its
      subscription made, each without interruption; everything else as before. */
  datatype Handling = Post(msg: ChatMessage) | OpenStream(peers: seq<PeerInfo>) | Apart(a: Action)

  predicate CanHandle(s: State, h: Handling) {
    match h
    case Post(_) => true
    case OpenStream(_) => s.board.chans != []
    case Apart(a) => Plain(a) && Can(s, a)
  }

  function Handled(s: State, mine: Id, h: Handling): State
    requires CanHandle(s, h)
    requires h.Post? ==> |s.board.log| !in s.board.sent
  {
    match h
    case Post(msg) => Next(Next(s, mine, Append(msg)), mine, Send(|s.board.log|))
    case OpenStream(peers) => Next(Next(s, mine, Open(peers)), mine, Subscribe)
    case Apart(a) => Next(s, mine, a)
  }

  /** Live messages follow the history read, one after the other; `all` when none is left. */
  predicate FollowsOn(board: Board, read: nat, tags: seq<nat>, all: bool) {
    tags == Range(read, read + |tags|) && (all ==> read + |tags| == |board.log|)
  }

  /** Everything appended is sent, and streams get it in order. */
  ghost predicate InOrder(board: Board, stream: Stream) {
    && (forall i :: i in board.sent <==> 0 <= i < |board.log|)
    && !stream.Opened?
    && (stream.Subscribed? ==>
        if stream.open then
          && stream.o.chan < |board.chans| && stream.r.start <= |board.chans[stream.o.chan].log|
          && FollowsOn(board, stream.o.read,
               Tags(From(board.chans[stream.o.chan], stream.r.start)), stream.o.chan == |board.chans| - 1)
        else
          stream.r.arrived + stream.r.wire != [] &&
          FollowsOn(board, stream.o.read, Tags((stream.r.arrived + stream.r.wire)[1..]), false))
  }

  ghost predicate HandledRun(mine: Id, run: seq<State>, steps: seq<Handling>) {
    && |run| == |steps| + 1 && run[0] == Empty
    && forall k :: 0 <= k < |steps| ==>
         && CanHandle(run[k], steps[k]) && |run[k].board.log| !in run[k].board.sent
         && run[k + 1] == Handled(run[k], mine, steps[k])
  }

  lemma TagFollowsOn(board: Board, board': Board, read: nat, es: seq<Entry>, e: Entry, all: bool)
    requires FollowsOn(board, read, Tags(es), all) && (e.event.Chat? ==> all)
    requires if e.event.Chat? then e.tag == |board.log| && |board'.log| == |board.log| + 1
             else |board'.log| == |board.log|
    ensures FollowsOn(board', read, Tags(es + [e]), all)
  {
    TagsSnoc(es, e);
  }

  lemma PushKeepsOrder(board: Board, board': Board, e: Entry, conns: nat, stream: Stream)
    requires BoardOk(board) && StreamOk(board, conns, stream) && InOrder(board, stream) && EntryOk(board', e)
    requires board'.chans == PushLast(board.chans, e)
    requires forall i :: i in board'.sent <==> 0 <= i < |board'.log|
    requires if e.event.Chat? then e.tag == |board.log| && |board'.log| == |board.log| + 1
             else |board'.log| == |board.log|
    ensures InOrder(board', stream)
  {
    if stream.Subscribed? && stream.open {
      var k, start := stream.o.chan, stream.r.start;
      PushGrows(board.chans, e, k);
      if k == |board.chans| - 1 {
        assert From(board'.chans[k], start) == From(board.chans[k], start) + [e];
        TagFollowsOn(board, board', stream.o.read, From(board.chans[k], start), e, true);
      } else {
        assert From(board'.chans[k], start) == From(board.chans[k], start);
      }
    }
  }

  lemma {:induction false} TagsPrefix(es: seq<Entry>, n: nat)
    requires n <= |es|
    ensures Tags(es[..n]) <= Tags(es)
  {
    if n < |es| {
      TagsPrefix(es[..|es| - 1], n);
      assert es[..|es| - 1][..n] == es[..n];
    } else {
      assert es[..n] == es;
    }
  }

  lemma PrefixFollowsOn(board: Board, read: nat, tags: seq<nat>, more: seq<nat>, all: bool)
    requires FollowsOn(board, read, more, all) && tags <= more
    ensures FollowsOn(board, read, tags, false)
  {
  }

  lemma EndKeepsOrder(s: State, mine: Id)
    requires Inv(s, mine) && InOrder(s.board, s.stream) && s.stream.Subscribed? && s.stream.open
    ensures InOrder(Ended(s).board, Ended(s).stream)
  {
    var o, r, ch := s.stream.o, s.stream.r, s.board.chans[s.stream.o.chan];
    var live := (r.arrived + r.wire)[1..];
    assert live == From(ch, r.start)[..r.next - r.start];
    TagsPrefix(From(ch, r.start), r.next - r.start);
    PrefixFollowsOn(s.board, o.read, Tags(live), Tags(From(ch, r.start)), o.chan == |s.board.chans| - 1);
  }

  lemma PullKeepsOrder(s: State, mine: Id)
    requires Inv(s, mine) && InOrder(s.board, s.stream) && Can(s, Pull)
    ensures InOrder(Pulled(s).board, Pulled(s).stream)
  {
    EndKeepsOrder(s, mine);
  }

  lemma ArriveKeepsOrder(s: State, mine: Id)
    requires Inv(s, mine) && InOrder(s.board, s.stream) && Can(s, Arrive)
    ensures InOrder(s.board, Arrived(s, mine).stream)
  {
    var r := s.stream.r;
    assert r.arrived + r.wire == (r.arrived + [r.wire[0]]) + r.wire[1..];
  }

  lemma WithoutKeepsOrder(s: State, mine: Id, reader: nat)
    requires Inv(s, mine) && InOrder(s.board, s.stream)
    ensures InOrder(s.board.(chans := Without(s.board.chans, reader)), s.stream)
  {
    if s.stream.Subscribed? {
      var k, start := s.stream.o.chan, s.stream.r.start;
      assert From(Without(s.board.chans, reader)[k], start) == From(s.board.chans[k], start);
    }
  }

  lemma ApartKeepsOrder(s: State, mine: Id, a: Action)
    requires Inv(s, mine) && InOrder(s.board, s.stream) && Plain(a) && Can(s, a)
    ensures InOrder(Next(s, mine, a).board, Next(s, mine, a).stream)
  {
    match a {
      case Other(e) =>
        PushKeepsOrder(s.board, s.board.(chans := PushLast(s.board.chans, e)), e, s.conns, s.stream);
      case Join =>
      case Pull => PullKeepsOrder(s, mine);
      case Arrive => ArriveKeepsOrder(s, mine);
      case End => EndKeepsOrder(s, mine);
      case Leave(reader) => WithoutKeepsOrder(s, mine, reader);
    }
  }

  lemma PostKeepsOrder(s: State, mine: Id, msg: ChatMessage)
    requires Inv(s, mine) && InOrder(s.board, s.stream)
    ensures var board' := Sent(Appended(s.board, msg), |s.board.log|);
      InOrder(board', s.stream)
  {
    var i := |s.board.log|;
    var board' := Sent(Appended(s.board, msg), i);
    PushKeepsOrder(s.board, board', Entry(Live(msg), i), s.conns, s.stream);
  }

  lemma OpenStreamKeepsOrder(s: State, mine: Id, peers: seq<PeerInfo>)
    requires Inv(s, mine) && InOrder(s.board, s.stream) && s.board.chans != []
    ensures var s' := SubscribedTo(OpenedFor(s, peers)); InOrder(s'.board, s'.stream)
  {
    var s' := SubscribedTo(OpenedFor(s, peers));
    var k := |s.board.chans| - 1;
    assert From(s'.board.chans[k], |s.board.chans[k].log|) == [];
  }

  lemma HandledKeeps(s: State, mine: Id, h: Handling)
    requires Inv(s, mine) && InOrder(s.board, s.stream) && CanHandle(s, h)
    ensures |s.board.log| !in s.board.sent
    ensures var s' := Handled(s, mine, h); Inv(s', mine) && InOrder(s'.board, s'.stream)
  {
    match h {
      case Post(msg) =>
        NextKeeps(s, mine, Append(msg));
        NextKeeps(Next(s, mine, Append(msg)), mine, Send(|s.board.log|));
        PostKeepsOrder(s, mine, msg);
      case OpenStream(peers) =>
        NextKeeps(s, mine, Open(peers));
        NextKeeps(Next(s, mine, Open(peers)), mine, Subscribe);
        OpenStreamKeepsOrder(s, mine, peers);
      case Apart(a) =>
        NextKeeps(s, mine, a);
        ApartKeepsOrder(s, mine, a);
    }
  }

  lemma {:induction false} HandledRunHolds(mine: Id, run: seq<State>, steps: seq<Handling>, k: nat)
    requires HandledRun(mine, run, steps) && k < |run|
    ensures Inv(run[k], mine) && InOrder(run[k].board, run[k].stream)
  {
    if k > 0 {
      HandledRunHolds(mine, run, steps, k - 1);
      HandledKeeps(run[k - 1], mine, steps[k - 1]);
      assert run[k] == Handled(run[k - 1], mine, steps[k - 1]);
    }
  }

  lemma ArrivedInOrder(s: State, mine: Id)
    requires Inv(s, mine) && InOrder(s.board, s.stream) && s.stream.Subscribed? && s.stream.r.arrived != []
    ensures FollowsOn(s.board, s.stream.o.read, Tags(s.stream.r.arrived[1..]), false)
  {
    var o, r, ch := s.stream.o, s.stream.r, s.board.chans[s.stream.o.chan];
    var all := (r.arrived + r.wire)[1..];
    assert r.arrived[1..] == all[..|r.arrived| - 1];
    TagsPrefix(all, |r.arrived| - 1);
    if s.stream.open {
      assert all == From(ch, r.start)[..r.next - r.start];
      TagsPrefix(From(ch, r.start), r.next - r.start);
      PrefixFollowsOn(s.board, o.read, Tags(r.arrived[1..]), Tags(From(ch, r.start)), o.chan == |s.board.chans| - 1);
    } else {
      PrefixFollowsOn(s.board, o.read, Tags(r.arrived[1..]), Tags(all), false);
    }
  }

  lemma PickedRange(log: seq<ChatMessage>, from: nat, to: nat, mine: Id)
    requires from <= to && forall j :: 0 <= j < |Range(from, to)| ==> Range(from, to)[j] < |log|
    requires from <= |log|
    ensures to <= |log| && Picked(log, Range(from, to), mine) == Shown(log[from..to], Some(mine))
  {
    if from < to { assert Range(from, to)[to - from - 1] == to - 1; }
  }

  lemma ListIsInOrder(s: State, mine: Id)
    requires Inv(s, mine) && InOrder(s.board, s.stream) && s.stream.Subscribed? && s.stream.r.arrived != []
    ensures var from := Window(s.stream.o.read);
      && from + |s.list| <= |s.board.log|
      && s.list == Shown(s.board.log[from..from + |s.list|], Some(mine))
      && (Settled(s) ==> from + |s.list| == |s.board.log|)
  {
    var read, tags := s.stream.o.read, Tags(s.stream.r.arrived[1..]);
    var from := Window(read);
    ArrivedInOrder(s, mine);
    ListIsHistoryThenLive(s, mine);
    assert ShownBy(s.stream) == Range(from, read + |tags|);
    PickedRange(s.board.log, from, read + |tags|, mine);
    if Settled(s) { SettledReachesTheEnd(s, mine); }
  }

  /** The chat list is at every moment an unbroken run of the room's log, beginning
      fifty messages before the connect; once the client has caught up it reaches the
      log's end. */
  lemma ListIsSuffixOfLog(mine: Id, run: seq<State>, steps: seq<Handling>, k: nat)
    requires HandledRun(mine, run, steps) && k < |run|
    requires run[k].stream.Subscribed? && run[k].stream.r.arrived != []
    ensures var s, from := run[k], Window(run[k].stream.o.read);
      && from + |s.list| <= |s.board.log|
      && from == (if s.stream.o.read <= 50 then 0 else s.stream.o.read - 50)
      && s.list == Shown(s.board.log[from..from + |s.list|], Some(mine))
      && (forall i :: 0 <= i < |s.list| ==> Says(s.list[i], s.board.log[from + i], mine))
      && (Settled(s) ==> s.list == Shown(s.board.log[from..], Some(mine)))
  {
    HandledRunHolds(mine, run, steps, k);
    ListIsInOrder(run[k], mine);
  }

  lemma SettledReachesTheEnd(s: State, mine: Id)
    requires Inv(s, mine) && InOrder(s.board, s.stream) && Settled(s)
    ensures s.stream.r.arrived != []
    ensures s.stream.o.read + |Tags(s.stream.r.arrived[1..])| == |s.board.log|
  {
    var r := s.stream.r;
    assert r.arrived + r.wire == r.arrived;
    assert r.arrived[1..] == From(s.board.chans[s.stream.o.chan], r.start);
  }
}
