/** The chat store, and what a client's chat list shows of it. */
module Chat {
  import opened Types
  import opened Rooms

  const MAX_MESSAGES_PER_ROOM: nat := 200
  const RESYNC_HISTORY: nat := 50

  // ---- Store ---------------------------------------------------------------------------------

  /** Messages per room, the latest of each. `logs` is history: everything ever appended. */
  class InMemoryChat {
    var rooms: map<string, seq<ChatMessage>>
    ghost var logs: map<string, seq<ChatMessage>>

    ghost predicate Valid()
      reads this
    {
      && rooms.Keys == logs.Keys
      && forall r :: r in rooms ==> rooms[r] == Last(logs[r], MAX_MESSAGES_PER_ROOM)
    }

    ghost function Log(room: string): seq<ChatMessage>
      reads this
    {
      if room in logs then logs[room] else []
    }

    constructor ()
      ensures Valid() && forall r :: Log(r) == []
    {
      rooms, logs := map[], map[];
    }

    method Append(msg: ChatMessage)
      requires Valid()
      modifies this
      ensures Valid()
      ensures forall r :: Log(r) == if r == msg.room then old(Log(r)) + [msg] else old(Log(r))
    {
      ghost var log := Log(msg.room);
      var buf := if msg.room in rooms then rooms[msg.room] else [];
      if |buf| >= MAX_MESSAGES_PER_ROOM {
        buf := buf[1..];
      }
      buf := buf + [msg];
      AppendKeepsLast(log, msg);
      rooms := rooms[msg.room := buf];
      logs := logs[msg.room := log + [msg]];
    }

    /** The last `limit` messages of the room's log, oldest first, of which the store
        still has 200. */
    method History(room: string, limit: nat) returns (messages: seq<ChatMessage>)
      requires Valid()
      ensures messages == Last(Log(room), if limit < 200 then limit else 200)
    {
      if room !in rooms { return []; }
      var buf := rooms[room];
      var start := if |buf| <= limit then 0 else |buf| - limit;
      messages := buf[start..];
    }
  }

  lemma AppendKeepsLast(log: seq<ChatMessage>, msg: ChatMessage)
    ensures Last(log + [msg], MAX_MESSAGES_PER_ROOM) ==
            var buf := Last(log, MAX_MESSAGES_PER_ROOM);
            (if |buf| >= MAX_MESSAGES_PER_ROOM then buf[1..] else buf) + [msg]
  {
  }

  // ---- Display ---------------------------------------------------------------------------------

  datatype UiChatMsg = UiChatMsg(own: bool, from: Id, senderName: string, text: string, timestampMs: nat)

  function ToUi(from: Id, senderName: Option<string>, text: string, timestampMs: nat, mine: Option<Id>): UiChatMsg {
    UiChatMsg(mine == Some(from), from, if senderName.Some? then senderName.value else "Anonymous", text, timestampMs)
  }

  /** What a line of the list says of a message to the session `mine`: its text, when and
      by whom it was sent, under which name, and whether it is one's own. */
  predicate Says(u: UiChatMsg, m: ChatMessage, mine: Id) {
    && u.text == m.text && u.from == m.senderId && u.timestampMs == m.timestampMs
    && (match m.senderName case Some(name) => u.senderName == name case None => u.senderName == "Anonymous")
    && (u.own <==> m.senderId == mine)
  }

  function Stored(m: ChatMessage, mine: Option<Id>): UiChatMsg {
    ToUi(m.senderId, m.senderName, m.text, m.timestampMs, mine)
  }

  /** The event that carries a message live. */
  function Live(m: ChatMessage): SseEvent {
    SseEvent.Chat(m.senderId, m.senderName, m.text, m.timestampMs)
  }

  /** How the page updates its chat list. */
  function Update(list: seq<UiChatMsg>, ev: SseEvent, mine: Option<Id>): seq<UiChatMsg> {
    match ev
    case Resync(_, chat) => Shown(chat, mine)
    case Chat(from, name, text, ts) => list + [ToUi(from, name, text, ts, mine)]
    case _ => list
  }

  function Shown(messages: seq<ChatMessage>, mine: Option<Id>): (r: seq<UiChatMsg>)
    ensures |r| == |messages|
    ensures mine.Some? ==> forall i :: 0 <= i < |messages| ==> Says(r[i], messages[i], mine.value)
  {
    seq(|messages|, i requires 0 <= i < |messages| => Stored(messages[i], mine))
  }

  // ---- One session's view of the room's chat ----------------------------------------------------

  /** A stream being opened: the channel it will read, the length of the chat log when
      the history was read, and the snapshot that will be sent first. */
  datatype Opening = Opening(chan: nat, read: nat, resync: SseEvent)

  /** `before` is history: the messages sent to this session before it subscribed;
      `arrived` too: what the client has received of this stream. */
  datatype Reader = Reader(before: set<nat>, start: nat, next: nat, wire: seq<Entry>, arrived: seq<Entry>)

  datatype Stream = Idle | Opened(o: Opening) | Subscribed(o: Opening, r: Reader, open: bool)

  /** `log` is every message appended, in order, of which `store` keeps the last;
      `sent` are those whose broadcast has passed this session. A chat entry's tag is its
      place in the log. `conns` counts connections and names the latest. */
  datatype Board = Board(store: seq<ChatMessage>, log: seq<ChatMessage>, sent: set<nat>, chans: seq<Channel>)
  datatype State = State(board: Board, conns: nat, stream: Stream, list: seq<UiChatMsg>)

  const Empty := State(Board([], [], {}, []), 0, Idle, [])

  /** Handlers interleave between their accesses to shared state: posting a message is
      `Append`, then `Send`; opening a stream is `Open`, then `Subscribe`. */
  datatype Action =
    | Append(msg: ChatMessage)
    | Send(i: nat)
    | Other(e: Entry)
    | Join
    | Open(peers: seq<PeerInfo>)
    | Subscribe
    | Pull
    | Arrive
    | End
    | Leave(reader: nat)

  predicate Plain(a: Action) {
    !a.Append? && !a.Send? && !a.Open? && !a.Subscribe?
  }

  predicate Can(s: State, a: Action) {
    match a
    case Append(_) => true
    case Send(i) => i < |s.board.log| && i !in s.board.sent
    case Other(e) => s.board.chans != [] && !e.event.Chat? && !e.event.Resync?
    case Join => true
    case Open(_) => s.board.chans != []
    case Subscribe => s.stream.Opened? && s.stream.o.chan < |s.board.chans|
    case Pull => s.stream.Subscribed? && s.stream.open && s.stream.o.chan < |s.board.chans|
                 && s.stream.r.next < s.board.chans[s.stream.o.chan].tail
    case Arrive => s.stream.Subscribed? && s.stream.r.wire != []
    case End => s.stream.Subscribed? && s.stream.open && s.stream.o.chan < |s.board.chans|
    case Leave(reader) => (s.stream.Subscribed? && s.stream.open ==> reader != s.conns)
  }

  function Without(chans: seq<Channel>, reader: nat): seq<Channel> {
    seq(|chans|, k requires 0 <= k < |chans| => chans[k].(readers := chans[k].readers - {reader}))
  }

  function PushLast(chans: seq<Channel>, e: Entry): seq<Channel> {
    if chans == [] then [] else chans[|chans| - 1 := Push(chans[|chans| - 1], e)]
  }

  function Appended(board: Board, msg: ChatMessage): Board {
    var kept := if |board.store| >= MAX_MESSAGES_PER_ROOM then board.store[1..] else board.store;
    board.(store := kept + [msg], log := board.log + [msg])
  }

  function Sent(board: Board, i: nat): Board
    requires i < |board.log|
  {
    board.(sent := board.sent + {i}, chans := PushLast(board.chans, Entry(Live(board.log[i]), i)))
  }

  function OpenedFor(s: State, peers: seq<PeerInfo>): State
    requires s.board.chans != []
  {
    var o := Opening(|s.board.chans| - 1, |s.board.log|, Resync(peers, Last(s.board.store, RESYNC_HISTORY)));
    s.(conns := s.conns + 1, stream := Opened(o))
  }

  function SubscribedTo(s: State): State
    requires Can(s, Subscribe)
  {
    var o, chans := s.stream.o, s.board.chans;
    var ch := chans[o.chan];
    s.(board := s.board.(chans := chans[o.chan := ch.(readers := ch.readers + {s.conns})]),
       stream := Subscribed(o, Reader(s.board.sent, ch.tail, ch.tail, [Entry(o.resync, 0)], []), true))
  }

  function Ended(s: State): State
    requires s.stream.Subscribed?
  {
    s.(board := s.board.(chans := Without(s.board.chans, s.conns)), stream := s.stream.(open := false))
  }

  function Pulled(s: State): State
    requires Can(s, Pull)
  {
    var ch, r := s.board.chans[s.stream.o.chan], s.stream.r;
    match Read(ch, r.next)
    case Got(e) => s.(stream := s.stream.(r := r.(next := r.next + 1, wire := r.wire + [e])))
    case _ => Ended(s)
  }

  function Arrived(s: State, mine: Id): State
    requires Can(s, Arrive)
  {
    var r := s.stream.r;
    s.(stream := s.stream.(r := r.(wire := r.wire[1..], arrived := r.arrived + [r.wire[0]])),
       list := Update(s.list, r.wire[0].event, Some(mine)))
  }

  function Next(s: State, mine: Id, a: Action): State
    requires Can(s, a)
  {
    match a
    case Append(msg) => s.(board := Appended(s.board, msg))
    case Send(i) => s.(board := Sent(s.board, i))
    case Other(e) => s.(board := s.board.(chans := PushLast(s.board.chans, e)))
    case Join => s.(board := s.board.(chans := s.board.chans + [Channel(mine, 0, [], {}, [])]))
    case Open(peers) => OpenedFor(s, peers)
    case Subscribe => SubscribedTo(s)
    case Pull => Pulled(s)
    case Arrive => Arrived(s, mine)
    case End => Ended(s)
    case Leave(reader) => s.(board := s.board.(chans := Without(s.board.chans, reader)))
  }

  // ---- Invariant -----------------------------------------------------------------------------------

  /** The messages that `es` carries live, by their place in the log. */
  function Tags(es: seq<Entry>): seq<nat> {
    if es == [] then []
    else
      var rest, e := Tags(es[..|es| - 1]), es[|es| - 1];
      if e.event.Chat? then rest + [e.tag] else rest
  }

  predicate EntryOk(board: Board, e: Entry) {
    && !e.event.Resync?
    && (e.event.Chat? ==> e.tag in board.sent && e.tag < |board.log| && e.event == Live(board.log[e.tag]))
  }

  ghost predicate ChanOk(board: Board, ch: Channel) {
    ChannelOk(ch) && forall p :: 0 <= p < |ch.log| ==> EntryOk(board, ch.log[p])
  }

  ghost predicate BoardOk(board: Board) {
    && board.store == Last(board.log, MAX_MESSAGES_PER_ROOM)
    && (forall i :: i in board.sent ==> i < |board.log|)
    && forall k :: 0 <= k < |board.chans| ==> ChanOk(board, board.chans[k])
  }

  ghost predicate OpeningOk(board: Board, o: Opening) {
    && o.chan < |board.chans| && o.read <= |board.log|
    && o.resync.Resync? && o.resync.chat == Last(board.log[..o.read], RESYNC_HISTORY)
  }

  predicate NoDup(xs: seq<nat>) {
    forall i, j :: 0 <= i < j < |xs| ==> xs[i] != xs[j]
  }

  /** The part of a channel's log that a stream has yet to read or has read. */
  function From(ch: Channel, start: nat): seq<Entry>
    requires start <= |ch.log|
  {
    ch.log[start..]
  }

  /** What the channel was sent from the subscription on is what was sent after it. */
  ghost predicate LiveOk(board: Board, ch: Channel, r: Reader, current: bool) {
    && r.start <= |ch.log| && r.before <= board.sent
    && var tags := Tags(From(ch, r.start));
      && NoDup(tags) && (forall i :: i in tags ==> i in board.sent && i !in r.before)
      && (current ==> forall i :: i in board.sent && i !in r.before ==> i in tags)
  }

  ghost predicate WireOk(ch: Channel, resync: SseEvent, r: Reader) {
    && r.start <= r.next <= |ch.log|
    && r.arrived + r.wire == [Entry(resync, 0)] + ch.log[r.start..r.next]
  }

  ghost predicate StreamOk(board: Board, conns: nat, stream: Stream) {
    && (stream.Opened? ==> OpeningOk(board, stream.o))
    && (stream.Subscribed? ==>
        && OpeningOk(board, stream.o)
        && var ch := board.chans[stream.o.chan];
           && LiveOk(board, ch, stream.r, stream.open && stream.o.chan == |board.chans| - 1)
           && WireOk(ch, stream.o.resync, stream.r)
           && (stream.open ==> conns in ch.readers))
  }

  /** The list that the events `es` leave behind, whatever was shown before. */
  function ListAfter(es: seq<Entry>, mine: Id): seq<UiChatMsg> {
    if es == [] then [] else Update(ListAfter(es[..|es| - 1], mine), es[|es| - 1].event, Some(mine))
  }

  ghost predicate Inv(s: State, mine: Id) {
    && BoardOk(s.board) && StreamOk(s.board, s.conns, s.stream)
    && (s.stream.Subscribed? && s.stream.r.arrived != [] ==> s.list == ListAfter(s.stream.r.arrived, mine))
  }
}
