/** A room: its participants, their event channels, and admission to it. */
module Rooms {
  import opened Types

  // ---- Event channels --------------------------------------------------------------------

  /** How many events a channel keeps for subscribers that lag. */
  const SSE_BUFFER_SIZE: nat := 128

  /** An event on its way to a client. For a media signal, `tag` is its position among
      the signals its sender has posted to this addressee; history only. */
  datatype Entry = Entry(event: SseEvent, tag: nat)

  /** `tail` counts the events accepted so far and `ring` holds the latest of them;
      `readers` are the live subscriptions. `log` is history: all events accepted. */
  datatype Channel = Channel(owner: Id, tail: nat, ring: seq<Entry>, readers: set<nat>, log: seq<Entry>)

  /** An event sent while nobody is subscribed is lost; a full ring forgets its oldest event. */
  function Push(ch: Channel, e: Entry): Channel {
    if ch.readers == {} then ch
    else
      var kept := if |ch.ring| == SSE_BUFFER_SIZE then ch.ring[1..] else ch.ring;
      ch.(tail := ch.tail + 1, ring := kept + [e], log := ch.log + [e])
  }

  datatype Reading = Nothing | Lagged | Got(entry: Entry)

  /** What a subscriber whose next event is number `next` reads. */
  function Read(ch: Channel, next: nat): Reading
    requires next <= ch.tail
  {
    if next == ch.tail then Nothing
    else if ch.tail - next > |ch.ring| then Lagged
    else Got(ch.ring[|ch.ring| - (ch.tail - next)])
  }

  ghost predicate ChannelOk(ch: Channel) {
    ch.tail == |ch.log| && ch.ring == Last(ch.log, SSE_BUFFER_SIZE)
  }

  lemma PushKeepsOk(ch: Channel, e: Entry)
    requires ChannelOk(ch)
    ensures ChannelOk(Push(ch, e))
    ensures Push(ch, e).log == if ch.readers == {} then ch.log else ch.log + [e]
  {
  }

  /** A reader gets exactly the next event of the log, unless more than a ring's
      worth has been sent since: then it is told so instead of being skipped ahead. */
  lemma ReadFollowsLog(ch: Channel, next: nat)
    requires ChannelOk(ch) && next <= ch.tail
    ensures Read(ch, next) ==
            if next == |ch.log| then Nothing
            else if |ch.log| - next > SSE_BUFFER_SIZE then Lagged
            else Got(ch.log[next])
  {
  }

  // ---- The room as a value -----------------------------------------------------------------

  /** `participants` maps each session to its current channel. A re-join gives the
      session a new channel; the old one stays, for the streams still reading it. */
  datatype Room = Room(
    password: Option<string>,
    participants: map<Id, nat>,
    names: map<Id, string>,
    chans: seq<Channel>)

  ghost predicate RoomOk(room: Room) {
    && (forall id :: id in room.participants ==>
          room.participants[id] < |room.chans| && room.chans[room.participants[id]].owner == id)
    && (forall k :: 0 <= k < |room.chans| ==> ChannelOk(room.chans[k]))
    && room.names.Keys <= room.participants.Keys
  }

  function NameOf(room: Room, id: Id): Option<string> {
    if id in room.names then Some(room.names[id]) else None
  }

  function SendTo(room: Room, id: Id, e: Entry): Room {
    if id !in room.participants || room.participants[id] >= |room.chans| then room
    else
      var k := room.participants[id];
      room.(chans := room.chans[k := Push(room.chans[k], e)])
  }

  /** Whether channel `k` is the current one of a participant other than `exclude`. */
  predicate Current(room: Room, k: nat, exclude: Option<Id>)
    requires k < |room.chans|
  {
    var id := room.chans[k].owner;
    id in room.participants && room.participants[id] == k && exclude != Some(id)
  }

  function Broadcast(room: Room, e: Entry, exclude: Option<Id>): Room {
    room.(chans := seq(|room.chans|, k requires 0 <= k < |room.chans| =>
      if Current(room, k, exclude) then Push(room.chans[k], e) else room.chans[k]))
  }

  /** Admits `id`, with a fresh channel. */
  function Admit(room: Room, id: Id, name: Option<string>): Room {
    room.(
      names := if name.Some? then room.names[id := name.value] else room.names,
      participants := room.participants[id := |room.chans|],
      chans := room.chans + [Channel(id, 0, [], {}, [])])
  }

  function Subscribe(room: Room, k: nat, reader: nat): Room
    requires k < |room.chans|
  {
    room.(chans := room.chans[k := room.chans[k].(readers := room.chans[k].readers + {reader})])
  }

  function Unsubscribe(room: Room, k: nat, reader: nat): Room
    requires k < |room.chans|
  {
    room.(chans := room.chans[k := room.chans[k].(readers := room.chans[k].readers - {reader})])
  }

  /** `peers` lists every participant but `id`, each once, with its name. */
  ghost predicate IsSnapshot(room: Room, id: Id, peers: seq<PeerInfo>) {
    && DistinctIds(peers)
    && Ids(peers) == room.participants.Keys - {id}
    && forall i :: 0 <= i < |peers| ==> peers[i].peerName == NameOf(room, peers[i].peerId)
  }

  // ---- Admission -----------------------------------------------------------------------------

  datatype JoinRequest = JoinRequest(
    password: Option<string>,
    claimPassword: Option<string>,
    sessionId: Id,
    displayName: Option<string>)

  datatype JoinResponse =
    | BadRequest
    | NeedPassword
    | PasswordRequired
    | Full
    | Joined(selfId: Id, peers: set<Id>)

  const MAX_PASSWORD: nat := 128
  const MAX_NAME: nat := 64

  /** The length of a text in UTF-8. */
  function Utf8Length(s: string): nat {
    if s == "" then 0
    else
      var c := s[0] as int;
      (if c < 0x80 then 1 else if c < 0x800 then 2 else if c < 0x1_0000 then 3 else 4) + Utf8Length(s[1..])
  }

  predicate ValidRoomName(name: string) {
    && 3 <= Utf8Length(name) <= 48
    && forall i :: 0 <= i < |name| ==>
         'a' <= name[i] <= 'z' || '0' <= name[i] <= '9' || name[i] == '-'
  }

  /** Whether `supplied` opens a room locked with `stored`; a room without a password is open. */
  predicate Granted(stored: Option<string>, supplied: Option<string>) {
    stored.None? || (supplied.Some? && supplied.value == stored.value)
  }

  function Claimed(password: string): Room {
    Room(Some(password), map[], map[], [])
  }

  predicate Claims(req: JoinRequest) {
    req.claimPassword.Some? && req.claimPassword.value != ""
  }

  /** A display name, cut to the length the room keeps. */
  function Shortened(name: Option<string>): Option<string> {
    if name.Some? then Some(First(name.value, MAX_NAME)) else None
  }

  function Enter(room: Room, max: nat, req: JoinRequest): (Room, JoinResponse) {
    if |room.participants| >= max && req.sessionId !in room.participants then (room, Full)
    else (Admit(room, req.sessionId, Shortened(req.displayName)), Joined(req.sessionId, room.participants.Keys))
  }

  datatype Gate = TurnedAway(answer: JoinResponse) | Passed(room: Room)

  /** Whether a request gets as far as the capacity check: it claims a new room or
      opens an existing one. */
  function CheckIn(roomName: string, room: Option<Room>, req: JoinRequest): Gate {
    if !ValidRoomName(roomName) then TurnedAway(BadRequest)
    else if req.claimPassword.Some? && Utf8Length(req.claimPassword.value) > MAX_PASSWORD then TurnedAway(BadRequest)
    else if room.None? then
      if Claims(req) then Passed(Claimed(req.claimPassword.value)) else TurnedAway(NeedPassword)
    else if Granted(room.value.password, req.password) then Passed(room.value)
    else TurnedAway(PasswordRequired)
  }

  /** One join request against a room that may not exist yet. */
  function Join(roomName: string, room: Option<Room>, max: nat, req: JoinRequest): (Option<Room>, JoinResponse) {
    match CheckIn(roomName, room, req)
    case TurnedAway(answer) => (room, answer)
    case Passed(r) =>
      var (after, answer) := Enter(r, max, req);
      (Some(after), answer)
  }

  // ---- Who gets in ------------------------------------------------------------------------------

  predicate NameChar(c: char) { 'a' <= c <= 'z' || '0' <= c <= '9' || c == '-' }

  lemma {:induction false} Utf8Bounds(s: string)
    ensures |s| <= Utf8Length(s) <= 4 * |s|
    ensures (forall i :: 0 <= i < |s| ==> s[i] as int < 0x80) ==> Utf8Length(s) == |s|
  {
    if s != "" { Utf8Bounds(s[1..]); }
  }

  /** The length in bytes is that in characters wherever the name is valid. */
  lemma RoomNames(name: string)
    ensures ValidRoomName(name) <==> 3 <= |name| <= 48 && forall i :: 0 <= i < |name| ==> NameChar(name[i])
  {
    Utf8Bounds(name);
  }

  /** A request that is refused whatever the room: its name, or a claim of over 128 bytes. */
  predicate Malformed(roomName: string, req: JoinRequest) {
    || !(3 <= |roomName| <= 48 && forall i :: 0 <= i < |roomName| ==> NameChar(roomName[i]))
    || (req.claimPassword.Some? && Utf8Length(req.claimPassword.value) > 128)
  }

  /** Into a room that exists, a well-formed request gets exactly with the password, and
      as a member or while there is space; it is told of all members, itself included
      if it was one. Nothing changes for whoever is not let in. */
  lemma WhoGetsIn(roomName: string, room: Room, max: nat, req: JoinRequest)
    requires Sound(room, max)
    ensures var (after, answer) := Join(roomName, Some(room), max, req);
      var fits := req.sessionId in room.participants || |room.participants| < max;
      && (answer.BadRequest? <==> Malformed(roomName, req))
      && (answer.PasswordRequired? <==> !Malformed(roomName, req) && req.password != room.password)
      && (answer.Full? <==> !Malformed(roomName, req) && req.password == room.password && !fits)
      && (answer.Joined? <==> !Malformed(roomName, req) && req.password == room.password && fits)
      && (answer.Joined? ==> answer == Joined(req.sessionId, room.participants.Keys))
      && (!answer.Joined? ==> after == Some(room))
  {
    RoomNames(roomName);
  }

  /** A room comes into being exactly when a well-formed request claims it with a password
      that is not empty. The claimant gets in, alone, unless rooms hold nobody. */
  lemma WhoFounds(roomName: string, max: nat, req: JoinRequest)
    ensures var (after, answer) := Join(roomName, None, max, req);
      && (answer.BadRequest? <==> Malformed(roomName, req))
      && (after.Some? <==> !Malformed(roomName, req) && req.claimPassword.Some? && req.claimPassword.value != "")
      && (answer.NeedPassword? <==> !Malformed(roomName, req) && after.None?)
      && (after.Some? ==>
            && after.value.password == req.claimPassword
            && answer == (if max > 0 then Joined(req.sessionId, {}) else Full)
            && after.value.participants.Keys == if max > 0 then {req.sessionId} else {})
  {
    RoomNames(roomName);
  }

  /** Whoever gets in has a channel of its own that nobody reads yet, and goes by the first
      64 characters of the name it gave, or by the name it had. Nobody else is touched. */
  lemma WhatJoiningDoes(room: Room, max: nat, req: JoinRequest)
    requires RoomOk(room) && Enter(room, max, req).1.Joined?
    ensures var after, id := Enter(room, max, req).0, req.sessionId;
      && id in after.participants && after.participants[id] == |room.chans|
      && after.chans == room.chans + [Channel(id, 0, [], {}, [])]
      && NameOf(after, id) ==
           (if req.displayName.Some? then Some(First(req.displayName.value, 64)) else NameOf(room, id))
      && forall other :: other != id ==>
           && (other in after.participants <==> other in room.participants)
           && (other in room.participants ==> after.participants[other] == room.participants[other])
           && NameOf(after, other) == NameOf(room, other)
  {
  }

  /** A snapshot has exactly one entry for every other participant, under its name. */
  lemma SnapshotSaysWho(room: Room, id: Id, peers: seq<PeerInfo>, other: Id)
    requires IsSnapshot(room, id, peers) && other in room.participants && other != id
    ensures exists i :: 0 <= i < |peers| && peers[i] == PeerInfo(other, NameOf(room, other))
                        && forall j :: 0 <= j < |peers| && j != i ==> peers[j].peerId != other
  {
    assert other in Ids(peers);
    var i :| 0 <= i < |peers| && peers[i].peerId == other;
    assert peers[i] == PeerInfo(other, NameOf(room, other));
  }

  // ---- A broadcast reaches everybody ------------------------------------------------------------

  /** A broadcast reaches every participant but the one left out, if its channel is
      read, and no channel that is not somebody's current one. */
  lemma BroadcastReaches(room: Room, e: Entry, exclude: Option<Id>)
    requires RoomOk(room)
    ensures var room' := Broadcast(room, e, exclude);
      && room'.participants == room.participants && room'.names == room.names && |room'.chans| == |room.chans|
      && (forall id :: id in room.participants ==>
            var k := room.participants[id];
            room'.chans[k].log ==
              if exclude != Some(id) && room.chans[k].readers != {} then room.chans[k].log + [e] else room.chans[k].log)
      && (forall k :: 0 <= k < |room.chans| && (forall id :: id in room.participants ==> room.participants[id] != k) ==>
            room'.chans[k] == room.chans[k])
  {
    forall id | id in room.participants
      ensures var k := room.participants[id];
        Broadcast(room, e, exclude).chans[k].log ==
          if exclude != Some(id) && room.chans[k].readers != {} then room.chans[k].log + [e] else room.chans[k].log
    {
      PushKeepsOk(room.chans[room.participants[id]], e);
    }
  }

  // ---- What admission keeps -------------------------------------------------------------------

  /** How a member came in: by claiming the room or by matching its password. */
  predicate CameIn(room: Room, req: JoinRequest, founding: bool) {
    if founding then Claims(req) && room.password == req.claimPassword
    else req.password.Some? && room.password == req.password
  }

  /** The room after `reqs`, one at a time; joins exclude each other. */
  function After(roomName: string, max: nat, reqs: seq<JoinRequest>): Option<Room> {
    if reqs == [] then None
    else Join(roomName, After(roomName, max, reqs[..|reqs| - 1]), max, reqs[|reqs| - 1]).0
  }

  /** The room that request `k` met. */
  function Met(roomName: string, max: nat, reqs: seq<JoinRequest>, k: nat): Option<Room>
    requires k < |reqs|
  {
    After(roomName, max, reqs[..k])
  }

  ghost predicate AdmittedBy(roomName: string, max: nat, reqs: seq<JoinRequest>, k: nat, id: Id, room: Room) {
    && k < |reqs| && reqs[k].sessionId == id
    && CameIn(room, reqs[k], Met(roomName, max, reqs, k).None?)
  }

  lemma AdmitKeepsOk(room: Room, id: Id, name: Option<string>)
    requires RoomOk(room)
    ensures RoomOk(Admit(room, id, name))
  {
  }

  /** What holds of a room at any time. */
  ghost predicate Sound(room: Room, max: nat) {
    && RoomOk(room)
    && |room.participants| <= max
    && room.password.Some? && room.password.value != ""
  }

  /** The password and the members stay; at most `joined` comes in. */
  predicate Extends(before: Room, after: Room, joined: set<Id>) {
    && after.password == before.password
    && after.participants.Keys == before.participants.Keys + joined
  }

  lemma EnterKeeps(room: Room, max: nat, req: JoinRequest)
    requires Sound(room, max)
    ensures var (after, answer) := Enter(room, max, req);
      && Sound(after, max)
      && Extends(room, after, if answer.Joined? then {req.sessionId} else {})
  {
    AdmitKeepsOk(room, req.sessionId, Shortened(req.displayName));
    if Enter(room, max, req).1.Joined? { OneMoreFits(room.participants, max, req.sessionId, |room.chans|); }
  }

  lemma OneMoreFits(members: map<Id, nat>, max: nat, id: Id, chan: nat)
    requires |members| <= max && (id in members || |members| < max)
    ensures |members[id := chan]| <= max && members[id := chan].Keys == members.Keys + {id}
  {
    var more := members[id := chan];
    assert |members| == |members.Keys| && |more| == |more.Keys|;
    if id in members { assert more.Keys == members.Keys; } else { assert more.Keys == members.Keys + {id}; }
  }

  lemma CheckInKeeps(roomName: string, room: Option<Room>, max: nat, req: JoinRequest)
    requires room.Some? ==> Sound(room.value, max)
    ensures var gate := CheckIn(roomName, room, req);
      gate.Passed? ==>
        && Sound(gate.room, max) && CameIn(gate.room, req, room.None?)
        && (if room.Some? then gate.room == room.value else gate.room.participants == map[])
  {
  }

  lemma JoinKeeps(roomName: string, room: Option<Room>, max: nat, req: JoinRequest)
    requires room.Some? ==> Sound(room.value, max)
    ensures var (after, answer) := Join(roomName, room, max, req);
      && (after.Some? ==> Sound(after.value, max))
      && (answer.Joined? ==> after.Some? && CameIn(after.value, req, room.None?))
      && var joined := if answer.Joined? then {req.sessionId} else {};
         && (room.Some? ==> after.Some? && Extends(room.value, after.value, joined))
         && (room.None? && after.Some? ==> after.value.participants.Keys == joined)
  {
    CheckInKeeps(roomName, room, max, req);
    var gate := CheckIn(roomName, room, req);
    if gate.Passed? { EnterKeeps(gate.room, max, req); }
  }

  /** Over any sequence of joins: the capacity holds, the password is non-empty,
      every member came in by claiming the room or by matching its password, and
      only members have names. */
  lemma {:induction false} RoomInvariant(roomName: string, max: nat, reqs: seq<JoinRequest>)
    ensures var room := After(roomName, max, reqs);
      room.Some? ==>
        && Sound(room.value, max)
        && (forall id :: id in room.value.participants ==>
              exists k :: AdmittedBy(roomName, max, reqs, k, id, room.value))
        && room.value.names.Keys <= room.value.participants.Keys
  {
    if reqs != [] {
      var n := |reqs| - 1;
      var before, req := reqs[..n], reqs[n];
      RoomInvariant(roomName, max, before);
      JoinKeeps(roomName, After(roomName, max, before), max, req);
      var room := After(roomName, max, reqs);
      if room.Some? {
        var met := After(roomName, max, before);
        forall id | id in room.value.participants
          ensures exists k :: AdmittedBy(roomName, max, reqs, k, id, room.value)
        {
          if met.Some? && id in met.value.participants {
            var k :| AdmittedBy(roomName, max, before, k, id, met.value);
            StillAdmitted(roomName, max, reqs, k, id, met.value, room.value);
          } else {
            assert AdmittedBy(roomName, max, reqs, n, id, room.value);
          }
        }
      }
    }
  }

  lemma StillAdmitted(
    roomName: string, max: nat, reqs: seq<JoinRequest>, k: nat, id: Id, early: Room, late: Room)
    requires reqs != [] && AdmittedBy(roomName, max, reqs[..|reqs| - 1], k, id, early)
    requires late.password == early.password
    ensures AdmittedBy(roomName, max, reqs, k, id, late)
  {
    assert reqs[..|reqs| - 1][..k] == reqs[..k];
  }

  /** Later joins change neither the password nor anyone's membership. */
  lemma {:induction false} JoinsOnlyAdd(roomName: string, max: nat, reqs: seq<JoinRequest>, k: nat)
    requires k <= |reqs|
    ensures var early, late := After(roomName, max, reqs[..k]), After(roomName, max, reqs);
      early.Some? ==>
        && late.Some? && late.value.password == early.value.password
        && early.value.participants.Keys <= late.value.participants.Keys
  {
    if k == |reqs| {
      assert reqs[..k] == reqs;
    } else {
      var n := |reqs| - 1;
      assert reqs[..n][..k] == reqs[..k];
      JoinsOnlyAdd(roomName, max, reqs[..n], k);
      RoomInvariant(roomName, max, reqs[..n]);
      JoinKeeps(roomName, After(roomName, max, reqs[..n]), max, reqs[n]);
    }
  }
}
