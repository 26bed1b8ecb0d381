/** The server's shared state and its handlers, each run without interruption. The
    steps of interleaved handlers are in module Relay. */
module Server {
  import opened Types
  import opened Rooms
  import C = Chat

  datatype Status = OK | BAD_REQUEST | FORBIDDEN | NOT_FOUND

  /** What opening an event stream yields: the snapshot sent first and the number of
      the first live event. */
  datatype Opening = Refused(status: Status) | Opened(resync: SseEvent, chan: nat, start: nat)

  const MAX_TEXT: nat := 2000

  class RoomState {
    const password: Option<string>
    var participants: map<Id, nat>
    var displayNames: map<Id, string>
    var chans: seq<Channel>

    ghost function View(): Room
      reads this
    {
      Rooms.Room(password, participants, displayNames, chans)
    }

    ghost predicate Valid()
      reads this
    {
      RoomOk(View())
    }

    constructor (password: Option<string>)
      ensures Valid() && View() == Rooms.Room(password, map[], map[], [])
    {
      this.password := password;
      participants, displayNames, chans := map[], map[], [];
    }

    predicate IsParticipant(id: Id)
      reads this
    {
      id in participants
    }

    /** Delivers an event to one participant; to nobody if there is no such participant. */
    method SendTo(id: Id, e: Entry)
      requires Valid()
      modifies `chans
      ensures Valid() && View() == Rooms.SendTo(old(View()), id, e)
    {
      if id !in participants { return; }
      var k := participants[id];
      PushKeepsOk(chans[k], e);
      chans := chans[k := Push(chans[k], e)];
    }

    /** Sends an event to every participant but `exclude`, in whatever order the map yields them. */
    method Broadcast(e: Entry, exclude: Option<Id>)
      requires Valid()
      modifies `chans
      ensures Valid() && View() == Rooms.Broadcast(old(View()), e, exclude)
    {
      var rest := participants.Keys;
      while rest != {}
        invariant Valid() && rest <= participants.Keys && |chans| == |old(chans)|
        invariant forall k :: 0 <= k < |chans| ==>
          chans[k] == if Rooms.Current(old(View()), k, exclude) && old(chans)[k].owner !in rest
                      then Push(old(chans)[k], e) else old(chans)[k]
      {
        var id :| id in rest;
        if exclude != Some(id) { SendTo(id, e); }
        rest := rest - {id};
      }
      assert chans == Rooms.Broadcast(old(View()), e, exclude).chans;
    }

    /** Everyone but `self`, each once, with their names. */
    method Snapshot(self: Id) returns (peers: seq<PeerInfo>)
      requires Valid()
      ensures IsSnapshot(View(), self, peers)
    {
      peers := [];
      var rest := participants.Keys - {self};
      while rest != {}
        invariant rest <= participants.Keys - {self}
        invariant DistinctIds(peers) && Ids(peers) == participants.Keys - {self} - rest
        invariant forall i :: 0 <= i < |peers| ==> peers[i].peerName == NameOf(View(), peers[i].peerId)
      {
        var id :| id in rest;
        var more := peers + [PeerInfo(id, if id in displayNames then Some(displayNames[id]) else None)];
        assert Ids(more) == Ids(peers) + {id} by {
          assert forall i :: 0 <= i < |peers| ==> more[i] == peers[i];
          assert more[|peers|].peerId == id;
        }
        assert id !in Ids(peers);
        peers := more;
        rest := rest - {id};
      }
    }

    /** Snapshot, then subscribe, then announce: whoever reacts to the announcement
        finds the newcomer listening. */
    method OpenStream(self: Id, reader: nat) returns (peers: seq<PeerInfo>, chan: nat, start: nat)
      requires Valid() && self in participants
      modifies `chans
      ensures Valid()
      ensures IsSnapshot(old(View()), self, peers)
      ensures chan == participants[self] && start == old(chans)[chan].tail
      ensures View() == Rooms.Broadcast(Subscribe(old(View()), chan, reader),
                Entry(PeerJoined(self, NameOf(old(View()), self)), 0), Some(self))
    {
      peers := Snapshot(self);
      chan := participants[self];
      start := chans[chan].tail;
      chans := chans[chan := chans[chan].(readers := chans[chan].readers + {reader})];
      Broadcast(
        Entry(PeerJoined(self, if self in displayNames then Some(displayNames[self]) else None), 0),
        Some(self));
    }
  }

  class AppState {
    const maxParticipants: nat
    const chat: C.InMemoryChat
    var rooms: map<string, RoomState>

    ghost predicate Valid()
      reads this, rooms.Values, chat
    {
      && chat.Valid()
      && (forall r :: r in rooms ==> rooms[r].Valid())
      && (forall r, s :: r in rooms && s in rooms && r != s ==> rooms[r] != rooms[s])
    }

    constructor (maxParticipants: nat)
      ensures Valid() && fresh(chat) && this.maxParticipants == maxParticipants
      ensures forall name :: Find(name) == None && chat.Log(name) == []
    {
      this.maxParticipants := maxParticipants;
      chat := new C.InMemoryChat();
      rooms := map[];
    }

    ghost function Find(name: string): Option<Room>
      reads this, rooms.Values
    {
      if name in rooms then Some(rooms[name].View()) else None
    }

    /** Whether `sessionId` may act in the room. */
    function RequireRoom(name: string, sessionId: Id): (status: Status)
      reads this, rooms.Values
      ensures status == OK <==> name in rooms && sessionId in rooms[name].participants
      ensures status == NOT_FOUND <==> name !in rooms
      ensures status != BAD_REQUEST
    {
      if name !in rooms then NOT_FOUND
      else if !rooms[name].IsParticipant(sessionId) then FORBIDDEN
      else OK
    }

    method EnterRoom(room: RoomState, req: JoinRequest) returns (answer: JoinResponse)
      requires room.Valid()
      modifies room
      ensures room.Valid() && (room.View(), answer) == Enter(old(room.View()), maxParticipants, req)
    {
      if |room.participants| >= maxParticipants && req.sessionId !in room.participants {
        return Full;
      }
      answer := Joined(req.sessionId, room.participants.Keys);
      var name := Shortened(req.displayName);
      AdmitKeepsOk(room.View(), req.sessionId, name);
      if name.Some? {
        room.displayNames := room.displayNames[req.sessionId := name.value];
      }
      room.participants := room.participants[req.sessionId := |room.chans|];
      room.chans := room.chans + [Channel(req.sessionId, 0, [], {}, [])];
    }

    /** Creates a room that a request claims, and admits the request to it. */
    method ClaimRoom(name: string, req: JoinRequest) returns (answer: JoinResponse)
      modifies `rooms
      ensures name in rooms && rooms == old(rooms)[name := rooms[name]]
      ensures fresh(rooms[name]) && rooms[name].Valid()
      ensures (rooms[name].View(), answer) ==
              Enter(Rooms.Room(req.claimPassword, map[], map[], []), maxParticipants, req)
    {
      var room := new RoomState(req.claimPassword);
      answer := EnterRoom(room, req);
      rooms := rooms[name := room];
    }

    method JoinNew(name: string, req: JoinRequest) returns (answer: JoinResponse)
      requires Valid() && name !in rooms
      modifies `rooms
      ensures Valid()
      ensures (Find(name), answer) ==
        var (room, a) := Enter(Rooms.Room(req.claimPassword, map[], map[], []), maxParticipants, req); (Some(room), a)
      ensures forall other :: other != name ==> Find(other) == old(Find(other))
    {
      answer := ClaimRoom(name, req);
      assert forall r :: r in old(rooms) ==> rooms[r] == old(rooms[r]) && rooms[r].Valid() && rooms[r] != rooms[name];
    }

    /** Admits a request to a room that exists, if it has the password. */
    method JoinExisting(name: string, req: JoinRequest) returns (answer: JoinResponse)
      requires Valid() && name in rooms
      modifies rooms[name]
      ensures Valid()
      ensures (Find(name), answer) ==
        if !Granted(rooms[name].password, req.password) then (old(Find(name)), PasswordRequired)
        else var (room, a) := Enter(old(Find(name)).value, maxParticipants, req); (Some(room), a)
      ensures forall other :: other != name ==> Find(other) == old(Find(other))
    {
      if !Granted(rooms[name].password, req.password) { return PasswordRequired; }
      assert forall r :: r in rooms && r != name ==> rooms[r] != rooms[name];
      answer := EnterRoom(rooms[name], req);
      assert forall r :: r in rooms && r != name ==> rooms[r].View() == old(rooms[r].View());
    }

    method HandleJoin(name: string, req: JoinRequest) returns (answer: JoinResponse)
      requires Valid()
      modifies this, rooms.Values
      ensures Valid()
      ensures (Find(name), answer) == Join(name, old(Find(name)), maxParticipants, req)
      ensures forall other :: other != name ==> Find(other) == old(Find(other))
    {
      if !ValidRoomName(name) { return BadRequest; }
      if req.claimPassword.Some? && Utf8Length(req.claimPassword.value) > MAX_PASSWORD { return BadRequest; }
      if name in rooms {
        answer := JoinExisting(name, req);
      } else if Claims(req) {
        answer := JoinNew(name, req);
      } else {
        answer := NeedPassword;
      }
    }

    /** Relays a media signal to its addressee, under the sender's name instead. */
    method HandleSignal(name: string, sessionId: Id, signal: SignalMessage, tag: nat) returns (status: Status)
      requires Valid()
      modifies rooms.Values
      ensures Valid()
      ensures status == if sessionId == "" then BAD_REQUEST else old(RequireRoom(name, sessionId))
      ensures Find(name) ==
              if status == OK then
                Some(Rooms.SendTo(old(Find(name)).value, signal.to, Entry(Media(sessionId, signal.body), tag)))
              else old(Find(name))
      ensures forall other :: other != name ==> Find(other) == old(Find(other))
    {
      if sessionId == "" { return BAD_REQUEST; }
      status := RequireRoom(name, sessionId);
      if status == OK {
        assert forall r :: r in rooms && r != name ==> rooms[r] != rooms[name];
        rooms[name].SendTo(signal.to, Entry(Media(sessionId, signal.body), tag));
      }
    }

    /** Opens an event stream: snapshot, then subscribe, then announce. */
    method HandleSse(name: string, sessionId: Id, reader: nat) returns (opening: Opening)
      requires Valid()
      modifies rooms.Values
      ensures Valid()
      ensures opening.Refused? ==>
        && opening.status == (if sessionId == "" then BAD_REQUEST else old(RequireRoom(name, sessionId)))
        && opening.status != OK && Find(name) == old(Find(name))
      ensures opening.Opened? ==>
        && sessionId != "" && old(RequireRoom(name, sessionId)) == OK
        && var before := old(Find(name)).value;
           && opening.chan == before.participants[sessionId]
           && opening.start == before.chans[opening.chan].tail
           && opening.resync.Resync? && IsSnapshot(before, sessionId, opening.resync.peers)
           && opening.resync.chat == Last(chat.Log(name), C.RESYNC_HISTORY)
           && Find(name) == Some(Rooms.Broadcast(Subscribe(before, opening.chan, reader),
                Entry(PeerJoined(sessionId, NameOf(before, sessionId)), 0), Some(sessionId)))
      ensures forall other :: other != name ==> Find(other) == old(Find(other))
    {
      if sessionId == "" { return Opening.Refused(BAD_REQUEST); }
      var status := RequireRoom(name, sessionId);
      if status != OK { return Opening.Refused(status); }
      var room := rooms[name];
      assert forall r :: r in rooms && r != name ==> rooms[r] != room;
      var peers, chan, start := room.OpenStream(sessionId, reader);
      var history := chat.History(name, C.RESYNC_HISTORY);
      opening := Opened(Resync(peers, history), chan, start);
    }

    /** Stores a chat message, then sends it to everyone in the room, the sender included. */
    method HandleChatSend(name: string, sessionId: Id, senderName: Option<string>, text: string, now: nat, tag: nat)
      returns (status: Status)
      requires Valid()
      modifies rooms.Values, chat
      ensures Valid()
      ensures status ==
              if sessionId == "" then BAD_REQUEST
              else if old(RequireRoom(name, sessionId)) != OK then old(RequireRoom(name, sessionId))
              else if text == "" then BAD_REQUEST
              else OK
      ensures status != OK ==> Find(name) == old(Find(name)) && chat.Log(name) == old(chat.Log(name))
      ensures status == OK ==>
        var m := ChatMessage(name, sessionId, senderName, First(text, 2000), now);
        && chat.Log(name) == old(chat.Log(name)) + [m]
        && Find(name) == Some(Rooms.Broadcast(old(Find(name)).value, Entry(C.Live(m), tag), None))
      ensures forall other :: other != name ==>
        Find(other) == old(Find(other)) && chat.Log(other) == old(chat.Log(other))
    {
      if sessionId == "" { return BAD_REQUEST; }
      status := RequireRoom(name, sessionId);
      if status != OK { return; }
      var kept := First(text, MAX_TEXT);
      if kept == "" { return BAD_REQUEST; }
      assert forall r :: r in rooms && r != name ==> rooms[r] != rooms[name];
      var msg := ChatMessage(name, sessionId, senderName, kept, now);
      chat.Append(msg);
      rooms[name].Broadcast(Entry(C.Live(msg), tag), None);
    }
  }
}
