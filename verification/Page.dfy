/** The room page: what it does with an event, and the events that come before its mesh exists. */
module Page {
  import opened Types
  import opened Meshes
  import C = Chat
  import P = Presence
  import R = Rooms
  import D = Delivery

  // ---- Events early and late -------------------------------------------------------------------

  /** The events the mesh is given: all but chat. */
  function ForMesh(es: seq<SseEvent>): seq<SseEvent> {
    if es == [] then []
    else
      var rest := ForMesh(es[..|es| - 1]);
      if es[|es| - 1].Chat? then rest else rest + [es[|es| - 1]]
  }

  /** An event together with the peers for which the browser refuses a connection then. */
  datatype Arrival = Arrival(ev: SseEvent, refused: set<Id>)

  function Replay(m: MeshState, xs: seq<Arrival>): MeshState {
    if xs == [] then m else Handle(Replay(m, xs[..|xs| - 1]), xs[|xs| - 1].ev, xs[|xs| - 1].refused)
  }

  function Events(xs: seq<Arrival>): seq<SseEvent> {
    seq(|xs|, i requires 0 <= i < |xs| => xs[i].ev)
  }

  /** The events and refusals of a replay, paired. */
  function Paired(es: seq<SseEvent>, refused: seq<set<Id>>): (xs: seq<Arrival>)
    requires |es| == |refused|
    ensures |xs| == |es| && Events(xs) == es
  {
    seq(|es|, i requires 0 <= i < |es| => Arrival(es[i], refused[i]))
  }

  function WithoutChat(xs: seq<Arrival>): seq<Arrival> {
    if xs == [] then []
    else
      var rest := WithoutChat(xs[..|xs| - 1]);
      if xs[|xs| - 1].ev.Chat? then rest else rest + [xs[|xs| - 1]]
  }

  lemma {:induction false} ReplayJoins(m: MeshState, xs: seq<Arrival>, ys: seq<Arrival>)
    ensures Replay(m, xs + ys) == Replay(Replay(m, xs), ys)
  {
    if ys == [] {
      assert xs + ys == xs;
    } else {
      var n := |ys| - 1;
      assert (xs + ys)[..|xs + ys| - 1] == xs + ys[..n];
      ReplayJoins(m, xs, ys[..n]);
    }
  }

  lemma {:induction false} ReplayIgnoresChat(m: MeshState, xs: seq<Arrival>)
    ensures Replay(m, WithoutChat(xs)) == Replay(m, xs)
    ensures Events(WithoutChat(xs)) == ForMesh(Events(xs))
  {
    if xs != [] {
      var n := |xs| - 1;
      var kept := WithoutChat(xs[..n]);
      ReplayIgnoresChat(m, xs[..n]);
      assert Events(xs)[..n] == Events(xs[..n]);
      if !xs[n].ev.Chat? {
        assert (kept + [xs[n]])[..|kept|] == kept;
        assert Events(kept + [xs[n]]) == Events(kept) + [xs[n].ev];
      }
    }
  }

  /** Wherever among the events the mesh is built, giving it those that waited and then
      the others as they come leaves it as if it had been there from the start. */
  lemma DeferredIsImmediate(m: MeshState, xs: seq<Arrival>, j: nat)
    requires j <= |xs|
    ensures Replay(Replay(m, WithoutChat(xs[..j])), xs[j..]) == Replay(m, xs)
    ensures Events(WithoutChat(xs[..j])) == ForMesh(Events(xs)[..j])
    ensures Events(WithoutChat(xs[..j])) + ForMesh(Events(xs[j..])) == ForMesh(Events(xs))
  {
    ReplayIgnoresChat(m, xs[..j]);
    ReplayJoins(m, xs[..j], xs[j..]);
    assert xs == xs[..j] + xs[j..];
    assert Events(xs)[..j] == Events(xs[..j]);
    ForMeshJoins(Events(xs[..j]), Events(xs[j..]));
    assert Events(xs[..j]) + Events(xs[j..]) == Events(xs);
  }

  lemma {:induction false} ForMeshJoins(es: seq<SseEvent>, fs: seq<SseEvent>)
    ensures ForMesh(es + fs) == ForMesh(es) + ForMesh(fs)
  {
    if fs == [] {
      assert es + fs == es;
    } else {
      var n := |fs| - 1;
      assert (es + fs)[..|es + fs| - 1] == es + fs[..n];
      ForMeshJoins(es, fs[..n]);
    }
  }

  // ---- The stage ------------------------------------------------------------------------------------

  /** Who is shown large: the speaker, if still listed, or else the first peer. */
  function OnStage(speaker: Option<Id>, peers: seq<PeerInfo>): (shown: Option<Id>)
    ensures shown.None? <==> peers == []
    ensures shown.Some? ==> shown.value in Ids(peers)
    ensures speaker.Some? && speaker.value in Ids(peers) ==> shown == speaker
    ensures shown.Some? && shown != speaker ==> shown.value == peers[0].peerId
  {
    if speaker.Some? && speaker.value in Ids(peers) then speaker
    else if peers != [] then Some(peers[0].peerId)
    else None
  }

  /** Whatever the meter says, the stage never shows a client to itself, and it is
      empty only when the client knows of nobody. */
  lemma StageShowsSomeoneElse(members: set<Id>, c: Id, es: seq<R.Entry>, speaker: Option<Id>)
    requires D.EventsOk(members, c, es)
    ensures var shown := OnStage(speaker, P.Listed(es));
      if shown.Some? then shown.value in members && shown.value != c else Ids(P.Listed(es)) == {}
  {
    P.ListIsClean(members, c, es);
  }

  // ---- The page -----------------------------------------------------------------------------------

  class RoomPage {
    const selfId: Id
    var mesh: Mesh?
    var early: seq<SseEvent>
    var peers: seq<PeerInfo>
    var messages: seq<C.UiChatMsg>
    /** History: the events received, in order. */
    ghost var arrived: seq<SseEvent>

    /** The mesh is given everything but chat in order of arrival; what it has not yet
        been given waits. */
    ghost predicate Valid()
      reads this, mesh
    {
      && (mesh == null ==> early == ForMesh(arrived))
      && (mesh != null ==> mesh.Valid() && mesh.selfId == selfId && early == [] && mesh.processed == ForMesh(arrived))
    }

    constructor (selfId: Id)
      ensures Valid() && mesh == null && arrived == [] && peers == [] && messages == []
    {
      this.selfId := selfId;
      mesh, early, peers, messages, arrived := null, [], [], [], [];
    }

    method HandToMesh(ev: SseEvent, refused: set<Id>)
      requires Valid()
      modifies `early, `arrived, if mesh == null then {} else {mesh} + mesh.peers.Values
      ensures Valid() && arrived == old(arrived) + [ev]
      ensures mesh != null ==> mesh.OwnsHandles() && mesh.View() == Handle(old(mesh.View()), ev, refused)
    {
      assert (arrived + [ev])[..|arrived|] == arrived;
      if ev.Chat? {
      } else if mesh != null {
        mesh.OnEvent(ev, refused);
      } else {
        early := early + [ev];
      }
      arrived := arrived + [ev];
    }

    method UpdateList(ev: SseEvent)
      modifies `peers, `messages
      ensures peers == P.Update(old(peers), ev)
      ensures messages == C.Update(old(messages), ev, Some(selfId))
    {
      match ev {
        case Resync(list, history) =>
          peers := list;
          messages := C.Shown(history, Some(selfId));
        case PeerJoined(id, name) =>
          if id !in Ids(peers) { peers := peers + [PeerInfo(id, name)]; }
        case PeerLeft(id) => peers := P.Without(peers, id);
        case Chat(from, name, text, ts) => messages := messages + [C.ToUi(from, name, text, ts, Some(selfId))];
        case _ =>
      }
    }

    /** Receives one event: media and presence go to the mesh, or wait for it, and the
        lists are updated. */
    method OnSse(ev: SseEvent, refused: set<Id>)
      requires Valid()
      modifies this, if mesh == null then {} else {mesh} + mesh.peers.Values
      ensures Valid() && mesh == old(mesh) && arrived == old(arrived) + [ev]
      ensures mesh != null ==> mesh.OwnsHandles() && mesh.View() == Handle(old(mesh.View()), ev, refused)
      ensures peers == P.Update(old(peers), ev)
      ensures messages == C.Update(old(messages), ev, Some(selfId))
      ensures ev.Chat? ==>
        && |messages| == |old(messages)| + 1 && messages[..|old(messages)|] == old(messages)
        && C.Says(messages[|old(messages)|], ChatMessage("", ev.from, ev.senderName, ev.text, ev.timestampMs), selfId)
      ensures ev.Resync? ==>
        |messages| == |ev.chat| && forall i :: 0 <= i < |messages| ==> C.Says(messages[i], ev.chat[i], selfId)
    {
      HandToMesh(ev, refused);
      UpdateList(ev);
    }

    /** The mesh has been built: it is given, in order, all that has waited for it. */
    method MeshReady(refused: seq<set<Id>>)
      requires Valid() && mesh == null && |refused| == |early|
      modifies `mesh, `early
      ensures Valid() && mesh != null && fresh(mesh) && fresh(mesh.peers.Values)
      ensures mesh.View() == Replay(MeshState(selfId, map[], {}), Paired(ForMesh(arrived), refused))
    {
      var built := new Mesh(selfId);
      var queued := early;
      early := [];
      ghost var xs := Paired(queued, refused);
      for i := 0 to |queued|
        invariant early == [] && fresh(built) && built.Valid() && built.selfId == selfId
        invariant forall f :: f in built.peers ==> fresh(built.peers[f])
        invariant built.processed == queued[..i]
        invariant built.View() == Replay(MeshState(selfId, map[], {}), xs[..i])
      {
        assert queued[..i + 1] == queued[..i] + [queued[i]] && xs[..i + 1][..i] == xs[..i];
        built.OnEvent(queued[i], refused[i]);
      }
      assert xs[..|queued|] == xs && queued[..|queued|] == queued;
      mesh := built;
    }
  }
}
