/** The messages of the room protocol and the order on session ids. */
module Types {

  datatype Option<+T> = None | Some(value: T)

  /** A participant's session id. Ids are compared as text, character by character. */
  type Id = string

  /** Whether `a` sorts strictly before `b`. */
  predicate Before(a: Id, b: Id) {
    if b == "" then false
    else if a == "" then true
    else a[0] < b[0] || (a[0] == b[0] && Before(a[1..], b[1..]))
  }

  /** The tie-break is a strict order: nobody precedes itself, and of two
      different ids exactly one comes first. */
  lemma {:induction false} BeforeIsStrictTotal(a: Id, b: Id)
    ensures Before(a, b) ==> !Before(b, a)
    ensures a == b ==> !Before(a, b)
    ensures a != b ==> Before(a, b) || Before(b, a)
  {
    if a != "" && b != "" && a[0] == b[0] {
      assert a == a[..1] + a[1..] && b == b[..1] + b[1..];
      BeforeIsStrictTotal(a[1..], b[1..]);
    }
  }

  /** Where two texts first differ decides; if one is the beginning of the other, the
      shorter comes first. */
  lemma {:induction false} BeforeIsLexicographic(a: Id, b: Id, k: nat)
    requires k <= |a| && k <= |b| && a[..k] == b[..k]
    requires k == |a| || k == |b| || a[k] != b[k]
    ensures Before(a, b) <==> if k < |a| && k < |b| then a[k] < b[k] else k == |a| && k < |b|
  {
    if k > 0 {
      assert a[0] == a[..k][0] == b[..k][0] == b[0];
      assert a[1..][..k - 1] == a[..k][1..] == b[..k][1..] == b[1..][..k - 1];
      BeforeIsLexicographic(a[1..], b[1..], k - 1);
    }
  }

  /** An ICE candidate with the media section it belongs to. */
  datatype Candidate = Candidate(line: string, sdpMid: Option<string>, sdpMLineIndex: Option<nat>)

  /** What one peer connection says to the one at the other end. */
  datatype Signal = Offer(sdp: string) | Answer(sdp: string) | IceCandidate(candidate: Candidate)

  /** The body of a signal POST: addressed, with the sender known from the session. */
  datatype SignalMessage = SignalMessage(to: Id, body: Signal)

  datatype ChatMessage = ChatMessage(
    room: string, senderId: Id, senderName: Option<string>, text: string, timestampMs: nat)

  datatype PeerInfo = PeerInfo(peerId: Id, peerName: Option<string>)

  /** What the server pushes down a participant's event stream. */
  datatype SseEvent =
    | Resync(peers: seq<PeerInfo>, chat: seq<ChatMessage>)
    | PeerJoined(peerId: Id, peerName: Option<string>)
    | PeerLeft(peerId: Id)
    | Media(from: Id, body: Signal)
    | Chat(from: Id, senderName: Option<string>, text: string, timestampMs: nat)

  /** The ids of a presence list. */
  function Ids(peers: seq<PeerInfo>): (ids: set<Id>)
    ensures forall i :: 0 <= i < |peers| ==> peers[i].peerId in ids
    ensures forall id :: id in ids ==> exists i :: 0 <= i < |peers| && peers[i].peerId == id
  {
    set i | 0 <= i < |peers| :: peers[i].peerId
  }

  predicate DistinctIds(peers: seq<PeerInfo>) {
    forall i, j :: 0 <= i < j < |peers| ==> peers[i].peerId != peers[j].peerId
  }

  /** The last `n` elements, or all of them when there are fewer. */
  function Last<T>(s: seq<T>, n: nat): seq<T> {
    if |s| <= n then s else s[|s| - n..]
  }

  /** The first `n` elements, or all of them when there are fewer. */
  function First<T>(s: seq<T>, n: nat): seq<T> {
    if |s| <= n then s else s[..n]
  }

  /** A text or list is cut to its beginning or its end, no shorter than need be. */
  lemma CutsKeepAsMuchAsFits<T>(s: seq<T>, n: nat)
    ensures First(s, n) <= s && |First(s, n)| == if |s| <= n then |s| else n
    ensures s[..|s| - |Last(s, n)|] + Last(s, n) == s && |Last(s, n)| == if |s| <= n then |s| else n
  {
  }
}
