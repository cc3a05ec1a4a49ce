/** Live fan-out of job frames to viewers: the begin / replay / finish subscription queue. */
module Subscriptions {
  import opened Chunks

  type UserId = nat
  type JobId = nat
  type ClientId = nat

  const MAX_QUEUED: nat := 1000
  const MAX_CLIENT_SEND_BACKLOG_BYTES: nat := 8 * 1024 * 1024

  datatype Frame = Output(chunk: Chunk) | Status

  /** A WebSocket as seen by its sender. A socket that is no longer open never reopens. */
  datatype Socket = Socket(open: bool, sent: seq<Frame>) {
    function Send(f: Frame): Socket {
      if open then Socket(open, sent + [f]) else this
    }

    function Close(): Socket {
      Socket(false, sent)
    }
  }

  datatype Subscription = Subscription(replaying: bool, queued: seq<Frame>)

  datatype Client = Client(userId: UserId, socket: Socket, subscriptions: map<JobId, Subscription>)

  function SendAll(s: Socket, frames: seq<Frame>): (r: Socket)
    decreases |frames|
  {
    if frames == [] then s else SendAll(s.Send(frames[0]), frames[1..])
  }

  lemma {:induction false} SendAllAppends(s: Socket, frames: seq<Frame>)
    ensures SendAll(s, frames) == if s.open then Socket(true, s.sent + frames) else s
    decreases |frames|
  {
    if frames == [] {
      assert s.sent + frames == s.sent;
    } else {
      SendAllAppends(s.Send(frames[0]), frames[1..]);
      assert s.sent + frames == (s.sent + [frames[0]]) + frames[1..];
    }
  }

  /** What one client does with a broadcast, given the bytes waiting in its send buffer. */
  function Handle(c: Client, userId: UserId, jobId: JobId, f: Frame, bufferedAmount: nat): Client {
    if c.userId != userId || jobId !in c.subscriptions then c
    else
      var sub := c.subscriptions[jobId];
      if !sub.replaying then
        if bufferedAmount > MAX_CLIENT_SEND_BACKLOG_BYTES then c.(socket := c.socket.Close())
        else c.(socket := c.socket.Send(f))
      else if |sub.queued| >= MAX_QUEUED then c.(socket := c.socket.Close())
      else c.(subscriptions := c.subscriptions[jobId := sub.(queued := sub.queued + [f])])
  }

  /**
   * The frames of one subscription since it began: those broadcast to it, and those of them put on
   * the socket, `passed`, which are found there at the positions `at`.
   */
  datatype Track = Track(handled: seq<Frame>, passed: seq<Frame>, at: seq<nat>)

  /** What has passed is on the socket, in order. */
  ghost predicate OnSocket(sent: seq<Frame>, t: Track) {
    && |t.at| == |t.passed|
    && (forall i :: 0 <= i < |t.at| ==> t.at[i] < |sent| && sent[t.at[i]] == t.passed[i])
    && (forall i, j :: 0 <= i < j < |t.at| ==> t.at[i] < t.at[j])
  }

  /** No frame on a socket belongs to two subscriptions. */
  ghost predicate Apart(t: Track, u: Track) {
    forall i, j :: 0 <= i < |t.at| && 0 <= j < |u.at| ==> t.at[i] != u.at[j]
  }

  /** The positions from `n` on of `k` frames put on a socket together. */
  function Positions(n: nat, k: nat): seq<nat> {
    seq(k, i requires 0 <= i < k => n + i)
  }

  /** A track whose subscription puts `frames` on the socket. */
  function Passing(t: Track, n: nat, frames: seq<Frame>): Track {
    t.(passed := t.passed + frames, at := t.at + Positions(n, |frames|))
  }

  lemma PassingOnSocket(sent: seq<Frame>, t: Track, frames: seq<Frame>)
    requires OnSocket(sent, t)
    ensures OnSocket(sent + frames, Passing(t, |sent|, frames))
  {
  }

  lemma PassingStaysApart(sent: seq<Frame>, t: Track, u: Track, frames: seq<Frame>)
    requires OnSocket(sent, t) && OnSocket(sent, u) && Apart(t, u)
    ensures Apart(Passing(t, |sent|, frames), u) && Apart(u, Passing(t, |sent|, frames)) && OnSocket(sent + frames, u)
  {
  }

  /**
   * Sent and queued frames are an in-order, gap-free prefix of what was handled, and all
   * of it while the queue has room (replaying) or the socket is open (live).
   */
  ghost predicate Faithful(c: Client, jobId: JobId, t: Track)
    requires jobId in c.subscriptions
  {
    var sub := c.subscriptions[jobId];
    && |sub.queued| <= MAX_QUEUED
    && t.passed + sub.queued <= t.handled
    && (!sub.replaying ==> sub.queued == [])
    && (if sub.replaying then |sub.queued| < MAX_QUEUED ==> t.passed + sub.queued == t.handled
        else c.socket.open ==> t.passed == t.handled)
    && (c.socket.open ==> t.passed + sub.queued == t.handled)
  }

  /** How a broadcast advances the track of a subscription it concerns. */
  function Advance(c: Client, t: Track, f: Frame, bufferedAmount: nat, jobId: JobId): Track
    requires jobId in c.subscriptions
  {
    var live := !c.subscriptions[jobId].replaying && c.socket.open && bufferedAmount <= MAX_CLIENT_SEND_BACKLOG_BYTES;
    Passing(t.(handled := t.handled + [f]), |c.socket.sent|, if live then [f] else [])
  }

  lemma HandleFaithful(c: Client, userId: UserId, jobId: JobId, f: Frame, bufferedAmount: nat, j: JobId, t: Track)
    requires j in c.subscriptions && Faithful(c, j, t)
    ensures j in Handle(c, userId, jobId, f, bufferedAmount).subscriptions
    ensures Faithful(Handle(c, userId, jobId, f, bufferedAmount), j,
                     if c.userId == userId && j == jobId then Advance(c, t, f, bufferedAmount, jobId) else t)
  {
    var queued := c.subscriptions[j].queued;
    assert t.passed + (queued + [f]) == (t.passed + queued) + [f];
    assert t.passed + [] == t.passed;
  }

  /** A broadcast puts on the socket exactly what it adds to the track. */
  lemma HandleSends(c: Client, userId: UserId, jobId: JobId, f: Frame, bufferedAmount: nat, t: Track)
    ensures c.userId != userId || jobId !in c.subscriptions ==> Handle(c, userId, jobId, f, bufferedAmount) == c
    ensures c.userId == userId && jobId in c.subscriptions ==>
              Handle(c, userId, jobId, f, bufferedAmount).socket.sent ==
              c.socket.sent + Advance(c, t, f, bufferedAmount, jobId).passed[|t.passed|..]
  {
  }

  type Tracks = map<(ClientId, JobId), Track>

  /** A broadcast advances the tracks of the subscriptions it concerns, and no others. */
  ghost function Advanced(clients: map<ClientId, Client>, tracks: Tracks, userId: UserId, jobId: JobId, f: Frame,
                          bufferedAmount: ClientId -> nat): Tracks {
    map k | k in tracks ::
      if k.0 in clients && k.1 == jobId && clients[k.0].userId == userId && jobId in clients[k.0].subscriptions
      then Advance(clients[k.0], tracks[k], f, bufferedAmount(k.0), jobId) else tracks[k]
  }

  /** A client's subscriptions are faithful, and each has its own frames on the client's socket. */
  ghost predicate Tracked(id: ClientId, c: Client, tracks: Tracks) {
    && (forall j :: j in c.subscriptions ==>
          (id, j) in tracks && Faithful(c, j, tracks[(id, j)]) && OnSocket(c.socket.sent, tracks[(id, j)]))
    && (forall j, k :: j in c.subscriptions && k in c.subscriptions && j != k ==> Apart(tracks[(id, j)], tracks[(id, k)]))
  }

  lemma TrackedFrame(id: ClientId, c: Client, tracks: Tracks, tracks': Tracks)
    requires Tracked(id, c, tracks)
    requires forall j :: j in c.subscriptions && (id, j) in tracks ==> (id, j) in tracks' && tracks'[(id, j)] == tracks[(id, j)]
    ensures Tracked(id, c, tracks')
  {
    hide Faithful, OnSocket, Apart;
  }

  lemma BeginTracked(id: ClientId, c: Client, tracks: Tracks, jobId: JobId)
    requires Tracked(id, c, tracks)
    ensures Tracked(id, c.(subscriptions := c.subscriptions[jobId := Subscription(true, [])]), tracks[(id, jobId) := Track([], [], [])])
  {
  }

  /** One subscription puts `frames` on the socket; what it has passed and queued stays faithful. */
  lemma PassingTracked(id: ClientId, c: Client, tracks: Tracks, jobId: JobId, c': Client, t: Track, frames: seq<Frame>)
    requires Tracked(id, c, tracks) && jobId in c.subscriptions
    requires t.at == tracks[(id, jobId)].at && t.passed == tracks[(id, jobId)].passed
    requires c'.socket.sent == c.socket.sent + frames && c'.subscriptions.Keys == c.subscriptions.Keys
    requires Faithful(c', jobId, Passing(t, |c.socket.sent|, frames))
    requires forall j :: j in c.subscriptions && j != jobId ==> Faithful(c', j, tracks[(id, j)])
    ensures Tracked(id, c', tracks[(id, jobId) := Passing(t, |c.socket.sent|, frames)])
  {
    hide Faithful, Apart, OnSocket, Passing;
    var was, sent := tracks[(id, jobId)], c.socket.sent;
    PassingKeeps(sent, was, t, frames);
    forall j | j in c.subscriptions && j != jobId
      ensures var u, now := tracks[(id, j)], Passing(t, |sent|, frames);
              Apart(now, u) && Apart(u, now) && OnSocket(c'.socket.sent, u)
    {
      AsBefore(sent, was, t, tracks[(id, j)]);
      PassingStaysApart(sent, t, tracks[(id, j)], frames);
    }
  }

  lemma PassingKeeps(sent: seq<Frame>, was: Track, t: Track, frames: seq<Frame>)
    requires OnSocket(sent, was) && t.at == was.at && t.passed == was.passed
    ensures OnSocket(sent, t) && OnSocket(sent + frames, Passing(t, |sent|, frames))
  {
    PassingOnSocket(sent, t, frames);
  }

  lemma AsBefore(sent: seq<Frame>, was: Track, t: Track, u: Track)
    requires OnSocket(sent, was) && t.at == was.at && t.passed == was.passed && Apart(was, u)
    ensures OnSocket(sent, t) && Apart(t, u)
  {
  }

  lemma FinishTracked(id: ClientId, c: Client, tracks: Tracks, jobId: JobId, c': Client, frames: seq<Frame>)
    requires Tracked(id, c, tracks) && jobId in c.subscriptions
    requires frames == if c.socket.open then c.subscriptions[jobId].queued else []
    requires c' == Client(c.userId, Socket(c.socket.open, c.socket.sent + frames), c.subscriptions[jobId := Subscription(false, [])])
    ensures (id, jobId) in tracks
    ensures Tracked(id, c', tracks[(id, jobId) := Passing(tracks[(id, jobId)], |c.socket.sent|, frames)])
  {
    var t := tracks[(id, jobId)];
    var passed := t.passed + frames;
    assert passed + [] == passed;
    assert forall j :: j in c.subscriptions && j != jobId ==> Faithful(c', j, tracks[(id, j)]);
    assert Faithful(c', jobId, Passing(t, |c.socket.sent|, frames));
    hide Tracked, Faithful;
    PassingTracked(id, c, tracks, jobId, c', t, frames);
  }

  lemma HandleTracked(id: ClientId, c: Client, tracks: Tracks, userId: UserId, jobId: JobId, f: Frame, bufferedAmount: nat)
    requires Tracked(id, c, tracks) && c.userId == userId && jobId in c.subscriptions
    ensures Tracked(id, Handle(c, userId, jobId, f, bufferedAmount),
                    tracks[(id, jobId) := Advance(c, tracks[(id, jobId)], f, bufferedAmount, jobId)])
  {
    var c', was := Handle(c, userId, jobId, f, bufferedAmount), tracks[(id, jobId)];
    forall j | j in c.subscriptions
      ensures Faithful(c', j, if j == jobId then Advance(c, was, f, bufferedAmount, jobId) else tracks[(id, j)])
    {
      HandleFaithful(c, userId, jobId, f, bufferedAmount, j, tracks[(id, j)]);
    }
    HandleSends(c, userId, jobId, f, bufferedAmount, was);
    hide Faithful, Tracked, Handle;
    var frames := Advance(c, was, f, bufferedAmount, jobId).passed[|was.passed|..];
    PassingTracked(id, c, tracks, jobId, c', was.(handled := was.handled + [f]), frames);
  }

  lemma AdvancedAt(clients: map<ClientId, Client>, tracks: Tracks, userId: UserId, jobId: JobId, f: Frame,
                   bufferedAmount: ClientId -> nat, id: ClientId, j: JobId)
    requires id in clients && j in clients[id].subscriptions && (id, j) in tracks
    ensures var c, tracks' := clients[id], Advanced(clients, tracks, userId, jobId, f, bufferedAmount);
            && (id, j) in tracks'
            && tracks'[(id, j)] == if c.userId == userId && j == jobId then Advance(c, tracks[(id, j)], f, bufferedAmount(id), jobId)
                                   else tracks[(id, j)]
  {
  }

  lemma BroadcastTracked(id: ClientId, clients: map<ClientId, Client>, tracks: Tracks, userId: UserId, jobId: JobId, f: Frame,
                         bufferedAmount: ClientId -> nat)
    requires id in clients && Tracked(id, clients[id], tracks)
    ensures Tracked(id, Handle(clients[id], userId, jobId, f, bufferedAmount(id)),
                    Advanced(clients, tracks, userId, jobId, f, bufferedAmount))
  {
    var c, tracks' := clients[id], Advanced(clients, tracks, userId, jobId, f, bufferedAmount);
    hide Faithful, OnSocket, Apart, Handle, Advance, Advanced;
    forall j | j in c.subscriptions
      ensures (id, j) in tracks'
      ensures tracks'[(id, j)] == if c.userId == userId && j == jobId then Advance(c, tracks[(id, j)], f, bufferedAmount(id), jobId)
                                  else tracks[(id, j)]
    {
      AdvancedAt(clients, tracks, userId, jobId, f, bufferedAmount, id, j);
    }
    hide Tracked;
    if c.userId == userId && jobId in c.subscriptions {
      HandleTracked(id, c, tracks, userId, jobId, f, bufferedAmount(id));
      HandleKeepsJobs(c, userId, jobId, f, bufferedAmount(id));
      var next := tracks[(id, jobId) := Advance(c, tracks[(id, jobId)], f, bufferedAmount(id), jobId)];
      TrackedFrame(id, Handle(c, userId, jobId, f, bufferedAmount(id)), next, tracks');
    } else {
      NotConcerned(c, userId, jobId, f, bufferedAmount(id));
      TrackedFrame(id, c, tracks, tracks');
    }
  }

  lemma NotConcerned(c: Client, userId: UserId, jobId: JobId, f: Frame, bufferedAmount: nat)
    requires c.userId != userId || jobId !in c.subscriptions
    ensures Handle(c, userId, jobId, f, bufferedAmount) == c
  {
  }

  lemma HandleKeepsJobs(c: Client, userId: UserId, jobId: JobId, f: Frame, bufferedAmount: nat)
    ensures Handle(c, userId, jobId, f, bufferedAmount).subscriptions.Keys == c.subscriptions.Keys
  {
  }

  /**
   * What a broadcast means to one client: nothing, if it is not for a subscription of its user; else
   * the frame counts as broadcast to that subscription, and what the track says has passed is what
   * the socket has been given more.
   */
  ghost predicate ReachesClient(id: ClientId, was: Client, now: Client, tracks: Tracks, tracks': Tracks, userId: UserId, jobId: JobId,
                                f: Frame) {
    && (was.userId != userId || jobId !in was.subscriptions ==> now == was)
    && (was.userId == userId && jobId in was.subscriptions ==>
          && (id, jobId) in tracks && (id, jobId) in tracks'
          && tracks'[(id, jobId)].handled == tracks[(id, jobId)].handled + [f]
          && tracks[(id, jobId)].passed <= tracks'[(id, jobId)].passed
          && now.socket.sent == was.socket.sent + tracks'[(id, jobId)].passed[|tracks[(id, jobId)].passed|..])
  }

  lemma BroadcastReaches(id: ClientId, clients: map<ClientId, Client>, tracks: Tracks, userId: UserId, jobId: JobId, f: Frame,
                         bufferedAmount: ClientId -> nat)
    requires id in clients && Tracked(id, clients[id], tracks)
    ensures ReachesClient(id, clients[id], Handle(clients[id], userId, jobId, f, bufferedAmount(id)), tracks,
                          Advanced(clients, tracks, userId, jobId, f, bufferedAmount), userId, jobId, f)
  {
    if clients[id].userId == userId && jobId in clients[id].subscriptions {
      HandleSends(clients[id], userId, jobId, f, bufferedAmount(id), tracks[(id, jobId)]);
    }
  }

  class ConnectionHub {
    var clients: map<ClientId, Client>
    ghost var tracks: Tracks

    ghost predicate Valid()
      reads this
    {
      forall c :: c in clients ==> Tracked(c, clients[c], tracks)
    }

    constructor ()
      ensures Valid() && clients == map[]
    {
      clients, tracks := map[], map[];
    }

    method AttachClient(id: ClientId, userId: UserId)
      requires Valid() && id !in clients
      modifies this
      ensures Valid() && clients == old(clients)[id := Client(userId, Socket(true, []), map[])]
      ensures tracks == old(tracks)
    {
      clients := clients[id := Client(userId, Socket(true, []), map[])];
    }

    method DetachClient(id: ClientId)
      requires Valid()
      modifies this
      ensures Valid() && clients == old(clients) - {id} && tracks == old(tracks)
    {
      clients := clients - {id};
    }

    /** The peer or the network closes a socket. */
    method SocketCloses(id: ClientId)
      requires Valid() && id in clients
      modifies this
      ensures Valid() && tracks == old(tracks)
      ensures clients == old(clients)[id := old(clients)[id].(socket := old(clients)[id].socket.Close())]
    {
      clients := clients[id := clients[id].(socket := clients[id].socket.Close())];
    }

    method BeginSubscription(id: ClientId, jobId: JobId)
      requires Valid()
      modifies this
      ensures Valid()
      ensures id !in old(clients) ==> clients == old(clients) && tracks == old(tracks)
      ensures id in old(clients) ==>
                && clients.Keys == old(clients).Keys
                && (forall c :: c in clients && c != id ==> clients[c] == old(clients)[c])
                && clients[id] == old(clients)[id].(subscriptions := old(clients)[id].subscriptions[jobId := Subscription(true, [])])
                && tracks == old(tracks)[(id, jobId) := Track([], [], [])]
    {
      if id !in clients { return; }
      var c := clients[id];
      BeginTracked(id, c, tracks, jobId);
      hide Tracked;
      ghost var before := tracks;
      clients := clients[id := c.(subscriptions := c.subscriptions[jobId := Subscription(true, [])])];
      tracks := tracks[(id, jobId) := Track([], [], [])];
      forall k | k in clients && k != id ensures Tracked(k, clients[k], tracks) {
        TrackedFrame(k, clients[k], before, tracks);
      }
    }

    /** Releases the queue in order. On a socket that has closed meanwhile nothing gets out. */
    method FinishSubscription(id: ClientId, jobId: JobId)
      requires Valid()
      modifies this
      ensures Valid()
      ensures !(id in old(clients) && jobId in old(clients)[id].subscriptions) ==> clients == old(clients) && tracks == old(tracks)
      ensures clients.Keys == old(clients).Keys && forall c :: c in clients && c != id ==> clients[c] == old(clients)[c]
      ensures tracks - {(id, jobId)} == old(tracks) - {(id, jobId)}
      ensures id in old(clients) && jobId in old(clients)[id].subscriptions ==>
                var was, sub := old(clients)[id], old(clients)[id].subscriptions[jobId];
                && clients[id].subscriptions == was.subscriptions[jobId := Subscription(false, [])]
                && clients[id].socket == (if was.socket.open then Socket(true, was.socket.sent + sub.queued) else was.socket)
                && tracks[(id, jobId)] ==
                   Passing(old(tracks)[(id, jobId)], |was.socket.sent|, if was.socket.open then sub.queued else [])
    {
      hide Tracked, Faithful, OnSocket, Apart, Passing;
      if id !in clients || jobId !in clients[id].subscriptions { return; }
      var c := clients[id];
      var sub := c.subscriptions[jobId];
      var socket := c.socket;
      var i := 0;
      while i < |sub.queued|
        invariant 0 <= i <= |sub.queued|
        invariant socket == if c.socket.open then Socket(true, c.socket.sent + sub.queued[..i]) else c.socket
      {
        socket := socket.Send(sub.queued[i]);
        assert sub.queued[..i + 1] == sub.queued[..i] + [sub.queued[i]];
        i := i + 1;
      }
      assert sub.queued[..i] == sub.queued;
      var released := Client(c.userId, socket, c.subscriptions[jobId := Subscription(false, [])]);
      ghost var frames := if c.socket.open then sub.queued else [];
      FinishTracked(id, c, tracks, jobId, released, frames);
      ghost var before := tracks;
      clients := clients[id := released];
      tracks := tracks[(id, jobId) := Passing(tracks[(id, jobId)], |c.socket.sent|, frames)];
      forall k | k in clients && k != id ensures Tracked(k, clients[k], tracks) {
        TrackedFrame(k, clients[k], before, tracks);
      }
    }

    method Unsubscribe(id: ClientId, jobId: JobId)
      requires Valid()
      modifies this
      ensures Valid() && tracks == old(tracks) && clients.Keys == old(clients).Keys
      ensures forall c :: c in clients ==>
                clients[c] == if c == id then old(clients)[c].(subscriptions := old(clients)[c].subscriptions - {jobId})
                              else old(clients)[c]
    {
      if id in clients {
        clients := clients[id := clients[id].(subscriptions := clients[id].subscriptions - {jobId})];
      }
    }

    method BroadcastJobLocally(userId: UserId, jobId: JobId, f: Frame, bufferedAmount: ClientId -> nat)
      requires Valid()
      modifies this
      ensures Valid() && clients.Keys == old(clients).Keys
      ensures forall c :: c in clients ==> clients[c] == Handle(old(clients)[c], userId, jobId, f, bufferedAmount(c))
      ensures tracks == Advanced(old(clients), old(tracks), userId, jobId, f, bufferedAmount)
      ensures forall c :: c in clients ==> ReachesClient(c, old(clients)[c], clients[c], old(tracks), tracks, userId, jobId, f)
    {
      ghost var before, marks := clients, tracks;
      FanOut(userId, jobId, f, bufferedAmount);
      tracks := Advanced(before, marks, userId, jobId, f, bufferedAmount);
      forall c | c in clients ensures Tracked(c, clients[c], tracks) {
        BroadcastTracked(c, before, marks, userId, jobId, f, bufferedAmount);
      }
      forall c | c in clients ensures ReachesClient(c, before[c], clients[c], marks, tracks, userId, jobId, f) {
        BroadcastReaches(c, before, marks, userId, jobId, f, bufferedAmount);
      }
    }

    method FanOut(userId: UserId, jobId: JobId, f: Frame, bufferedAmount: ClientId -> nat)
      modifies this`clients
      ensures clients.Keys == old(clients).Keys
      ensures forall c :: c in clients ==> clients[c] == Handle(old(clients)[c], userId, jobId, f, bufferedAmount(c))
    {
      ghost var before := clients;
      var todo := clients.Keys;
      while todo != {}
        invariant todo <= clients.Keys == before.Keys
        invariant forall c :: c in clients ==>
                    clients[c] == if c in todo then before[c] else Handle(before[c], userId, jobId, f, bufferedAmount(c))
        decreases todo
      {
        var id :| id in todo;
        clients := clients[id := Handle(clients[id], userId, jobId, f, bufferedAmount(id))];
        todo := todo - {id};
      }
    }
  }

  /** Once a frame has been skipped, the socket is closed and nothing more gets out on it. */
  lemma SkippedMeansClosed(c: Client, jobId: JobId, t: Track, userId: UserId, job: JobId, f: Frame, bufferedAmount: nat)
    requires jobId in c.subscriptions && Faithful(c, jobId, t)
    requires t.passed + c.subscriptions[jobId].queued != t.handled
    ensures !c.socket.open
    ensures Handle(c, userId, job, f, bufferedAmount).socket == c.socket
    ensures forall frames :: SendAll(c.socket, frames) == c.socket
  {
    forall frames ensures SendAll(c.socket, frames) == c.socket {
      SendAllAppends(c.socket, frames);
    }
  }
}
