/**
 * The coordinator's room table (backend/server.js) as values: one record per
 * room, the messages the socket handlers emit, and one pure transition
 * function per handler. The class in module Server is proved to follow
 * these functions; the lemmas here state what the handlers promise.
 */
module ServerState {
  import opened Wrappers

  type RoomId = string
  /** A participant is known by its socket id. */
  type UserId = string
  /** An opaque track reference (the URL returned by the upload route). */
  type TrackRef = string

  /** Delay, in milliseconds, between barrier release and the announced start. */
  const Lookahead: int := 5000

  /** The record `rooms[room]`; `startedAt == None` stands for `null`. */
  datatype Room = Room(
    host: UserId,
    users: seq<UserId>,
    queue: seq<TrackRef>,
    readyUsers: seq<UserId>,
    startedAt: Option<int>,
    isPlaying: bool)

  type Rooms = map<RoomId, Room>

  /** Payloads of the events the coordinator emits. */
  datatype Event =
    | Role(isHost: bool)
    | UserList(users: seq<UserId>)
    | QueueUpdate(queue: seq<TrackRef>)
    | PreloadTrack(track: TrackRef)
    | StartPlayback(startTime: int)
    | SyncPosition(startedAt: int)

  /** `socket.emit` reaches one participant; `io.to(room).emit` reaches a room. */
  datatype Msg = ToSocket(id: UserId, event: Event) | ToRoom(room: RoomId, event: Event)

  /** The room table after a handler, and what the handler emitted, in order. */
  datatype Step = Step(rooms: Rooms, out: seq<Msg>)

  /** The record created for a room on its first join. */
  function Fresh(host: UserId): Room
  {
    Room(host, [], [], [], None, false)
  }

  /** Every room except `room` is present in both tables or in neither, with the same record. */
  ghost predicate OnlyTouches(before: Rooms, after: Rooms, room: RoomId)
  {
    forall k :: k != room ==> (k in before <==> k in after) && (k in before ==> after[k] == before[k])
  }

  // ---------------------------------------------------------------------------
  // The four handlers

  /** `joinRoom`: create the room on first join, append the caller, tell it its role, broadcast the roster. */
  function Join(rooms: Rooms, room: RoomId, id: UserId): Step
  {
    var r := if room in rooms then rooms[room] else Fresh(id);
    var joined := r.(users := r.users + [id]);
    Step(rooms[room := joined], [ToSocket(id, Role(joined.host == id)), ToRoom(room, UserList(joined.users))])
  }

  /** `addToQueue`: append to the tail of a known room's queue and broadcast the queue. */
  function AddToQueue(rooms: Rooms, room: RoomId, track: TrackRef): Step
  {
    if room in rooms then
      var r := rooms[room].(queue := rooms[room].queue + [track]);
      Step(rooms[room := r], [ToRoom(room, QueueUpdate(r.queue))])
    else
      Step(rooms, [])
  }

  /** `playNext`: pop the head of a non-empty queue, clear readiness, broadcast the queue and the track. */
  function PlayNext(rooms: Rooms, room: RoomId): Step
  {
    if room in rooms && |rooms[room].queue| > 0 then
      var q := rooms[room].queue;
      var r := rooms[room].(queue := q[1..], readyUsers := []);
      Step(rooms[room := r], [ToRoom(room, QueueUpdate(q[1..])), ToRoom(room, PreloadTrack(q[0]))])
    else
      Step(rooms, [])
  }

  /**
   * `clientReady`: append the caller to `readyUsers` and release the barrier when
   * the list is as long as `users`, announcing a start `Lookahead` ms after `now`.
   */
  function ClientReady(rooms: Rooms, room: RoomId, id: UserId, now: int): Step
  {
    if room !in rooms then
      Step(rooms, [])
    else
      var r := rooms[room].(readyUsers := rooms[room].readyUsers + [id]);
      if |r.readyUsers| == |r.users| then
        var startTime := now + Lookahead;
        Step(rooms[room := r.(startedAt := Some(startTime), isPlaying := true)], [ToRoom(room, StartPlayback(startTime))])
      else
        Step(rooms[room := r], [])
  }

  // ---------------------------------------------------------------------------
  // The resync tick

  /** The rooms the tick re-announces. */
  function Playing(rooms: Rooms): set<RoomId>
  {
    set r | r in rooms && rooms[r].isPlaying
  }

  /** The re-announcement of one playing room's start. */
  function SyncOf(rooms: Rooms, r: RoomId): Msg
    requires r in rooms && rooms[r].startedAt.Some?
  {
    ToRoom(r, SyncPosition(rooms[r].startedAt.value))
  }

  /** The rooms a batch of room broadcasts is addressed to. */
  function Announced(out: seq<Msg>): set<RoomId>
  {
    set i | 0 <= i < |out| && out[i].ToRoom? :: out[i].room
  }

  // ---------------------------------------------------------------------------
  // Invariant kept by every handler

  /**
   * The host is the first joiner and stays in `users`; a room plays exactly
   * when a start time has been announced for it.
   */
  ghost predicate RoomOk(r: Room)
  {
    |r.users| > 0 && r.users[0] == r.host && (r.isPlaying <==> r.startedAt.Some?)
  }

  ghost predicate ValidRooms(rooms: Rooms)
  {
    forall k :: k in rooms ==> RoomOk(rooms[k])
  }

  lemma HandlersKeepValid(rooms: Rooms, room: RoomId, id: UserId, track: TrackRef, now: int)
    requires ValidRooms(rooms)
    ensures ValidRooms(Join(rooms, room, id).rooms)
    ensures ValidRooms(AddToQueue(rooms, room, track).rooms)
    ensures ValidRooms(PlayNext(rooms, room).rooms)
    ensures ValidRooms(ClientReady(rooms, room, id, now).rooms)
  {
  }

  // ---------------------------------------------------------------------------
  // joinRoom

  lemma JoinCreatesRoom(rooms: Rooms, room: RoomId, id: UserId)
    requires room !in rooms
    ensures var s := Join(rooms, room, id);
      room in s.rooms && s.rooms[room] == Room(id, [id], [], [], None, false) &&
      OnlyTouches(rooms, s.rooms, room) &&
      s.out == [ToSocket(id, Role(true)), ToRoom(room, UserList([id]))]
  {
  }

  lemma JoinExistingRoom(rooms: Rooms, room: RoomId, id: UserId)
    requires room in rooms
    ensures var s := Join(rooms, room, id);
      room in s.rooms && s.rooms[room] == rooms[room].(users := rooms[room].users + [id]) &&
      s.rooms[room].host == rooms[room].host &&
      OnlyTouches(rooms, s.rooms, room) &&
      s.out == [ToSocket(id, Role(rooms[room].host == id)), ToRoom(room, UserList(rooms[room].users + [id]))]
  {
  }

  /** On a valid table, the role reply names the host exactly when the caller is the first joiner. */
  lemma JoinRoleIsFirstJoiner(rooms: Rooms, room: RoomId, id: UserId)
    requires ValidRooms(rooms)
    ensures var s := Join(rooms, room, id);
      room in s.rooms &&
      s.out[0] == ToSocket(id, Role(id == s.rooms[room].users[0]))
  {
  }

  // ---------------------------------------------------------------------------
  // addToQueue

  lemma AddToQueueAppends(rooms: Rooms, room: RoomId, track: TrackRef)
    ensures var s := AddToQueue(rooms, room, track);
      OnlyTouches(rooms, s.rooms, room) &&
      (room in rooms ==>
        room in s.rooms && s.rooms[room] == rooms[room].(queue := rooms[room].queue + [track]) &&
        s.out == [ToRoom(room, QueueUpdate(rooms[room].queue + [track]))]) &&
      (room !in rooms ==> s == Step(rooms, []))
  {
  }

  // ---------------------------------------------------------------------------
  // playNext

  lemma PlayNextNoop(rooms: Rooms, room: RoomId)
    requires room !in rooms || rooms[room].queue == []
    ensures PlayNext(rooms, room) == Step(rooms, [])
  {
  }

  lemma PlayNextDispatchesHead(rooms: Rooms, room: RoomId)
    requires room in rooms && rooms[room].queue != []
    ensures var s := PlayNext(rooms, room);
      var r := rooms[room];
      OnlyTouches(rooms, s.rooms, room) && room in s.rooms &&
      s.rooms[room].queue == r.queue[1..] && s.rooms[room].readyUsers == [] &&
      s.rooms[room].host == r.host && s.rooms[room].users == r.users &&
      s.rooms[room].startedAt == r.startedAt && s.rooms[room].isPlaying == r.isPlaying &&
      s.out == [ToRoom(room, QueueUpdate(r.queue[1..])), ToRoom(room, PreloadTrack(r.queue[0]))]
  {
  }

  /** `playNext` does not stop the resync tick: the same rooms stay announced. */
  lemma PlayNextKeepsAnnouncing(rooms: Rooms, room: RoomId)
    ensures Playing(PlayNext(rooms, room).rooms) == Playing(rooms)
  {
  }

  // ---------------------------------------------------------------------------
  // clientReady and the barrier

  lemma ClientReadyUnknownRoom(rooms: Rooms, room: RoomId, id: UserId, now: int)
    requires room !in rooms
    ensures ClientReady(rooms, room, id, now) == Step(rooms, [])
  {
  }

  /**
   * The caller is appended unconditionally; the barrier releases exactly when the
   * lengths agree, and otherwise the start and the playing flag are untouched.
   */
  lemma ClientReadyBarrier(rooms: Rooms, room: RoomId, id: UserId, now: int)
    requires room in rooms
    ensures var s := ClientReady(rooms, room, id, now);
      var r := rooms[room];
      var released := |r.readyUsers| + 1 == |r.users|;
      OnlyTouches(rooms, s.rooms, room) && room in s.rooms &&
      s.rooms[room].readyUsers == r.readyUsers + [id] &&
      s.rooms[room].host == r.host && s.rooms[room].users == r.users && s.rooms[room].queue == r.queue &&
      (released ==>
        s.rooms[room].startedAt == Some(now + 5000) && s.rooms[room].isPlaying &&
        s.out == [ToRoom(room, StartPlayback(now + 5000))]) &&
      (!released ==>
        s.rooms[room].startedAt == r.startedAt && s.rooms[room].isPlaying == r.isPlaying && s.out == [])
  {
  }

  predicate Distinct<T(==)>(s: seq<T>)
  {
    forall i, j :: 0 <= i < j < |s| ==> s[i] != s[j]
  }

  function Elems<T>(s: seq<T>): set<T>
  {
    set x | x in s
  }

  lemma {:induction false} DistinctElems<T>(s: seq<T>)
    requires Distinct(s)
    ensures |Elems(s)| == |s|
  {
    if s != [] {
      var t := s[1..];
      assert Distinct(t);
      DistinctElems(t);
      assert Elems(s) == Elems(t) + {s[0]};
      assert s[0] !in Elems(t);
    }
  }

  lemma SubsetSameSize<T>(a: set<T>, b: set<T>)
    requires a <= b && |a| == |b|
    ensures a == b
  {
    if a != b {
      assert !(b <= a);
      var x :| x in b && x !in a;
      assert a <= b - {x};
      assert |b - {x}| == |b| - 1;
      SubsetCardinality(a, b - {x});
    }
  }

  lemma {:induction false} SubsetCardinality<T>(a: set<T>, b: set<T>)
    requires a <= b
    ensures |a| <= |b|
    decreases a
  {
    if a != {} {
      var x :| x in a;
      SubsetCardinality(a - {x}, b - {x});
    }
  }

  /**
   * When participants joined once each and only members signalled, each once,
   * comparing lengths is the same as comparing sets: the barrier releases
   * exactly when every member of `users` is ready.
   */
  lemma ReleaseIffAllReady(rooms: Rooms, room: RoomId, id: UserId, now: int)
    requires room in rooms
    requires Distinct(rooms[room].users)
    requires Distinct(rooms[room].readyUsers + [id])
    requires Elems(rooms[room].readyUsers + [id]) <= Elems(rooms[room].users)
    ensures ClientReady(rooms, room, id, now).out != [] <==>
      Elems(rooms[room].readyUsers + [id]) == Elems(rooms[room].users)
  {
    var ready, users := rooms[room].readyUsers + [id], rooms[room].users;
    DistinctElems(ready);
    DistinctElems(users);
    if |ready| == |users| {
      SubsetSameSize(Elems(ready), Elems(users));
    }
  }

  /** Scenario of a member who never signals: under the same conditions the barrier stays shut. */
  lemma MissingMemberBlocksRelease(rooms: Rooms, room: RoomId, id: UserId, now: int, absent: UserId)
    requires room in rooms
    requires Distinct(rooms[room].users)
    requires Distinct(rooms[room].readyUsers + [id])
    requires Elems(rooms[room].readyUsers + [id]) <= Elems(rooms[room].users)
    requires absent in rooms[room].users && absent !in rooms[room].readyUsers + [id]
    ensures ClientReady(rooms, room, id, now).out == []
  {
    ReleaseIffAllReady(rooms, room, id, now);
    assert absent in Elems(rooms[room].users);
  }

  /**
   * Without those conditions the length test is not a membership test: a
   * participant that signals twice releases a two-member room whose other
   * member never signalled.
   */
  lemma DuplicateReadyReleases()
    ensures var rooms := map["alpha" := Room("p1", ["p1", "p2"], [], ["p1"], None, false)];
      ClientReady(rooms, "alpha", "p1", 0).out == [ToRoom("alpha", StartPlayback(5000))]
  {
  }

  /**
   * Two participants join "alpha", two tracks are queued and one is dispatched;
   * both signal ready and the start is announced `Lookahead` ms after `now`.
   */
  lemma TwoParticipantSession(now: int)
    ensures var s1 := Join(map[], "alpha", "p1");
      var s2 := Join(s1.rooms, "alpha", "p2");
      var s3 := AddToQueue(s2.rooms, "alpha", "A");
      var s4 := AddToQueue(s3.rooms, "alpha", "B");
      var s5 := PlayNext(s4.rooms, "alpha");
      var s6 := ClientReady(s5.rooms, "alpha", "p1", now);
      var s7 := ClientReady(s6.rooms, "alpha", "p2", now);
      s1.out[0] == ToSocket("p1", Role(true)) && s2.out[0] == ToSocket("p2", Role(false)) &&
      s5.out == [ToRoom("alpha", QueueUpdate(["B"])), ToRoom("alpha", PreloadTrack("A"))] &&
      s6.out == [] &&
      s7.out == [ToRoom("alpha", StartPlayback(now + 5000))] &&
      "alpha" in s7.rooms && s7.rooms["alpha"].isPlaying
  {
    var s2 := Join(Join(map[], "alpha", "p1").rooms, "alpha", "p2");
    assert s2.rooms["alpha"] == Room("p1", ["p1", "p2"], [], [], None, false);
  }

  // ---------------------------------------------------------------------------
  // FIFO dispatch

  /** `addToQueue` for each track in turn. */
  function EnqueueAll(rooms: Rooms, room: RoomId, tracks: seq<TrackRef>): Rooms
    decreases |tracks|
  {
    if tracks == [] then rooms else EnqueueAll(AddToQueue(rooms, room, tracks[0]).rooms, room, tracks[1..])
  }

  /** `playNext` called `n` times; the messages are concatenated in emission order. */
  function PlayNextTimes(rooms: Rooms, room: RoomId, n: nat): Step
  {
    if n == 0 then Step(rooms, [])
    else
      var s := PlayNext(rooms, room);
      var t := PlayNextTimes(s.rooms, room, n - 1);
      Step(t.rooms, s.out + t.out)
  }

  /** The tracks announced by `preloadTrack` messages, in emission order. */
  function Preloaded(out: seq<Msg>): seq<TrackRef>
  {
    if out == [] then [] else PreloadOf(out[0]) + Preloaded(out[1..])
  }

  function PreloadOf(m: Msg): seq<TrackRef>
  {
    if m.event.PreloadTrack? then [m.event.track] else []
  }

  lemma {:induction false} PreloadedAppend(a: seq<Msg>, b: seq<Msg>)
    ensures Preloaded(a + b) == Preloaded(a) + Preloaded(b)
  {
    if a != [] {
      assert (a + b)[0] == a[0];
      assert (a + b)[1..] == a[1..] + b;
      PreloadedAppend(a[1..], b);
      assert Preloaded(a + b) == PreloadOf(a[0]) + Preloaded(a[1..] + b);
    } else {
      assert a + b == b;
    }
  }

  lemma {:induction false} EnqueueAllAppends(rooms: Rooms, room: RoomId, tracks: seq<TrackRef>)
    requires room in rooms
    ensures var after := EnqueueAll(rooms, room, tracks);
      room in after && after[room] == rooms[room].(queue := rooms[room].queue + tracks)
    decreases |tracks|
  {
    if tracks != [] {
      var next := AddToQueue(rooms, room, tracks[0]).rooms;
      EnqueueAllAppends(next, room, tracks[1..]);
      assert rooms[room].queue + [tracks[0]] + tracks[1..] == rooms[room].queue + tracks;
    }
  }

  /** One `playNext` on a non-empty queue announces exactly its head. */
  lemma PlayNextPreloadsHead(rooms: Rooms, room: RoomId)
    requires room in rooms && rooms[room].queue != []
    ensures var s := PlayNext(rooms, room);
      room in s.rooms && s.rooms[room].queue == rooms[room].queue[1..] &&
      Preloaded(s.out) == [rooms[room].queue[0]]
  {
    var s := PlayNext(rooms, room);
    assert s.out[1..][1..] == [];
    assert Preloaded(s.out[1..]) == PreloadOf(s.out[1]) + Preloaded([]);
  }

  lemma {:induction false} PlayNextTimesDispatches(rooms: Rooms, room: RoomId, n: nat)
    requires room in rooms && n <= |rooms[room].queue|
    ensures var t := PlayNextTimes(rooms, room, n);
      room in t.rooms && t.rooms[room].queue == rooms[room].queue[n..] &&
      Preloaded(t.out) == rooms[room].queue[..n]
  {
    if n > 0 {
      var q := rooms[room].queue;
      var s := PlayNext(rooms, room);
      PlayNextPreloadsHead(rooms, room);
      PlayNextTimesDispatches(s.rooms, room, n - 1);
      var t := PlayNextTimes(s.rooms, room, n - 1);
      PreloadedAppend(s.out, t.out);
      assert q[1..][n - 1..] == q[n..];
      assert [q[0]] + q[1..][..n - 1] == q[..n];
    }
  }

  /**
   * FIFO: after enqueuing `tracks` into a room whose queue was `q`, `|q| + |tracks|`
   * calls of `playNext` dispatch `q + tracks` in that order and leave the queue empty.
   */
  lemma Fifo(rooms: Rooms, room: RoomId, tracks: seq<TrackRef>)
    requires room in rooms
    ensures var filled := EnqueueAll(rooms, room, tracks);
      var t := PlayNextTimes(filled, room, |rooms[room].queue| + |tracks|);
      Preloaded(t.out) == rooms[room].queue + tracks &&
      room in t.rooms && t.rooms[room].queue == []
  {
    EnqueueAllAppends(rooms, room, tracks);
    var filled := EnqueueAll(rooms, room, tracks);
    var n := |rooms[room].queue| + |tracks|;
    PlayNextTimesDispatches(filled, room, n);
    assert filled[room].queue[..n] == filled[room].queue;
  }

  // ---------------------------------------------------------------------------
  // Room names that are Object.prototype properties

  /** Property names every plain JavaScript object inherits from `Object.prototype`. */
  const InheritedNames: set<string> := {
    "constructor", "__proto__", "hasOwnProperty", "isPrototypeOf", "propertyIsEnumerable",
    "toString", "toLocaleString", "valueOf",
    "__defineGetter__", "__defineSetter__", "__lookupGetter__", "__lookupSetter__"}

  /** What `rooms[room]` yields when `rooms` is a plain object literal. */
  datatype Lookup = Own(record: Room) | Inherited | Missing

  function LookupAsWritten(rooms: Rooms, room: RoomId): Lookup
  {
    if room in rooms then Own(rooms[room]) else if room in InheritedNames then Inherited else Missing
  }

  /** A handler either completes or throws reading a property of `undefined`. */
  datatype Outcome = Done(step: Step) | TypeError

  /**
   * `joinRoom` as written, step by step: a record is created only when the
   * lookup finds nothing (`!rooms[room]` is false for an inherited property,
   * which is a truthy function or object); the caller is then pushed onto the
   * `users` of whatever the second lookup yields, which for an inherited
   * property has no `users`, so reading `push` of `undefined` throws.
   */
  function JoinAsWritten(rooms: Rooms, room: RoomId, id: UserId): Outcome
  {
    var rooms1 := if LookupAsWritten(rooms, room).Missing? then rooms[room := Fresh(id)] else rooms;
    match LookupAsWritten(rooms1, room)
    case Own(r) =>
      var joined := r.(users := r.users + [id]);
      Done(Step(rooms1[room := joined], [ToSocket(id, Role(joined.host == id)), ToRoom(room, UserList(joined.users))]))
    case _ => TypeError
  }

  /** Unless the name is an inherited property the table does not shadow, the handler as written is `Join`. */
  lemma JoinAsWrittenAgrees(rooms: Rooms, room: RoomId, id: UserId)
    requires room !in InheritedNames || room in rooms
    ensures JoinAsWritten(rooms, room, id) == Done(Join(rooms, room, id))
  {
  }

  /** An inherited name that is not yet an own key throws as written. */
  lemma InheritedRoomThrows(rooms: Rooms, room: RoomId, id: UserId)
    requires room in InheritedNames && room !in rooms
    ensures JoinAsWritten(rooms, room, id) == TypeError
  {
  }

  /** A room named "constructor" can never be joined as written, though it can in the model. */
  lemma ConstructorRoomThrows(id: UserId)
    ensures JoinAsWritten(map[], "constructor", id) == TypeError
    ensures "constructor" in Join(map[], "constructor", id).rooms
  {
    assert "constructor" in InheritedNames;
    InheritedRoomThrows(map[], "constructor", id);
  }
}
