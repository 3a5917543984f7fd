/**
 * The coordinator process of backend/server.js: the global `rooms` table and
 * the socket handlers that update it in place. Each handler takes the caller's
 * socket id (and, where the source reads the clock, `now` in milliseconds) as
 * parameters and returns the messages it emits instead of sending them.
 */
module Server {
  import opened Wrappers
  import opened ServerState

  class Coordinator {
    var rooms: Rooms

    ghost predicate Valid()
      reads this
    {
      ValidRooms(rooms)
    }

    constructor ()
      ensures Valid() && rooms == map[]
    {
      rooms := map[];
    }

    method JoinRoom(room: RoomId, id: UserId) returns (out: seq<Msg>)
      requires Valid()
      modifies this
      ensures Valid()
      ensures rooms == Join(old(rooms), room, id).rooms
      ensures out == Join(old(rooms), room, id).out
    {
      HandlersKeepValid(rooms, room, id, "", 0);
      if room !in rooms {
        rooms := rooms[room := Fresh(id)];
      }
      rooms := rooms[room := rooms[room].(users := rooms[room].users + [id])];
      out := [ToSocket(id, Role(rooms[room].host == id)), ToRoom(room, UserList(rooms[room].users))];
    }

    method AddToQueue(room: RoomId, track: TrackRef) returns (out: seq<Msg>)
      requires Valid()
      modifies this
      ensures Valid()
      ensures rooms == ServerState.AddToQueue(old(rooms), room, track).rooms
      ensures out == ServerState.AddToQueue(old(rooms), room, track).out
    {
      HandlersKeepValid(rooms, room, "", track, 0);
      out := [];
      if room in rooms {
        rooms := rooms[room := rooms[room].(queue := rooms[room].queue + [track])];
        out := [ToRoom(room, QueueUpdate(rooms[room].queue))];
      }
    }

    method PlayNext(room: RoomId) returns (out: seq<Msg>)
      requires Valid()
      modifies this
      ensures Valid()
      ensures rooms == ServerState.PlayNext(old(rooms), room).rooms
      ensures out == ServerState.PlayNext(old(rooms), room).out
    {
      HandlersKeepValid(rooms, room, "", "", 0);
      out := [];
      if room in rooms && |rooms[room].queue| > 0 {
        var track := rooms[room].queue[0];
        rooms := rooms[room := rooms[room].(queue := rooms[room].queue[1..])];
        rooms := rooms[room := rooms[room].(readyUsers := [])];
        out := [ToRoom(room, QueueUpdate(rooms[room].queue)), ToRoom(room, PreloadTrack(track))];
      }
    }

    method ClientReady(room: RoomId, id: UserId, now: int) returns (out: seq<Msg>)
      requires Valid()
      modifies this
      ensures Valid()
      ensures rooms == ServerState.ClientReady(old(rooms), room, id, now).rooms
      ensures out == ServerState.ClientReady(old(rooms), room, id, now).out
    {
      HandlersKeepValid(rooms, room, id, "", now);
      out := [];
      if room !in rooms {
        return;
      }
      rooms := rooms[room := rooms[room].(readyUsers := rooms[room].readyUsers + [id])];
      if |rooms[room].readyUsers| == |rooms[room].users| {
        var startTime := now + Lookahead;
        rooms := rooms[room := rooms[room].(startedAt := Some(startTime))];
        rooms := rooms[room := rooms[room].(isPlaying := true)];
        out := [ToRoom(room, StartPlayback(startTime))];
      }
    }

    /**
     * One run of the 5000 ms resync interval: every playing room, and only
     * those, is sent its start time once; no room is changed.
     */
    method Tick() returns (out: seq<Msg>)
      requires Valid()
      ensures forall i :: 0 <= i < |out| ==>
        out[i].ToRoom? && out[i].room in Playing(rooms) && out[i] == SyncOf(rooms, out[i].room)
      ensures Announced(out) == Playing(rooms)
      ensures forall i, j :: 0 <= i < j < |out| ==> out[i].room != out[j].room
    {
      out := [];
      var pending := rooms.Keys;
      while pending != {}
        invariant pending <= rooms.Keys
        invariant forall i :: 0 <= i < |out| ==>
          out[i].ToRoom? && out[i].room in Playing(rooms) && out[i].room !in pending &&
          out[i] == SyncOf(rooms, out[i].room)
        invariant Announced(out) == Playing(rooms) - pending
        invariant forall i, j :: 0 <= i < j < |out| ==> out[i].room != out[j].room
        decreases pending
      {
        var r :| r in pending;
        if rooms[r].isPlaying {
          AnnouncedSnoc(out, SyncOf(rooms, r));
          out := out + [SyncOf(rooms, r)];
        }
        pending := pending - {r};
      }
    }
  }

  lemma AnnouncedSnoc(out: seq<Msg>, m: Msg)
    requires m.ToRoom?
    ensures Announced(out + [m]) == Announced(out) + {m.room}
  {
    var both := out + [m];
    assert both[|out|] == m;
    forall x | x in Announced(both) ensures x in Announced(out) + {m.room} {
      var i :| 0 <= i < |both| && both[i].ToRoom? && both[i].room == x;
      if i < |out| { assert out[i] == both[i]; }
    }
    forall x | x in Announced(out) ensures x in Announced(both) {
      var i :| 0 <= i < |out| && out[i].ToRoom? && out[i].room == x;
      assert both[i] == out[i];
    }
  }
}
