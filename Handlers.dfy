/**
 * The three HTTP endpoints (main.go:78-159) reduced to their outcomes: the
 * request's method and its decoded body (or the failure to decode it) come
 * in, a status and a response body come out, and the registry changes only
 * on a successful create or destroy.
 */
module Handlers {
  import opened RoomModel
  import opened Registry

  datatype Option<T> = None | Some(value: T)

  /** The statuses the endpoints answer with. */
  datatype Status = OK | BadRequest | NotFound | MethodNotAllowed {
    /** The HTTP status code. */
    function Code(): int {
      match this
      case OK => 200
      case BadRequest => 400
      case NotFound => 404
      case MethodNotAllowed => 405
    }
  }

  /** What the response carries: an encoded value or an error text. */
  datatype Body =
    | RoomBody(room: Room)
    | ResultBody(result: string)
    | RoomList(rooms: seq<Room>)
    | ErrorText(message: string)

  datatype Response = Response(status: Status, body: Body)

  /** The decoded body of a create request (main.go:39-42). */
  datatype CreateRoomRequest = CreateRoomRequest(userid: string, roomType: string)

  /** The decoded body of a destroy request (main.go:44-46). */
  datatype DestroyRoomRequest = DestroyRoomRequest(roomId: string)

  const METHOD_GET: string := "GET"
  const METHOD_POST: string := "POST"

  const NOT_ALLOWED: Response := Response(MethodNotAllowed, ErrorText("method not allowed"))
  const INVALID_REQUEST: Response := Response(BadRequest, ErrorText("invalid request"))
  const ROOM_NOT_FOUND: Response := Response(NotFound, ErrorText("room not found"))
  const RESULT_OK: Response := Response(OK, ResultBody("ok"))

  /** The HTTP status codes of the four fixed responses. */
  lemma ResponseCodes()
    ensures NOT_ALLOWED.status.Code() == 405
    ensures INVALID_REQUEST.status.Code() == 400
    ensures ROOM_NOT_FOUND.status.Code() == 404
    ensures RESULT_OK.status.Code() == 200
  {
  }

  /**
   * POST /room/create. `body` is None when the request body does not
   * decode; `draw` is the random draw in [0, 10) and `now` the current Unix
   * time in seconds (main.go:79-112).
   */
  method CreateRoomHandler(reg: RoomRegistry, httpMethod: string, body: Option<CreateRoomRequest>, draw: int, now: int)
    returns (resp: Response)
    requires reg.Valid()
    modifies reg
    ensures reg.Valid()
    ensures httpMethod != METHOD_POST ==> resp == NOT_ALLOWED && reg.rooms == old(reg.rooms)
    ensures httpMethod == METHOD_POST && body.None? ==> resp == INVALID_REQUEST && reg.rooms == old(reg.rooms)
    ensures httpMethod == METHOD_POST && body.Some? ==>
      var req := body.value;
      var room := Room(GenerateRoomID(req.userid), req.userid, now, NormalizeRoomType(req.roomType), ChooseRTC(draw));
      resp == Response(OK, RoomBody(room)) && reg.rooms == old(reg.rooms)[room.roomId := room]
  {
    if httpMethod != METHOD_POST {
      return NOT_ALLOWED;
    }
    if body.None? {
      return INVALID_REQUEST;
    }
    var room := reg.Create(body.value.userid, body.value.roomType, draw, now);
    resp := Response(OK, RoomBody(room));
  }

  /** POST /room/destroy (main.go:115-135). */
  method DestroyRoomHandler(reg: RoomRegistry, httpMethod: string, body: Option<DestroyRoomRequest>)
    returns (resp: Response)
    requires reg.Valid()
    modifies reg
    ensures reg.Valid()
    ensures httpMethod != METHOD_POST ==> resp == NOT_ALLOWED && reg.rooms == old(reg.rooms)
    ensures httpMethod == METHOD_POST && body.None? ==> resp == INVALID_REQUEST && reg.rooms == old(reg.rooms)
    ensures httpMethod == METHOD_POST && body.Some? && body.value.roomId !in old(reg.rooms) ==>
      resp == ROOM_NOT_FOUND && reg.rooms == old(reg.rooms)
    ensures httpMethod == METHOD_POST && body.Some? && body.value.roomId in old(reg.rooms) ==>
      resp == RESULT_OK && reg.rooms == old(reg.rooms) - {body.value.roomId}
  {
    if httpMethod != METHOD_POST {
      return NOT_ALLOWED;
    }
    if body.None? {
      return INVALID_REQUEST;
    }
    var found := reg.Destroy(body.value.roomId);
    if !found {
      return ROOM_NOT_FOUND;
    }
    resp := RESULT_OK;
  }

  /** GET /room/list: every room, newest first (main.go:138-159). */
  method ListRoomsHandler(reg: RoomRegistry, httpMethod: string) returns (resp: Response)
    requires reg.Valid()
    ensures httpMethod != METHOD_GET ==> resp == NOT_ALLOWED
    ensures httpMethod == METHOD_GET ==>
      && resp.status == OK
      && resp.body.RoomList?
      && |resp.body.rooms| == |reg.rooms|
      && multiset(resp.body.rooms) == multiset(reg.rooms.Values)
      && NewestFirst(resp.body.rooms)
  {
    if httpMethod != METHOD_GET {
      return NOT_ALLOWED;
    }
    var rooms := reg.List();
    resp := Response(OK, RoomList(rooms));
  }

  // ---------------------------------------------------------------------
  // Clients: create-then-list on any registry, scenarios on a fresh one
  // ---------------------------------------------------------------------

  /** A listing of a table with a single room is exactly that room. */
  lemma ListOfOne(s: seq<Room>, m: map<string, Room>, id: string, room: Room)
    requires m == map[id := room]
    requires |s| == |m| && multiset(s) == multiset(m.Values)
    ensures s == [room]
  {
    assert m.Values == {room};
    assert s[0] in multiset(s);
  }

  /**
   * On any registry, the room a successful create returns is among the
   * rooms the next list returns.
   */
  method CreateThenList(reg: RoomRegistry, req: CreateRoomRequest, draw: int, now: int)
    returns (created: Response, listed: Response)
    requires reg.Valid()
    modifies reg
    ensures reg.Valid()
    ensures created.status == OK && created.body.RoomBody?
    ensures listed.status == OK && listed.body.RoomList?
    ensures created.body.room in listed.body.rooms
  {
    created := CreateRoomHandler(reg, METHOD_POST, Some(req), draw, now);
    listed := ListRoomsHandler(reg, METHOD_GET);
    var room := created.body.room;
    assert reg.rooms[room.roomId] == room;
    assert room in multiset(listed.body.rooms);
  }

  /**
   * Create owner "5", list, destroy "rm_5", list, destroy "rm_5" again:
   * the room is listed alone, destroyed once, and the repeated destroy is
   * a not-found.
   */
  method CreateListDestroyScenario(draw: int, now: int) returns (responses: seq<Response>)
    ensures |responses| == 5
    ensures responses[0] == Response(OK, RoomBody(Room("rm_5", "5", now, Live, ChooseRTC(draw))))
    ensures responses[1] == Response(OK, RoomList([responses[0].body.room]))
    ensures responses[2] == RESULT_OK
    ensures responses[3] == Response(OK, RoomList([]))
    ensures responses[4] == ROOM_NOT_FOUND
  {
    var reg := new RoomRegistry();
    var created := CreateRoomHandler(reg, METHOD_POST, Some(CreateRoomRequest("5", "Live")), draw, now);
    NormalizeRoomTypeName(Live);
    var room := created.body.room;
    assert room.roomId == "rm_5";
    var listed := ListRoomsHandler(reg, METHOD_GET);
    ListOfOne(listed.body.rooms, reg.rooms, "rm_5", room);
    var destroyed := DestroyRoomHandler(reg, METHOD_POST, Some(DestroyRoomRequest("rm_5")));
    assert reg.rooms == map[];
    var empty := ListRoomsHandler(reg, METHOD_GET);
    var again := DestroyRoomHandler(reg, METHOD_POST, Some(DestroyRoomRequest("rm_5")));
    responses := [created, listed, destroyed, empty, again];
  }

  /**
   * Two creates by the same owner: both get the same room id, and only the
   * second room is left in the table.
   */
  method SameOwnerScenario(userid: string, type1: string, type2: string, draw1: int, draw2: int, t1: int, t2: int)
    returns (first: Room, second: Room, listed: seq<Room>)
    ensures first.roomId == second.roomId == GenerateRoomID(userid)
    ensures second.createTime == t2 && second.rtcType == ChooseRTC(draw2)
    ensures second.roomType == NormalizeRoomType(type2)
    ensures listed == [second]
  {
    var reg := new RoomRegistry();
    var r1 := CreateRoomHandler(reg, METHOD_POST, Some(CreateRoomRequest(userid, type1)), draw1, t1);
    var r2 := CreateRoomHandler(reg, METHOD_POST, Some(CreateRoomRequest(userid, type2)), draw2, t2);
    first, second := r1.body.room, r2.body.room;
    assert reg.rooms == map[second.roomId := second];
    var l := ListRoomsHandler(reg, METHOD_GET);
    ListOfOne(l.body.rooms, reg.rooms, second.roomId, second);
    listed := l.body.rooms;
  }

  /** The rooms of a table built from three distinct ids are the three rooms. */
  lemma ValuesOfThree(m: map<string, Room>, a: Room, b: Room, c: Room)
    requires a.roomId != b.roomId && b.roomId != c.roomId && a.roomId != c.roomId
    requires m == map[a.roomId := a, b.roomId := b, c.roomId := c]
    ensures m.Values == {a, b, c}
  {
    forall r
      ensures r in m.Values <==> r in {a, b, c}
    {
      if r in m.Values {
        var id :| id in m && m[id] == r;
      } else {
        assert m[a.roomId] == a && m[b.roomId] == b && m[c.roomId] == c;
      }
    }
  }

  /** Three rooms in strictly decreasing creation time are newest first with distinct times. */
  lemma StrictlyNewestFirst(x: Room, y: Room, z: Room)
    requires x.createTime > y.createTime > z.createTime
    ensures NewestFirst([x, y, z]) && DistinctTimes([x, y, z])
  {
    var s := [x, y, z];
    forall i, j | 0 <= i < j < 3
      ensures s[i].createTime > s[j].createTime
    {
    }
  }

  /** A newest-first listing of three rooms created at distinct times is unique. */
  lemma ListOfThree(s: seq<Room>, a: Room, b: Room, c: Room)
    requires a.createTime < b.createTime < c.createTime
    requires multiset(s) == multiset({a, b, c}) && NewestFirst(s)
    ensures s == [c, b, a]
  {
    var expected := [c, b, a];
    assert forall r :: r in expected <==> r == c || r == b || r == a;
    DistinctMultiset(expected, {a, b, c});
    StrictlyNewestFirst(c, b, a);
    NewestFirstUnique(expected, s);
  }

  /**
   * Three creates on a fresh registry by owners "a", "b" and "c" at times
   * t1, t2 and t3: the table holds exactly the three returned rooms.
   */
  method CreateThree(draw: int, t1: int, t2: int, t3: int) returns (reg: RoomRegistry, a: Room, b: Room, c: Room)
    ensures fresh(reg) && reg.Valid()
    ensures a.ownerUserId == "a" && a.createTime == t1
    ensures b.ownerUserId == "b" && b.createTime == t2
    ensures c.ownerUserId == "c" && c.createTime == t3
    ensures reg.rooms.Values == {a, b, c}
  {
    reg := new RoomRegistry();
    a := reg.Create("a", "Live", draw, t1);
    b := reg.Create("b", "Live", draw, t2);
    c := reg.Create("c", "Live", draw, t3);
    assert a.roomId == "rm_a" && b.roomId == "rm_b" && c.roomId == "rm_c";
    ValuesOfThree(reg.rooms, a, b, c);
  }

  /** Rooms of three different owners created at t1 < t2 < t3 list as t3, t2, t1. */
  method NewestFirstScenario(draw: int, t1: int, t2: int, t3: int) returns (listed: seq<Room>)
    requires t1 < t2 < t3
    ensures |listed| == 3
    ensures listed[0].ownerUserId == "c" && listed[0].createTime == t3
    ensures listed[1].ownerUserId == "b" && listed[1].createTime == t2
    ensures listed[2].ownerUserId == "a" && listed[2].createTime == t1
  {
    var reg, a, b, c := CreateThree(draw, t1, t2, t3);
    var l := reg.List();
    ListOfThree(l, a, b, c);
    listed := l;
  }
}
