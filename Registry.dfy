/**
 * The in-memory room table (the package-level `rooms` map, main.go:48-51)
 * and the three operations on it: create's upsert, destroy's delete and
 * list's enumerate-then-sort.
 */
module Registry {
  import opened RoomModel

  /** Every room is at least as recent as every room after it. */
  ghost predicate NewestFirst(s: seq<Room>) {
    forall i, j :: 0 <= i < j < |s| ==> s[i].createTime >= s[j].createTime
  }

  /** No two rooms of `s` were created in the same second. */
  ghost predicate DistinctTimes(s: seq<Room>) {
    forall i, j :: 0 <= i < j < |s| ==> s[i].createTime != s[j].createTime
  }

  /** Removing the head of a sequence removes one copy of it from its multiset. */
  lemma MultisetTail(s: seq<Room>)
    requires s != []
    ensures multiset(s[1..]) == multiset(s) - multiset{s[0]}
  {
    assert s == [s[0]] + s[1..];
  }

  /** The head of a non-empty newest-first sequence is at least as recent as every element. */
  lemma NewestFirstHead(s: seq<Room>, r: Room)
    requires NewestFirst(s) && r in multiset(s)
    ensures s[0].createTime >= r.createTime
  {
    var k :| 0 <= k < |s| && s[k] == r;
    assert k == 0 || s[0].createTime >= s[k].createTime;
  }

  /**
   * Two newest-first arrangements of the same rooms, with no two rooms
   * created in the same second, start with the same room.
   */
  lemma NewestFirstSameHead(s: seq<Room>, t: seq<Room>)
    requires NewestFirst(s) && NewestFirst(t)
    requires multiset(s) == multiset(t)
    requires DistinctTimes(s)
    requires s != []
    ensures t != [] && s[0] == t[0]
  {
    assert |t| == |multiset(t)| == |multiset(s)| == |s|;
    NewestFirstHead(s, t[0]);
    NewestFirstHead(t, s[0]);
    var k :| 0 <= k < |s| && s[k] == t[0];
    assert s[k].createTime == s[0].createTime;
  }

  /**
   * When no two rooms share a creation time, newest-first order leaves no
   * freedom: two newest-first arrangements of the same rooms are equal.
   */
  lemma {:induction false} NewestFirstUnique(s: seq<Room>, t: seq<Room>)
    requires NewestFirst(s) && NewestFirst(t)
    requires multiset(s) == multiset(t)
    requires DistinctTimes(s)
    ensures s == t
  {
    if s == [] {
      assert |t| == |multiset(t)|;
    } else {
      NewestFirstSameHead(s, t);
      MultisetTail(s);
      MultisetTail(t);
      var s', t' := s[1..], t[1..];
      assert NewestFirst(s') && NewestFirst(t') && DistinctTimes(s');
      NewestFirstUnique(s', t');
      assert s == [s[0]] + s' && t == [t[0]] + t';
    }
  }

  /**
   * Sorts `a` in place by creation time, newest first. The source uses an
   * unstable library sort, so only the order of creation times and the
   * permutation are promised, not the order of ties.
   */
  method SortNewestFirst(a: array<Room>)
    modifies a
    ensures NewestFirst(a[..])
    ensures multiset(a[..]) == multiset(old(a[..]))
  {
    if a.Length == 0 {
      return;
    }
    var i := 1;
    while i < a.Length
      invariant 1 <= i <= a.Length
      invariant NewestFirst(a[..i])
      invariant multiset(a[..]) == multiset(old(a[..]))
    {
      InsertNewestFirst(a, i);
      i := i + 1;
    }
  }

  /**
   * The state of one insertion step on `s`: the room being inserted sits at
   * `j`, every other pair up to `i` is newest first, and the inserted room
   * is at least as recent as everything after it up to `i`.
   */
  ghost predicate Inserting(s: seq<Room>, i: nat, j: nat)
    requires j <= i < |s|
  {
    && (forall k, l :: 0 <= k < l <= i && k != j && l != j ==> s[k].createTime >= s[l].createTime)
    && (forall l :: j < l <= i ==> s[j].createTime >= s[l].createTime)
  }

  /** Before the first move, the room at `i` is the one being inserted. */
  lemma InsertingStart(s: seq<Room>, i: nat)
    requires i < |s| && NewestFirst(s[..i])
    ensures Inserting(s, i, i)
  {
    assert forall k :: 0 <= k < i ==> s[..i][k] == s[k];
  }

  /** Moving the inserted room one place left past an older room keeps `Inserting`. */
  lemma InsertingSwap(s: seq<Room>, i: nat, j: nat)
    requires 0 < j <= i < |s| && Inserting(s, i, j)
    requires s[j - 1].createTime < s[j].createTime
    ensures Inserting(s[j - 1 := s[j]][j := s[j - 1]], i, j - 1)
  {
  }

  /** Once the room before it is at least as recent, the prefix is newest first. */
  lemma InsertingDone(s: seq<Room>, i: nat, j: nat)
    requires j <= i < |s| && Inserting(s, i, j)
    requires j == 0 || s[j - 1].createTime >= s[j].createTime
    ensures NewestFirst(s[..i + 1])
  {
  }

  /** `s` is `t` with only its prefix of length `n` reordered. */
  ghost predicate PermutesPrefix(s: seq<Room>, t: seq<Room>, n: nat) {
    && |s| == |t| && n <= |s|
    && multiset(s[..n]) == multiset(t[..n])
    && s[n..] == t[n..]
  }

  /** Exchanging two neighbours inside the prefix keeps `PermutesPrefix`. */
  lemma PermutesPrefixSwap(s: seq<Room>, t: seq<Room>, k: nat, n: nat)
    requires PermutesPrefix(s, t, n) && k + 1 < n
    ensures PermutesPrefix(s[k := s[k + 1]][k + 1 := s[k]], t, n)
  {
    var u := s[k := s[k + 1]][k + 1 := s[k]];
    assert u[..n] == s[..n][k := s[k + 1]][k + 1 := s[k]];
    assert u[n..] == s[n..];
  }

  /** Reordering a prefix reorders the whole sequence. */
  lemma PermutesPrefixWhole(s: seq<Room>, t: seq<Room>, n: nat)
    requires PermutesPrefix(s, t, n)
    ensures multiset(s) == multiset(t)
  {
    assert s == s[..n] + s[n..];
    assert t == t[..n] + t[n..];
  }

  /**
   * One insertion step: with a[..i] already newest first, moves a[i] left
   * past every older room so that a[..i+1] is newest first. Only the prefix
   * a[..i+1] is permuted; the rest of the array is untouched.
   */
  method InsertNewestFirst(a: array<Room>, i: nat)
    requires i < a.Length
    requires NewestFirst(a[..i])
    modifies a
    ensures NewestFirst(a[..i + 1])
    ensures multiset(a[..i + 1]) == multiset(old(a[..i + 1]))
    ensures a[i + 1..] == old(a[i + 1..])
    ensures multiset(a[..]) == multiset(old(a[..]))
  {
    ghost var start := a[..];
    InsertingStart(start, i);
    var j := SiftLeft(a, i);
    InsertingDone(a[..], i, j);
    PermutesPrefixWhole(a[..], start, i + 1);
  }

  /**
   * Moves the room at `i` left while the room before it is older, and
   * returns where it stops: the room before it, if any, is at least as
   * recent, and only the prefix a[..i+1] has been reordered.
   */
  method SiftLeft(a: array<Room>, i: nat) returns (j: nat)
    requires i < a.Length && Inserting(a[..], i, i)
    modifies a
    ensures j <= i && Inserting(a[..], i, j)
    ensures j == 0 || a[j - 1].createTime >= a[j].createTime
    ensures PermutesPrefix(a[..], old(a[..]), i + 1)
  {
    ghost var start := a[..];
    j := i;
    while 0 < j && a[j - 1].createTime < a[j].createTime
      invariant 0 <= j <= i
      invariant Inserting(a[..], i, j)
      invariant PermutesPrefix(a[..], start, i + 1)
    {
      ghost var pre := a[..];
      InsertingSwap(pre, i, j);
      PermutesPrefixSwap(pre, start, j - 1, i + 1);
      SwapAdjacent(a, j - 1);
      j := j - 1;
    }
  }

  /** Exchanges the neighbours a[k] and a[k+1]. */
  method SwapAdjacent(a: array<Room>, k: nat)
    requires k + 1 < a.Length
    modifies a
    ensures a[..] == old(a[..])[k := old(a[k + 1])][k + 1 := old(a[k])]
  {
    a[k], a[k + 1] := a[k + 1], a[k];
  }

  /** Every room of `m` is filed under its own room id. */
  ghost predicate FiledById(m: map<string, Room>) {
    forall id :: id in m ==> m[id].roomId == id
  }

  /** In a table filed by id, a room is stored exactly when its own id leads to it. */
  lemma FiledByIdValues(m: map<string, Room>, r: Room)
    requires FiledById(m)
    ensures r in m.Values <==> r.roomId in m && m[r.roomId] == r
  {
    if r in m.Values {
      var id :| id in m && m[id] == r;
    }
  }

  /** No room occurs twice in `s`. */
  ghost predicate Distinct(s: seq<Room>) {
    forall i, j :: 0 <= i < j < |s| ==> s[i] != s[j]
  }

  /**
   * A sequence without repetitions that holds exactly the rooms of a set
   * holds each of them once.
   */
  lemma {:induction false} DistinctMultiset(s: seq<Room>, rs: set<Room>)
    requires Distinct(s)
    requires forall r :: r in s <==> r in rs
    ensures multiset(s) == multiset(rs)
  {
    if s == [] {
      assert rs == {};
    } else {
      var x, tail := s[0], s[1..];
      assert s == [x] + tail;
      forall r
        ensures r in tail <==> r in rs - {x}
      {
        if r in tail {
          var j :| 0 <= j < |tail| && tail[j] == r;
          assert s[j + 1] == r;
        }
      }
      DistinctMultiset(tail, rs - {x});
      forall r
        ensures multiset(s)[r] == multiset(rs)[r]
      {
        assert multiset(s)[r] == multiset([x])[r] + multiset(tail)[r];
      }
    }
  }

  /**
   * `list` holds, once each, exactly the rooms filed under the ids in `seen`:
   * the state of the snapshot loop after visiting `seen`.
   */
  ghost predicate Visited(m: map<string, Room>, list: seq<Room>, seen: set<string>) {
    && seen <= m.Keys
    && |list| == |seen|
    && (forall i :: 0 <= i < |list| ==> list[i].roomId in seen && m[list[i].roomId] == list[i])
    && (forall id :: id in seen ==> m[id] in list)
    && Distinct(list)
  }

  /** Visiting one more id and appending its room keeps `Visited`. */
  lemma SnapshotStep(m: map<string, Room>, list: seq<Room>, seen: set<string>, id: string)
    requires FiledById(m) && Visited(m, list, seen)
    requires id in m && id !in seen
    ensures Visited(m, list + [m[id]], seen + {id})
  {
    var list' := list + [m[id]];
    forall i | 0 <= i < |list|
      ensures list'[i] != m[id]
    {
      assert list[i].roomId in seen;
    }
  }

  /** After visiting every id, `list` holds each room of `m` exactly once. */
  lemma SnapshotDone(m: map<string, Room>, list: seq<Room>)
    requires FiledById(m) && Visited(m, list, m.Keys)
    ensures |list| == |m|
    ensures forall r :: r in list <==> r in m.Values
    ensures Distinct(list)
  {
    forall r
      ensures r in list <==> r in m.Values
    {
      FiledByIdValues(m, r);
    }
  }

  /** The room table: room id to room record. */
  class RoomRegistry {
    var rooms: map<string, Room>

    /**
     * Every entry is filed under its own room id, and that id is derived
     * from the room's owner.
     */
    ghost predicate Valid()
      reads this
    {
      && FiledById(rooms)
      && forall id :: id in rooms ==> id == GenerateRoomID(rooms[id].ownerUserId)
    }

    /** A fresh, empty table (main.go:49). */
    constructor ()
      ensures Valid()
      ensures rooms == map[]
    {
      rooms := map[];
    }

    /**
     * Builds the room for a create request and upserts it under its id;
     * an earlier room under the same id is overwritten (main.go:90-107).
     */
    method Create(userid: string, roomTypeName: string, draw: int, now: int) returns (room: Room)
      requires Valid()
      modifies this
      ensures Valid()
      ensures room.roomId == GenerateRoomID(userid)
      ensures room.ownerUserId == userid
      ensures room.createTime == now
      ensures room.roomType == NormalizeRoomType(roomTypeName)
      ensures room.rtcType == ChooseRTC(draw)
      ensures rooms == old(rooms)[room.roomId := room]
    {
      var rt := NormalizeRoomType(roomTypeName);
      var id := GenerateRoomID(userid);
      var rtc := ChooseRTC(draw);
      room := Room(id, userid, now, rt, rtc);
      rooms := rooms[id := room];
    }

    /**
     * Removes the room under `id` if there is one; `found` tells whether
     * there was (main.go:128-132).
     */
    method Destroy(id: string) returns (found: bool)
      requires Valid()
      modifies this
      ensures Valid()
      ensures found <==> id in old(rooms)
      ensures rooms == old(rooms) - {id}
      ensures !found ==> rooms == old(rooms)
    {
      if id !in rooms {
        return false;
      }
      rooms := rooms - {id};
      found := true;
    }

    /**
     * The rooms of the table in arbitrary order, each exactly once: the
     * `for ... range` loop that appends every value (main.go:145-150).
     */
    method Snapshot() returns (list: seq<Room>)
      requires Valid()
      ensures |list| == |rooms|
      ensures forall r :: r in list <==> r in rooms.Values
      ensures Distinct(list)
    {
      var table := rooms;
      list := [];
      var pending := table.Keys;
      ghost var seen: set<string> := {};
      while pending != {}
        invariant pending <= table.Keys && seen == table.Keys - pending
        invariant Visited(table, list, seen)
      {
        var id :| id in pending;
        SnapshotStep(table, list, seen, id);
        list := list + [table[id]];
        pending := pending - {id};
        seen := seen + {id};
      }
      SnapshotDone(table, list);
    }

    /**
     * The snapshot sorted by creation time, newest first (main.go:145-155).
     */
    method List() returns (s: seq<Room>)
      requires Valid()
      ensures |s| == |rooms|
      ensures multiset(s) == multiset(rooms.Values)
      ensures NewestFirst(s)
    {
      var list := Snapshot();
      DistinctMultiset(list, rooms.Values);
      var a := new Room[|list|](i requires 0 <= i < |list| => list[i]);
      assert a[..] == list;
      SortNewestFirst(a);
      s := a[..];
    }
  }
}
