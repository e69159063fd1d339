# Room registry model

A Dafny model of an in-process room registry served over HTTP/JSON. Clients
create a room (a session handle with an owner, a room type and an assigned
real-time-communication backend), list the live rooms, and destroy rooms.
The whole state is one table from room id to room record.

The project has three modules, one per component of `main.go`:

- `RoomModel` (`RoomModel.dfy`): the `Room`, `RoomType` and `RTCType` values
  and the three stateless policies that room creation uses. `ChooseRTC` picks
  the backend from a random draw. `GenerateRoomID` derives the room id from
  the owner. `NormalizeRoomType` normalises the requested room type.
- `Registry` (`Registry.dfy`): the room table as a class `RoomRegistry` with a
  `map<string, Room>` field. `Create` upserts a room and `Destroy` deletes one;
  both change the map in place. `Snapshot` copies the map's values in an
  arbitrary order, then `List` sorts that copy newest first with an in-place
  insertion sort on an array.
- `Handlers` (`Handlers.dfy`): the three endpoints reduced to their outcomes.
  The inputs are the request method and the decoded body (`None` when
  decoding fails). The outputs are a status (200, 400, 404, 405) and a
  response body. At the end are create-then-list on any valid registry and
  three scenarios on a fresh registry.

Non-deterministic inputs become parameters:
- `draw` stands for `rand.Intn(10)`;
- `now` stands for `time.Now().Unix()`.

The class invariant `RoomRegistry.Valid()` says that every room is filed
under its own id and that this id is `"rm_"` followed by the room's owner. Every
operation keeps it.

## Model

| member | source | states |
|---|---|---|
| `RoomModel.ChooseRTC` | main.go:60-72 | the backend is Agora exactly for draws 6 to 9; every other value, in range or not (the default branch), gives TRTC |
| `RoomModel.ChooseRTCThreshold` | main.go:64-71 | for an in-range draw the switch agrees with the single threshold "below 6 is TRTC" |
| `RoomModel.RTCTypeNameInjective` | main.go:17-20 | the two backends have distinct wire names ("TRTC", "Agora") |
| `RoomModel.ChooseRTCSplit` | main.go:57-68 | of the ten possible draws exactly six give TRTC and four give Agora (the 6:4 rule) |
| `RoomModel.GenerateRoomID` | main.go:74-76 | the id is the prefix `rm_` followed by the owner id verbatim, and its length is three more than the owner id's |
| `RoomModel.GenerateRoomIDInjective` | main.go:74-76 | two owners get the same room id if and only if they are the same owner |
| `RoomModel.LowerAscii` | main.go:91 | the lower-cased character is never an upper-case ASCII letter; A-Z map to a-z (code point plus 32) and every other character is unchanged |
| `RoomModel.ToLowerAscii` | main.go:91 | lower-casing keeps the length and lower-cases each position independently |
| `RoomModel.LowersToAudio` | main.go:91 | a string lower-cases to "audio" if and only if it equals "audio" ignoring case |
| `RoomModel.NormalizeRoomType` | main.go:90-93 | the room type is Audio if and only if the request equals "audio" ignoring case, and Live for every other string, including "" and unknown names |
| `RoomModel.NormalizeRoomTypeExamples` | main.go:90-93 | "AUDIO", "Audio" and "audio" give Audio; "", "foo", "Live" and "audio " give Live |
| `RoomModel.NormalizeRoomTypeName` | main.go:25-28 | sending a room type's own wire name ("Live", "Audio") back as a request gives that room type again |
| `Registry.RoomRegistry.constructor` | main.go:49 | a new registry is empty and valid |
| `Registry.RoomRegistry.Create` | main.go:95-108 | the returned room has id `rm_`+userid, the caller as owner, `now` as creation time, the normalised type and the chosen backend; the table afterwards is the old table with exactly that id set to that room; an earlier room under the id is overwritten and no other key changes; there is no failure outcome |
| `Registry.RoomRegistry.Destroy` | main.go:126-134 | reports found exactly when the id was in the table; removes exactly that key if present, and leaves the table unchanged if not |
| `Registry.RoomRegistry.Snapshot` | main.go:145-150 | the copied sequence has one element per table entry, contains exactly the table's rooms, and has no repetition |
| `Registry.RoomRegistry.List` | main.go:143-155 | the listing has the table's size, its multiset of rooms equals the multiset of the table's values, and it is ordered by creation time, newest first |
| `Registry.SortNewestFirst` | main.go:152-155 | after the sort the array is newest first and is a permutation of its old contents |
| `Registry.InsertNewestFirst` | main.go:152-155 | one insertion step makes the prefix up to and including position i newest first, permutes only that prefix, and leaves the rest of the array unchanged |
| `Registry.NewestFirstUnique` | main.go:152-155 | when no two rooms share a creation time, any two newest-first arrangements of the same rooms are equal, so the listing is determined |
| `Handlers.CreateRoomHandler` | main.go:79-112 | a method other than POST gives 405 and a body that fails to decode gives 400, both leaving the table unchanged; otherwise 200 with the created room, and the table is upserted as in `Create` |
| `Handlers.DestroyRoomHandler` | main.go:115-135 | a method other than POST gives 405 and an undecodable body gives 400, both with the table unchanged; an unknown id gives 404 with the table unchanged; a present id gives 200 `{"result":"ok"}` and removes exactly that key |
| `Handlers.ListRoomsHandler` | main.go:138-159 | a method other than GET gives 405; GET gives 200 with every room exactly once, newest first, and never changes the table |
| `Handlers.ResponseCodes` | main.go:81-134 | the fixed responses carry the codes 405 (method not allowed), 400 (invalid request), 404 (room not found) and 200 (ok) |
| `Handlers.CreateThenList` | main.go:95-155 | on any valid registry, the room returned by a successful create is among the rooms the following list returns |
| `Handlers.CreateListDestroyScenario` | main.go:79-159 | creating owner "5" returns room `rm_5`; the listing is that room alone; destroying `rm_5` answers ok; the next listing is empty; destroying `rm_5` again answers 404 |
| `Handlers.SameOwnerScenario` | main.go:95-107 | two creates by one owner get the same room id, and only the second room (its time, type and backend) remains listed |
| `Handlers.NewestFirstScenario` | main.go:145-155 | rooms of owners a, b, c created at t1 < t2 < t3 are listed c, b, a |

## Left out

- HTTP plumbing is not modelled: the mux and routes, the server, `ListenAndServe` and `main` (main.go:161-176).
- Response headers and response writing are not modelled. Only the status, the error text of `http.Error` and the encoded value are kept.
- JSON encoding and decoding are not modelled. A decode is `Some(request)` with typed fields, or `None` for a failure.
- The read/write mutex is not modelled (main.go:50, 106-108, 126-127, 143-144). Every operation is treated as atomic, because the lock only matters under concurrency.
- Random seeding and `rand.Intn(10)` (main.go:53-55, 62) become the `draw` parameter, and `time.Now().Unix()` becomes the `now` parameter. The 60/40 split is stated as a count of draws (`ChooseRTCSplit`), not as a probability.
- Map iteration order is modelled as an arbitrary choice of the next key, because Go does not specify it.
- Tie order in the listing is not specified. The code uses `sort.Slice`, which is not stable, so the model states only newest-first order and a permutation, and insertion sort stands in for the library sort.
- `NormalizeRoomType`: lower-cases ASCII letters only. Go's `strings.ToLower` uses Unicode case mapping, so in the source a request such as "AUDİO" (capital I with a dot above, lowered to "i") is Audio, while this model makes it Live.
- `Registry.RoomRegistry.Create`: the creation time is an unbounded integer, not a 64-bit one. No arithmetic is done on it, so the width plays no part.
- The repository's README describes a "last digit" backend rule. The code always draws randomly, so that rule is not modelled.
