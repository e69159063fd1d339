/**
 * The values of the room registry (main.go:14-37) and the three stateless
 * policy helpers that room creation uses: the RTC backend chooser, the room
 * id derivation and the room-type normalisation.
 */
module RoomModel {

  /** The RTC service a room is assigned to (RTCType, main.go:15-20). */
  datatype RTCType = TRTC | Agora {
    /** The wire name of the backend. */
    function Name(): string {
      match this
      case TRTC => "TRTC"
      case Agora => "Agora"
    }
  }

  /** Distinct backends have distinct wire names. */
  lemma RTCTypeNameInjective(x: RTCType, y: RTCType)
    ensures x.Name() == y.Name() <==> x == y
  {
    assert TRTC.Name()[0] != Agora.Name()[0];
  }

  /** The room mode (RoomType, main.go:23-28). */
  datatype RoomType = Live | Audio {
    /** The wire name of the room type. */
    function Name(): string {
      match this
      case Live => "Live"
      case Audio => "Audio"
    }
  }

  /** A room record as stored and returned to clients (main.go:31-37). */
  datatype Room = Room(
    roomId: string,
    ownerUserId: string,
    createTime: int,
    roomType: RoomType,
    rtcType: RTCType)

  // ---------------------------------------------------------------------
  // RTC backend choice
  // ---------------------------------------------------------------------

  /**
   * The backend for one random draw. The source draws `draw` from [0, 10)
   * and switches on it: 0..5 give TRTC, 6..9 give Agora, and the default
   * branch (unreachable for an in-range draw) gives TRTC.
   */
  function ChooseRTC(draw: int): (rtc: RTCType)
    ensures rtc == Agora <==> 6 <= draw <= 9
  {
    if draw in {0, 1, 2, 3, 4, 5} then TRTC
    else if draw in {6, 7, 8, 9} then Agora
    else TRTC
  }

  /** The single-threshold reading of the switch: below 6 is TRTC. */
  lemma ChooseRTCThreshold(draw: int)
    requires 0 <= draw < 10
    ensures ChooseRTC(draw) == (if draw < 6 then TRTC else Agora)
  {
  }

  /** Of the ten equally likely draws, six go to TRTC and four to Agora. */
  lemma ChooseRTCSplit()
    ensures |set d | 0 <= d < 10 && ChooseRTC(d) == TRTC| == 6
    ensures |set d | 0 <= d < 10 && ChooseRTC(d) == Agora| == 4
  {
    var trtc := set d | 0 <= d < 10 && ChooseRTC(d) == TRTC;
    var agora := set d | 0 <= d < 10 && ChooseRTC(d) == Agora;
    assert trtc == {0, 1, 2, 3, 4, 5};
    assert agora == {6, 7, 8, 9};
  }

  // ---------------------------------------------------------------------
  // Room id derivation
  // ---------------------------------------------------------------------

  const ROOM_ID_PREFIX: string := "rm_"

  /** The room id is the fixed prefix followed by the owner id verbatim. */
  function GenerateRoomID(userid: string): (id: string)
    ensures |id| == |ROOM_ID_PREFIX| + |userid|
    ensures id[..|ROOM_ID_PREFIX|] == ROOM_ID_PREFIX
    ensures id[|ROOM_ID_PREFIX|..] == userid
  {
    ROOM_ID_PREFIX + userid
  }

  /** Two owners get the same room id exactly when they are the same owner. */
  lemma GenerateRoomIDInjective(u: string, v: string)
    ensures GenerateRoomID(u) == GenerateRoomID(v) <==> u == v
  {
    if GenerateRoomID(u) == GenerateRoomID(v) {
      assert u == GenerateRoomID(u)[|ROOM_ID_PREFIX|..];
    }
  }

  // ---------------------------------------------------------------------
  // Room-type normalisation
  // ---------------------------------------------------------------------

  predicate IsUpperAscii(c: char) {
    'A' <= c <= 'Z'
  }

  /** Lower-cases one character; only the ASCII letters A-Z change. */
  function LowerAscii(c: char): (l: char)
    ensures !IsUpperAscii(l)
    ensures IsUpperAscii(c) ==> l as int == c as int + 32
    ensures !IsUpperAscii(c) ==> l == c
  {
    if IsUpperAscii(c) then (c as int + 32) as char else c
  }

  /** Lower-cases a string character by character. */
  function ToLowerAscii(s: string): (r: string)
    ensures |r| == |s|
    ensures forall i :: 0 <= i < |s| ==> r[i] == LowerAscii(s[i])
  {
    if s == [] then [] else [LowerAscii(s[0])] + ToLowerAscii(s[1..])
  }

  /** Case-insensitive equality of two strings, position by position. */
  predicate EqualFoldAscii(s: string, t: string) {
    |s| == |t| && forall i :: 0 <= i < |s| ==> LowerAscii(s[i]) == LowerAscii(t[i])
  }

  /** A string lower-cases to "audio" exactly when it equals "audio" ignoring case. */
  lemma LowersToAudio(s: string)
    ensures ToLowerAscii(s) == "audio" <==> EqualFoldAscii(s, "audio")
  {
    var audio := "audio";
    assert forall i :: 0 <= i < |audio| ==> LowerAscii(audio[i]) == audio[i];
    if EqualFoldAscii(s, audio) {
      assert ToLowerAscii(s) == audio;
    }
  }

  /**
   * The room type a create request asks for: Audio exactly when the request
   * equals "audio" ignoring case, Live for every other string
   * (main.go:90-93).
   */
  function NormalizeRoomType(s: string): (rt: RoomType)
    ensures rt == Audio <==> EqualFoldAscii(s, "audio")
  {
    LowersToAudio(s);
    if ToLowerAscii(s) == "audio" then Audio else Live
  }

  /** The boundary cases: any casing of "audio" is Audio, the rest is Live. */
  lemma NormalizeRoomTypeExamples()
    ensures NormalizeRoomType("AUDIO") == Audio
    ensures NormalizeRoomType("Audio") == Audio
    ensures NormalizeRoomType("audio") == Audio
    ensures NormalizeRoomType("") == Live
    ensures NormalizeRoomType("foo") == Live
    ensures NormalizeRoomType("Live") == Live
    ensures NormalizeRoomType("audio ") == Live
  {
    assert LowerAscii('f') != LowerAscii('a');
    assert LowerAscii('L') != LowerAscii('a');
  }

  /** A room type's own wire name normalises back to that room type. */
  lemma NormalizeRoomTypeName(rt: RoomType)
    ensures NormalizeRoomType(rt.Name()) == rt
  {
    NormalizeRoomTypeExamples();
  }
}
