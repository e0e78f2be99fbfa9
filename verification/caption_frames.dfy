/** `HtCcNotifyMapper` and the caption half of `handleFrame`: which LiveHub frames are captions. */
module CaptionFrames {
  import opened Wrappers
  import opened JsonTrees
  import opened LiveHubConnector

  /** What `readTree` makes of a frame. */
  datatype Text = Malformed | Parsed(root: Json)

  datatype CaptionEvent =
    | SubtitleStart(info: Json)
    | SubtitleEnd(info: Json)
    | SubtitleDisabled(info: Json)
    | SubtitleLine(info: Json)
    | ExperienceActivated(info: Json)
    | SubtitleExpired(info: Json)
    | Raw(notifyType: int, root: Json)
    | MalformedFrame

  const CC_TYPES: set<int> := {1, 2, 3, 4, 5, 6, 7, 9, 10, 11, 12}
  const CC_KILL_TYPES: set<int> := {3, 5, 7, 9, 10, 11}

  const ROOM_MARKERS: seq<string> := [
    "seat_id", "lucky_bag_id", "props_type", "category_id", "topic_id",
    "game_type", "kick_type", "is_banned_comment", "manager_name"]

  const CC_MARKERS: seq<string> := [
    "nick_name", "role_type", "result_id", "expired_at", "enabled", "create_at", "update_at"]

  // ---- Reading a tree

  function Get(node: Json, key: string): Option<Json> {
    if node.Obj? then Lookup(node.fields, key) else None
  }

  predicate Has(node: Json, key: string) { Get(node, key).Some? }

  /** `path(key).asInt(-1)`. */
  function IntAt(node: Json, key: string): int {
    match Get(node, key)
    case Some(Scalar(_, Some(n))) => n
    case _ => -1
  }

  predicate HasHeartbeat(root: Json) { Has(root, "heartbeat_sec") || Has(root, "heartbeat_time") }

  // ---- The discriminator, stated once

  predicate HasAny(info: Json, markers: seq<string>) {
    exists i :: 0 <= i < |markers| && Has(info, markers[i])
  }

  /** The types whose frames may carry nothing but the room name. */
  predicate IsBareType(notifyType: int) {
    notifyType == 2 || notifyType == 6 || notifyType in CC_KILL_TYPES
  }

  predicate IsCaptionInfo(notifyType: int, info: Json) {
    && notifyType in CC_TYPES
    && Has(info, "cname")
    && !HasAny(info, ROOM_MARKERS)
    && (HasAny(info, CC_MARKERS) || IsBareType(notifyType))
  }

  predicate IsCaption(root: Json) {
    var event := Get(root, "event");
    && event.Some? && event.value.Obj?
    && var info := Get(event.value, "notify_info");
       info.Some? && info.value.Obj? && IsCaptionInfo(IntAt(event.value, "notify_type"), info.value)
  }

  function CaptionEventOf(notifyType: int, info: Json, root: Json): CaptionEvent {
    match notifyType
    case 1 => SubtitleStart(info)
    case 2 => SubtitleEnd(info)
    case 3 => SubtitleDisabled(info)
    case 4 => SubtitleLine(info)
    case 6 => ExperienceActivated(info)
    case 12 => SubtitleExpired(info)
    case _ => Raw(notifyType, root)
  }

  // ---- The two implementations

  method HasOneOf(info: Json, markers: seq<string>) returns (found: bool)
    ensures found <==> HasAny(info, markers)
  {
    for i := 0 to |markers|
      invariant forall j :: 0 <= j < i ==> !Has(info, markers[j])
    {
      if Has(info, markers[i]) {
        return true;
      }
    }
    found := false;
  }

  /** The cheap check before the mapper is asked. */
  method OwnsType(text: Text) returns (owns: bool)
    ensures owns <==> text.Parsed? && IsCaption(text.root)
  {
    if text.Malformed? {
      return false;
    }
    var event := Get(text.root, "event");
    if event.None? || !event.value.Obj? {
      return false;
    }
    var notifyType := IntAt(event.value, "notify_type");
    if notifyType !in CC_TYPES {
      return false;
    }
    var info := Get(event.value, "notify_info");
    if info.None? || !info.value.Obj? || !Has(info.value, "cname") {
      return false;
    }
    var room := HasOneOf(info.value, ROOM_MARKERS);
    if room {
      return false;
    }
    var caption := HasOneOf(info.value, CC_MARKERS);
    if caption {
      return true;
    }
    owns := notifyType == 2 || notifyType == 6 || notifyType in CC_KILL_TYPES;
  }

  /**
   * The mapper repeats the check by itself. It yields an event for a malformed text, and otherwise exactly for
   * the captions without a heartbeat key at the root; the event is the one its type names.
   */
  method Map(text: Text) returns (r: Option<CaptionEvent>)
    ensures r.Some? <==> text.Malformed? || (IsCaption(text.root) && !HasHeartbeat(text.root))
    ensures text.Parsed? && r.Some? ==>
              var event := Get(text.root, "event").value;
              r.value == CaptionEventOf(IntAt(event, "notify_type"), Get(event, "notify_info").value, text.root)
  {
    if text.Malformed? {
      return Some(MalformedFrame);
    }
    var root := text.root;
    if Has(root, "heartbeat_sec") || Has(root, "heartbeat_time") {
      return None;
    }
    var event := Get(root, "event");
    if event.None? || !event.value.Obj? {
      return None;
    }
    var info := Get(event.value, "notify_info");
    var notifyType := IntAt(event.value, "notify_type");
    if notifyType !in CC_TYPES {
      return None;
    }
    if info.None? || !info.value.Obj? || !Has(info.value, "cname") {
      return None;
    }
    for i := 0 to |ROOM_MARKERS|
      invariant forall j :: 0 <= j < i ==> !Has(info.value, ROOM_MARKERS[j])
    {
      if Has(info.value, ROOM_MARKERS[i]) {
        return None;
      }
    }
    var hasCcMarker := false;
    for i := 0 to |CC_MARKERS|
      invariant !hasCcMarker && forall j :: 0 <= j < i ==> !Has(info.value, CC_MARKERS[j])
    {
      if Has(info.value, CC_MARKERS[i]) {
        hasCcMarker := true;
        break;
      }
    }
    if !hasCcMarker {
      var bareCnameType := notifyType == 2 || notifyType == 6 || notifyType in CC_KILL_TYPES;
      if !bareCnameType {
        return None;
      }
    }
    r := Some(CaptionEventOf(notifyType, info.value, root));
  }

  // ---- `handleFrame`

  /** An event object without a type, in a frame that is not a heartbeat. */
  predicate IsUntyped(root: Json) {
    && !HasHeartbeat(root)
    && var event := Get(root, "event");
       event.Some? && event.value.Obj? && !Has(event.value, "notify_type")
  }

  predicate HasTypedEvent(root: Json) {
    var event := Get(root, "event");
    event.Some? && event.value.Obj? && Has(event.value, "notify_type")
  }

  /** `asLong(60)` of the interval. */
  function IntervalOf(root: Json): int {
    match Get(root, "heartbeat_sec")
    case Some(Scalar(_, Some(n))) => n
    case _ => 60
  }

  /** What the connector sees of a frame. `hasMsgId`: the frame names a message to acknowledge. */
  function FrameOf(text: Text, hasMsgId: bool): Frame {
    if text.Malformed? then Other(false, false)
    else if Has(text.root, "heartbeat_sec") then HeartbeatSec(IntervalOf(text.root))
    else if Has(text.root, "heartbeat_time") then HeartbeatResponse
    else Other(hasMsgId, IsUntyped(text.root))
  }

  /**
   * The room mapper up to its table of types, `typed`. It takes the type of the event object before anything guards
   * against there being none.
   */
  method MapRoom<R>(text: Text, malformed: R, typed: Json -> Option<R>) returns (r: Option<R>, threw: bool)
    ensures threw <==> text.Parsed? && IsUntyped(text.root)
    ensures r == if text.Malformed? then Some(malformed)
                 else if !HasHeartbeat(text.root) && HasTypedEvent(text.root) then typed(text.root) else None
  {
    threw := false;
    if text.Malformed? {
      return Some(malformed), false;
    }
    var root := text.root;
    if Has(root, "heartbeat_sec") || Has(root, "heartbeat_time") {
      return None, false;
    }
    var event := Get(root, "event");
    if event.None? || !event.value.Obj? {
      return None, false;
    }
    if !Has(event.value, "notify_type") {
      return None, true;
    }
    r := typed(root);
  }

  /**
   * Which channel a frame goes to. A caption the room mapper declines yields exactly one caption event, well formed and
   * without a room marker, and no other frame yields one. The room channel receives the mapper's event of every frame
   * that has one. An exception leaves the method exactly for an untyped event, which reaches neither channel.
   */
  method RouteFrame<R>(text: Text, malformed: R, typed: Json -> Option<R>, ccAttached: bool, hasMsgId: bool)
    returns (room: seq<R>, captions: seq<CaptionEvent>, threw: bool)
    ensures threw <==> text.Parsed? && IsUntyped(text.root)
    ensures threw <==> var f := FrameOf(text, hasMsgId); f.Other? && f.untyped
    ensures var gated := text.Parsed? && !HasHeartbeat(text.root) && IsCaption(text.root) && typed(text.root).None? && ccAttached;
            && |captions| == (if gated then 1 else 0)
            && (gated ==> captions[0] != MalformedFrame
                          && !HasAny(Get(Get(text.root, "event").value, "notify_info").value, ROOM_MARKERS))
    ensures room == if text.Malformed? then [malformed]
                    else if !HasHeartbeat(text.root) && HasTypedEvent(text.root) && typed(text.root).Some?
                    then [typed(text.root).value] else []
    ensures |room| + |captions| <= 1
  {
    room, captions, threw := [], [], false;
    if text.Parsed? && Has(text.root, "heartbeat_sec") {
      return;
    }
    if text.Parsed? && Has(text.root, "heartbeat_time") {
      return;
    }
    var roomEvent;
    roomEvent, threw := MapRoom(text, malformed, typed);
    if threw {
      return;
    }
    if roomEvent.Some? {
      room := [roomEvent.value];
    } else if ccAttached {
      var owns := OwnsType(text);
      if owns {
        var caption := Map(text);
        if caption.Some? {
          captions := [caption.value];
        }
      }
    }
  }

  // ---- Laws of the discriminator

  /** A field that is neither a marker nor the room name never changes which channel a frame belongs to. */
  lemma OtherFieldsDoNotMatter(notifyType: int, info: Json, key: string, value: Json)
    requires info.Obj? && key != "cname" && key !in ROOM_MARKERS && key !in CC_MARKERS
    ensures IsCaptionInfo(notifyType, Obj(SetField(info.fields, key, value))) <==> IsCaptionInfo(notifyType, info)
  {
    var changed := Obj(SetField(info.fields, key, value));
    forall other: string | other == "cname" || other in ROOM_MARKERS || other in CC_MARKERS
      ensures Has(changed, other) <==> Has(info, other)
    {
      LookupAfterSet(info.fields, key, value, other);
    }
    SameMarkers(info, changed, ROOM_MARKERS);
    SameMarkers(info, changed, CC_MARKERS);
  }

  lemma SameMarkers(a: Json, b: Json, markers: seq<string>)
    requires forall m :: m in markers ==> (Has(a, m) <==> Has(b, m))
    ensures HasAny(a, markers) <==> HasAny(b, markers)
  {
    assert forall i :: 0 <= i < |markers| ==> markers[i] in markers;
  }
}
