/** Which frames are captions and what each is given out as, told from the keys a frame has and its number. */
module CaptionLaws {
  import opened Wrappers
  import opened JsonTrees
  import opened CaptionFrames

  /** A frame with an event object of the given type and content. */
  function EventFrame(text: string, notifyType: int, info: seq<Field>): Json {
    Obj([Field("event", Obj([Field("notify_type", Scalar(text, Some(notifyType))), Field("notify_info", Obj(info))]))])
  }

  lemma EventFrameParts(text: string, notifyType: int, info: seq<Field>)
    ensures
      var root := EventFrame(text, notifyType, info);
      && Get(root, "event").Some? && Get(root, "event").value.Obj?
      && IntAt(Get(root, "event").value, "notify_type") == notifyType
      && Get(Get(root, "event").value, "notify_info") == Some(Obj(info))
      && !HasHeartbeat(root)
  {
    var event := [Field("notify_type", Scalar(text, Some(notifyType))), Field("notify_info", Obj(info))];
    assert "notify_type" != "notify_info";
    assert event[1..] == [Field("notify_info", Obj(info))];
    assert Lookup(event, "notify_info") == Some(Obj(info));
    assert "event"[0] != "heartbeat_sec"[0] && "event"[0] != "heartbeat_time"[0];
    assert [Field("event", Obj(event))][1..] == [];
  }

  const ROOM_KEYS: set<string> := {
    "seat_id", "lucky_bag_id", "props_type", "category_id", "topic_id",
    "game_type", "kick_type", "is_banned_comment", "manager_name"}

  const CAPTION_KEYS: set<string> := {
    "nick_name", "role_type", "result_id", "expired_at", "enabled", "create_at", "update_at"}

  lemma MarkersAreKeys(info: seq<Field>, markers: seq<string>, keys: set<string>)
    requires forall m :: m in markers <==> m in keys
    ensures HasAny(Obj(info), markers) <==> !(Keys(info) !! keys)
  {
    if HasAny(Obj(info), markers) {
      var i :| 0 <= i < |markers| && Has(Obj(info), markers[i]);
      assert markers[i] in Keys(info) && markers[i] in keys;
    }
    if m :| m in Keys(info) && m in keys {
      var i :| 0 <= i < |markers| && markers[i] == m;
      assert Has(Obj(info), markers[i]);
    }
  }

  lemma RoomMarkersAreKeys(info: seq<Field>)
    ensures HasAny(Obj(info), ROOM_MARKERS) <==> !(Keys(info) !! ROOM_KEYS)
  {
    MarkersAreKeys(info, ROOM_MARKERS, ROOM_KEYS);
  }

  lemma CaptionMarkersAreKeys(info: seq<Field>)
    ensures HasAny(Obj(info), CC_MARKERS) <==> !(Keys(info) !! CAPTION_KEYS)
  {
    MarkersAreKeys(info, CC_MARKERS, CAPTION_KEYS);
  }

  /**
   * A frame is a caption exactly when its type is one of 1 to 12 but 8, it names a room, it has no key of the room channel,
   * and, for a start, a line and an expiry (1, 4 and 12), it has a key of the caption channel.
   */
  lemma CaptionsAreToldByKeys(text: string, n: int, info: seq<Field>)
    ensures IsCaption(EventFrame(text, n, info)) <==>
              && 1 <= n <= 12 && n != 8
              && "cname" in Keys(info) && Keys(info) !! ROOM_KEYS
              && (n !in {1, 4, 12} || !(Keys(info) !! CAPTION_KEYS))
  {
    EventFrameParts(text, n, info);
    RoomMarkersAreKeys(info);
    CaptionMarkersAreKeys(info);
    TypesAreNumbers(n);
    hide EventFrame, HasAny, ROOM_KEYS, CAPTION_KEYS;
    assert Has(Obj(info), "cname") <==> "cname" in Keys(info);
  }

  lemma TypesAreNumbers(n: int)
    ensures n in CC_TYPES <==> 1 <= n <= 12 && n != 8
    ensures IsBareType(n) <==> n in CC_TYPES && n !in {1, 4, 12}
  {
  }

  /** Each event is given out for its own type only; types 5, 7, 9, 10 and 11 come out raw, with the whole frame. */
  lemma EventsNameTheirTypes(n: int, info: Json, root: Json)
    requires n in CC_TYPES
    ensures CaptionEventOf(n, info, root) == SubtitleStart(info) <==> n == 1
    ensures CaptionEventOf(n, info, root) == SubtitleEnd(info) <==> n == 2
    ensures CaptionEventOf(n, info, root) == SubtitleDisabled(info) <==> n == 3
    ensures CaptionEventOf(n, info, root) == SubtitleLine(info) <==> n == 4
    ensures CaptionEventOf(n, info, root) == ExperienceActivated(info) <==> n == 6
    ensures CaptionEventOf(n, info, root) == SubtitleExpired(info) <==> n == 12
    ensures CaptionEventOf(n, info, root) == Raw(n, root) <==> n in {5, 7, 9, 10, 11}
  {
  }

  /** A heartbeat interval is the number given, or 60 for anything but a number; a time is the answer to a heartbeat. */
  lemma HeartbeatsAreTold(fields: seq<Field>, hasMsgId: bool)
    ensures
      var f := FrameOf(Parsed(Obj(fields)), hasMsgId);
      && (f.HeartbeatSec? <==> "heartbeat_sec" in Keys(fields))
      && (f.HeartbeatResponse? <==> "heartbeat_time" in Keys(fields) && "heartbeat_sec" !in Keys(fields))
      && (f.HeartbeatSec? ==>
            match Lookup(fields, "heartbeat_sec").value
            case Scalar(_, Some(n)) => f.sec == n
            case _ => f.sec == 60)
  {
  }

  lemma HeartbeatKeys(fields: seq<Field>)
    ensures HasHeartbeat(Obj(fields)) <==> "heartbeat_sec" in Keys(fields) || "heartbeat_time" in Keys(fields)
  {
  }

  /** An event object is typed or untyped by whether it has the type's key; a frame with a heartbeat key is neither. */
  lemma TypesAreTold(fields: seq<Field>, event: seq<Field>)
    requires Lookup(fields, "event") == Some(Obj(event))
    ensures IsUntyped(Obj(fields)) <==>
              "notify_type" !in Keys(event) && "heartbeat_sec" !in Keys(fields) && "heartbeat_time" !in Keys(fields)
    ensures HasTypedEvent(Obj(fields)) <==> "notify_type" in Keys(event)
  {
  }
}
