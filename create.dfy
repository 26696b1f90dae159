/**
 * Translation of a legacy conferencing-API "create" call into the room
 * protocol's create request: a baseline feature set, optional scalars
 * copied only when non-zero, a comma-separated list of features to
 * disable, default and requested locks, and the `meta_` query parameters
 * collected into a serialized extra-data record.
 */
module BbbCreate {
  import opened Optional
  import opened Wemeet
  import opened GoStrings
  import Utils

  /** The legacy "create" query; every parameter absent from the query is Go's zero value. */
  datatype CreateMeetingReq = CreateMeetingReq(
    name: string := "",
    meetingId: string := "",
    attendeePw: string := "",
    moderatorPw: string := "",
    welcome: string := "",
    maxParticipants: uint32 := 0,
    logoutUrl: string := "",
    duration: uint64 := 0,
    record: bool := false,
    autoStartRecording: bool := false,
    webcamsOnlyForModerator: bool := false,
    muteOnStart: bool := false,
    guestPolicy: string := "",
    meetingKeepEvents: bool := false,
    logo: string := "",
    disabledFeatures: string := "",
    preUploadedPresentation: string := "",
    lockSettingsDisableCam: bool := false,
    lockSettingsDisableMic: bool := false,
    lockSettingsDisablePrivateChat: bool := false,
    lockSettingsDisablePublicChat: bool := false,
    lockSettingsDisableNotes: bool := false,
    lockSettingsHideUserList: bool := false,
    voiceBridge: string := "",
    dialNumber: string := "")

  /** The side-channel record serialized into the room's extra data. */
  datatype CreateMeetingDefaultExtraData = CreateMeetingDefaultExtraData(
    attendeePw: string,
    moderatorPw: string,
    logo: string,
    originalMeetingId: string,
    meta: map<string, string>)

  /** Go's `m[k]` on a string map: the empty string for a missing key. */
  function Lookup(m: map<string, string>, k: string): (v: string)
    ensures k in m ==> v == m[k]
    ensures k !in m ==> v == ""
  {
    if k in m then m[k] else ""
  }

  // ---------------------------------------------------------------------
  // setDifferentFeatures
  // ---------------------------------------------------------------------

  /** The features a legacy client may switch off by name. */
  datatype DisabledFeature =
    | BreakoutRooms | Chat | ExternalVideos | Polls | Screenshare
    | SharedNotes | LiveTranscription | Presentation | VirtualBackgrounds | RaiseHand

  /** The token that names each feature in the disable list. */
  function Token(d: DisabledFeature): string
  {
    match d
    case BreakoutRooms => "breakoutRooms"
    case Chat => "chat"
    case ExternalVideos => "externalVideos"
    case Polls => "polls"
    case Screenshare => "screenshare"
    case SharedNotes => "sharedNotes"
    case LiveTranscription => "liveTranscription"
    case Presentation => "presentation"
    case VirtualBackgrounds => "virtualBackgrounds"
    case RaiseHand => "raiseHand"
  }

  /** The feature a token names, by exact match; any other token names none. */
  function ParseToken(t: string): (d: Option<DisabledFeature>)
    ensures d.Some? ==> Token(d.value) == t
    ensures d.None? ==> forall e :: Token(e) != t
  {
    if t == "breakoutRooms" then Some(BreakoutRooms)
    else if t == "chat" then Some(Chat)
    else if t == "externalVideos" then Some(ExternalVideos)
    else if t == "polls" then Some(Polls)
    else if t == "screenshare" then Some(Screenshare)
    else if t == "sharedNotes" then Some(SharedNotes)
    else if t == "liveTranscription" then Some(LiveTranscription)
    else if t == "presentation" then Some(Presentation)
    else if t == "virtualBackgrounds" then Some(VirtualBackgrounds)
    else if t == "raiseHand" then Some(RaiseHand)
    else None
  }

  /** Every feature's token parses back to that feature. */
  lemma ParseTokenRoundTrip(d: DisabledFeature)
    ensures ParseToken(Token(d)) == Some(d)
  {
    match d
    case BreakoutRooms =>
    case Chat =>
    case ExternalVideos =>
    case Polls =>
    case Screenshare =>
    case SharedNotes =>
    case LiveTranscription =>
    case Presentation =>
    case VirtualBackgrounds =>
    case RaiseHand =>
  }

  /** The feature blocks the disable list writes into; the baseline sets them all. */
  predicate FlagBlocksPresent(f: RoomCreateFeatures)
  {
    && f.breakoutRoomFeatures.Some?
    && f.chatFeatures.Some?
    && f.externalMediaPlayerFeatures.Some?
    && f.sharedNotePadFeatures.Some?
    && f.speechToTextTranslationFeatures.Some?
    && f.whiteboardFeatures.Some?
  }

  /** The switch that feature `d` controls, as an optional boolean (plain booleans are always set). */
  function Flag(f: RoomCreateFeatures, d: DisabledFeature): Option<bool>
    requires FlagBlocksPresent(f)
  {
    match d
    case BreakoutRooms => Some(f.breakoutRoomFeatures.value.isAllow)
    case Chat => Some(f.chatFeatures.value.allowChat)
    case ExternalVideos => Some(f.externalMediaPlayerFeatures.value.allowedExternalMediaPlayer)
    case Polls => Some(f.allowPolls)
    case Screenshare => Some(f.allowScreenShare)
    case SharedNotes => Some(f.sharedNotePadFeatures.value.allowedSharedNotePad)
    case LiveTranscription => Some(f.speechToTextTranslationFeatures.value.isAllow)
    case Presentation => Some(f.whiteboardFeatures.value.allowedWhiteboard)
    case VirtualBackgrounds => f.allowVirtualBg
    case RaiseHand => f.allowRaiseHand
  }

  /** `f` with every switch of the disable list cleared: what disabling must leave alone. */
  function WithoutFlags(f: RoomCreateFeatures): RoomCreateFeatures
    requires FlagBlocksPresent(f)
  {
    var breakout := f.breakoutRoomFeatures.value.(isAllow := false);
    var chat := f.chatFeatures.value.(allowChat := false);
    var media := f.externalMediaPlayerFeatures.value.(allowedExternalMediaPlayer := false);
    var notepad := f.sharedNotePadFeatures.value.(allowedSharedNotePad := false);
    var speech := f.speechToTextTranslationFeatures.value.(isAllow := false);
    var board := f.whiteboardFeatures.value.(allowedWhiteboard := false);
    f.(allowPolls := false, allowScreenShare := false, allowVirtualBg := None, allowRaiseHand := None,
       breakoutRoomFeatures := Some(breakout), chatFeatures := Some(chat),
       externalMediaPlayerFeatures := Some(media), sharedNotePadFeatures := Some(notepad),
       speechToTextTranslationFeatures := Some(speech), whiteboardFeatures := Some(board))
  }

  /** Switching off feature `d`: its switch becomes false and nothing else changes. */
  function Disable(f: RoomCreateFeatures, d: DisabledFeature): (g: RoomCreateFeatures)
    requires FlagBlocksPresent(f)
    ensures FlagBlocksPresent(g)
    ensures Flag(g, d) == Some(false)
    ensures forall e :: e != d ==> Flag(g, e) == Flag(f, e)
  {
    match d
    case BreakoutRooms => f.(breakoutRoomFeatures := Some(f.breakoutRoomFeatures.value.(isAllow := false)))
    case Chat => f.(chatFeatures := Some(f.chatFeatures.value.(allowChat := false)))
    case ExternalVideos =>
      f.(externalMediaPlayerFeatures := Some(f.externalMediaPlayerFeatures.value.(allowedExternalMediaPlayer := false)))
    case Polls => f.(allowPolls := false)
    case Screenshare => f.(allowScreenShare := false)
    case SharedNotes => f.(sharedNotePadFeatures := Some(f.sharedNotePadFeatures.value.(allowedSharedNotePad := false)))
    case LiveTranscription =>
      f.(speechToTextTranslationFeatures := Some(f.speechToTextTranslationFeatures.value.(isAllow := false)))
    case Presentation => f.(whiteboardFeatures := Some(f.whiteboardFeatures.value.(allowedWhiteboard := false)))
    case VirtualBackgrounds => f.(allowVirtualBg := Some(false))
    case RaiseHand => f.(allowRaiseHand := Some(false))
  }

  /** Switching off a feature changes nothing outside the switches. */
  lemma DisableKeepsRest(f: RoomCreateFeatures, d: DisabledFeature)
    requires FlagBlocksPresent(f)
    ensures WithoutFlags(Disable(f, d)) == WithoutFlags(f)
  {
  }

  /** One token of the disable list: a recognised token disables its feature, any other is ignored. */
  function DisableToken(f: RoomCreateFeatures, t: string): (g: RoomCreateFeatures)
    requires FlagBlocksPresent(f)
    ensures FlagBlocksPresent(g)
    // a recognised token switches off exactly its own feature
    ensures ParseToken(t).Some? ==> Flag(g, ParseToken(t).value) == Some(false)
    ensures forall e :: ParseToken(t) != Some(e) ==> Flag(g, e) == Flag(f, e)
    // an unrecognised token falls through the switch and changes nothing
    ensures ParseToken(t).None? ==> g == f
  {
    match ParseToken(t)
    case Some(d) => Disable(f, d)
    case None => f
  }

  /** The features after each token of `tokens` has been applied in order. */
  function DisableAll(f: RoomCreateFeatures, tokens: seq<string>): (g: RoomCreateFeatures)
    requires FlagBlocksPresent(f)
    ensures FlagBlocksPresent(g)
    decreases |tokens|
  {
    if |tokens| == 0 then f
    else DisableToken(DisableAll(f, tokens[..|tokens| - 1]), tokens[|tokens| - 1])
  }

  /**
   * After a disable list, a feature is off exactly when its token occurs in
   * the list, and otherwise keeps its switch; nothing outside the switches changes.
   */
  lemma {:induction false} DisableAllFlags(f: RoomCreateFeatures, tokens: seq<string>)
    requires FlagBlocksPresent(f)
    ensures forall d :: Flag(DisableAll(f, tokens), d) == if Token(d) in tokens then Some(false) else Flag(f, d)
    decreases |tokens|
  {
    if |tokens| > 0 {
      var init := tokens[..|tokens| - 1];
      var last := tokens[|tokens| - 1];
      var prev := DisableAll(f, init);
      DisableAllFlags(f, init);
      assert tokens == init + [last];
      forall d ensures Flag(DisableAll(f, tokens), d) == if Token(d) in tokens then Some(false) else Flag(f, d) {
        ParseTokenRoundTrip(d);
        if Token(d) == last {
          assert Flag(DisableAll(f, tokens), d) == Flag(Disable(prev, d), d);
        } else {
          assert Token(d) in tokens <==> Token(d) in init;
          assert Flag(DisableAll(f, tokens), d) == Flag(prev, d);
        }
      }
    }
  }

  /** A disable list changes nothing outside the switches. */
  lemma {:induction false} DisableAllKeepsRest(f: RoomCreateFeatures, tokens: seq<string>)
    requires FlagBlocksPresent(f)
    ensures WithoutFlags(DisableAll(f, tokens)) == WithoutFlags(f)
    decreases |tokens|
  {
    if |tokens| > 0 {
      var init := tokens[..|tokens| - 1];
      DisableAllKeepsRest(f, init);
      match ParseToken(tokens[|tokens| - 1]) {
        case Some(e) => DisableKeepsRest(DisableAll(f, init), e);
        case None =>
      }
    }
  }

  /** Applying a disable list twice is applying it once. */
  lemma DisableAllTwice(f: RoomCreateFeatures, tokens: seq<string>)
    requires FlagBlocksPresent(f)
    ensures DisableAll(DisableAll(f, tokens), tokens) == DisableAll(f, tokens)
  {
    var once := DisableAll(f, tokens);
    var twice := DisableAll(once, tokens);
    DisableAllFlags(f, tokens);
    DisableAllFlags(once, tokens);
    DisableAllKeepsRest(f, tokens);
    DisableAllKeepsRest(once, tokens);
    FlagsDetermine(twice, once);
  }

  /** Only which tokens occur matters: their order and repetitions do not. */
  lemma DisableAllOrderInsensitive(f: RoomCreateFeatures, tokens: seq<string>, others: seq<string>)
    requires FlagBlocksPresent(f)
    requires forall t :: t in tokens <==> t in others
    ensures DisableAll(f, tokens) == DisableAll(f, others)
  {
    DisableAllFlags(f, tokens);
    DisableAllFlags(f, others);
    DisableAllKeepsRest(f, tokens);
    DisableAllKeepsRest(f, others);
    FlagsDetermine(DisableAll(f, tokens), DisableAll(f, others));
  }

  /** A feature record is determined by its switches together with everything else. */
  lemma FlagsDetermine(f: RoomCreateFeatures, g: RoomCreateFeatures)
    requires FlagBlocksPresent(f) && FlagBlocksPresent(g)
    requires WithoutFlags(f) == WithoutFlags(g)
    requires forall d :: Flag(f, d) == Flag(g, d)
    ensures f == g
  {
    assert Flag(f, BreakoutRooms) == Flag(g, BreakoutRooms);
    assert Flag(f, Chat) == Flag(g, Chat);
    assert Flag(f, ExternalVideos) == Flag(g, ExternalVideos);
    assert Flag(f, Polls) == Flag(g, Polls);
    assert Flag(f, Screenshare) == Flag(g, Screenshare);
    assert Flag(f, SharedNotes) == Flag(g, SharedNotes);
    assert Flag(f, LiveTranscription) == Flag(g, LiveTranscription);
    assert Flag(f, Presentation) == Flag(g, Presentation);
    assert Flag(f, VirtualBackgrounds) == Flag(g, VirtualBackgrounds);
    assert Flag(f, RaiseHand) == Flag(g, RaiseHand);
  }

  /**
   * setDifferentFeatures: splits the list on commas, without trimming, and
   * switches off the feature each recognised token names.
   */
  method SetDifferentFeatures(f: RoomCreateFeatures, disabledFeatures: string) returns (g: RoomCreateFeatures)
    requires FlagBlocksPresent(f)
    ensures FlagBlocksPresent(g)
    ensures g == DisableAll(f, Split(disabledFeatures, ','))
    ensures forall d :: Flag(g, d) == if Token(d) in Split(disabledFeatures, ',') then Some(false) else Flag(f, d)
    ensures WithoutFlags(g) == WithoutFlags(f)
  {
    var features := Split(disabledFeatures, ',');
    g := f;
    for i := 0 to |features|
      invariant FlagBlocksPresent(g)
      invariant g == DisableAll(f, features[..i])
    {
      assert features[..i + 1][..i] == features[..i];
      g := DisableToken(g, features[i]);
    }
    assert features[..|features|] == features;
    DisableAllFlags(f, features);
    DisableAllKeepsRest(f, features);
  }

  // ---------------------------------------------------------------------
  // setLockSettings
  // ---------------------------------------------------------------------

  /**
   * The lock record after setLockSettings: each lock the legacy request
   * asks for is switched on; a lock it does not ask for keeps its value,
   * so nothing is ever unlocked.
   */
  function RequestLocks(l: LockSettings, r: CreateMeetingReq): (g: LockSettings)
    ensures g.lockWebcam == if r.lockSettingsDisableCam then Some(true) else l.lockWebcam
    ensures g.lockMicrophone == if r.lockSettingsDisableMic then Some(true) else l.lockMicrophone
    ensures g.lockChatSendMessage == if r.lockSettingsDisablePublicChat then Some(true) else l.lockChatSendMessage
    ensures g.lockPrivateChat == if r.lockSettingsDisablePrivateChat then Some(true) else l.lockPrivateChat
    ensures g.lockSharedNotepad == if r.lockSettingsDisableNotes then Some(true) else l.lockSharedNotepad
    ensures g.lockScreenSharing == l.lockScreenSharing && g.lockWhiteboard == l.lockWhiteboard
    ensures NoExplicitUnlock(l) ==> NoExplicitUnlock(g)
  {
    var webcam := if r.lockSettingsDisableCam then Some(true) else l.lockWebcam;
    var microphone := if r.lockSettingsDisableMic then Some(true) else l.lockMicrophone;
    var publicChat := if r.lockSettingsDisablePublicChat then Some(true) else l.lockChatSendMessage;
    var privateChat := if r.lockSettingsDisablePrivateChat then Some(true) else l.lockPrivateChat;
    var notepad := if r.lockSettingsDisableNotes then Some(true) else l.lockSharedNotepad;
    l.(lockWebcam := webcam, lockMicrophone := microphone, lockChatSendMessage := publicChat,
       lockPrivateChat := privateChat, lockSharedNotepad := notepad)
  }

  /** Requesting the same locks twice is requesting them once. */
  lemma RequestLocksIdempotent(l: LockSettings, r: CreateMeetingReq)
    ensures RequestLocks(RequestLocks(l, r), r) == RequestLocks(l, r)
  {
  }

  /** setLockSettings, writing into the lock record it is given. */
  method SetLockSettings(l: LockSettings, r: CreateMeetingReq) returns (g: LockSettings)
    ensures g == RequestLocks(l, r)
  {
    g := l;
    if r.lockSettingsDisableCam {
      g := g.(lockWebcam := Some(true));
    }
    if r.lockSettingsDisableMic {
      g := g.(lockMicrophone := Some(true));
    }
    if r.lockSettingsDisablePublicChat {
      g := g.(lockChatSendMessage := Some(true));
    }
    if r.lockSettingsDisablePrivateChat {
      g := g.(lockPrivateChat := Some(true));
    }
    if r.lockSettingsDisableNotes {
      g := g.(lockSharedNotepad := Some(true));
    }
  }

  /**
   * The locks of a converted room: the empty record, then the three
   * defaults, then the requested locks. Screen sharing, whiteboard and
   * notepad are always on, the other four on exactly when asked for, and
   * no lock is explicitly off.
   */
  function ConvertedLocks(r: CreateMeetingReq): (l: LockSettings)
    ensures l.lockScreenSharing == Some(true) && l.lockWhiteboard == Some(true) && l.lockSharedNotepad == Some(true)
    ensures l.lockWebcam == (if r.lockSettingsDisableCam then Some(true) else None)
    ensures l.lockMicrophone == (if r.lockSettingsDisableMic then Some(true) else None)
    ensures l.lockChatSendMessage == (if r.lockSettingsDisablePublicChat then Some(true) else None)
    ensures l.lockPrivateChat == (if r.lockSettingsDisablePrivateChat then Some(true) else None)
    ensures NoExplicitUnlock(l)
  {
    RequestLocks(Utils.FillDefaultLocks(LockSettings()), r)
  }

  // ---------------------------------------------------------------------
  // meta_ parameters
  // ---------------------------------------------------------------------

  const MetaMarker := "meta_"

  /** A query key is a meta key when `meta_` occurs anywhere in it. */
  predicate IsMetaKey(k: string): (b: bool)
    ensures b <==> exists i :: 0 <= i <= |k| && OccursAt(k, MetaMarker, i)
    // keys that start with `meta_` are meta keys, but so are keys with it further in
    ensures OccursAt(k, MetaMarker, 0) ==> b
  {
    Contains(k, MetaMarker)
  }

  /** The extra-data key of a meta key: the key with its first `meta_` removed. */
  function StripMeta(k: string): (m: string)
    requires IsMetaKey(k)
    ensures |m| == |k| - |MetaMarker|
  {
    ReplaceFirst(k, MetaMarker, "")
  }

  /** A meta value: its query-unescaped form when unescaping succeeds, the raw string otherwise. */
  function MetaValue(raw: string, unescape: string -> Option<string>): (v: string)
    ensures unescape(raw).Some? ==> v == unescape(raw).value
    ensures unescape(raw).None? ==> v == raw
  {
    match unescape(raw)
    case Some(u) => u
    case None => raw
  }

  /** The extra-data keys the meta keys among `keys` produce. */
  function MetaKeys(keys: set<string>): set<string>
  {
    set k | k in keys && IsMetaKey(k) :: StripMeta(k)
  }

  /** Every entry of `meta` comes from some meta key of `raw`, carrying that key's value. */
  predicate FromSomeMetaKey(meta: map<string, string>, raw: map<string, string>, keys: set<string>,
                            unescape: string -> Option<string>)
  {
    forall m :: m in meta ==>
      exists k :: k in keys && k in raw && IsMetaKey(k) && StripMeta(k) == m && meta[m] == MetaValue(raw[k], unescape)
  }

  /**
   * Collects the `meta_` query parameters. Keys that strip to the same
   * extra-data key compete, and which one wins depends on map iteration
   * order, so only "some competitor's value" is promised; a key without
   * competitors has its own value.
   */
  method CollectMeta(raw: map<string, string>, unescape: string -> Option<string>) returns (meta: map<string, string>)
    ensures meta.Keys == MetaKeys(raw.Keys)
    ensures FromSomeMetaKey(meta, raw, raw.Keys, unescape)
    ensures forall k :: k in raw && IsMetaKey(k) &&
                        (forall k' :: k' in raw && IsMetaKey(k') && StripMeta(k') == StripMeta(k) ==> k' == k)
                        ==> StripMeta(k) in meta && meta[StripMeta(k)] == MetaValue(raw[k], unescape)
  {
    meta := map[];
    var remaining := raw.Keys;
    while remaining != {}
      invariant remaining <= raw.Keys
      invariant meta.Keys == MetaKeys(raw.Keys - remaining)
      invariant FromSomeMetaKey(meta, raw, raw.Keys - remaining, unescape)
      decreases |remaining|
    {
      var k :| k in remaining;
      if IsMetaKey(k) {
        meta := meta[StripMeta(k) := MetaValue(raw[k], unescape)];
      }
      remaining := remaining - {k};
    }
    assert raw.Keys - remaining == raw.Keys;
    forall k | k in raw && IsMetaKey(k) &&
               (forall k' :: k' in raw && IsMetaKey(k') && StripMeta(k') == StripMeta(k) ==> k' == k)
      ensures StripMeta(k) in meta && meta[StripMeta(k)] == MetaValue(raw[k], unescape)
    {
      assert StripMeta(k) in MetaKeys(raw.Keys);
    }
  }

  // ---------------------------------------------------------------------
  // ConvertCreateRequest
  // ---------------------------------------------------------------------

  const AskModerator := "ASK_MODERATOR"
  const KeepEventsParameter := "meetingKeepEvents"

  /** The feature set every converted room starts from. */
  function BaselineFeatures(r: CreateMeetingReq): (f: RoomCreateFeatures)
    ensures FlagBlocksPresent(f)
    ensures f.allowWebcams && f.allowRtmp && f.enableAnalytics && !f.allowViewOtherUsersList
    ensures f.adminOnlyWebcams == r.webcamsOnlyForModerator && f.muteOnStart == r.muteOnStart
    ensures f.whiteboardFeatures.value.preloadFile.None?
    // auto-generated user ids are on, so the server policy never defaults them off
    ensures f.autoGenUserId == Some(true)
    ensures f.recordingFeatures == Some(RecordingFeatures(
      isAllow := r.record, isAllowCloud := r.record, enableAutoCloudRecording := r.autoStartRecording))
    ensures f.chatFeatures.value.allowFileUpload
    ensures f.displayExternalLinkFeatures == Some(DisplayExternalLinkFeatures(isAllow := true))
    ensures f.ingressFeatures == Some(IngressFeatures(isAllow := true))
    ensures f.speechToTextTranslationFeatures.value.isAllowTranslation
    // the blocks the literal leaves out stay unset
    ensures f.waitingRoomFeatures.None? && f.endToEndEncryptionFeatures.None? && f.pollsFeatures.None?
  {
    RoomCreateFeatures(
      allowWebcams := true,
      adminOnlyWebcams := r.webcamsOnlyForModerator,
      enableAnalytics := true,
      muteOnStart := r.muteOnStart,
      allowRtmp := true,
      allowPolls := true,
      allowScreenShare := true,
      allowRaiseHand := Some(true),
      allowVirtualBg := Some(true),
      autoGenUserId := Some(true),
      recordingFeatures := Some(RecordingFeatures(
        isAllow := r.record, isAllowCloud := r.record, enableAutoCloudRecording := r.autoStartRecording)),
      chatFeatures := Some(ChatFeatures(allowChat := true, allowFileUpload := true)),
      sharedNotePadFeatures := Some(SharedNotePadFeatures(allowedSharedNotePad := true)),
      whiteboardFeatures := Some(WhiteboardFeatures(allowedWhiteboard := true)),
      externalMediaPlayerFeatures := Some(ExternalMediaPlayerFeatures(allowedExternalMediaPlayer := true)),
      breakoutRoomFeatures := Some(BreakoutRoomFeatures(isAllow := true)),
      displayExternalLinkFeatures := Some(DisplayExternalLinkFeatures(isAllow := true)),
      ingressFeatures := Some(IngressFeatures(isAllow := true)),
      speechToTextTranslationFeatures := Some(SpeechToTextTranslationFeatures(isAllow := true, isAllowTranslation := true)))
  }

  /** Every feature a legacy client can disable starts enabled. */
  lemma BaselineAllEnabled(r: CreateMeetingReq, d: DisabledFeature)
    ensures Flag(BaselineFeatures(r), d) == Some(true)
  {
    match d
    case BreakoutRooms =>
    case Chat =>
    case ExternalVideos =>
    case Polls =>
    case Screenshare =>
    case SharedNotes =>
    case LiveTranscription =>
    case Presentation =>
    case VirtualBackgrounds =>
    case RaiseHand =>
  }

  /** The disable list as ConvertCreateRequest applies it: an empty list is skipped. */
  function DisableList(f: RoomCreateFeatures, disabledFeatures: string): (g: RoomCreateFeatures)
    requires FlagBlocksPresent(f)
    ensures FlagBlocksPresent(g)
    ensures WithoutFlags(g) == WithoutFlags(f)
    ensures forall d :: Flag(g, d) == if Token(d) in Split(disabledFeatures, ',') then Some(false) else Flag(f, d)
  {
    DisableAllFlags(f, Split(disabledFeatures, ','));
    DisableAllKeepsRest(f, Split(disabledFeatures, ','));
    if disabledFeatures != "" then DisableAll(f, Split(disabledFeatures, ',')) else f
  }

  /** The baseline with the optional duration and the waiting room of the guest policy. */
  function RequestedFeatures(r: CreateMeetingReq): (f: RoomCreateFeatures)
    ensures FlagBlocksPresent(f)
  {
    var duration := if r.duration > 0 then Some(r.duration) else None;
    var waiting := if r.guestPolicy != "" && r.guestPolicy == AskModerator
                   then Some(WaitingRoomFeatures(isActive := true)) else None;
    BaselineFeatures(r).(roomDuration := duration, waitingRoomFeatures := waiting)
  }

  /**
   * The feature set ConvertCreateRequest produces from the query `r` and the
   * raw parameters `rawQueries` (used only to tell whether
   * `meetingKeepEvents` was sent at all).
   */
  function ConvertedFeatures(r: CreateMeetingReq, rawQueries: map<string, string>): (g: RoomCreateFeatures)
    ensures FlagBlocksPresent(g)
    // a duration is set exactly when a positive one was asked for
    ensures g.roomDuration == if r.duration > 0 then Some(r.duration) else None
    // the waiting room exists, and is active, exactly for the ASK_MODERATOR guest policy
    ensures g.waitingRoomFeatures == if r.guestPolicy == AskModerator then Some(WaitingRoomFeatures(isActive := true)) else None
    // analytics stay on unless meetingKeepEvents was sent with a value
    ensures g.enableAnalytics == if Lookup(rawQueries, KeepEventsParameter) != "" then r.meetingKeepEvents else true
    // the user list is hidden whatever the request says
    ensures !g.allowViewOtherUsersList
    ensures g.allowWebcams && g.allowRtmp
    ensures g.adminOnlyWebcams == r.webcamsOnlyForModerator && g.muteOnStart == r.muteOnStart
  {
    var disabled := DisableList(RequestedFeatures(r), r.disabledFeatures);
    assert WithoutFlags(disabled).enableAnalytics == WithoutFlags(RequestedFeatures(r)).enableAnalytics;
    assert WithoutFlags(disabled).allowViewOtherUsersList == WithoutFlags(RequestedFeatures(r)).allowViewOtherUsersList;
    RequestExtras(disabled, r, rawQueries)
  }

  /** The changes made after the disable list: the preloaded presentation, analytics and the user list. */
  function RequestExtras(f: RoomCreateFeatures, r: CreateMeetingReq, rawQueries: map<string, string>): (g: RoomCreateFeatures)
    requires FlagBlocksPresent(f)
    ensures FlagBlocksPresent(g)
  {
    var board := f.whiteboardFeatures.value;
    var preload := if r.preUploadedPresentation != "" && board.allowedWhiteboard
                   then Some(r.preUploadedPresentation) else board.preloadFile;
    var analytics := if Lookup(rawQueries, KeepEventsParameter) != "" then r.meetingKeepEvents else f.enableAnalytics;
    var userList := if r.lockSettingsHideUserList then false else f.allowViewOtherUsersList;
    f.(whiteboardFeatures := Some(board.(preloadFile := preload)),
       enableAnalytics := analytics, allowViewOtherUsersList := userList)
  }

  /** After conversion a feature is off exactly when the disable list names it. */
  lemma ConvertedFlags(r: CreateMeetingReq, rawQueries: map<string, string>, d: DisabledFeature)
    ensures Flag(ConvertedFeatures(r, rawQueries), d) == Some(Token(d) !in Split(r.disabledFeatures, ','))
  {
    BaselineAllEnabled(r, d);
    assert Flag(RequestedFeatures(r), d) == Flag(BaselineFeatures(r), d);
    var disabled := DisableList(RequestedFeatures(r), r.disabledFeatures);
    assert Flag(ConvertedFeatures(r, rawQueries), d) == Flag(disabled, d);
  }

  /** The baseline settings the disable list and the later steps never touch survive conversion. */
  lemma ConvertedKeepsBaseline(r: CreateMeetingReq, rawQueries: map<string, string>)
    ensures var g := ConvertedFeatures(r, rawQueries);
      && g.autoGenUserId == Some(true)
      && g.recordingFeatures == Some(RecordingFeatures(
           isAllow := r.record, isAllowCloud := r.record, enableAutoCloudRecording := r.autoStartRecording))
      && g.chatFeatures.value.allowFileUpload
      && g.displayExternalLinkFeatures == Some(DisplayExternalLinkFeatures(isAllow := true))
      && g.ingressFeatures == Some(IngressFeatures(isAllow := true))
      && g.speechToTextTranslationFeatures.value.isAllowTranslation
      && g.endToEndEncryptionFeatures.None? && g.pollsFeatures.None?
  {
    var disabled := DisableList(RequestedFeatures(r), r.disabledFeatures);
    assert WithoutFlags(disabled) == WithoutFlags(RequestedFeatures(r));
  }

  /** The presentation is preloaded exactly when one is given and the whiteboard was not disabled. */
  lemma ConvertedPreload(r: CreateMeetingReq, rawQueries: map<string, string>)
    ensures ConvertedFeatures(r, rawQueries).whiteboardFeatures.value.preloadFile ==
      if r.preUploadedPresentation != "" && Token(Presentation) !in Split(r.disabledFeatures, ',')
      then Some(r.preUploadedPresentation) else None
  {
    var requested := RequestedFeatures(r);
    var disabled := DisableList(requested, r.disabledFeatures);
    BaselineAllEnabled(r, Presentation);
    assert Flag(requested, Presentation) == Flag(BaselineFeatures(r), Presentation);
    assert Flag(disabled, Presentation) == Some(disabled.whiteboardFeatures.value.allowedWhiteboard);
    assert WithoutFlags(disabled).whiteboardFeatures == WithoutFlags(requested).whiteboardFeatures;
  }

  /**
   * The feature half of ConvertCreateRequest: the baseline, then each
   * requested change in the order the conversion makes it.
   */
  method ConvertFeatures(r: CreateMeetingReq, rawQueries: map<string, string>) returns (features: RoomCreateFeatures)
    ensures features == ConvertedFeatures(r, rawQueries)
  {
    features := BaselineFeatures(r);
    var duration := if r.duration > 0 then Some(r.duration) else None;
    var waiting := if r.guestPolicy != "" && r.guestPolicy == AskModerator
                   then Some(WaitingRoomFeatures(isActive := true)) else None;
    features := features.(roomDuration := duration, waitingRoomFeatures := waiting);
    if r.disabledFeatures != "" {
      features := SetDifferentFeatures(features, r.disabledFeatures);
    }
    features := RequestExtras(features, r, rawQueries);
  }

  /**
   * ConvertCreateRequest. `normalize` is the meeting-id normalisation and
   * `unescape` query unescaping, both external here; `marshal` is the JSON
   * encoder, `None` when it fails, in which case no request is returned.
   */
  method ConvertCreateRequest(
    r: CreateMeetingReq, rawQueries: map<string, string>,
    normalize: string -> string, unescape: string -> Option<string>,
    marshal: CreateMeetingDefaultExtraData -> Option<string>)
    returns (req: CreateRoomReq?, extra: CreateMeetingDefaultExtraData)
    ensures req == null <==> marshal(extra).None?
    ensures req != null ==> fresh(req)
    // the extra data keeps what the room protocol has no field for
    ensures extra.originalMeetingId == r.meetingId && extra.logo == r.logo
    ensures extra.attendeePw == r.attendeePw && extra.moderatorPw == r.moderatorPw
    ensures extra.meta.Keys == MetaKeys(rawQueries.Keys)
    ensures FromSomeMetaKey(extra.meta, rawQueries, rawQueries.Keys, unescape)
    ensures req != null ==>
      && req.roomId == normalize(r.meetingId)
      && req.maxParticipants == (if r.maxParticipants > 0 then Some(r.maxParticipants) else None)
      && req.emptyTimeout == None
      && req.metadata.roomTitle == r.name
      && req.metadata.logoutUrl == (if r.logoutUrl != "" then Some(r.logoutUrl) else None)
      && req.metadata.welcomeMessage == (if r.welcome != "" then Some(r.welcome) else None)
      && req.metadata.roomFeatures == ConvertedFeatures(r, rawQueries)
      && req.metadata.extraData == marshal(extra)
      && req.metadata.startedAt == 0
    ensures req != null ==> req.metadata.defaultLockSettings == Some(ConvertedLocks(r))
  {
    var features := ConvertFeatures(r, rawQueries);
    var metadata := RoomMetadata(roomTitle := r.name, roomFeatures := features,
                                 defaultLockSettings := Some(LockSettings()));
    var maxParticipants := None;
    if r.maxParticipants > 0 {
      maxParticipants := Some(r.maxParticipants);
    }
    if r.logoutUrl != "" {
      metadata := metadata.(logoutUrl := Some(r.logoutUrl));
    }
    if r.welcome != "" {
      metadata := metadata.(welcomeMessage := Some(r.welcome));
    }

    var room := new CreateRoomReq(normalize(r.meetingId), metadata);
    room.maxParticipants := maxParticipants;
    Utils.SetRoomDefaultLockSettings(room);
    var locks := SetLockSettings(room.metadata.defaultLockSettings.value, r);
    room.metadata := room.metadata.(defaultLockSettings := Some(locks));

    var meta := CollectMeta(rawQueries, unescape);
    extra := CreateMeetingDefaultExtraData(
      attendeePw := r.attendeePw, moderatorPw := r.moderatorPw,
      logo := r.logo, originalMeetingId := r.meetingId, meta := meta);
    var encoded := marshal(extra);
    if encoded.None? {
      return null, extra;
    }
    room.metadata := room.metadata.(extraData := encoded);
    req := room;
  }
}
