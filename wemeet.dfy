/**
 * The internal room protocol's request messages, restricted to the fields
 * the adapter reads or writes. Every constructor argument defaults to Go's
 * zero value (false, 0, "", nil), so a constructor call with named
 * arguments reads like the Go struct literal it models.
 */
module Wemeet {
  import opened Optional

  type uint32 = nat
  type uint64 = nat

  datatype RecordingFeatures = RecordingFeatures(
    isAllow: bool := false,
    isAllowCloud: bool := false,
    isAllowLocal: bool := false,
    enableAutoCloudRecording: bool := false)

  datatype ChatFeatures = ChatFeatures(
    allowChat: bool := false,
    allowFileUpload: bool := false,
    allowedFileTypes: seq<string> := [],
    maxFileSize: Option<uint64> := None)

  datatype SharedNotePadFeatures = SharedNotePadFeatures(
    allowedSharedNotePad: bool := false,
    isActive: bool := false,
    visible: bool := false)

  datatype WhiteboardFeatures = WhiteboardFeatures(
    allowedWhiteboard: bool := false,
    visible: bool := false,
    preloadFile: Option<string> := None,
    whiteboardFileId: string := "",
    fileName: string := "",
    totalPages: uint32 := 0,
    maxAllowedFileSize: Option<uint64> := None)

  datatype ExternalMediaPlayerFeatures = ExternalMediaPlayerFeatures(
    allowedExternalMediaPlayer: bool := false,
    isActive: bool := false)

  datatype WaitingRoomFeatures = WaitingRoomFeatures(
    isActive: bool := false,
    waitingRoomMsg: string := "")

  datatype BreakoutRoomFeatures = BreakoutRoomFeatures(
    isAllow: bool := false,
    isActive: bool := false,
    allowedNumberRooms: uint32 := 0)

  datatype DisplayExternalLinkFeatures = DisplayExternalLinkFeatures(
    isAllow: bool := false,
    isActive: bool := false)

  datatype IngressFeatures = IngressFeatures(isAllow: bool := false)

  datatype SpeechToTextTranslationFeatures = SpeechToTextTranslationFeatures(
    isAllow: bool := false,
    isAllowTranslation: bool := false)

  datatype EndToEndEncryptionFeatures = EndToEndEncryptionFeatures(
    isEnabled: bool := false,
    enabledSelfInsertEncryptionKey: bool := false,
    encryptionKey: Option<string> := None)

  datatype PollsFeatures = PollsFeatures(isAllow: bool := false)

  /** The feature set of a room: scalar switches plus one optional block per capability. */
  datatype RoomCreateFeatures = RoomCreateFeatures(
    allowWebcams: bool := false,
    muteOnStart: bool := false,
    allowScreenShare: bool := false,
    allowRtmp: bool := false,
    adminOnlyWebcams: bool := false,
    allowViewOtherUsersList: bool := false,
    allowPolls: bool := false,
    roomDuration: Option<uint64> := None,
    enableAnalytics: bool := false,
    allowVirtualBg: Option<bool> := None,
    allowRaiseHand: Option<bool> := None,
    autoGenUserId: Option<bool> := None,
    recordingFeatures: Option<RecordingFeatures> := None,
    chatFeatures: Option<ChatFeatures> := None,
    sharedNotePadFeatures: Option<SharedNotePadFeatures> := None,
    whiteboardFeatures: Option<WhiteboardFeatures> := None,
    externalMediaPlayerFeatures: Option<ExternalMediaPlayerFeatures> := None,
    waitingRoomFeatures: Option<WaitingRoomFeatures> := None,
    breakoutRoomFeatures: Option<BreakoutRoomFeatures> := None,
    displayExternalLinkFeatures: Option<DisplayExternalLinkFeatures> := None,
    ingressFeatures: Option<IngressFeatures> := None,
    speechToTextTranslationFeatures: Option<SpeechToTextTranslationFeatures> := None,
    endToEndEncryptionFeatures: Option<EndToEndEncryptionFeatures> := None,
    pollsFeatures: Option<PollsFeatures> := None)

  /** Per-capability locks; `None` means "not specified", which the defaults pass may fill. */
  datatype LockSettings = LockSettings(
    lockMicrophone: Option<bool> := None,
    lockWebcam: Option<bool> := None,
    lockScreenSharing: Option<bool> := None,
    lockWhiteboard: Option<bool> := None,
    lockSharedNotepad: Option<bool> := None,
    lockChatSendMessage: Option<bool> := None,
    lockPrivateChat: Option<bool> := None)

  /** True when no lock of `l` is an explicit `false`. */
  predicate NoExplicitUnlock(l: LockSettings)
  {
    && l.lockMicrophone != Some(false)
    && l.lockWebcam != Some(false)
    && l.lockScreenSharing != Some(false)
    && l.lockWhiteboard != Some(false)
    && l.lockSharedNotepad != Some(false)
    && l.lockChatSendMessage != Some(false)
    && l.lockPrivateChat != Some(false)
  }

  /** The room's metadata. `extraData` holds the serialized side-channel blob. */
  datatype RoomMetadata = RoomMetadata(
    roomTitle: string := "",
    welcomeMessage: Option<string> := None,
    logoutUrl: Option<string> := None,
    roomFeatures: RoomCreateFeatures := RoomCreateFeatures(),
    defaultLockSettings: Option<LockSettings> := None,
    extraData: Option<string> := None,
    startedAt: uint64 := 0)

  /** The "create room" request, which the defaulting utilities update in place. */
  class CreateRoomReq {
    var roomId: string
    var maxParticipants: Option<uint32>
    var emptyTimeout: Option<uint32>
    var metadata: RoomMetadata

    /** The struct literal `CreateRoomReq{RoomId: roomId, Metadata: metadata}`. */
    constructor (roomId: string, metadata: RoomMetadata)
      ensures this.roomId == roomId && this.metadata == metadata
      ensures maxParticipants == None && emptyTimeout == None
    {
      this.roomId := roomId;
      this.metadata := metadata;
      maxParticipants := None;
      emptyTimeout := None;
    }
  }

  datatype UserMetadata = UserMetadata(
    lockSettings: Option<LockSettings> := None,
    exUserId: Option<string> := None,
    profilePic: Option<string> := None)

  datatype UserInfo = UserInfo(
    name: string := "",
    isAdmin: bool := false,
    userMetadata: Option<UserMetadata> := None)

  /** The "generate access token" request. */
  datatype GenerateTokenReq = GenerateTokenReq(
    roomId: string := "",
    userInfo: Option<UserInfo> := None)
}
