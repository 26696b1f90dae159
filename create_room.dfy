/**
 * The room defaulting utilities: fill unset feature blocks, enforce server
 * policy, default three locks, and clamp quotas against the server's
 * configured caps. Each Go function updates the request in place through
 * its pointer; here each is a method that modifies the `CreateRoomReq`
 * object, specified by a function on the feature or lock record it rewrites.
 */
module Utils {
  import opened Optional
  import opened Wemeet

  // ---------------------------------------------------------------------
  // PrepareDefaultRoomFeatures
  // ---------------------------------------------------------------------

  const DefaultRecording := RecordingFeatures(isAllow := true, isAllowCloud := true, isAllowLocal := true)
  const DefaultChat := ChatFeatures()
  const DefaultSharedNotePad := SharedNotePadFeatures()
  const DefaultWhiteboard := WhiteboardFeatures(whiteboardFileId := "default", fileName := "default", totalPages := 10)
  const DefaultExternalMediaPlayer := ExternalMediaPlayerFeatures()
  const DefaultWaitingRoom := WaitingRoomFeatures()
  const DefaultBreakoutRoom := BreakoutRoomFeatures(allowedNumberRooms := 6)
  const DefaultDisplayExternalLink := DisplayExternalLinkFeatures()
  const DefaultIngress := IngressFeatures()
  const DefaultSpeechToText := SpeechToTextTranslationFeatures()
  const DefaultEndToEndEncryption := EndToEndEncryptionFeatures()

  /** `after` keeps a set block and replaces an unset one by `default`. */
  predicate FilledWith<T(==)>(before: Option<T>, after: Option<T>, default: T)
  {
    if before.Some? then after == before else after == Some(default)
  }

  /** Every feature block is set. */
  predicate AllBlocksPresent(f: RoomCreateFeatures)
  {
    && f.recordingFeatures.Some?
    && f.chatFeatures.Some?
    && f.sharedNotePadFeatures.Some?
    && f.whiteboardFeatures.Some?
    && f.externalMediaPlayerFeatures.Some?
    && f.waitingRoomFeatures.Some?
    && f.breakoutRoomFeatures.Some?
    && f.displayExternalLinkFeatures.Some?
    && f.ingressFeatures.Some?
    && f.speechToTextTranslationFeatures.Some?
    && f.endToEndEncryptionFeatures.Some?
    && f.pollsFeatures.Some?
  }

  /** `f` with every feature block forgotten: what the block defaults must not touch. */
  function WithoutBlocks(f: RoomCreateFeatures): RoomCreateFeatures
  {
    f.(recordingFeatures := None, chatFeatures := None, sharedNotePadFeatures := None,
       whiteboardFeatures := None, externalMediaPlayerFeatures := None, waitingRoomFeatures := None,
       breakoutRoomFeatures := None, displayExternalLinkFeatures := None, ingressFeatures := None,
       speechToTextTranslationFeatures := None, endToEndEncryptionFeatures := None, pollsFeatures := None)
  }

  function OrDefault<T>(block: Option<T>, default: T): Option<T>
  {
    if block.Some? then block else Some(default)
  }

  /** The feature record after PrepareDefaultRoomFeatures: unset blocks get their defaults. */
  function FillFeatureDefaults(f: RoomCreateFeatures): (g: RoomCreateFeatures)
    ensures WithoutBlocks(g) == WithoutBlocks(f)
    ensures FilledWith(f.recordingFeatures, g.recordingFeatures, DefaultRecording)
    ensures FilledWith(f.chatFeatures, g.chatFeatures, DefaultChat)
    ensures FilledWith(f.sharedNotePadFeatures, g.sharedNotePadFeatures, DefaultSharedNotePad)
    ensures FilledWith(f.whiteboardFeatures, g.whiteboardFeatures, DefaultWhiteboard)
    ensures FilledWith(f.externalMediaPlayerFeatures, g.externalMediaPlayerFeatures, DefaultExternalMediaPlayer)
    ensures FilledWith(f.waitingRoomFeatures, g.waitingRoomFeatures, DefaultWaitingRoom)
    ensures FilledWith(f.breakoutRoomFeatures, g.breakoutRoomFeatures, DefaultBreakoutRoom)
    ensures FilledWith(f.displayExternalLinkFeatures, g.displayExternalLinkFeatures, DefaultDisplayExternalLink)
    ensures FilledWith(f.ingressFeatures, g.ingressFeatures, DefaultIngress)
    ensures FilledWith(f.speechToTextTranslationFeatures, g.speechToTextTranslationFeatures, DefaultSpeechToText)
    ensures FilledWith(f.endToEndEncryptionFeatures, g.endToEndEncryptionFeatures, DefaultEndToEndEncryption)
    ensures FilledWith(f.pollsFeatures, g.pollsFeatures, PollsFeatures(isAllow := f.allowPolls))
  {
    var recording := OrDefault(f.recordingFeatures, DefaultRecording);
    var chat := OrDefault(f.chatFeatures, DefaultChat);
    var notepad := OrDefault(f.sharedNotePadFeatures, DefaultSharedNotePad);
    var board := OrDefault(f.whiteboardFeatures, DefaultWhiteboard);
    var media := OrDefault(f.externalMediaPlayerFeatures, DefaultExternalMediaPlayer);
    var waiting := OrDefault(f.waitingRoomFeatures, DefaultWaitingRoom);
    var breakout := OrDefault(f.breakoutRoomFeatures, DefaultBreakoutRoom);
    var links := OrDefault(f.displayExternalLinkFeatures, DefaultDisplayExternalLink);
    var ingress := OrDefault(f.ingressFeatures, DefaultIngress);
    var speech := OrDefault(f.speechToTextTranslationFeatures, DefaultSpeechToText);
    var e2ee := OrDefault(f.endToEndEncryptionFeatures, DefaultEndToEndEncryption);
    var polls := OrDefault(f.pollsFeatures, PollsFeatures(isAllow := f.allowPolls));
    f.(recordingFeatures := recording, chatFeatures := chat, sharedNotePadFeatures := notepad,
       whiteboardFeatures := board, externalMediaPlayerFeatures := media, waitingRoomFeatures := waiting,
       breakoutRoomFeatures := breakout, displayExternalLinkFeatures := links, ingressFeatures := ingress,
       speechToTextTranslationFeatures := speech, endToEndEncryptionFeatures := e2ee, pollsFeatures := polls)
  }

  /** A record whose blocks are all set is a fixed point of the block defaults. */
  lemma FillFeatureDefaultsFixesComplete(f: RoomCreateFeatures)
    requires AllBlocksPresent(f)
    ensures FillFeatureDefaults(f) == f
  {
  }

  /** The block defaults are idempotent. */
  lemma FillFeatureDefaultsIdempotent(f: RoomCreateFeatures)
    ensures FillFeatureDefaults(FillFeatureDefaults(f)) == FillFeatureDefaults(f)
  {
    FillFeatureDefaultsFixesComplete(FillFeatureDefaults(f));
  }

  /** The metadata after PrepareDefaultRoomFeatures run at Unix time `now`. */
  function PreparedMetadata(m: RoomMetadata, now: uint64): (p: RoomMetadata)
    ensures p.roomFeatures == FillFeatureDefaults(m.roomFeatures)
    ensures FilledWith(m.defaultLockSettings, p.defaultLockSettings, LockSettings())
    ensures p.startedAt == now
    ensures p.(roomFeatures := m.roomFeatures, defaultLockSettings := m.defaultLockSettings, startedAt := m.startedAt) == m
  {
    m.(roomFeatures := FillFeatureDefaults(m.roomFeatures),
       defaultLockSettings := OrDefault(m.defaultLockSettings, LockSettings()),
       startedAt := now)
  }

  /** Preparing twice is preparing once, up to the start timestamp, which the last run sets. */
  lemma PreparedMetadataIdempotent(m: RoomMetadata, now: uint64, later: uint64)
    ensures PreparedMetadata(PreparedMetadata(m, now), later) == PreparedMetadata(m, later)
  {
    FillFeatureDefaultsIdempotent(m.roomFeatures);
  }

  // The Go code is a chain of conditional writes into the request; here each
  // block is computed with OrDefault and written once, because proving the
  // whole-record postcondition over a chain of 24-field updates is too costly
  // for the verifier.
  method PrepareDefaultRoomFeatures(r: CreateRoomReq, now: uint64)
    modifies r
    ensures r.metadata == PreparedMetadata(old(r.metadata), now)
    ensures r.roomId == old(r.roomId) && r.maxParticipants == old(r.maxParticipants)
    ensures r.emptyTimeout == old(r.emptyTimeout)
  {
    var rf := r.metadata.roomFeatures;
    var recording := OrDefault(rf.recordingFeatures, DefaultRecording);
    var chat := OrDefault(rf.chatFeatures, DefaultChat);
    var notepad := OrDefault(rf.sharedNotePadFeatures, DefaultSharedNotePad);
    var board := OrDefault(rf.whiteboardFeatures, DefaultWhiteboard);
    var media := OrDefault(rf.externalMediaPlayerFeatures, DefaultExternalMediaPlayer);
    var waiting := OrDefault(rf.waitingRoomFeatures, DefaultWaitingRoom);
    var breakout := OrDefault(rf.breakoutRoomFeatures, DefaultBreakoutRoom);
    var links := OrDefault(rf.displayExternalLinkFeatures, DefaultDisplayExternalLink);
    var ingress := OrDefault(rf.ingressFeatures, DefaultIngress);
    var speech := OrDefault(rf.speechToTextTranslationFeatures, DefaultSpeechToText);
    var e2ee := OrDefault(rf.endToEndEncryptionFeatures, DefaultEndToEndEncryption);
    var polls := OrDefault(rf.pollsFeatures, PollsFeatures(isAllow := rf.allowPolls));
    rf := rf.(recordingFeatures := recording, chatFeatures := chat, sharedNotePadFeatures := notepad,
              whiteboardFeatures := board, externalMediaPlayerFeatures := media, waitingRoomFeatures := waiting,
              breakoutRoomFeatures := breakout, displayExternalLinkFeatures := links, ingressFeatures := ingress,
              speechToTextTranslationFeatures := speech, endToEndEncryptionFeatures := e2ee, pollsFeatures := polls);

    var locks := r.metadata.defaultLockSettings;
    if locks.None? {
      locks := Some(LockSettings());
    }
    r.metadata := r.metadata.(defaultLockSettings := locks, startedAt := now, roomFeatures := rf);
  }

  /** Preparing a room sets every block, so the server policy's blocks are there to rewrite. */
  lemma PreparedHasPolicyBlocks(m: RoomMetadata, now: uint64)
    ensures PolicyBlocksPresent(PreparedMetadata(m, now).roomFeatures)
  {
  }

  // ---------------------------------------------------------------------
  // SetCreateRoomDefaultValues
  // ---------------------------------------------------------------------

  /** The blocks that SetCreateRoomDefaultValues dereferences without a nil check. */
  predicate PolicyBlocksPresent(f: RoomCreateFeatures)
  {
    && f.sharedNotePadFeatures.Some?
    && f.chatFeatures.Some?
    && f.whiteboardFeatures.Some?
    && f.breakoutRoomFeatures.Some?
    && f.endToEndEncryptionFeatures.Some?
  }

  /** `f` without the fields that server policy may rewrite. */
  function WithoutPolicyFields(f: RoomCreateFeatures): RoomCreateFeatures
  {
    f.(autoGenUserId := None, sharedNotePadFeatures := None, chatFeatures := None,
       whiteboardFeatures := None, breakoutRoomFeatures := None, endToEndEncryptionFeatures := None)
  }

  /** Whiteboard upload limit used when the configured one is below 1. */
  const DefaultWhiteboardFileSize: uint64 := 30
  /** Breakout room count used when breakout rooms are allowed with none configured. */
  const DefaultBreakoutRooms: uint32 := 6

  /** The notepad under server policy: never switched on, kept allowed only when the server allows it. */
  function NotepadPolicy(n: SharedNotePadFeatures, allowedNotepad: bool): (m: SharedNotePadFeatures)
    ensures m.allowedSharedNotePad == (n.allowedSharedNotePad && allowedNotepad)
    ensures m.(allowedSharedNotePad := n.allowedSharedNotePad) == n
  {
    if n.allowedSharedNotePad && !allowedNotepad then n.(allowedSharedNotePad := false) else n
  }

  /**
   * Chat under server policy: with upload allowed it gets the size limit,
   * and the server's file types only when it lists none; otherwise unchanged.
   */
  function ChatPolicy(c: ChatFeatures, maxSize: uint64, allowedTypes: seq<string>): (d: ChatFeatures)
    ensures !c.allowFileUpload ==> d == c
    ensures c.allowFileUpload ==> d.maxFileSize == Some(maxSize)
    ensures c.allowFileUpload && |c.allowedFileTypes| == 0 ==> d.allowedFileTypes == allowedTypes
    ensures |c.allowedFileTypes| > 0 ==> d.allowedFileTypes == c.allowedFileTypes
    ensures d.allowChat == c.allowChat && d.allowFileUpload == c.allowFileUpload
  {
    if c.allowFileUpload then
      var types := if |c.allowedFileTypes| == 0 then allowedTypes else c.allowedFileTypes;
      c.(allowedFileTypes := types, maxFileSize := Some(maxSize))
    else c
  }

  /** An allowed whiteboard gets an upload limit of at least 1, 30 when the configured one is below 1. */
  function WhiteboardPolicy(w: WhiteboardFeatures, maxSizeWhiteboardFile: uint64): (v: WhiteboardFeatures)
    ensures !w.allowedWhiteboard ==> v == w
    ensures w.allowedWhiteboard ==> v.maxAllowedFileSize.Some? && v.maxAllowedFileSize.value >= 1
    ensures w.allowedWhiteboard && maxSizeWhiteboardFile >= 1 ==> v.maxAllowedFileSize == Some(maxSizeWhiteboardFile)
    ensures w.allowedWhiteboard && maxSizeWhiteboardFile < 1 ==> v.maxAllowedFileSize == Some(DefaultWhiteboardFileSize)
    ensures v.(maxAllowedFileSize := w.maxAllowedFileSize) == w
  {
    if w.allowedWhiteboard then
      var size := if maxSizeWhiteboardFile < 1 then DefaultWhiteboardFileSize else maxSizeWhiteboardFile;
      w.(maxAllowedFileSize := Some(size))
    else w
  }

  /** Allowed breakout rooms with a count of 0 get 6; any other block is unchanged. */
  function BreakoutPolicy(b: BreakoutRoomFeatures): (c: BreakoutRoomFeatures)
    ensures c.isAllow ==> c.allowedNumberRooms > 0
    ensures !b.isAllow || b.allowedNumberRooms > 0 ==> c == b
    ensures b.isAllow && b.allowedNumberRooms == 0 ==> c.allowedNumberRooms == DefaultBreakoutRooms
    ensures c.(allowedNumberRooms := b.allowedNumberRooms) == b
  {
    if b.isAllow && b.allowedNumberRooms == 0 then b.(allowedNumberRooms := DefaultBreakoutRooms) else b
  }

  /** A generated key is installed exactly when encryption is on and the caller does not insert its own. */
  function EncryptionKeyPolicy(e: EndToEndEncryptionFeatures, key: string): (d: EndToEndEncryptionFeatures)
    ensures e.isEnabled && !e.enabledSelfInsertEncryptionKey ==> d.encryptionKey == Some(key)
    ensures !(e.isEnabled && !e.enabledSelfInsertEncryptionKey) ==> d == e
    ensures d.(encryptionKey := e.encryptionKey) == e
  {
    if e.isEnabled && !e.enabledSelfInsertEncryptionKey then e.(encryptionKey := Some(key)) else e
  }

  /**
   * The feature record after SetCreateRoomDefaultValues, given the server's
   * chat upload size, whiteboard upload size, allowed chat file types and
   * notepad permission, and `key`, the random string the key generator
   * would return: each policy block rewritten by its rule, a missing
   * auto-generated-user-id switch made an explicit false, nothing else touched.
   */
  function ApplyServerPolicy(
    f: RoomCreateFeatures, maxSize: uint64, maxSizeWhiteboardFile: uint64,
    allowedTypes: seq<string>, allowedNotepad: bool, key: string): (g: RoomCreateFeatures)
    requires PolicyBlocksPresent(f)
    ensures WithoutPolicyFields(g) == WithoutPolicyFields(f)
    ensures g.autoGenUserId == if f.autoGenUserId.None? then Some(false) else f.autoGenUserId
    ensures g.sharedNotePadFeatures == Some(NotepadPolicy(f.sharedNotePadFeatures.value, allowedNotepad))
    ensures g.chatFeatures == Some(ChatPolicy(f.chatFeatures.value, maxSize, allowedTypes))
    ensures g.whiteboardFeatures == Some(WhiteboardPolicy(f.whiteboardFeatures.value, maxSizeWhiteboardFile))
    ensures g.breakoutRoomFeatures == Some(BreakoutPolicy(f.breakoutRoomFeatures.value))
    ensures g.endToEndEncryptionFeatures == Some(EncryptionKeyPolicy(f.endToEndEncryptionFeatures.value, key))
  {
    var autoGenUserId := if f.autoGenUserId.None? then Some(false) else f.autoGenUserId;
    var notepad := NotepadPolicy(f.sharedNotePadFeatures.value, allowedNotepad);
    var chat := ChatPolicy(f.chatFeatures.value, maxSize, allowedTypes);
    var board := WhiteboardPolicy(f.whiteboardFeatures.value, maxSizeWhiteboardFile);
    var breakout := BreakoutPolicy(f.breakoutRoomFeatures.value);
    var e2ee := EncryptionKeyPolicy(f.endToEndEncryptionFeatures.value, key);
    f.(autoGenUserId := autoGenUserId, sharedNotePadFeatures := Some(notepad), chatFeatures := Some(chat),
       whiteboardFeatures := Some(board), breakoutRoomFeatures := Some(breakout),
       endToEndEncryptionFeatures := Some(e2ee))
  }

  /** Applying the same server policy twice is applying it once. */
  lemma ApplyServerPolicyIdempotent(
    f: RoomCreateFeatures, maxSize: uint64, maxSizeWhiteboardFile: uint64,
    allowedTypes: seq<string>, allowedNotepad: bool, key: string)
    requires PolicyBlocksPresent(f)
    ensures var once := ApplyServerPolicy(f, maxSize, maxSizeWhiteboardFile, allowedTypes, allowedNotepad, key);
      && PolicyBlocksPresent(once)
      && ApplyServerPolicy(once, maxSize, maxSizeWhiteboardFile, allowedTypes, allowedNotepad, key) == once
  {
  }

  /**
   * Enforces server policy on the request's features. `key` stands for the
   * 32-character string that the secure generator, or on its failure the
   * fallback generator, returns; nothing is assumed about it. As in
   * PrepareDefaultRoomFeatures, each block is computed by its rule function
   * and the record is updated once, in place of the Go code's chain of
   * conditional writes, to keep the proof within the verifier's limits.
   */
  method SetCreateRoomDefaultValues(
    r: CreateRoomReq, maxSize: uint64, maxSizeWhiteboardFile: uint64,
    allowedTypes: seq<string>, allowedNotepad: bool, key: string)
    requires PolicyBlocksPresent(r.metadata.roomFeatures)
    modifies r
    ensures r.metadata == old(r.metadata).(roomFeatures :=
      ApplyServerPolicy(old(r.metadata.roomFeatures), maxSize, maxSizeWhiteboardFile, allowedTypes, allowedNotepad, key))
    ensures r.roomId == old(r.roomId) && r.maxParticipants == old(r.maxParticipants)
    ensures r.emptyTimeout == old(r.emptyTimeout)
  {
    var rf := r.metadata.roomFeatures;

    var autoGenUserId := rf.autoGenUserId;
    if autoGenUserId.None? {
      autoGenUserId := Some(false);
    }
    var notepad := NotepadPolicy(rf.sharedNotePadFeatures.value, allowedNotepad);
    var chat := ChatPolicy(rf.chatFeatures.value, maxSize, allowedTypes);
    var board := WhiteboardPolicy(rf.whiteboardFeatures.value, maxSizeWhiteboardFile);
    var breakout := BreakoutPolicy(rf.breakoutRoomFeatures.value);
    var e2ee := EncryptionKeyPolicy(rf.endToEndEncryptionFeatures.value, key);
    rf := rf.(autoGenUserId := autoGenUserId, sharedNotePadFeatures := Some(notepad), chatFeatures := Some(chat),
              whiteboardFeatures := Some(board), breakoutRoomFeatures := Some(breakout),
              endToEndEncryptionFeatures := Some(e2ee));
    r.metadata := r.metadata.(roomFeatures := rf);
  }

  // ---------------------------------------------------------------------
  // SetRoomDefaultLockSettings
  // ---------------------------------------------------------------------

  /** The lock record after SetRoomDefaultLockSettings. */
  function FillDefaultLocks(l: LockSettings): (g: LockSettings)
    // each of the three defaulted locks is kept when set and becomes true when unset
    ensures g.lockScreenSharing == if l.lockScreenSharing.None? then Some(true) else l.lockScreenSharing
    ensures g.lockWhiteboard == if l.lockWhiteboard.None? then Some(true) else l.lockWhiteboard
    ensures g.lockSharedNotepad == if l.lockSharedNotepad.None? then Some(true) else l.lockSharedNotepad
    // no other lock is touched
    ensures g.(lockScreenSharing := None, lockWhiteboard := None, lockSharedNotepad := None)
         == l.(lockScreenSharing := None, lockWhiteboard := None, lockSharedNotepad := None)
    // an explicit false survives, and no explicit false is introduced
    ensures NoExplicitUnlock(g) <==> NoExplicitUnlock(l)
  {
    l.(lockScreenSharing := if l.lockScreenSharing.None? then Some(true) else l.lockScreenSharing,
       lockWhiteboard := if l.lockWhiteboard.None? then Some(true) else l.lockWhiteboard,
       lockSharedNotepad := if l.lockSharedNotepad.None? then Some(true) else l.lockSharedNotepad)
  }

  /** The lock defaults are idempotent. */
  lemma FillDefaultLocksIdempotent(l: LockSettings)
    ensures FillDefaultLocks(FillDefaultLocks(l)) == FillDefaultLocks(l)
  {
  }

  method SetRoomDefaultLockSettings(r: CreateRoomReq)
    requires r.metadata.defaultLockSettings.Some?
    modifies r
    ensures r.metadata == old(r.metadata).(defaultLockSettings := Some(FillDefaultLocks(old(r.metadata.defaultLockSettings.value))))
    ensures r.roomId == old(r.roomId) && r.maxParticipants == old(r.maxParticipants)
    ensures r.emptyTimeout == old(r.emptyTimeout)
  {
    var locks := r.metadata.defaultLockSettings.value;
    if locks.lockScreenSharing.None? {
      locks := locks.(lockScreenSharing := Some(true));
    }
    if locks.lockWhiteboard.None? {
      locks := locks.(lockWhiteboard := Some(true));
    }
    if locks.lockSharedNotepad.None? {
      locks := locks.(lockSharedNotepad := Some(true));
    }
    r.metadata := r.metadata.(defaultLockSettings := Some(locks));
  }

  // ---------------------------------------------------------------------
  // RoomDefaultSettings and SetDefaultRoomSettings
  // ---------------------------------------------------------------------

  /** Server-wide caps, loaded from configuration; `None` means "no cap configured". */
  class RoomDefaultSettings {
    var maxParticipants: Option<uint32>
    var maxDuration: Option<uint64>
    var maxNumBreakoutRooms: Option<uint32>

    constructor (maxParticipants: Option<uint32>, maxDuration: Option<uint64>, maxNumBreakoutRooms: Option<uint32>)
      ensures this.maxParticipants == maxParticipants && this.maxDuration == maxDuration
      ensures this.maxNumBreakoutRooms == maxNumBreakoutRooms
    {
      this.maxParticipants := maxParticipants;
      this.maxDuration := maxDuration;
      this.maxNumBreakoutRooms := maxNumBreakoutRooms;
    }
  }

  /** A requested quota checked against a positive cap: unset, zero or too large becomes the cap. */
  function ClampToCap(requested: Option<nat>, cap: nat): (r: Option<nat>)
    requires cap > 0
    ensures r.Some? && 0 < r.value <= cap
    ensures requested.Some? && 0 < requested.value <= cap ==> r == requested
    ensures !(requested.Some? && 0 < requested.value <= cap) ==> r == Some(cap)
  {
    if requested.Some? then
      if requested.value == 0 || requested.value > cap then Some(cap) else requested
    else Some(cap)
  }

  /** Clamping to the same cap twice is clamping once. */
  lemma ClampToCapIdempotent(requested: Option<nat>, cap: nat)
    requires cap > 0
    ensures ClampToCap(ClampToCap(requested, cap), cap) == ClampToCap(requested, cap)
  {
  }

  /** A quota under an optional cap: only a configured positive cap applies. */
  function CapIfConfigured(requested: Option<nat>, cap: Option<nat>): (r: Option<nat>)
    ensures cap.Some? && cap.value > 0 ==> r.Some? && 0 < r.value <= cap.value
    ensures cap.Some? && cap.value > 0 && requested.Some? && 0 < requested.value <= cap.value ==> r == requested
    ensures !(cap.Some? && cap.value > 0) ==> r == requested
  {
    if cap.Some? && cap.value > 0 then ClampToCap(requested, cap.value) else requested
  }

  const MinEmptyTimeout: uint32 := 120
  const DefaultEmptyTimeout: uint32 := 1800

  /** The empty-room timeout: unset or below 120 seconds becomes 1800 seconds. */
  function EmptyTimeoutOrDefault(timeout: Option<nat>): (r: Option<nat>)
    ensures r.Some? && r.value >= MinEmptyTimeout
    ensures timeout.Some? && timeout.value >= MinEmptyTimeout ==> r == timeout
    ensures !(timeout.Some? && timeout.value >= MinEmptyTimeout) ==> r == Some(DefaultEmptyTimeout)
  {
    if timeout.None? || timeout.value < MinEmptyTimeout then Some(DefaultEmptyTimeout) else timeout
  }

  /** The breakout room ceiling the code is meant to enforce. */
  const MaxBreakoutRooms: uint32 := 16

  /**
   * The breakout cap as SetDefaultRoomSettings computes it: 16 when no cap
   * is configured or when the configured PARTICIPANT cap exceeds 16,
   * otherwise the configured breakout cap, however large. The participant
   * cap is read without a nil check whenever a breakout cap is configured.
   */
  function EffectiveBreakoutCap(maxParticipants: Option<nat>, maxNumBreakoutRooms: Option<nat>): (cap: nat)
    requires maxNumBreakoutRooms.Some? ==> maxParticipants.Some?
    ensures maxNumBreakoutRooms.None? || maxParticipants.value > MaxBreakoutRooms ==> cap == MaxBreakoutRooms
    ensures maxNumBreakoutRooms.Some? && maxParticipants.value <= MaxBreakoutRooms ==> cap == maxNumBreakoutRooms.value
  {
    if maxNumBreakoutRooms.None? then MaxBreakoutRooms
    else if maxParticipants.value > MaxBreakoutRooms then MaxBreakoutRooms
    else maxNumBreakoutRooms.value
  }

  /** The breakout cap with the comparison on the breakout cap itself, as the 16-room comment intends. */
  function IntendedBreakoutCap(maxNumBreakoutRooms: Option<nat>): (cap: nat)
    ensures cap <= MaxBreakoutRooms
    ensures maxNumBreakoutRooms.Some? && maxNumBreakoutRooms.value <= MaxBreakoutRooms ==> cap == maxNumBreakoutRooms.value
    ensures maxNumBreakoutRooms.Some? && maxNumBreakoutRooms.value > MaxBreakoutRooms ==> cap == MaxBreakoutRooms
    ensures maxNumBreakoutRooms.None? ==> cap == MaxBreakoutRooms
  {
    if maxNumBreakoutRooms.None? || maxNumBreakoutRooms.value > MaxBreakoutRooms then MaxBreakoutRooms
    else maxNumBreakoutRooms.value
  }

  /** A breakout room count lowered to `cap` when it exceeds it. */
  function ClampRooms(rooms: nat, cap: nat): (r: nat)
    ensures r <= cap && r <= rooms
    ensures r == rooms || r == cap
  {
    if rooms > cap then cap else rooms
  }

  /** With the intended cap, no request ends with more than 16 breakout rooms. */
  lemma IntendedClampAtMostSixteen(rooms: nat, maxNumBreakoutRooms: Option<nat>)
    ensures ClampRooms(rooms, IntendedBreakoutCap(maxNumBreakoutRooms)) <= MaxBreakoutRooms
  {
  }

  /**
   * As written, a server with a participant cap of 10 and a breakout cap
   * of 100 lets a request keep 50 breakout rooms.
   */
  lemma BreakoutClampExceedsSixteen()
    ensures ClampRooms(50, EffectiveBreakoutCap(Some(10), Some(100))) == 50
  {
  }

  /**
   * Clamps the request's quotas against the server caps `s`, when there are
   * any. `s.maxNumBreakoutRooms` is overwritten in place with the effective
   * breakout cap.
   */
  method SetDefaultRoomSettings(s: RoomDefaultSettings?, r: CreateRoomReq)
    requires s != null ==> r.metadata.roomFeatures.breakoutRoomFeatures.Some?
    requires s != null && s.maxNumBreakoutRooms.Some? ==> s.maxParticipants.Some?
    modifies s, r
    ensures s == null ==> unchanged(r)
    ensures s != null ==>
      && r.maxParticipants == CapIfConfigured(old(r.maxParticipants), old(s.maxParticipants))
      && r.emptyTimeout == EmptyTimeoutOrDefault(old(r.emptyTimeout))
      && s.maxNumBreakoutRooms == Some(EffectiveBreakoutCap(old(s.maxParticipants), old(s.maxNumBreakoutRooms)))
      && s.maxParticipants == old(s.maxParticipants) && s.maxDuration == old(s.maxDuration)
      && r.roomId == old(r.roomId)
    ensures s != null ==>
      var before := old(r.metadata.roomFeatures);
      var breakout := before.breakoutRoomFeatures.value;
      r.metadata == old(r.metadata).(roomFeatures := before.(
        roomDuration := CapIfConfigured(before.roomDuration, old(s.maxDuration)),
        breakoutRoomFeatures := Some(breakout.(allowedNumberRooms :=
          ClampRooms(breakout.allowedNumberRooms,
            EffectiveBreakoutCap(old(s.maxParticipants), old(s.maxNumBreakoutRooms)))))))
  {
    if s == null {
      return;
    }

    r.maxParticipants := CapIfConfigured(r.maxParticipants, s.maxParticipants);

    var rf := r.metadata.roomFeatures;
    var duration := CapIfConfigured(rf.roomDuration, s.maxDuration);

    r.emptyTimeout := EmptyTimeoutOrDefault(r.emptyTimeout);

    s.maxNumBreakoutRooms := Some(EffectiveBreakoutCap(s.maxParticipants, s.maxNumBreakoutRooms));

    var breakout := rf.breakoutRoomFeatures.value;
    breakout := breakout.(allowedNumberRooms := ClampRooms(breakout.allowedNumberRooms, s.maxNumBreakoutRooms.value));
    r.metadata := r.metadata.(roomFeatures := rf.(roomDuration := duration, breakoutRoomFeatures := Some(breakout)));
  }

  /**
   * As written, one call on a configuration with no caps stores the
   * 16-room breakout cap into it while leaving the participant cap unset,
   * so the configuration no longer meets the precondition a second call
   * needs: that call would read the missing participant cap.
   */
  method FirstCallBreaksReuse(r: CreateRoomReq) returns (s: RoomDefaultSettings)
    requires r.metadata.roomFeatures.breakoutRoomFeatures.Some?
    modifies r
    ensures s.maxNumBreakoutRooms == Some(MaxBreakoutRooms) && s.maxParticipants.None?
    ensures !(s.maxNumBreakoutRooms.Some? ==> s.maxParticipants.Some?)
  {
    s := new RoomDefaultSettings(None, None, None);
    SetDefaultRoomSettings(s, r);
  }

  /**
   * The intended breakout cap never reads the participant cap, and storing
   * it back into the configuration is stable: a later call computes the
   * same cap.
   */
  lemma IntendedCapReusable(maxNumBreakoutRooms: Option<nat>)
    ensures IntendedBreakoutCap(Some(IntendedBreakoutCap(maxNumBreakoutRooms))) == IntendedBreakoutCap(maxNumBreakoutRooms)
  {
  }
}
