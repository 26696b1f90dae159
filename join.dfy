/** Translation of a legacy conferencing-API "join" call into a token request. */
module BbbJoin {
  import opened Optional
  import opened Wemeet

  /** The legacy "join" query; every parameter absent from the query is the empty string. */
  datatype JoinMeetingReq = JoinMeetingReq(
    fullName: string := "",
    meetingId: string := "",
    password: string := "",
    role: string := "",
    userId: string := "",
    avatarUrl: string := "",
    redirect: string := "")

  /**
   * ConvertJoinRequest, with `isAdmin` decided by the caller and
   * `normalize` the meeting-id normalisation.
   */
  function ConvertJoinRequest(r: JoinMeetingReq, isAdmin: bool, normalize: string -> string): (req: GenerateTokenReq)
    ensures req.roomId == normalize(r.meetingId)
    ensures req.userInfo.Some? && req.userInfo.value.userMetadata.Some?
    ensures req.userInfo.value.name == r.fullName && req.userInfo.value.isAdmin == isAdmin
    // the external user id is always passed on, even when empty
    ensures req.userInfo.value.userMetadata.value.exUserId == Some(r.userId)
    // an empty lock record: no lock is specified
    ensures req.userInfo.value.userMetadata.value.lockSettings == Some(LockSettings())
    ensures var locks := req.userInfo.value.userMetadata.value.lockSettings.value;
      && locks.lockMicrophone.None? && locks.lockWebcam.None? && locks.lockScreenSharing.None?
      && locks.lockWhiteboard.None? && locks.lockSharedNotepad.None?
      && locks.lockChatSendMessage.None? && locks.lockPrivateChat.None?
    // a profile picture exactly when an avatar URL was given
    ensures req.userInfo.value.userMetadata.value.profilePic.Some? <==> r.avatarUrl != ""
    ensures req.userInfo.value.userMetadata.value.profilePic.Some? ==>
      req.userInfo.value.userMetadata.value.profilePic.value == r.avatarUrl
  {
    var userMetadata := UserMetadata(lockSettings := Some(LockSettings()), exUserId := Some(r.userId));
    var withPicture := if r.avatarUrl != "" then userMetadata.(profilePic := Some(r.avatarUrl)) else userMetadata;
    GenerateTokenReq(
      roomId := normalize(r.meetingId),
      userInfo := Some(UserInfo(name := r.fullName, isAdmin := isAdmin, userMetadata := Some(withPicture))))
  }

  /** The password, role and redirect parameters have no effect on the token request. */
  lemma JoinIgnoresCredentials(r: JoinMeetingReq, s: JoinMeetingReq, isAdmin: bool, normalize: string -> string)
    requires r.(password := "", role := "", redirect := "") == s.(password := "", role := "", redirect := "")
    ensures ConvertJoinRequest(r, isAdmin, normalize) == ConvertJoinRequest(s, isAdmin, normalize)
  {
    assert r.fullName == s.fullName && r.meetingId == s.meetingId;
    assert r.userId == s.userId && r.avatarUrl == s.avatarUrl;
  }
}
