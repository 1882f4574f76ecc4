/** The avatar part of the settings page: the checks a chosen file must
    pass before it is uploaded, and what the upload's reply does to the
    session and the preview. The upload itself is an input. */
module Settings {
  import opened Wrappers
  import opened Text
  import opened JsValues
  import opened Types
  import Session

  /** The chosen file's MIME type and size in bytes. */
  datatype FileInfo = FileInfo(mimeType: string, size: int)

  const MaxAvatarBytes: int := 5 * 1024 * 1024
  const NotAnImage: string := "Please select an image file"
  const TooLarge: string := "Image size should be less than 5MB"

  /** What choosing a file leads to. */
  datatype Choice = NoFile | Refused(message: string) | Upload(file: FileInfo)

  /** The guards of `handleAvatarChange`: no file does nothing; a file
      that is not an image is refused before its size is looked at; a file
      over 5 MiB is refused. */
  function CheckAvatar(file: Option<FileInfo>): (c: Choice)
    ensures c.NoFile? <==> file.None?
    ensures c.Upload? <==> file.Some? && StartsWith(file.value.mimeType, "image/") && file.value.size <= MaxAvatarBytes
    ensures c.Upload? ==> c.file == file.value
    ensures file.Some? && !StartsWith(file.value.mimeType, "image/") ==> c == Refused(NotAnImage)
    ensures c.Refused? && c.message == TooLarge ==> file.value.size > MaxAvatarBytes
  {
    match file
    case None => NoFile
    case Some(f) =>
      if !StartsWith(f.mimeType, "image/") then Refused(NotAnImage)
      else if f.size > MaxAvatarBytes then Refused(TooLarge)
      else Upload(f)
  }

  /** The size limit is inclusive: exactly 5 MiB is uploaded, one byte
      more is refused. */
  lemma SizeBoundary(mimeType: string)
    requires StartsWith(mimeType, "image/")
    ensures CheckAvatar(Some(FileInfo(mimeType, 5242880))).Upload?
    ensures CheckAvatar(Some(FileInfo(mimeType, 5242881))) == Refused(TooLarge)
  {
  }

  /** The user id sent with the upload: `user?.id?.toString() || ''`. */
  function UploadUserId(user: Option<User>): (r: string)
    ensures user.None? <==> r == ""
    ensures user.Some? ==> r == IntToString(user.value.id) && ParseIntPrefix(r) == Some(user.value.id)
  {
    match user
    case None => ""
    case Some(u) => ParseIntOfIntToString(u.id); IntToString(u.id)
  }

  /** The page's avatar state: the session, the preview shown while the
      upload runs, whether an upload is in progress, and the last error
      notice. */
  datatype AvatarState = AvatarState(session: Session.State, preview: Option<string>, uploading: bool, notice: Option<string>)

  /** The upload's reply: `success`, `data` and `message`, or a thrown
      error. */
  datatype UploadReply = UploadReply(success: bool, data: Json, message: Json)

  /** After the upload: on success a returned `avatar_url` becomes the
      user's avatar and the preview is cleared; on failure the error is
      shown and the avatar and preview stay as they were. The upload is
      over either way. */
  function AfterUpload(st: AvatarState, reply: Outcome<UploadReply>, backEndUrl: Option<string>): (r: AvatarState)
    ensures !r.uploading
    ensures reply.Returned? && reply.value.success ==> r.preview.None? && r.notice == st.notice
    ensures reply.Returned? && reply.value.success && Truthy(Get(reply.value.data, "avatar_url")) ==>
      r.session == Session.UpdateUserAvatar(st.session, ToStr(Get(reply.value.data, "avatar_url")), backEndUrl)
    ensures !(reply.Returned? && reply.value.success && Truthy(Get(reply.value.data, "avatar_url"))) ==> r.session == st.session
    ensures !(reply.Returned? && reply.value.success) ==> r.preview == st.preview && r.notice.Some?
  {
    match reply
    case Threw(_) => st.(uploading := false, notice := Some("Failed to upload avatar. Please try again."))
    case Returned(rep) =>
      if rep.success then
        var avatar := Get(rep.data, "avatar_url");
        var session := if Truthy(avatar) then Session.UpdateUserAvatar(st.session, ToStr(avatar), backEndUrl) else st.session;
        st.(session := session, preview := None, uploading := false)
      else
        st.(uploading := false, notice := Some("Failed to upload avatar: " + ToStr(rep.message)))
  }

  /** A successful upload for a signed-in user leaves memory and storage
      agreeing on the new avatar, so it survives a reload. */
  lemma UploadedAvatarPersists(st: AvatarState, reply: Outcome<UploadReply>, backEndUrl: Option<string>)
    requires Session.Persisted(st.session)
    ensures Session.Persisted(AfterUpload(st, reply, backEndUrl).session)
  {
    if reply.Returned? && reply.value.success && Truthy(Get(reply.value.data, "avatar_url")) {
      Session.UpdateUserAvatarPersists(st.session, ToStr(Get(reply.value.data, "avatar_url")), backEndUrl);
    }
  }
}
