/** The profile dialog: the avatar file check made before an upload, and
    saving the edited profile. Both write to the user store through
    updateProfile. */
module ProfileModal {
  import opened Wrappers
  import opened UserSlice

  /** What the dialog reads of a chosen file: its MIME type and its size
      in bytes. */
  datatype AvatarFile = AvatarFile(mimeType: string, size: nat)

  datatype UploadVerdict = Accepted | WrongType | TooLarge

  /** 2 MiB. */
  const AvatarLimit: nat := 2 * 1024 * 1024

  /** The decision of beforeUpload: the type test comes first, then
      `size / 1024 / 1024 < 2`. The quotient is exact here (dividing by
      powers of two), so the test is `size < 2 MiB`. */
  function CheckAvatar(f: AvatarFile): (v: UploadVerdict)
    ensures v == WrongType <==> f.mimeType != "image/jpeg" && f.mimeType != "image/png"
    ensures v == TooLarge <==> (f.mimeType == "image/jpeg" || f.mimeType == "image/png") && f.size >= AvatarLimit
    ensures v == Accepted <==> (f.mimeType == "image/jpeg" || f.mimeType == "image/png") && f.size < AvatarLimit
  {
    var isJpgOrPng := f.mimeType == "image/jpeg" || f.mimeType == "image/png";
    if !isJpgOrPng then WrongType
    else
      var isLt2M := f.size as real / 1024.0 / 1024.0 < 2.0;
      if !isLt2M then TooLarge else Accepted
  }

  class ProfileDialog {
    var isEditing: bool

    constructor ()
      ensures !isEditing
    {
      isEditing := false;
    }

    /** The edit button. */
    method StartEditing()
      modifies this
      ensures isEditing
    {
      isEditing := true;
    }

    /** beforeUpload: never lets the widget upload; an accepted file
        (read as the data URL `dataUrl`) becomes the avatar of the
        current user, a rejected one changes nothing. */
    method BeforeUpload(file: AvatarFile, dataUrl: string, store: UserStore) returns (upload: bool)
      modifies store
      ensures !upload
      ensures store.currentUser ==
        if CheckAvatar(file) == Accepted then Updated(old(store.currentUser), AvatarPatch(dataUrl))
        else old(store.currentUser)
      ensures store.isLoading == old(store.isLoading) && store.error == old(store.error)
    {
      var verdict := CheckAvatar(file);
      if verdict == WrongType {
        return false;
      }
      if verdict == TooLarge {
        return false;
      }
      store.UpdateProfile(AvatarPatch(dataUrl));
      return false;
    }

    /** handleSave: `validated` is what form validation yields (None when
        it fails). Valid values are dispatched to updateProfile and
        editing ends; on failure nothing is dispatched and editing goes
        on. */
    method HandleSave(validated: Option<ProfilePatch>, store: UserStore)
      modifies this, store
      ensures validated.Some? ==> store.currentUser == Updated(old(store.currentUser), validated.value) && !isEditing
      ensures validated.None? ==> store.currentUser == old(store.currentUser) && isEditing == old(isEditing)
      ensures store.isLoading == old(store.isLoading) && store.error == old(store.error)
    {
      match validated
      case None =>
      case Some(values) =>
        store.UpdateProfile(values);
        isEditing := false;
    }
  }
}
