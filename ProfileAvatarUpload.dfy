// The avatar picker of apps/web/src/components/profile/ProfileAvatarUpload.tsx:
// the initials shown without a picture, the checks a chosen file must pass, and
// what happens to the preview, the file input and the signed-in user across an
// upload. The file reader and the upload are parameters: the reader's data URL
// is taken to arrive before the upload's reply, and the reply is passed in.

module ProfileAvatarUpload {
  import opened Wrappers
  import opened Text

  /** `name?.charAt(0)?.toUpperCase() || ''`. */
  function Initial(name: Option<string>): (r: string)
    ensures Truthy(name) ==> r == [Upper(name.value[0])]
    ensures !Truthy(name) ==> r == ""
  {
    if Truthy(name) then [Upper(name.value[0])] else ""
  }

  /** `first + last || 'U'`. */
  function Initials(firstName: Option<string>, lastName: Option<string>): (r: string)
    ensures !Truthy(firstName) && !Truthy(lastName) ==> r == "U"
    ensures Truthy(firstName) || Truthy(lastName) ==> r == Initial(firstName) + Initial(lastName)
  {
    var both := Initial(firstName) + Initial(lastName);
    if both == "" then "U" else both
  }

  /** Initials are one or two characters, or "U"; each present name gives one. */
  lemma {:induction false} InitialsShape(firstName: Option<string>, lastName: Option<string>)
    ensures 1 <= |Initials(firstName, lastName)| <= 2
    ensures |Initials(firstName, lastName)| == 2 <==> Truthy(firstName) && Truthy(lastName)
    ensures Truthy(firstName) ==> Initials(firstName, lastName)[0] == Upper(firstName.value[0])
    ensures !Truthy(firstName) && Truthy(lastName) ==> Initials(firstName, lastName) == [Upper(lastName.value[0])]
  {
  }

  const AllowedTypes: seq<string> := ["image/jpeg", "image/jpg", "image/png", "image/gif", "image/webp"]

  const MaxSize := 5 * 1024 * 1024

  const BadTypeMessage := "Invalid file type. Please upload a JPEG, PNG, GIF, or WebP image."
  const TooLargeMessage := "File size exceeds 5MB. Please choose a smaller image."
  const UploadFailedMessage := "Failed to upload image. Please try again."
  const UpdatedMessage := "Profile image updated successfully!"

  datatype ChosenFile = ChosenFile(mimeType: string, size: int)

  /** The type check first, then the size check; `None` when the file may be sent. */
  function Rejection(f: ChosenFile): (msg: Option<string>)
    ensures f.mimeType !in AllowedTypes ==> msg == Some(BadTypeMessage)
    ensures f.mimeType in AllowedTypes && f.size > MaxSize ==> msg == Some(TooLargeMessage)
    ensures msg.None? <==> f.mimeType in AllowedTypes && f.size <= MaxSize
  {
    if f.mimeType !in AllowedTypes then Some(BadTypeMessage)
    else if f.size > MaxSize then Some(TooLargeMessage)
    else None
  }

  /** The bound is inclusive: a file of exactly 5 MiB passes and one byte more does not. */
  lemma {:induction false} FiveMebibytesExactly(mimeType: string)
    requires mimeType in AllowedTypes
    ensures Rejection(ChosenFile(mimeType, 5242880)).None?
    ensures Rejection(ChosenFile(mimeType, 5242881)) == Some(TooLargeMessage)
  {
  }

  datatype Toast = SuccessToast(text: string) | ErrorToast(text: string)

  datatype User = User(id: string, email: string, profileImage: Option<string>)

  /** `uploadImage(...).unwrap()`: a reply with its `success` flag and optional new
      image URL, or a failure with the server's optional message. */
  datatype UploadReply = Uploaded(success: bool, profileImage: Option<string>) | UploadFailed(message: Option<string>)

  /** `setCredentials` as dispatched here: an empty access token and the user with the
      new image. What the reducer does with the token is not part of this model. */
  datatype Credentials = Credentials(accessToken: string, user: User)

  class AvatarUpload {
    var preview: Option<string>
    /** the file input's value; `""` once the component has reset it */
    var inputValue: string
    var toasts: seq<Toast>
    var uploads: seq<ChosenFile>
    var dispatched: seq<Credentials>
    /** the URLs handed to `onImageUpdate` */
    var imageUpdates: seq<string>

    /** `useState(currentImage || null)`. */
    constructor (currentImage: Option<string>, chosen: string)
      ensures preview == (if Truthy(currentImage) then currentImage else None)
      ensures inputValue == chosen && toasts == [] && uploads == [] && dispatched == [] && imageUpdates == []
    {
      preview := if Truthy(currentImage) then currentImage else None;
      inputValue := chosen;
      toasts := [];
      uploads := [];
      dispatched := [];
      imageUpdates := [];
    }

    /** `handleFileSelect`. A missing or rejected file changes nothing but the toasts,
        and the input keeps its value. An accepted file is previewed, uploaded, and
        the input is reset whatever the outcome. */
    method HandleFileSelect(file: Option<ChosenFile>, currentImage: Option<string>, user: Option<User>,
                            dataUrl: string, reply: UploadReply)
      modifies this
      ensures file.None? ==> (preview == old(preview) && toasts == old(toasts) && inputValue == old(inputValue)
        && uploads == old(uploads) && dispatched == old(dispatched) && imageUpdates == old(imageUpdates))
      ensures file.Some? && Rejection(file.value).Some? ==> (
        preview == old(preview) && toasts == old(toasts) + [ErrorToast(Rejection(file.value).value)]
        && inputValue == old(inputValue) && uploads == old(uploads)
        && dispatched == old(dispatched) && imageUpdates == old(imageUpdates))
      ensures file.Some? && Rejection(file.value).None? ==> uploads == old(uploads) + [file.value] && inputValue == ""
      ensures file.Some? && Rejection(file.value).None? && reply.Uploaded? && reply.success && Truthy(reply.profileImage) ==> (
        preview == reply.profileImage && imageUpdates == old(imageUpdates) + [reply.profileImage.value]
        && toasts == old(toasts) + [SuccessToast(UpdatedMessage)]
        && dispatched == old(dispatched) + (if user.Some? then [Credentials("", user.value.(profileImage := reply.profileImage))] else []))
      ensures file.Some? && Rejection(file.value).None? && reply.Uploaded? && !(reply.success && Truthy(reply.profileImage)) ==> (
        preview == Some(dataUrl) && toasts == old(toasts) && dispatched == old(dispatched) && imageUpdates == old(imageUpdates))
      ensures file.Some? && Rejection(file.value).None? && reply.UploadFailed? ==> (
        preview == (if Truthy(currentImage) then currentImage else None)
        && toasts == old(toasts) + [ErrorToast(OrElse(reply.message, UploadFailedMessage))]
        && dispatched == old(dispatched) && imageUpdates == old(imageUpdates))
    {
      if file.None? {
        return;
      }
      var f := file.value;
      if f.mimeType !in AllowedTypes {
        toasts := toasts + [ErrorToast(BadTypeMessage)];
        return;
      }
      if f.size > MaxSize {
        toasts := toasts + [ErrorToast(TooLargeMessage)];
        return;
      }
      preview := Some(dataUrl);
      uploads := uploads + [f];
      match reply {
        case Uploaded(success, image) =>
          if success && Truthy(image) {
            preview := image;
            imageUpdates := imageUpdates + [image.value];
            if user.Some? {
              dispatched := dispatched + [Credentials("", user.value.(profileImage := image))];
            }
            toasts := toasts + [SuccessToast(UpdatedMessage)];
          }
        case UploadFailed(message) =>
          toasts := toasts + [ErrorToast(OrElse(message, UploadFailedMessage))];
          preview := if Truthy(currentImage) then currentImage else None;
      }
      inputValue := "";
    }
  }
}
