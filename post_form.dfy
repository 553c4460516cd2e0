/**
 * The "Share Your Iftar Meal" form (`PostForm`): the picked image is checked
 * to be an image, a submission needs a title and an image, and the outcome of
 * the upload and of the create request decides whether the form is reset or
 * shows an error.
 */
module PostForm {
  import opened Wrappers
  import opened Api

  /** A picked file: only its MIME type matters here. */
  datatype File = File(name: string, mimeType: string)

  /** `file.type.startsWith('image/')`. */
  predicate IsImageType(mimeType: string)
  {
    |mimeType| >= 6 && mimeType[..6] == "image/"
  }

  /** What a `catch` receives: an `Error` with its message, or any other value. */
  datatype Thrown = AnError(message: string) | NotAnError

  /** How a submission that passed validation ends. */
  datatype Submission =
    | UploadRejected(errorField: Option<string>)   // the upload route answered non-ok
    | UploadThrew(thrown: Thrown)                  // the upload request itself threw
    | PostRejected(errorField: Option<string>)     // the create route answered non-ok
    | RequestThrew(thrown: Thrown)                 // the create request or its body threw
    | PostCreated

  /** `field || fallback`: the field when it is present and non-empty. */
  function OrElse(field: Option<string>, fallback: string): string
  {
    if Present(field) then field.value else fallback
  }

  /**
   * The message `handleSubmit` shows for a failed submission: `uploadImage`
   * rethrows every failure as an `Error`, a non-ok create response throws
   * one, and the outer `catch` shows an `Error`'s message or
   * 'Something went wrong'. The message is empty only when an `Error` with an
   * empty message was thrown, so every other failure shows an error.
   */
  function FailureMessage(s: Submission): (m: string)
    requires !s.PostCreated?
    ensures m == "" <==> s == UploadThrew(AnError("")) || s == RequestThrew(AnError(""))
    ensures (s.UploadRejected? || s.PostRejected?) && Present(s.errorField) ==> m == s.errorField.value
    ensures (s.UploadThrew? || s.RequestThrew?) && s.thrown.AnError? ==> m == s.thrown.message
  {
    match s
    case UploadRejected(field) => OrElse(field, "Failed to upload image")
    case UploadThrew(AnError(message)) => message
    case UploadThrew(NotAnError) => "Error uploading image"
    case PostRejected(field) => OrElse(field, "Failed to create post")
    case RequestThrew(AnError(message)) => message
    case RequestThrew(NotAnError) => "Something went wrong"
  }

  class PostForm {
    var title: string
    var description: string
    var image: Option<File>
    var imagePreview: Option<string>
    var isLoading: bool
    var error: string

    /** Every field starts empty and nothing is loading. */
    constructor ()
      ensures title == "" && description == "" && image.None? && imagePreview.None?
      ensures !isLoading && error == ""
    {
      title := "";
      description := "";
      image := None;
      imagePreview := None;
      isLoading := false;
      error := "";
    }

    /**
     * `handleImageChange`, given the first picked file (if any) and the
     * preview URL the browser would create for it: no file changes nothing;
     * a non-image sets the error and keeps the previous image; an image is
     * taken together with its preview.
     */
    method HandleImageChange(file: Option<File>, previewUrl: string)
      modifies this`image, this`imagePreview, this`error
      ensures file.None? ==> image == old(image) && imagePreview == old(imagePreview) && error == old(error)
      ensures file.Some? && !IsImageType(file.value.mimeType) ==>
        error == "Please select an image file" && image == old(image) && imagePreview == old(imagePreview)
      ensures file.Some? && IsImageType(file.value.mimeType) ==>
        image == file && imagePreview == Some(previewUrl) && error == old(error)
    {
      if file.None? {
        return;
      }
      if !IsImageType(file.value.mimeType) {
        error := "Please select an image file";
        return;
      }
      image := file;
      imagePreview := Some(previewUrl);
    }

    /**
     * `handleSubmit` up to its requests: without a title or an image it sets
     * the error and sends nothing; otherwise it clears the error and starts
     * loading.
     */
    method BeginSubmit() returns (started: bool)
      modifies this`isLoading, this`error
      ensures started <==> old(title) != "" && old(image).Some?
      ensures !started ==> error == "Title and image are required" && isLoading == old(isLoading)
      ensures started ==> error == "" && isLoading
    {
      if title == "" || image.None? {
        error := "Title and image are required";
        return false;
      }
      isLoading := true;
      error := "";
      return true;
    }

    /**
     * `handleSubmit` after its requests: a created post resets the four form
     * fields; any failure shows its message and keeps them; `isLoading` ends
     * false either way.
     */
    method CompleteSubmit(outcome: Submission)
      modifies this`title, this`description, this`image, this`imagePreview, this`error, this`isLoading
      ensures outcome.PostCreated? ==>
        title == "" && description == "" && image.None? && imagePreview.None? && error == old(error)
      ensures !outcome.PostCreated? ==>
        && title == old(title) && description == old(description)
        && image == old(image) && imagePreview == old(imagePreview)
        && error == FailureMessage(outcome)
      ensures !isLoading
    {
      if outcome.PostCreated? {
        title := "";
        description := "";
        image := None;
        imagePreview := None;
      } else {
        error := FailureMessage(outcome);
      }
      isLoading := false;
    }
  }
}
