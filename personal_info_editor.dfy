/** The personal-information editor: text fields, the profile image upload with its size limit, removal. */
module PersonalInfoEditor {
  import opened Common
  import opened ResumeData

  datatype Field = FullName | Email | Phone | Location | Website | Linkedin | Summary

  /** `[field]: value`: a text field set to a string, or `profileImage` set to a data URL or null. */
  datatype Edit = SetText(field: Field, text: string) | SetImage(image: Option<string>)

  function TextOf(p: PersonalInfo, f: Field): string
  {
    match f
    case FullName => p.fullName
    case Email => p.email
    case Phone => p.phone
    case Location => p.location
    case Website => p.website
    case Linkedin => p.linkedin
    case Summary => p.summary
  }

  /** `handleInputChange`: the record with the named field set and every other field unchanged. */
  function HandleInputChange(p: PersonalInfo, edit: Edit): (r: PersonalInfo)
    ensures edit.SetText? ==> TextOf(r, edit.field) == edit.text && r.profileImage == p.profileImage
    ensures edit.SetText? ==> forall g :: g != edit.field ==> TextOf(r, g) == TextOf(p, g)
    ensures edit.SetImage? ==> r.profileImage == edit.image && forall g :: TextOf(r, g) == TextOf(p, g)
  {
    match edit
    case SetImage(img) => p.(profileImage := img)
    case SetText(f, v) =>
      match f
      case FullName => p.(fullName := v)
      case Email => p.(email := v)
      case Phone => p.(phone := v)
      case Location => p.(location := v)
      case Website => p.(website := v)
      case Linkedin => p.(linkedin := v)
      case Summary => p.(summary := v)
  }

  /** The largest accepted image: 5 MiB. */
  const MaxImageBytes: nat := 5 * 1024 * 1024

  /** The first file of the file input's selection; only its size matters to the editor. */
  datatype SelectedFile = SelectedFile(size: nat)

  datatype UploadResult = NothingSelected | TooLarge | Uploaded(info: PersonalInfo)

  /**
   * `handleImageUpload`, with the file reader's data URL given as `dataUrl`: nothing happens without a
   * file, a file over 5 MiB is refused without an update, and any other file becomes the profile image.
   */
  function HandleImageUpload(p: PersonalInfo, file: Option<SelectedFile>, dataUrl: string): (r: UploadResult)
    ensures r.NothingSelected? <==> file.None?
    ensures r.TooLarge? <==> file.Some? && file.value.size > MaxImageBytes
    ensures r.Uploaded? ==> r.info.profileImage == Some(dataUrl) && forall g :: TextOf(r.info, g) == TextOf(p, g)
  {
    match file
    case None => NothingSelected
    case Some(f) =>
      if f.size > MaxImageBytes then TooLarge
      else Uploaded(HandleInputChange(p, SetImage(Some(dataUrl))))
  }

  /** The limit is inclusive: exactly 5 MiB is accepted, one byte more is refused. */
  lemma SizeLimitIsInclusive(p: PersonalInfo, dataUrl: string)
    ensures HandleImageUpload(p, Some(SelectedFile(5242880)), dataUrl).Uploaded?
    ensures HandleImageUpload(p, Some(SelectedFile(5242881)), dataUrl).TooLarge?
  {
  }

  /** The file input element the editor holds a reference to. */
  class FileInput {
    var value: string

    constructor (value: string)
      ensures this.value == value
    {
      this.value := value;
    }
  }

  /** `removeImage`: emits the record without image and clears the file input when it is mounted. */
  method RemoveImage(p: PersonalInfo, input: FileInput?) returns (emitted: PersonalInfo)
    modifies input
    ensures emitted.profileImage.None? && forall g :: TextOf(emitted, g) == TextOf(p, g)
    ensures input != null ==> input.value == ""
  {
    emitted := HandleInputChange(p, SetImage(None));
    if input != null {
      input.value := "";
    }
  }
}
