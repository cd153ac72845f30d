/** The checks the submit handlers run before they call the API: chains of early returns,
    each with a fixed message. A check passes or names the first failure. */
module Forms {
  import opened Wrappers
  import opened JsString
  import opened Entities

  datatype Check = Pass | Reject(message: string)

  const FillAllFields := "Please fill in all fields."
  const PasswordTooShort := "Password must be at least 8 characters long."
  const MinPasswordLength := 8

  /** The login forms (login page and landing page): the e-mail is trimmed, the password
      is not, and both must be non-empty. */
  function LoginCheck(email: string, password: string): (c: Check)
    ensures c.Pass? <==> !IsBlank(email) && password != ""
    ensures c.Reject? ==> c.message == FillAllFields
  {
    TrimEmptyIffBlank(email);
    if Trim(email) == "" || password == "" then Reject(FillAllFields) else Pass
  }

  /** The register forms (register page and landing page): name and e-mail trimmed and
      non-empty, password non-empty, then a password of at least 8 UTF-16 code units. */
  function RegisterCheck(name: string, email: string, password: string): (c: Check)
    ensures c.Pass? <==> !IsBlank(name) && !IsBlank(email) && Utf16Length(password) >= MinPasswordLength
    ensures c == Reject(FillAllFields) <==> IsBlank(name) || IsBlank(email) || password == ""
    ensures c == Reject(PasswordTooShort) <==>
      !IsBlank(name) && !IsBlank(email) && password != "" && Utf16Length(password) < MinPasswordLength
  {
    TrimEmptyIffBlank(name);
    TrimEmptyIffBlank(email);
    if Trim(name) == "" || Trim(email) == "" || password == "" then Reject(FillAllFields)
    else if Utf16Length(password) < MinPasswordLength then Reject(PasswordTooShort)
    else Pass
  }

  /** The password check is a bound on the length: seven characters fail, eight pass. */
  lemma PasswordBoundary(name: string, email: string)
    requires !IsBlank(name) && !IsBlank(email)
    ensures RegisterCheck(name, email, "1234567") == Reject(PasswordTooShort)
    ensures RegisterCheck(name, email, "12345678") == Pass
  {
    assert Utf16Length("1234567") == 7;
    assert Utf16Length("12345678") == 8;
  }

  const DescriptionAndPhotoRequired := "Description and photo are required."

  /** The add-story form: the description is NOT trimmed; only an empty description or a
      missing photo is refused. */
  function AddStoryCheck(description: string, photo: Option<Photo>): (c: Check)
    ensures c.Pass? <==> description != "" && photo.Some?
    ensures c.Reject? ==> c.message == DescriptionAndPhotoRequired
  {
    if description == "" || photo.None? then Reject(DescriptionAndPhotoRequired) else Pass
  }

  const ProvideBoth := "Please provide both description and photo."
  const PhotoTooLarge := "Photo size must be less than 1MB."
  const InvalidImageType := "Please upload a valid image file (JPEG, PNG, or WebP)."
  const MaxPhotoSize := 1024 * 1024
  const AllowedTypes := ["image/jpeg", "image/png", "image/webp"]

  /** The guest form: a trimmed non-empty description and a photo, then a size of at most
      1 MiB, then an allowed image type; the first failing check wins. */
  function GuestStoryCheck(description: string, photo: Option<Photo>): (c: Check)
    ensures c.Pass? <==>
      && !IsBlank(description) && photo.Some?
      && photo.value.size <= MaxPhotoSize && photo.value.mimeType in AllowedTypes
  {
    TrimEmptyIffBlank(description);
    if Trim(description) == "" || photo.None? then Reject(ProvideBoth)
    else if photo.value.size > MaxPhotoSize then Reject(PhotoTooLarge)
    else if photo.value.mimeType !in AllowedTypes then Reject(InvalidImageType)
    else Pass
  }

  /** The guest checks run in the order presence, size, type: each message is given exactly
      when its check is the first to fail. */
  lemma GuestCheckOrder(description: string, photo: Option<Photo>)
    ensures GuestStoryCheck(description, photo) == Reject(ProvideBoth) <==>
      IsBlank(description) || photo.None?
    ensures GuestStoryCheck(description, photo) == Reject(PhotoTooLarge) <==>
      !IsBlank(description) && photo.Some? && photo.value.size > MaxPhotoSize
    ensures GuestStoryCheck(description, photo) == Reject(InvalidImageType) <==>
      && !IsBlank(description) && photo.Some? && photo.value.size <= MaxPhotoSize
      && photo.value.mimeType !in AllowedTypes
  {
    TrimEmptyIffBlank(description);
  }

  /** A photo of exactly 1 MiB passes the size check; one byte more does not. */
  lemma GuestSizeBoundary(description: string, name: string, mimeType: string)
    requires !IsBlank(description)
    ensures GuestStoryCheck(description, Some(Photo(name, 1048576, mimeType))) != Reject(PhotoTooLarge)
    ensures GuestStoryCheck(description, Some(Photo(name, 1048577, mimeType))) == Reject(PhotoTooLarge)
  {
    GuestCheckOrder(description, Some(Photo(name, 1048576, mimeType)));
    GuestCheckOrder(description, Some(Photo(name, 1048577, mimeType)));
  }

  /** The two story forms disagree on white space: a description of blanks passes the
      add-story check but not the guest check. */
  lemma BlankDescriptionForms(description: string, photo: Photo)
    requires description != "" && IsBlank(description)
    ensures AddStoryCheck(description, Some(photo)) == Pass
    ensures GuestStoryCheck(description, Some(photo)) == Reject(ProvideBoth)
  {
    GuestCheckOrder(description, Some(photo));
  }
}
