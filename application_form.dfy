/** The "new application" form: the affordability gate on its button, the field rules,
    the photo and video upload slots, and the submit handler. */
module ApplicationForm {
  import opened Common
  import opened Models
  import Backend

  /** `user && user.balance >= applicationCost`, on the user the session store holds. */
  function CanAfford(user: Option<User>): (ok: bool)
    ensures ok <==> user.Some? && user.value.balance >= ApplicationCost
  {
    user.Some? && user.value.balance >= ApplicationCost
  }

  /** The client's gate and the backend's test draw the line at the same place: on the
      same balance, the button is enabled exactly when `Backend.Store.CreateApplication`
      would accept the application. */
  lemma CanAffordIffServerAccepts(u: User)
    ensures CanAfford(Some(u)) <==> Backend.AcceptsApplication(u.balance)
  {
  }

  predicate IsLineTerminator(c: char) {
    c == '\n' || c == '\r' || c == '\U{2028}' || c == '\U{2029}'
  }

  function AsciiLower(c: char): char {
    if 'A' <= c <= 'Z' then (c as int + 32) as char else c
  }

  /** `p` (written in lower case) begins `s`, ignoring ASCII case as the `i` flag does. */
  predicate StartsWithIgnoringCase(s: string, p: string) {
    |p| <= |s| && forall i :: 0 <= i < |p| ==> AsciiLower(s[i]) == p[i]
  }

  /** `/^https?:\/\/.+/i`: a scheme, then at least one character that is not a line
      terminator. Nothing is required of the rest: the pattern has no end anchor. */
  predicate MatchesUrlPattern(s: string) {
    || (StartsWithIgnoringCase(s, "http://") && |s| > 7 && !IsLineTerminator(s[7]))
    || (StartsWithIgnoringCase(s, "https://") && |s| > 8 && !IsLineTerminator(s[8]))
  }

  /** Anything appended to a matching URL still matches: in particular every URL an
      upload produces, API base + "/uploads/...", when the base is an http(s) URL. */
  lemma {:induction false} MatchesUrlPatternExtends(base: string, path: string)
    requires MatchesUrlPattern(base)
    ensures MatchesUrlPattern(base + path)
  {
    var s := base + path;
    assert forall i :: 0 <= i < |base| ==> s[i] == base[i];
  }

  /** Sanity examples: the default API base passes; a bare scheme and another scheme do not. */
  lemma UrlPatternExamples()
    ensures MatchesUrlPattern("http://localhost:8000")
    ensures !MatchesUrlPattern("https://")
    ensures !MatchesUrlPattern("ftp://host")
  {
    var local := "http://localhost:8000";
    assert StartsWithIgnoringCase(local, "http://") by {
      forall i | 0 <= i < 7 ensures AsciiLower(local[i]) == "http://"[i] {
      }
    }
    var bare := "https://";
    assert AsciiLower(bare[4]) != "http://"[4];
    var ftp := "ftp://host";
    assert AsciiLower(ftp[0]) != "http://"[0];
  }

  datatype FormValues = FormValues(title: string, description: string, photoUrl: string, videoUrl: string)

  /** What `reset()` restores: no default values were given. */
  const EmptyForm := FormValues("", "", "", "")

  datatype Field = Title | Description | PhotoUrl | VideoUrl

  /** A URL field is optional: the pattern is only checked on a non-empty value. */
  predicate UrlFieldValid(s: string) {
    s == "" || MatchesUrlPattern(s)
  }

  /** The messages react-hook-form shows, in field order. */
  function FieldErrors(v: FormValues): (errs: seq<(Field, string)>)
    ensures errs == [] <==> v.title != "" && v.description != "" && UrlFieldValid(v.photoUrl) && UrlFieldValid(v.videoUrl)
    ensures (Title, "Заголовок обязателен") in errs <==> v.title == ""
    ensures (Description, "Описание обязательно") in errs <==> v.description == ""
  {
    (if v.title == "" then [(Title, "Заголовок обязателен")] else [])
    + (if v.description == "" then [(Description, "Описание обязательно")] else [])
    + (if UrlFieldValid(v.photoUrl) then [] else [(PhotoUrl, "Введите корректную ссылку")])
    + (if UrlFieldValid(v.videoUrl) then [] else [(VideoUrl, "Введите корректную ссылку")])
  }

  datatype Slot = Photo | Video

  class ApplicationFormState {
    var isOpen: bool
    var isSubmitting: bool
    var isUploading: bool
    var values: FormValues
    var uploadedPhoto: Option<string>    // uploadedFiles.photo
    var uploadedVideo: Option<string>    // uploadedFiles.video

    constructor ()
      ensures !isOpen && !isSubmitting && !isUploading
      ensures values == EmptyForm && uploadedPhoto.None? && uploadedVideo.None?
    {
      isOpen, isSubmitting, isUploading := false, false, false;
      values := EmptyForm;
      uploadedPhoto, uploadedVideo := None, None;
    }

    /** The "new application" button: disabled unless the user can afford it. */
    method Open(user: Option<User>)
      modifies this
      ensures isOpen == (old(isOpen) || CanAfford(user))
      ensures unchanged(this`values, this`uploadedPhoto, this`uploadedVideo, this`isSubmitting, this`isUploading)
    {
      if CanAfford(user) {
        isOpen := true;
      }
    }

    /** The close and cancel buttons. */
    method Close()
      modifies this
      ensures !isOpen
      ensures unchanged(this`values, this`uploadedPhoto, this`uploadedVideo, this`isSubmitting, this`isUploading)
    {
      isOpen := false;
    }

    /** `handleFileUpload`, given the API base and the reply to POST /upload (its `url`). */
    method HandleFileUpload(slot: Slot, apiBase: string, reply: Result<string>)
      modifies this
      ensures !isUploading
      ensures unchanged(this`isOpen, this`isSubmitting)
      ensures reply.Err? ==> unchanged(this`values, this`uploadedPhoto, this`uploadedVideo)
      ensures reply.Ok? && slot == Photo ==>
        && values == old(values).(photoUrl := apiBase + reply.value)
        && uploadedPhoto == Some(apiBase + reply.value) && uploadedVideo == old(uploadedVideo)
      ensures reply.Ok? && slot == Video ==>
        && values == old(values).(videoUrl := apiBase + reply.value)
        && uploadedVideo == Some(apiBase + reply.value) && uploadedPhoto == old(uploadedPhoto)
      ensures reply.Ok? && MatchesUrlPattern(apiBase) ==>
        UrlFieldValid(if slot == Photo then values.photoUrl else values.videoUrl)
    {
      isUploading := true;
      if reply.Ok? {
        var fileUrl := apiBase + reply.value;
        if MatchesUrlPattern(apiBase) {
          MatchesUrlPatternExtends(apiBase, reply.value);
        }
        if slot == Photo {
          values := values.(photoUrl := fileUrl);
          uploadedPhoto := Some(fileUrl);
        } else {
          values := values.(videoUrl := fileUrl);
          uploadedVideo := Some(fileUrl);
        }
      }
      isUploading := false;
    }

    /** `removeUploadedFile`: clears the named slot only. */
    method RemoveUploadedFile(slot: Slot)
      modifies this
      ensures unchanged(this`isOpen, this`isSubmitting, this`isUploading)
      ensures slot == Photo ==> values == old(values).(photoUrl := "") && uploadedPhoto.None? && uploadedVideo == old(uploadedVideo)
      ensures slot == Video ==> values == old(values).(videoUrl := "") && uploadedVideo.None? && uploadedPhoto == old(uploadedPhoto)
    {
      if slot == Photo {
        values := values.(photoUrl := "");
        uploadedPhoto := None;
      } else {
        values := values.(videoUrl := "");
        uploadedVideo := None;
      }
    }

    /** `handleFormSubmit`, given how the parent's `onSubmit` settles. There is no catch:
        a throw propagates after `finally` clears `isSubmitting`. `reset()` clears the
        form values but not `uploadedFiles`. */
    method HandleFormSubmit(onSubmit: Outcome) returns (r: Outcome)
      modifies this
      ensures !isSubmitting && r == onSubmit
      ensures unchanged(this`isUploading, this`uploadedPhoto, this`uploadedVideo)
      ensures onSubmit.Done? ==> values == EmptyForm && !isOpen
      ensures onSubmit.Threw? ==> values == old(values) && isOpen == old(isOpen)
    {
      isSubmitting := true;
      r := onSubmit;
      if onSubmit.Done? {
        values := EmptyForm;
        isOpen := false;
      }
      isSubmitting := false;
    }

    /** `handleSubmit(handleFormSubmit)`: the handler runs only on a form without errors. */
    method Submit(onSubmit: Outcome) returns (handled: bool, r: Outcome)
      modifies this
      ensures handled <==> old(FieldErrors(values)) == []
      ensures !handled ==> unchanged(this) && r == Done
      ensures handled ==> !isSubmitting && r == onSubmit
      ensures handled ==> unchanged(this`isUploading, this`uploadedPhoto, this`uploadedVideo)
      ensures handled && onSubmit.Done? ==> values == EmptyForm && !isOpen
      ensures handled && onSubmit.Threw? ==> values == old(values) && isOpen == old(isOpen)
    {
      if FieldErrors(values) != [] {
        return false, Done;
      }
      handled := true;
      r := HandleFormSubmit(onSubmit);
    }
  }
}
