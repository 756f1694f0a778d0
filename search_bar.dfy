/**
 * The claim submission bar (frontend/components/SearchBar.tsx): the user
 * picks a mode (text, URL or file), types content or selects a file, and
 * submits a multipart form to the backend. The session's access token,
 * the backend address and the outcome of the request are inputs.
 */
module SearchBar {
  import opened Json
  import opened Text
  import Schemas
  import Claims

  datatype Mode = TextMode | UrlMode | FileMode

  function ModeName(m: Mode): string
  {
    match m
    case TextMode => "text"
    case UrlMode => "url"
    case FileMode => "file"
  }

  /** A selected file: its name and its MIME type. */
  datatype File = File(name: string, mimeType: string)

  datatype FormValue = TextValue(text: string) | FileValue(file: File)

  /** One `formData.append(name, value)`. */
  datatype FormField = FormField(name: string, value: FormValue)

  /** The POST the bar sends. */
  datatype Request = Request(url: string, authorization: string, fields: seq<FormField>)

  /** What came back: any failure (network, non-2xx, unreadable body), or the created claim's id. */
  datatype SubmitOutcome = SubmitFailed | SubmitAccepted(id: string)

  /** Where the user ends up after a submit. */
  datatype Navigation = Stay | GoTo(path: string) | AlertShown(message: string)

  const LoginPath := "/auth/login"
  const SubmitFailedAlert := "Failed to submit claim. Please try again."

  /** The `content` field: a description of the file in file mode with a file, else the typed text. */
  function ClaimContent(mode: Mode, content: string, file: Option<File>): (r: string)
    ensures mode == FileMode && file.Some? ==> r == "File submission: " + file.value.name
    ensures !(mode == FileMode && file.Some?) ==> r == content
  {
    if mode == FileMode && file.Some? then "File submission: " + file.value.name else content
  }

  /**
   * The `content_type` field: in file mode "image" for an image MIME type
   * and "video" for anything else (also when no file is selected);
   * otherwise the mode's name.
   */
  function ContentTypeFor(mode: Mode, file: Option<File>): (r: string)
    ensures r == "image" <==> mode == FileMode && file.Some? && StartsWith(file.value.mimeType, "image/")
    ensures r == "video" <==> mode == FileMode && !(file.Some? && StartsWith(file.value.mimeType, "image/"))
    ensures mode != FileMode ==> r == ModeName(mode)
  {
    if mode == FileMode then
      if file.Some? && StartsWith(file.value.mimeType, "image/") then "image" else "video"
    else ModeName(mode)
  }

  /** Every content type the bar sends is one the backend's `ContentType` accepts. */
  lemma ContentTypeAccepted(mode: Mode, file: Option<File>)
    ensures Schemas.ParseContentType(ContentTypeFor(mode, file)).Some?
    ensures mode == UrlMode ==> Schemas.ParseContentType(ContentTypeFor(mode, file)) == Some(Schemas.Url)
    ensures mode == TextMode ==> Schemas.ParseContentType(ContentTypeFor(mode, file)) == Some(Schemas.Text)
  {
  }

  /** The access token the bar sends is the one the backend reads back from the header. */
  lemma AuthorizationAccepted(token: string)
    requires token != "" && ' ' !in token
    ensures Claims.BearerToken(Some("Bearer " + token)) == Some(token)
  {
    Claims.BearerTokenRecovered(token, "");
    assert "Bearer " + token + "" == "Bearer " + token;
  }

  /** The component's state. */
  class Bar {
    var mode: Mode
    var content: string
    var file: Option<File>
    var isSubmitting: bool

    constructor()
      ensures mode == TextMode && content == "" && file.None? && !isSubmitting
    {
      mode := TextMode;
      content := "";
      file := None;
      isSubmitting := false;
    }

    /** `clearFile`: no file and no content. */
    method ClearFile()
      modifies this
      ensures file.None? && content == ""
      ensures mode == old(mode) && isSubmitting == old(isSubmitting)
    {
      file := None;
      content := "";
    }

    /** A mode button: switch mode, then clear the file and the content. */
    method SelectMode(m: Mode)
      modifies this
      ensures mode == m && file.None? && content == ""
      ensures isSubmitting == old(isSubmitting)
    {
      mode := m;
      ClearFile();
    }

    /** `handleFileSelect`: a selected file becomes the file and its name the content; no selection changes nothing. */
    method SelectFile(selected: Option<File>)
      modifies this
      ensures selected.Some? ==> file == selected && content == selected.value.name
      ensures selected.None? ==> file == old(file) && content == old(content)
      ensures mode == old(mode) && isSubmitting == old(isSubmitting)
    {
      if selected.Some? {
        file := selected;
        content := selected.value.name;
      }
    }

    /** Typing into the text input. */
    method EditContent(text: string)
      modifies this
      ensures content == text
      ensures mode == old(mode) && file == old(file) && isSubmitting == old(isSubmitting)
    {
      content := text;
    }

    /** Whether there is nothing to submit: blank content and no file. */
    predicate Empty()
      reads this
    {
      IsBlank(content) && file.None?
    }

    /** The submit button is disabled while submitting and when there is nothing to submit. */
    function Disabled(): (r: bool)
      reads this
      ensures r <==> isSubmitting || (IsBlank(content) && file.None?)
      ensures !r ==> !Empty()
    {
      isSubmitting || Empty()
    }

    /**
     * `handleSubmit`: without a session go to the login page; with nothing
     * to submit do nothing; otherwise send the form and go to the new
     * claim, or show an alert. `isSubmitting` is set for the duration of
     * the request and reset afterwards.
     */
    method HandleSubmit(accessToken: Option<string>, backendUrl: string, outcome: SubmitOutcome)
      returns (request: Option<Request>, nav: Navigation)
      modifies this
      ensures accessToken.None? ==> request.None? && nav == GoTo(LoginPath)
      ensures accessToken.Some? && old(Empty()) ==> request.None? && nav == Stay
      ensures request.Some? <==> accessToken.Some? && !old(Empty())
      ensures request.Some? ==> (request.value.url == backendUrl + "/api/v1/claims/submit" &&
        request.value.authorization == "Bearer " + accessToken.value)
      ensures request.Some? ==> (outcome.SubmitAccepted? ==> nav == GoTo("/claims/" + outcome.id))
      ensures request.Some? ==> (outcome.SubmitFailed? ==> nav == AlertShown(SubmitFailedAlert))
      ensures request.Some? ==> (var fields := request.value.fields;
        |fields| == 2 + (if mode == UrlMode then 1 else 0) + (if file.Some? then 1 else 0) &&
        fields[0] == FormField("content", TextValue(ClaimContent(mode, content, file))) &&
        fields[1] == FormField("content_type", TextValue(ContentTypeFor(mode, file))) &&
        (mode == UrlMode ==> fields[2] == FormField("original_url", TextValue(content))) &&
        (file.Some? ==> fields[|fields| - 1] == FormField("file", FileValue(file.value))))
      ensures mode == old(mode) && content == old(content) && file == old(file)
      ensures isSubmitting == if request.Some? then false else old(isSubmitting)
    {
      if accessToken.None? {
        return None, GoTo(LoginPath);
      }
      if IsBlank(content) && file.None? {
        return None, Stay;
      }
      isSubmitting := true;
      var fields: seq<FormField> := [];
      fields := fields + [FormField("content", TextValue(ClaimContent(mode, content, file)))];
      fields := fields + [FormField("content_type", TextValue(ContentTypeFor(mode, file)))];
      if mode == UrlMode {
        fields := fields + [FormField("original_url", TextValue(content))];
      }
      if file.Some? {
        fields := fields + [FormField("file", FileValue(file.value))];
      }
      request := Some(Request(backendUrl + "/api/v1/claims/submit", "Bearer " + accessToken.value, fields));
      if outcome.SubmitAccepted? {
        nav := GoTo("/claims/" + outcome.id);
      } else {
        nav := AlertShown(SubmitFailedAlert);
      }
      isSubmitting := false;
    }
  }
}
