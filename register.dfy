/**
 * The registration page: a form record of nine text fields and an optional
 * profile image, a multipart body built from it on submit, and the `loading`
 * and `error` flags the submit handler sets around the request.
 */
module Register {
  import opened Common

  /** The text fields of the form, as declared in the initial form state. */
  datatype TextField =
    | Username | Name | Email | Password | ConfPassword
    | Phone | Profession | Location | Description

  /** The declaration order, which `for…in` follows when the body is built. */
  const TextFields: seq<TextField> :=
    [Username, Name, Email, Password, ConfPassword, Phone, Profession, Location, Description]

  /** The form key of a field: the input's `name` attribute. */
  function Key(f: TextField): string
  {
    match f
    case Username => "username"
    case Name => "name"
    case Email => "email"
    case Password => "password"
    case ConfPassword => "confPassword"
    case Phone => "phone"
    case Profession => "profession"
    case Location => "location"
    case Description => "description"
  }

  /** The keys of the text fields, in declaration order. */
  const TextKeys: seq<string> :=
    ["username", "name", "email", "password", "confPassword", "phone", "profession", "location", "description"]

  const ImageKey := "profileImage"

  datatype RegisterForm = RegisterForm(
    username: string, name: string, email: string, password: string, confPassword: string,
    phone: string, profession: string, location: string, description: string,
    profileImage: Option<File>)

  /** The form as first rendered: every text field "" and no image. */
  const InitialForm := RegisterForm("", "", "", "", "", "", "", "", "", None)

  /** `formData[name]` for a text field. */
  function Get(form: RegisterForm, f: TextField): string
  {
    match f
    case Username => form.username
    case Name => form.name
    case Email => form.email
    case Password => form.password
    case ConfPassword => form.confPassword
    case Phone => form.phone
    case Profession => form.profession
    case Location => form.location
    case Description => form.description
  }

  /** Every field of the declared order has its own key, and none of them is the image's. */
  lemma TextKeysMatchFields()
    ensures |TextKeys| == |TextFields|
    ensures forall j :: 0 <= j < |TextFields| ==> Key(TextFields[j]) == TextKeys[j]
    ensures forall f: TextField :: f in TextFields
    ensures forall i, j :: 0 <= i < j < |TextKeys| ==> TextKeys[i] != TextKeys[j]
    ensures ImageKey !in TextKeys
  {
    forall f: TextField
      ensures f in TextFields
    {
      match f
      case Username => assert TextFields[0] == f;
      case Name => assert TextFields[1] == f;
      case Email => assert TextFields[2] == f;
      case Password => assert TextFields[3] == f;
      case ConfPassword => assert TextFields[4] == f;
      case Phone => assert TextFields[5] == f;
      case Profession => assert TextFields[6] == f;
      case Location => assert TextFields[7] == f;
      case Description => assert TextFields[8] == f;
    }
  }

  /** `{ ...formData, [name]: value }` from `handleChange`. */
  function WithField(form: RegisterForm, f: TextField, value: string): (r: RegisterForm)
    ensures Get(r, f) == value
    ensures forall g :: g != f ==> Get(r, g) == Get(form, g)
    ensures r.profileImage == form.profileImage
  {
    match f
    case Username => form.(username := value)
    case Name => form.(name := value)
    case Email => form.(email := value)
    case Password => form.(password := value)
    case ConfPassword => form.(confPassword := value)
    case Phone => form.(phone := value)
    case Profession => form.(profession := value)
    case Location => form.(location := value)
    case Description => form.(description := value)
  }

  /**
   * `{ ...formData, profileImage: files[0] }` from `handleFileChange`; an empty
   * selection reads `undefined`, which the submit treats as no image.
   */
  function WithFirstFile(form: RegisterForm, files: seq<File>): (r: RegisterForm)
    ensures forall g :: Get(r, g) == Get(form, g)
    ensures r.profileImage.Some? <==> |files| > 0
    ensures r.profileImage.Some? ==> r.profileImage.value == files[0]
  {
    form.(profileImage := if |files| > 0 then Some(files[0]) else None)
  }

  /** The entry appended for one text field. */
  function TextEntry(form: RegisterForm, f: TextField): FormEntry
  {
    FormEntry(Key(f), TextPart(Get(form, f)))
  }

  /** The multipart body: each text field in declaration order, then the image when one is set. */
  function RegisterBody(form: RegisterForm): seq<FormEntry>
  {
    seq(|TextFields|, j requires 0 <= j < |TextFields| => TextEntry(form, TextFields[j]))
    + (match form.profileImage
       case Some(file) => [FormEntry(ImageKey, FilePart(file))]
       case None => [])
  }

  function Keys(body: seq<FormEntry>): seq<string>
  {
    seq(|body|, j requires 0 <= j < |body| => body[j].key)
  }

  /**
   * The body's keys are the nine text keys in order, `confPassword` among them,
   * each carrying the field's current value, and the image key last, with the
   * image, when one is set.
   */
  lemma RegisterBodyKeys(form: RegisterForm)
    ensures Keys(RegisterBody(form)) == TextKeys + (if form.profileImage.Some? then [ImageKey] else [])
    ensures forall j :: 0 <= j < |TextFields| ==> RegisterBody(form)[j].part == TextPart(Get(form, TextFields[j]))
    ensures form.profileImage.Some? ==>
      RegisterBody(form)[|TextFields|] == FormEntry(ImageKey, FilePart(form.profileImage.value))
  {
    TextKeysMatchFields();
    var body := RegisterBody(form);
    var expected := TextKeys + (if form.profileImage.Some? then [ImageKey] else []);
    assert |Keys(body)| == |expected|;
    forall j | 0 <= j < |expected|
      ensures Keys(body)[j] == expected[j]
    {
      if j < |TextFields| {
        assert body[j] == TextEntry(form, TextFields[j]);
      }
    }
  }

  /** The `for…in` loop over the text fields, then the conditional image append. */
  method BuildRegisterBody(form: RegisterForm) returns (body: seq<FormEntry>)
    ensures body == RegisterBody(form)
  {
    body := [];
    var i := 0;
    while i < |TextFields|
      invariant 0 <= i <= |TextFields|
      invariant |body| == i
      invariant forall j :: 0 <= j < i ==> body[j] == TextEntry(form, TextFields[j])
    {
      body := body + [FormEntry(Key(TextFields[i]), TextPart(Get(form, TextFields[i])))];
      i := i + 1;
    }
    if form.profileImage.Some? {
      body := body + [FormEntry(ImageKey, FilePart(form.profileImage.value))];
    }
  }

  const RegistrationFailed := "Registration failed"

  /**
   * The message of the error thrown on a non-OK response: a truthy `message`
   * of the decoded body, else "Registration failed"; when decoding or reading
   * `message` throws, the raw body text.
   */
  function RegisterErrorMessage(text: string, json: ParsedBody): (r: string)
    ensures json.ParseThrew? ==> r == text
    ensures json.Parsed? && Truthy(json.message) ==> r == json.message.value
    ensures json.Parsed? && !Truthy(json.message) ==> r == RegistrationFailed
  {
    match json
    case ParseThrew(_) => text
    case Parsed(message) => OrElse(message, RegistrationFailed)
  }

  /** The page shows the error only when its text is non-empty, which fails only for an empty undecodable body. */
  lemma RegisterErrorEmptyIff(text: string, json: ParsedBody)
    ensures RegisterErrorMessage(text, json) == "" <==> json.ParseThrew? && text == ""
  {
  }

  /** What the awaited request leads to: `/login` on success, otherwise the error text. */
  function RegisterEffect(outcome: FetchOutcome): (r: Effect)
    ensures r.NavigateTo? <==> outcome.Completed? && outcome.response.ok
    ensures r.NavigateTo? ==> r.path == "/login"
    ensures outcome.Threw? ==> r == ShowError(outcome.error)
    ensures outcome.Completed? && !outcome.response.ok ==>
      r == ShowError(RegisterErrorMessage(outcome.response.text, outcome.response.json))
  {
    match outcome
    case Threw(e) => ShowError(e)
    case Completed(response) =>
      if response.ok then NavigateTo("/login")
      else ShowError(RegisterErrorMessage(response.text, response.json))
  }

  /** The effect sending a logged-in visitor home. */
  function LoggedInRedirect(isLoggedIn: bool): (r: Option<string>)
    ensures r.Some? <==> isLoggedIn
    ensures r.Some? ==> r.value == "/"
  {
    if isLoggedIn then Some("/") else None
  }

  /** The registration page's state. */
  class RegisterPage {
    var formData: RegisterForm
    var error: string
    var loading: bool

    constructor ()
      ensures formData == InitialForm && error == "" && !loading
    {
      formData := InitialForm;
      error := "";
      loading := false;
    }

    method HandleChange(f: TextField, value: string)
      modifies this
      ensures formData == WithField(old(formData), f, value)
      ensures error == old(error) && loading == old(loading)
    {
      formData := WithField(formData, f, value);
    }

    method HandleFileChange(files: seq<File>)
      modifies this
      ensures formData == WithFirstFile(old(formData), files)
      ensures error == old(error) && loading == old(loading)
    {
      formData := WithFirstFile(formData, files);
    }

    /** The submit handler up to the awaited request: both flags set, the request built. */
    method BeginSubmit() returns (request: Request)
      modifies this
      ensures loading && error == ""
      ensures formData == old(formData)
      ensures request == Request("/register", None, RegisterBody(formData))
    {
      loading := true;
      error := "";
      var body := BuildRegisterBody(formData);
      request := Request("/register", None, body);
    }

    /** The submit handler after the request: navigate or record the error, and always stop loading. */
    method FinishSubmit(outcome: FetchOutcome) returns (navigation: Option<string>)
      modifies this
      ensures !loading
      ensures formData == old(formData)
      ensures match RegisterEffect(outcome)
              case NavigateTo(path) => navigation == Some(path) && error == old(error)
              case ShowError(message) => navigation == None && error == message
    {
      navigation := None;
      match outcome {
        case Threw(e) =>
          error := e;
        case Completed(response) =>
          if response.ok {
            navigation := Some("/login");
          } else {
            error := RegisterErrorMessage(response.text, response.json);
          }
      }
      loading := false;
    }

    /** `handleSubmit` as a whole, given how the request ends. */
    method HandleSubmit(outcome: FetchOutcome) returns (request: Request, navigation: Option<string>)
      modifies this
      ensures !loading
      ensures formData == old(formData)
      ensures request == Request("/register", None, RegisterBody(formData))
      ensures match RegisterEffect(outcome)
              case NavigateTo(path) => navigation == Some(path) && error == ""
              case ShowError(message) => navigation == None && error == message
    {
      request := BeginSubmit();
      navigation := FinishSubmit(outcome);
    }
  }
}
