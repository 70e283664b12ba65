/**
 * The page that creates an advertisement: title, description and the
 * selected images go out as a multipart body with the stored bearer token,
 * and the answer either navigates to `/user/` followed by the unset user id
 * or sets an error.
 */
module AddAdvertisement {
  import opened Common
  import opened Storage

  /** The server's message when the user already has five advertisements, spelled as the server sends it. */
  const LimitMessage := "You can't create more them 5 advertisements"
  const LimitText := "You have reached the maximum number of advertisements allowed."
  const CreateFailed := "Failed to create advertisement"

  /**
   * `userId` as the page's template literals render it. The page destructures
   * `userId` from the auth context, which exposes no such value, so it is
   * `undefined` in the request path and in the navigation target.
   */
  const UserIdText := "undefined"

  /** What the page renders: a prompt for a logged-out visitor, the form otherwise. */
  datatype View = LoginPrompt | AdForm

  function PageView(isLoggedIn: bool): (r: View)
    ensures r == AdForm <==> isLoggedIn
  {
    if isLoggedIn then AdForm else LoginPrompt
  }

  /** The Authorization header: the stored token, or the text "null" when none is stored. */
  function BearerHeader(storage: Store): (r: string)
    ensures TokenKey in storage ==> r == "Bearer " + storage[TokenKey]
    ensures TokenKey !in storage ==> r == "Bearer null"
  {
    "Bearer " + match GetItem(storage, TokenKey)
                case Some(token) => token
                case None => "null"
  }

  /** The multipart body: title, description, then one "images" entry per selected file. */
  function AdBody(title: string, description: string, images: seq<File>): seq<FormEntry>
  {
    [FormEntry("title", TextPart(title)), FormEntry("description", TextPart(description))]
    + seq(|images|, i requires 0 <= i < |images| => FormEntry("images", FilePart(images[i])))
  }

  /** The three appends and the indexed loop over the selected images. */
  method BuildAdBody(title: string, description: string, images: seq<File>) returns (body: seq<FormEntry>)
    ensures body == AdBody(title, description, images)
  {
    body := [FormEntry("title", TextPart(title))];
    body := body + [FormEntry("description", TextPart(description))];
    var i := 0;
    while i < |images|
      invariant 0 <= i <= |images|
      invariant |body| == 2 + i
      invariant body[0] == FormEntry("title", TextPart(title))
      invariant body[1] == FormEntry("description", TextPart(description))
      invariant forall j :: 0 <= j < i ==> body[2 + j] == FormEntry("images", FilePart(images[j]))
    {
      body := body + [FormEntry("images", FilePart(images[i]))];
      i := i + 1;
    }
  }

  /** Every selected image appears once, at position 2 + its selection index, after title and description. */
  lemma AdBodyLayout(title: string, description: string, images: seq<File>)
    ensures |AdBody(title, description, images)| == 2 + |images|
    ensures AdBody(title, description, images)[0] == FormEntry("title", TextPart(title))
    ensures AdBody(title, description, images)[1] == FormEntry("description", TextPart(description))
    ensures forall i :: 0 <= i < |images| ==>
      AdBody(title, description, images)[2 + i] == FormEntry("images", FilePart(images[i]))
  {
  }

  /**
   * The error text for a non-OK response: the limit message is replaced by a
   * friendlier one, any other truthy message is shown as sent, a missing one
   * gives "Failed to create advertisement"; when decoding the body or reading
   * its `message` throws, the exception's own message.
   */
  function AdErrorText(json: ParsedBody): (r: string)
    ensures json == Parsed(Some(LimitMessage)) ==> r == LimitText
    ensures json.Parsed? && json.message != Some(LimitMessage) && Truthy(json.message) ==> r == json.message.value
    ensures json.Parsed? && !Truthy(json.message) ==> r == CreateFailed
    ensures json.ParseThrew? ==> r == json.error
  {
    match json
    case ParseThrew(e) => e
    case Parsed(message) =>
      if message == Some(LimitMessage) then LimitText else OrElse(message, CreateFailed)
  }

  /** What the awaited request leads to: `/user/` followed by the unset user id on success, otherwise the error text. */
  function AdEffect(outcome: FetchOutcome): (r: Effect)
    ensures r.NavigateTo? <==> outcome.Completed? && outcome.response.ok
    ensures r.NavigateTo? ==> r.path == "/user/" + UserIdText
    ensures outcome.Threw? ==> r == ShowError(outcome.error)
    ensures outcome.Completed? && !outcome.response.ok ==> r == ShowError(AdErrorText(outcome.response.json))
  {
    match outcome
    case Threw(e) => ShowError(e)
    case Completed(response) =>
      if response.ok then NavigateTo("/user/" + UserIdText)
      else ShowError(AdErrorText(response.json))
  }

  /** A decoded server answer never leaves an empty, hence invisible, error. */
  lemma DecodedErrorVisible(message: Option<string>)
    ensures AdErrorText(Parsed(message)) != ""
  {
  }

  /** The error is written only with a new error text; a success leaves the previous one as it was. */
  lemma AdEffectNeverClears(outcome: FetchOutcome)
    ensures AdEffect(outcome).ShowError? <==> !(outcome.Completed? && outcome.response.ok)
    ensures outcome.Completed? && !outcome.response.ok && outcome.response.json.Parsed? ==>
      AdEffect(outcome).message != ""
  {
  }

  /** The page's state. */
  class AddAdvertisementPage {
    var title: string
    var description: string
    var images: seq<File>
    var error: string

    constructor ()
      ensures title == "" && description == "" && images == [] && error == ""
    {
      title, description, images, error := "", "", [], "";
    }

    /** The title input's `onChange`. */
    method SetTitle(value: string)
      modifies this
      ensures title == value
      ensures description == old(description) && images == old(images) && error == old(error)
    {
      title := value;
    }

    /** The description textarea's `onChange`. */
    method SetDescription(value: string)
      modifies this
      ensures description == value
      ensures title == old(title) && images == old(images) && error == old(error)
    {
      description := value;
    }

    /** `handleImageChange`: the selection replaces the previous one. */
    method HandleImageChange(files: seq<File>)
      modifies this
      ensures images == files
      ensures title == old(title) && description == old(description) && error == old(error)
    {
      images := files;
    }

    /** `handleSubmit`, reachable only through the form, which a logged-out visitor never sees. */
    method HandleSubmit(isLoggedIn: bool, storage: Store, outcome: FetchOutcome)
      returns (request: Request, navigation: Option<string>)
      requires PageView(isLoggedIn) == AdForm
      modifies this
      ensures title == old(title) && description == old(description) && images == old(images)
      ensures request == Request("/advertisement/" + UserIdText, Some(BearerHeader(storage)),
                                 AdBody(title, description, images))
      ensures match AdEffect(outcome)
              case NavigateTo(path) => navigation == Some(path) && error == old(error)
              case ShowError(message) => navigation == None && error == message
    {
      var body := BuildAdBody(title, description, images);
      request := Request("/advertisement/" + UserIdText, Some(BearerHeader(storage)), body);
      navigation := None;
      match outcome {
        case Threw(e) =>
          error := e;
        case Completed(response) =>
          if !response.ok {
            error := AdErrorText(response.json);
          } else {
            navigation := Some("/user/" + UserIdText);
          }
      }
    }
  }
}
