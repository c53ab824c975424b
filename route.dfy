/**
  The `POST` handler of app/api/openai/route.ts: which parser a request
  goes to, and which status the response carries.

  The environment's two API-key variables, the request body (or the
  message of its JSON parse failure), base64 decoding and the awaited
  parser call are parameters: `decode` stands for
  `Buffer.from(b, "base64").toString("utf-8")` and `run` for the parser
  functions, which either give a profile or throw.
*/
module Route {
  import opened Wrappers
  import opened Text
  import opened Profile

  /** The body fields the handler reads; each is a string or absent. */
  datatype Body = Body(
    content: Option<string>, base64Data: Option<string>, mimeType: Option<string>,
    fileType: Option<string>, linkedinUrl: Option<string>)

  /** A JavaScript string-or-undefined in a condition: present and non-empty. */
  predicate Given(v: Option<string>) {
    v.Some? && v.value != ""
  }

  /** `v || fallback`. */
  function OrElse(v: Option<string>, fallback: string): (r: string)
    ensures Given(v) ==> r == v.value
    ensures !Given(v) ==> r == fallback
  {
    if Given(v) then v.value else fallback
  }

  /** The parser call chosen, with the arguments it gets. */
  datatype Call =
    | LinkedInCall(url: string)
    | TextCall(text: string, name: string)
    | ImageCall(data: string, mimeType: string, name: string)
    | DocumentCall(data: string, mimeType: string, name: string)

  const InvalidRequest := "Invalid request." + " Provide content," + " base64Data," + " or linkedinUrl."
  const NotConfigured := "not configured"
  const MissingKey := "OpenAI API key is " + NotConfigured + ". Please set OPENAI_API_KEY in your environment."

  /** `fileType?.toLowerCase().endsWith(suffix)`: false when `fileType` is absent. */
  predicate NameEndsWith(fileType: Option<string>, suffix: string) {
    fileType.Some? && EndsWith(ToLower(fileType.value), suffix)
  }

  /** An upload read as text: plain-text type, or a `.txt`/`.md` name in any case. */
  predicate IsTextUpload(mimeType: string, fileType: Option<string>) {
    mimeType == "text/plain" || NameEndsWith(fileType, ".txt") || NameEndsWith(fileType, ".md")
  }

  /** The if/else chain of lines 37-53. */
  function Dispatch(body: Body, decode: string -> string): (r: Result<Call, string>)
    ensures Given(body.linkedinUrl) ==> r == Ok(LinkedInCall(body.linkedinUrl.value))
    ensures !Given(body.linkedinUrl) && Given(body.content) ==>
      r == Ok(TextCall(body.content.value, OrElse(body.fileType, "text file")))
    ensures !Given(body.linkedinUrl) && !Given(body.content) && Given(body.base64Data) && Given(body.mimeType) ==>
      r == Ok(UploadCall(body.base64Data.value, body.mimeType.value, body.fileType, decode))
    ensures r.Err? <==> !Given(body.linkedinUrl) && !Given(body.content) && !(Given(body.base64Data) && Given(body.mimeType))
    ensures r.Err? ==> r.error == InvalidRequest
  {
    if Given(body.linkedinUrl) then Ok(LinkedInCall(body.linkedinUrl.value))
    else if Given(body.content) then Ok(TextCall(body.content.value, OrElse(body.fileType, "text file")))
    else if Given(body.base64Data) && Given(body.mimeType) then
      Ok(UploadCall(body.base64Data.value, body.mimeType.value, body.fileType, decode))
    else Err(InvalidRequest)
  }

  /** The upload branch of lines 43-50. */
  function UploadCall(data: string, mimeType: string, fileType: Option<string>, decode: string -> string): (r: Call)
    ensures IsTextUpload(mimeType, fileType) ==> r == TextCall(decode(data), OrElse(fileType, "text file"))
    ensures !IsTextUpload(mimeType, fileType) && StartsWith(mimeType, "image/") ==>
      r == ImageCall(data, mimeType, OrElse(fileType, "resume image"))
    ensures !IsTextUpload(mimeType, fileType) && !StartsWith(mimeType, "image/") ==>
      r == DocumentCall(data, mimeType, OrElse(fileType, "document"))
  {
    if IsTextUpload(mimeType, fileType) then TextCall(decode(data), OrElse(fileType, "text file"))
    else if StartsWith(mimeType, "image/") then ImageCall(data, mimeType, OrElse(fileType, "resume image"))
    else DocumentCall(data, mimeType, OrElse(fileType, "document"))
  }

  /** What a parser call throws: an `Error` with its message, or some other value. */
  datatype Thrown = ErrorThrown(message: string) | OtherThrown

  function MessageOf(t: Thrown): string {
    match t
    case ErrorThrown(m) => m
    case OtherThrown => "Unknown error"
  }

  datatype Payload = ProfilePayload(profile: ProfileData) | ErrorPayload(error: string)
  datatype Response = Response(status: int, payload: Payload)

  /** The catch block's status: 500 when the message says something is not configured, else 400. */
  function ErrorStatus(message: string): (r: int)
    ensures r == 500 <==> Contains(message, NotConfigured)
    ensures r == 400 <==> !Contains(message, NotConfigured)
  {
    if Contains(message, NotConfigured) then 500 else 400
  }

  /** The response of `POST`. */
  function Post(openaiKey: Option<string>, publicKey: Option<string>, body: Result<Body, Thrown>,
                decode: string -> string, run: Call -> Result<ProfileData, Thrown>): (r: Response)
    ensures !Given(openaiKey) && !Given(publicKey) ==> r == Response(500, ErrorPayload(MissingKey))
    ensures r.status == 200 <==> r.payload.ProfilePayload?
    ensures r.status in {200, 400, 500}
    ensures (Given(openaiKey) || Given(publicKey)) && body.Ok? && Dispatch(body.value, decode).Ok? ==>
      match run(Dispatch(body.value, decode).value)
      case Ok(profile) => r == Response(200, ProfilePayload(profile))
      case Err(t) => r == Response(ErrorStatus(MessageOf(t)), ErrorPayload(MessageOf(t)))
  {
    if !Given(openaiKey) && !Given(publicKey) then Response(500, ErrorPayload(MissingKey))
    else
      match Handle(body, decode, run)
      case Ok(profile) => Response(200, ProfilePayload(profile))
      case Err(t) => Response(ErrorStatus(MessageOf(t)), ErrorPayload(MessageOf(t)))
  }

  /** The body of the `try` after the key check: body parse, dispatch, parser call. */
  function Handle(body: Result<Body, Thrown>, decode: string -> string,
                  run: Call -> Result<ProfileData, Thrown>): (r: Result<ProfileData, Thrown>)
    ensures body.Err? ==> r == Err(body.error)
    ensures body.Ok? && Dispatch(body.value, decode).Err? ==> r == Err(ErrorThrown(InvalidRequest))
    ensures body.Ok? && Dispatch(body.value, decode).Ok? ==> r == run(Dispatch(body.value, decode).value)
  {
    match body
    case Err(t) => Err(t)
    case Ok(b) =>
      match Dispatch(b, decode)
      case Err(m) => Err(ErrorThrown(m))
      case Ok(call) => run(call)
  }

  /** A string lacking some character of `p` does not contain `p`. */
  lemma MissingCharNotContained(s: string, p: string, k: nat)
    requires k < |p|
    requires p[k] !in s
    ensures !Contains(s, p)
  {
  }

  /** A request naming no source is answered with 400 and the invalid-request message. */
  lemma InvalidRequestIs400(openaiKey: Option<string>, publicKey: Option<string>, body: Body,
                            decode: string -> string, run: Call -> Result<ProfileData, Thrown>)
    requires Given(openaiKey) || Given(publicKey)
    requires !Given(body.linkedinUrl) && !Given(body.content) && !(Given(body.base64Data) && Given(body.mimeType))
    ensures Post(openaiKey, publicKey, Ok(body), decode, run) == Response(400, ErrorPayload(InvalidRequest))
  {
    // "not configured" has a 'g'; the invalid-request message has none.
    assert NotConfigured[9] == 'g';
    assert 'g' !in InvalidRequest;
    MissingCharNotContained(InvalidRequest, NotConfigured, 9);
  }

  /** The missing-key message would itself map to 500 in the catch block. */
  lemma MissingKeyMessageIs500()
    ensures ErrorStatus(MissingKey) == 500
  {
    assert MissingKey[18..32] == NotConfigured;
    ContainsAt(MissingKey, NotConfigured, 18);
  }

  /** A `linkedinUrl` wins over every other field. */
  lemma LinkedInFirst(body: Body, decode: string -> string)
    requires Given(body.linkedinUrl)
    ensures Dispatch(body, decode).Ok? && Dispatch(body, decode).value.LinkedInCall?
  {
  }

  /** A `.MD` or `.TXT` name sends an upload to the text parser whatever its declared type. */
  lemma UploadedMarkdownIsText(data: string, mimeType: string, name: string, decode: string -> string)
    requires EndsWith(ToLower(name), ".md")
    ensures UploadCall(data, mimeType, Some(name), decode) == TextCall(decode(data), if name == "" then "text file" else name)
  {
  }
}
