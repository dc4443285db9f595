/** The `POST /analyse` handler: it defaults the request fields, rejects a
    request that carries neither a prompt nor an image, builds the ordered
    content parts sent to the generative model, and maps the model's answer
    to exactly one HTTP reply.

    The model call and `JSON.parse` are not modelled; they are the parameters
    `call` (text, or `None` when the call fails or returns no text) and
    `parse` (the parsed value, or `None` when the text is not JSON). */
module Analyse {
  import opened Values

  const DefaultMimeType := "image/jpeg"
  const FallbackText := "Please analyse the plant image and return the required JSON strictly following the schema."
  const EmptyRequestError := "Please provide a prompt or an image."
  const AnalysisFailedError := "Analysis failed"

  /** The request after defaulting: prompt and mime type are plain strings,
      the image is kept as it arrived and only its truthiness is tested. */
  datatype Request = Request(prompt: string, image: Option<string>, mimeType: string)

  /** A content part of the model request: `{ text }` or
      `{ inlineData: { mimeType, data } }`. */
  datatype Part = Text(text: string) | InlineData(mimeType: string, data: string)

  /** What the handler does before any model call: reply 400, or invoke the
      model with these parts. */
  datatype Invocation = Rejected(error: string) | Invoke(parts: seq<Part>)

  /** A reply body: `{ error }` or the parsed model output. */
  datatype ReplyBody<J> = ErrorJson(error: string) | Parsed(value: J)

  datatype Reply<J> = Reply(status: int, body: ReplyBody<J>)

  /** One handled request: the model calls made, in order, and the reply. */
  datatype Exchange<J> = Exchange(calls: seq<seq<Part>>, reply: Reply<J>)

  /** `req.body && req.body.prompt`, and likewise for the other fields. */
  function PromptOf(body: Option<AnalyseBody>): Option<string> {
    if body.Some? then body.value.prompt else None
  }

  function ImageOf(body: Option<AnalyseBody>): Option<string> {
    if body.Some? then body.value.image else None
  }

  function MimeTypeOf(body: Option<AnalyseBody>): Option<string> {
    if body.Some? then body.value.mimeType else None
  }

  /** Reads and defaults the three request fields. */
  function Normalise(body: Option<AnalyseBody>): (r: Request)
    ensures var p := PromptOf(body);
            (Truthy(p) ==> r.prompt == p.value) && (!Truthy(p) ==> r.prompt == "")
    ensures var m := MimeTypeOf(body);
            (Truthy(m) ==> r.mimeType == m.value) && (!Truthy(m) ==> r.mimeType == DefaultMimeType)
    ensures r.image == ImageOf(body)
    ensures r.mimeType != ""
  {
    Request(OrElse(PromptOf(body), ""),
            ImageOf(body),
            OrElse(MimeTypeOf(body), DefaultMimeType))
  }

  /** Writes a normalised request back as a body with every field present. */
  function Denormalise(r: Request): AnalyseBody {
    AnalyseBody(Some(r.prompt), r.image, Some(r.mimeType))
  }

  /** Normalising is idempotent: a body that already carries the defaults
      comes through unchanged. */
  lemma NormaliseIdempotent(body: Option<AnalyseBody>)
    ensures Normalise(Some(Denormalise(Normalise(body)))) == Normalise(body)
  {
  }

  /** Whether an image was sent (`if (image)`). */
  predicate HasImage(r: Request) {
    Truthy(r.image)
  }

  /** The ordered parts: one text part, then the inline image if one was
      sent. */
  function BuildParts(r: Request): (parts: seq<Part>)
    ensures 1 <= |parts| <= 2
    ensures |parts| == 2 <==> HasImage(r)
    ensures parts[0].Text?
    ensures r.prompt != "" ==> parts[0].text == r.prompt
    ensures r.prompt == "" ==> parts[0].text == FallbackText
    ensures HasImage(r) ==> parts[1] == InlineData(r.mimeType, r.image.value)
  {
    var text := if r.prompt != "" then Text(r.prompt) else Text(FallbackText);
    if HasImage(r) then [text, InlineData(r.mimeType, r.image.value)] else [text]
  }

  /** The request is refused before any model call when neither a prompt
      nor an image is given; otherwise the model is invoked with the parts. */
  function Prepare(body: Option<AnalyseBody>): (inv: Invocation)
    ensures inv.Rejected? <==> !Truthy(PromptOf(body)) && !Truthy(ImageOf(body))
    ensures inv.Rejected? ==> inv.error == EmptyRequestError
    ensures inv.Invoke? ==> inv.parts == BuildParts(Normalise(body))
  {
    var r := Normalise(body);
    if r.prompt == "" && !HasImage(r) then Rejected(EmptyRequestError)
    else Invoke(BuildParts(r))
  }

  /** Number of text parts in a parts list. */
  function CountText(parts: seq<Part>): nat
    decreases |parts|
  {
    if |parts| == 0 then 0
    else (if parts[0].Text? then 1 else 0) + CountText(parts[1..])
  }

  /** Number of inline-data parts in a parts list. */
  function CountInline(parts: seq<Part>): nat
    decreases |parts|
  {
    if |parts| == 0 then 0
    else (if parts[0].InlineData? then 1 else 0) + CountInline(parts[1..])
  }

  /** Every accepted request carries exactly one text part, and one inline
      part exactly when an image was sent. */
  lemma AcceptedPartsShape(body: Option<AnalyseBody>)
    requires Prepare(body).Invoke?
    ensures CountText(Prepare(body).parts) == 1
    ensures CountInline(Prepare(body).parts) == (if Truthy(ImageOf(body)) then 1 else 0)
  {
    var parts := Prepare(body).parts;
    assert CountText(parts[1..]) == 0 && CountInline(parts[1..]) == (if |parts| == 2 then 1 else 0) by {
      if |parts| == 2 {
        assert parts[1..][1..] == [];
      }
    }
  }

  /** The text the model receives for a request. */
  function SentText(r: Request): string {
    if r.prompt == "" then FallbackText else r.prompt
  }

  /** Two requests the model cannot tell apart: the same text is sent,
      both or neither carry an image, and when they do, the image data and
      mime type agree. The mime type of a request without an image is never
      sent. */
  predicate SameToModel(r1: Request, r2: Request) {
    && SentText(r1) == SentText(r2)
    && HasImage(r1) == HasImage(r2)
    && (HasImage(r1) ==> r1.image.value == r2.image.value && r1.mimeType == r2.mimeType)
  }

  /** The parts determine the request up to what the model cannot see: two
      requests give the same parts exactly when they agree on the sent text
      and the image. The one ambiguity in the text is that an empty prompt
      and a prompt equal to the fallback sentence send the same text. */
  lemma BuildPartsInjective(r1: Request, r2: Request)
    ensures BuildParts(r1) == BuildParts(r2) <==> SameToModel(r1, r2)
  {
    var p1, p2 := BuildParts(r1), BuildParts(r2);
    if p1 == p2 {
      assert p1[0].text == SentText(r1) && p2[0].text == SentText(r2);
      if HasImage(r1) {
        assert p1[1] == p2[1];
      }
    }
  }

  /** A prompt equal to the fallback sentence is indistinguishable, to the
      model, from an image sent with no prompt at all. */
  lemma FallbackPromptIndistinguishable(image: string, mimeType: Option<string>)
    requires image != ""
    ensures Prepare(Some(AnalyseBody(Some(FallbackText), Some(image), mimeType)))
         == Prepare(Some(AnalyseBody(None, Some(image), mimeType)))
  {
  }

  /** Handles one request. At most one model call is made, none for a
      rejected request, and the reply is 400, 200 with the parsed model
      text, or 500 "Analysis failed". */
  function Handle<J>(body: Option<AnalyseBody>, call: seq<Part> -> Option<string>, parse: string -> Option<J>): (ex: Exchange<J>)
    ensures ex.reply.status in {200, 400, 500}
    ensures ex.reply.status == 400 <==> !Truthy(PromptOf(body)) && !Truthy(ImageOf(body))
    ensures ex.reply.status == 400 <==> |ex.calls| == 0
    ensures ex.reply.status == 400 ==> ex.reply.body == ErrorJson(EmptyRequestError)
    ensures ex.reply.status != 400 ==> ex.calls == [BuildParts(Normalise(body))]
    ensures ex.reply.status == 200 <==>
              ex.reply.status != 400 && call(ex.calls[0]).Some? && parse(call(ex.calls[0]).value).Some?
    ensures ex.reply.status == 200 ==> ex.reply.body == Parsed(parse(call(ex.calls[0]).value).value)
    ensures ex.reply.status == 500 ==> ex.reply.body == ErrorJson(AnalysisFailedError)
  {
    match Prepare(body)
    case Rejected(e) => Exchange([], Reply(400, ErrorJson(e)))
    case Invoke(parts) =>
      var reply :=
        match call(parts)
        case None => Reply(500, ErrorJson(AnalysisFailedError))
        case Some(text) =>
          match parse(text)
          case None => Reply(500, ErrorJson(AnalysisFailedError))
          case Some(v) => Reply(200, Parsed(v));
      Exchange([parts], reply)
  }

  /** A model that fails, and one whose text does not parse, both end in the
      same 500 reply: the two failures are not told apart. */
  lemma CallAndParseFailuresAgree<J>(body: Option<AnalyseBody>, text: string, parse: string -> Option<J>)
    requires Prepare(body).Invoke?
    requires parse(text).None?
    ensures Handle(body, _ => None, parse).reply == Handle(body, _ => Some(text), parse).reply
    ensures Handle(body, _ => None, parse).reply == Reply(500, ErrorJson(AnalysisFailedError))
  {
  }
}
