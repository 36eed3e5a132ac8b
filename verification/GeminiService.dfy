/**
  The extraction service: the two requests sent to the generative backend
  (image path and URL path) and the post-processing of its reply. The
  backend call itself and `JSON.parse` are parameters: `backend` answers a
  request with a reply, `parse` turns text into an object or fails.
 */
module GeminiService {

  import opened Wrappers
  import opened Types
  import JsStrings

  /** The kinds a property of the response schema may have. */
  datatype SchemaType = StringType | NumberType | ArrayOf(items: SchemaType)

  datatype Property = Property(name: string, kind: SchemaType)

  /** An object schema: its properties, in order, and the required ones. */
  datatype Schema = Schema(properties: seq<Property>, required: seq<string>)

  /** The schema both paths declare for the reply. */
  const ResponseSchema: Schema := Schema(
    [ Property("fullName", StringType),
      Property("emails", ArrayOf(StringType)),
      Property("phoneNumbers", ArrayOf(StringType)),
      Property("jobTitle", StringType),
      Property("company", StringType),
      Property("location", StringType),
      Property("linkedinUrl", StringType),
      Property("summary", StringType),
      Property("confidenceScore", NumberType) ],
    ["fullName", "confidenceScore"])

  function PropertyNames(props: seq<Property>): seq<string>
  {
    seq(|props|, i requires 0 <= i < |props| => props[i].name)
  }

  const ImageMimeType := "image/png"
  const JsonMimeType := "application/json"

  /** What is sent to the backend. The instruction texts are left out; the
      URL request keeps the URL and the name hint it embeds in its prompt. */
  datatype Request =
    | ImageRequest(mimeType: string, payload: Option<string>,
                   responseMimeType: string, schema: Schema)
    | UrlRequest(profileUrl: string, nameHint: string, searchGrounding: bool,
                 responseMimeType: string, schema: Schema)

  /** The image request for a data URI: the payload is the second
      comma-separated field of the URI (`undefined` without a comma), and the
      declared type is PNG whatever the URI says. */
  function ImageRequestFor(dataUri: string): (req: Request)
    ensures req.ImageRequest?
    ensures req.mimeType == ImageMimeType
    ensures req.payload.Some? <==> ',' in dataUri
    ensures req.payload.Some? ==> ',' !in req.payload.value
    ensures req.responseMimeType == JsonMimeType && req.schema == ResponseSchema
  {
    ImageRequest(ImageMimeType, JsStrings.SecondField(dataUri, ','), JsonMimeType, ResponseSchema)
  }

  /** For a data URI `header,base64` the payload is exactly the base64 text,
      and the declared type is still PNG. */
  lemma ImagePayloadOfDataUri(header: string, base64: string)
    requires ',' !in header && ',' !in base64
    ensures ImageRequestFor(header + "," + base64).payload == Some(base64)
    ensures ImageRequestFor(header + "," + base64).mimeType == "image/png"
  {
    JsStrings.SecondFieldOfOneSeparator(header, ',', base64);
  }

  /** The name hint of the URL prompt: the last `/`-separated piece of the
      URL, i.e. the suffix after the last `/` (the whole URL without one). */
  function NameHint(url: string): (hint: string)
    ensures '/' !in hint
    ensures |hint| <= |url| && hint == url[|url| - |hint|..]
    ensures |hint| == |url| || url[|url| - |hint| - 1] == '/'
  {
    JsStrings.LastField(url, '/')
  }

  /** A URL of the form `prefix/segment` hints `segment`. */
  lemma NameHintIsLastSegment(prefix: string, segment: string)
    requires '/' !in segment
    ensures NameHint(prefix + "/" + segment) == segment
  {
    var url := prefix + "/" + segment;
    var hint := NameHint(url);
    assert url[|url| - |segment| - 1] == '/';
    assert url[|url| - |segment|..] == segment;
  }

  /** A URL ending in `/` hints the empty name. */
  lemma NameHintOfTrailingSlash(url: string)
    requires |url| > 0 && url[|url| - 1] == '/'
    ensures NameHint(url) == ""
  {
  }

  /** The URL request: the submitted URL unchanged, its name hint, search
      grounding switched on, and the same schema as the image path. */
  function UrlRequestFor(url: string): (req: Request)
    ensures req.UrlRequest?
    ensures req.profileUrl == url && req.nameHint == NameHint(url)
    ensures req.searchGrounding
    ensures req.responseMimeType == JsonMimeType && req.schema == ResponseSchema
  {
    UrlRequest(url, NameHint(url), true, JsonMimeType, ResponseSchema)
  }

  /** Both paths declare one schema: the nine fields of `ExtractedData`, in
      order, of which exactly `fullName` and `confidenceScore` are required. */
  lemma BothPathsDeclareOneSchema(dataUri: string, url: string)
    ensures ImageRequestFor(dataUri).schema == UrlRequestFor(url).schema
    ensures PropertyNames(ResponseSchema.properties) == ExtractedDataFields
    ensures ResponseSchema.required == ["fullName", "confidenceScore"]
    ensures !ImageRequestFor(dataUri).UrlRequest?
  {
  }

  /** The backend's answer: the call failed, or it replied with a text that
      may be missing. */
  datatype Reply = CallFailed | Replied(text: Option<string>)

  /** How the promise returned by an extraction settles. */
  datatype Outcome = Resolved(record: Record) | Rejected

  /** `response.text || '{}'`: a missing or empty text reads as `{}`, any
      other text is kept. */
  function BodyText(text: Option<string>): (body: string)
    ensures body != ""
    ensures Truthy(text) ==> body == text.value
    ensures !Truthy(text) ==> body == "{}"
  {
    if Truthy(text) then text.value else "{}"
  }

  /** The reply turned into an outcome: a failed call or an unparsable body
      rejects, otherwise the parsed object is the result. */
  function Decode(reply: Reply, parse: string -> Option<Record>): (o: Outcome)
    ensures o.Resolved? <==> reply.Replied? && parse(BodyText(reply.text)).Some?
    ensures o.Resolved? ==> Some(o.record) == parse(BodyText(reply.text))
  {
    match reply
    case CallFailed => Rejected
    case Replied(text) =>
      match parse(BodyText(text))
      case Some(rec) => Resolved(rec)
      case None => Rejected
  }

  /** The image path: it rejects exactly when the call fails or the body
      does not parse, and otherwise resolves to the parsed object untouched. */
  function ExtractFromImage(dataUri: string, backend: Request -> Reply,
                            parse: string -> Option<Record>): (o: Outcome)
    ensures var reply := backend(ImageRequestFor(dataUri));
      o.Rejected? <==> reply.CallFailed? || parse(BodyText(reply.text)).None?
    ensures var reply := backend(ImageRequestFor(dataUri));
      o.Resolved? ==> Some(o.record) == parse(BodyText(reply.text))
  {
    Decode(backend(ImageRequestFor(dataUri)), parse)
  }

  /** A falsy `linkedinUrl` (missing, `null` or empty) becomes the submitted
      URL; a truthy one is kept, and no other field changes. */
  function DefaultLinkedinUrl(rec: Record, url: string): (r: Record)
    ensures FieldTruthy(rec.linkedinUrl) ==> r.linkedinUrl == rec.linkedinUrl
    ensures !FieldTruthy(rec.linkedinUrl) ==> r.linkedinUrl == Present(url)
    ensures r == rec.(linkedinUrl := r.linkedinUrl)
  {
    if !FieldTruthy(rec.linkedinUrl) then rec.(linkedinUrl := Present(url)) else rec
  }

  /** Defaulting twice is defaulting once. */
  lemma DefaultLinkedinUrlIdempotent(rec: Record, url: string)
    ensures DefaultLinkedinUrl(DefaultLinkedinUrl(rec, url), url) == DefaultLinkedinUrl(rec, url)
  {
  }

  /** The URL path: the parsed reply with `linkedinUrl` defaulted to the
      submitted URL, so a resolved result for a non-empty URL always links
      back to a profile. */
  function ExtractFromUrl(url: string, backend: Request -> Reply,
                          parse: string -> Option<Record>): (o: Outcome)
    ensures o.Resolved? <==> Decode(backend(UrlRequestFor(url)), parse).Resolved?
    ensures o.Resolved? ==>
      o.record == DefaultLinkedinUrl(Decode(backend(UrlRequestFor(url)), parse).record, url)
    ensures o.Resolved? && url != "" ==> FieldTruthy(o.record.linkedinUrl)
  {
    match Decode(backend(UrlRequestFor(url)), parse)
    case Resolved(rec) => Resolved(DefaultLinkedinUrl(rec, url))
    case Rejected => Rejected
  }

  /** A reply without text, or with empty text, is the empty object on the
      image path: every field is missing and nothing rejects. */
  lemma MissingTextIsEmptyObjectForImage(dataUri: string, backend: Request -> Reply,
                                        parse: string -> Option<Record>)
    requires parse("{}") == Some(EmptyRecord)
    requires backend(ImageRequestFor(dataUri)) == Replied(None)
          || backend(ImageRequestFor(dataUri)) == Replied(Some(""))
    ensures ExtractFromImage(dataUri, backend, parse) == Resolved(EmptyRecord)
  {
  }

  /** On the URL path the same reply gives the empty object carrying only
      the submitted URL. */
  lemma MissingTextIsEmptyObjectForUrl(url: string, backend: Request -> Reply,
                                      parse: string -> Option<Record>)
    requires parse("{}") == Some(EmptyRecord)
    requires backend(UrlRequestFor(url)) == Replied(None)
          || backend(UrlRequestFor(url)) == Replied(Some(""))
    ensures ExtractFromUrl(url, backend, parse) == Resolved(EmptyRecord.(linkedinUrl := Present(url)))
  {
    assert Decode(backend(UrlRequestFor(url)), parse) == Resolved(EmptyRecord);
    assert !FieldTruthy(EmptyRecord.linkedinUrl);
  }

  /** A reply that names a profile keeps it: the default never overrides a
      truthy `linkedinUrl`. */
  lemma ReportedProfileIsKept(url: string, backend: Request -> Reply,
                              parse: string -> Option<Record>)
    requires ExtractFromUrl(url, backend, parse).Resolved?
    requires FieldTruthy(Decode(backend(UrlRequestFor(url)), parse).record.linkedinUrl)
    ensures ExtractFromUrl(url, backend, parse).record
         == Decode(backend(UrlRequestFor(url)), parse).record
  {
  }
}
