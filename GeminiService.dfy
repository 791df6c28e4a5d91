/**
 * The client of the hosted model. It turns the conversation into the model's
 * request shape (history turns, then the new turn with an optional inline
 * image), sends one request, and normalises the reply: a fixed apology when the
 * text is empty, no citations when the metadata is missing. The transport
 * itself is an oracle: a function from the request to what the call produced.
 */
module GeminiService {
  import opened Wrappers
  import opened JsString
  import opened Types

  const ModelName: string := "gemini-3-pro-preview"
  const ImageMimeType: string := "image/jpeg"
  const DefaultExpertise: string := "general tech"
  const FallbackText: string := "I apologize, but I couldn't generate a solution. Please try rephrasing."
  const MissingKeyError: string := "API_KEY is not defined"

  /** The roles the model's request format knows. */
  datatype ApiRole = UserTurn | ModelTurn

  datatype Part =
    | TextPart(text: string)
    /** `data` is absent when the image string has no comma. */
    | InlineData(mimeType: string, data: Option<string>)

  datatype Content = Content(role: ApiRole, parts: seq<Part>)

  /** What is sent: the model, the domain named in the instruction text, and the turns. */
  datatype Request = Request(model: string, expertise: string, contents: seq<Content>)

  datatype GroundingMetadata = GroundingMetadata(groundingChunks: Option<seq<GroundingChunk>>)

  datatype Candidate = Candidate(groundingMetadata: Option<GroundingMetadata>)

  /** The parts of the service's response that are read; every level may be missing. */
  datatype Response = Response(text: Option<string>, candidates: Option<seq<Candidate>>)

  /** What the remote call produced: a response, or the error it raised. */
  datatype CallOutcome = Returned(response: Response) | Threw(error: string)

  /** What the client hands back to the application. */
  datatype Reply = Reply(text: string, groundingLinks: seq<GroundingChunk>)

  /** A constructed client; it exists only when an API key was configured. */
  datatype Service = Service(apiKey: string)

  /** Construction fails with a fixed error when the key is missing or empty. */
  function NewService(apiKey: Option<string>): (r: Result<Service, string>)
    ensures r.Success? <==> apiKey.Some? && apiKey.value != ""
    ensures r.Success? ==> r.value.apiKey == apiKey.value
    ensures r.Failure? ==> r.error == MissingKeyError
  {
    if apiKey.Some? && apiKey.value != "" then Success(Service(apiKey.value)) else Failure(MissingKeyError)
  }

  /** JavaScript truthiness of an optional string: present and not empty. */
  predicate Truthy(s: Option<string>) {
    s.Some? && s.value != ""
  }

  /** `category || 'general tech'`. */
  function Expertise(category: Option<string>): (e: string)
    ensures e != ""
    ensures Truthy(category) ==> e == category.value
    ensures !Truthy(category) ==> e == DefaultExpertise
  {
    if Truthy(category) then category.value else DefaultExpertise
  }

  /** `image.split(',')[1]`: the second comma-separated field, absent when there is no comma. */
  function ImagePayload(image: string): (data: Option<string>)
    ensures data.Some? <==> ',' in image
    ensures data.Some? ==> ',' !in data.value
  {
    var fields := Split(image, ',');
    SplitCount(image, ',');
    SplitPieces(image, ',');
    if |fields| >= 2 then Some(fields[1]) else None
  }

  /** For a data URI `header,payload` the payload is what follows the comma. */
  lemma DataUriPayload(header: string, payload: string)
    requires ',' !in header && ',' !in payload
    ensures ImagePayload(header + "," + payload) == Some(payload)
  {
    SplitAtFirst(header, payload, ',');
    SplitNoSeparator(payload, ',');
  }

  /** A history message as a turn of the request. */
  function HistoryTurn(m: Message): Content
  {
    Content(if m.role == User then UserTurn else ModelTurn, [TextPart(m.content)])
  }

  /**
   * What the request for a turn must be: one turn per history message with
   * its role mapped and its text as the only part, then a user turn whose first
   * part is the new text, followed by the image part exactly when an image is given.
   */
  predicate RequestFor(req: Request, history: seq<Message>, currentMessage: string,
                       image: Option<string>, category: Option<string>)
  {
    && req.model == ModelName
    && req.expertise == Expertise(category)
    && |req.contents| == |history| + 1
    && (forall i :: 0 <= i < |history| ==>
          && req.contents[i].role == (if history[i].role == User then UserTurn else ModelTurn)
          && req.contents[i].parts == [TextPart(history[i].content)])
    && var last := req.contents[|history|];
       && last.role == UserTurn
       && |last.parts| == (if Truthy(image) then 2 else 1)
       && last.parts[0] == TextPart(currentMessage)
       && (Truthy(image) ==> last.parts[1] == InlineData(ImageMimeType, ImagePayload(image.value)))
  }

  /** The request is fully determined by the turn. */
  lemma RequestForUnique(a: Request, b: Request, history: seq<Message>, currentMessage: string,
                         image: Option<string>, category: Option<string>)
    requires RequestFor(a, history, currentMessage, image, category)
    requires RequestFor(b, history, currentMessage, image, category)
    ensures a == b
  {
    var n := |history|;
    forall i | 0 <= i < n ensures a.contents[i] == b.contents[i] {
    }
    var la, lb := a.contents[n], b.contents[n];
    assert la.parts == lb.parts by {
      if Truthy(image) {
        assert la.parts == [la.parts[0], la.parts[1]];
        assert lb.parts == [lb.parts[0], lb.parts[1]];
      } else {
        assert la.parts == [la.parts[0]];
        assert lb.parts == [lb.parts[0]];
      }
    }
    assert a.contents == b.contents;
  }

  /** Builds the request: the history mapped, then the new turn with its parts pushed one by one. */
  method BuildRequest(history: seq<Message>, currentMessage: string,
                      image: Option<string>, category: Option<string>) returns (req: Request)
    ensures RequestFor(req, history, currentMessage, image, category)
  {
    var contents := seq(|history|, i requires 0 <= i < |history| => HistoryTurn(history[i]));
    var parts := [TextPart(currentMessage)];
    if Truthy(image) {
      parts := parts + [InlineData(ImageMimeType, ImagePayload(image.value))];
    }
    contents := contents + [Content(UserTurn, parts)];
    req := Request(ModelName, Expertise(category), contents);
  }

  /** `response.text || fallback`. */
  function ReplyText(text: Option<string>): (t: string)
    ensures t != ""
    ensures Truthy(text) ==> t == text.value
    ensures !Truthy(text) ==> t == FallbackText
  {
    if Truthy(text) then text.value else FallbackText
  }

  /** `response.candidates?.[0]?.groundingMetadata?.groundingChunks || []`. */
  function Citations(candidates: Option<seq<Candidate>>): (links: seq<GroundingChunk>)
  {
    if candidates.Some? && |candidates.value| > 0
       && candidates.value[0].groundingMetadata.Some?
       && candidates.value[0].groundingMetadata.value.groundingChunks.Some?
    then candidates.value[0].groundingMetadata.value.groundingChunks.value
    else []
  }

  /** The citations are the first candidate's chunks when every link of the chain is there, otherwise none. */
  lemma CitationsChain(candidates: Option<seq<Candidate>>)
    ensures candidates.None? ==> Citations(candidates) == []
    ensures candidates == Some([]) ==> Citations(candidates) == []
    ensures forall c: Candidate, rest: seq<Candidate> :: candidates == Some([c] + rest) ==>
      Citations(candidates) ==
        if c.groundingMetadata.Some? && c.groundingMetadata.value.groundingChunks.Some?
        then c.groundingMetadata.value.groundingChunks.value else []
  {
  }

  /** The outcome of the call as the client reports it: errors pass through unchanged. */
  function Normalise(outcome: CallOutcome): (r: Result<Reply, string>)
    ensures r.Failure? <==> outcome.Threw?
    ensures r.Failure? ==> r.error == outcome.error
    ensures r.Success? ==> r.value.text != ""
  {
    match outcome
    case Threw(e) => Failure(e)
    case Returned(resp) => Success(Reply(ReplyText(resp.text), Citations(resp.candidates)))
  }

  /**
   * One call: build the request, hand it to the transport once (no retry),
   * normalise what comes back. `sent` is the request the transport received.
   * `service` only witnesses that a client was built: its key is held by the
   * transport, which stands for the remote call.
   */
  method Troubleshoot(service: Service, history: seq<Message>, currentMessage: string,
                      image: Option<string>, category: Option<string>,
                      transport: Request -> CallOutcome)
    returns (r: Result<Reply, string>, sent: Request)
    ensures RequestFor(sent, history, currentMessage, image, category)
    ensures r == Normalise(transport(sent))
  {
    var req := BuildRequest(history, currentMessage, image, category);
    sent := req;
    r := Normalise(transport(req));
  }
}
