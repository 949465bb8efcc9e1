/**
 * Generating a recommendation (`get_groq_provider` and
 * `generate_ai_recommendation_groq`). The Groq service is an oracle: a
 * client object whose `respond` function says how the service answers a
 * request, and which logs every request it is sent.
 */
module RecommendationGenerator {
  import opened Wrappers
  import opened Text
  import opened GuideIndex
  import opened QuestionComposer
  import opened PromptBuilder

  /** A completion request: the prompt and the fixed decoding settings. */
  datatype Request = Request(prompt: string, maxTokens: nat, temperature: int, useCot: bool)

  /** What the service does with a request: return a text, or raise an exception. */
  datatype Reply = Completion(text: string) | Raised(message: string)

  /** The typed outcome of one generation. */
  datatype Outcome =
    | MissingApiKey           // no key in the session: the service is never called
    | Generated(text: string) // the service's completion
    | BackendError(message: string) // the service raised; the message is only displayed

  /** Settings passed with every request. */
  const MaxTokens := 1500
  const Temperature := 0

  /** The string returned when the session has no API key. */
  const MissingKeyMessage := "Erreur: clé API non fournie."

  /**
   * `st.session_state.get('api_key')` is truthy: the key was entered and is
   * not empty.
   */
  predicate HasApiKey(apiKey: Option<string>) {
    apiKey.Some? && apiKey.value != ""
  }

  /**
   * The request issued for a finding, its guide row and the additional
   * context, with the prompt filled in from template `t` (the application
   * uses `SourcePrompt`, so its prompt is `BuildPrompt`).
   */
  function RequestFor(t: PromptTemplate, finding: Finding, row: GuideRow, context: string): (req: Request)
    requires HasPromptColumns(row)
    ensures req.maxTokens == 1500 && req.temperature == 0 && req.useCot
    ensures Occurs(context, req.prompt) && Occurs(finding.auditComment, req.prompt)
    ensures Occurs(t.correction, req.prompt) && Occurs(t.correctiveAction, req.prompt)
    ensures req.prompt == Render(t, finding, row, context)
  {
    RenderContainsInputs(t, finding, row, context);
    Request(Render(t, finding, row, context), MaxTokens, Temperature, true)
  }

  /**
   * The outcome of generating with the given key and service. The key is
   * checked before anything else; the guide columns are read only when it is
   * present, which is when the source's unguarded indexing needs them.
   */
  function Generate(apiKey: Option<string>, t: PromptTemplate, finding: Finding, row: GuideRow, context: string,
                    respond: Request -> Reply): (o: Outcome)
    requires HasApiKey(apiKey) ==> HasPromptColumns(row)
    ensures o.MissingApiKey? <==> !HasApiKey(apiKey)
    ensures o.Generated? ==> respond(RequestFor(t, finding, row, context)) == Completion(o.text)
    ensures o.BackendError? ==> respond(RequestFor(t, finding, row, context)).Raised?
  {
    if !HasApiKey(apiKey) then MissingApiKey
    else match respond(RequestFor(t, finding, row, context))
      case Completion(text) => Generated(text)
      case Raised(m) => BackendError(m)
  }

  /**
   * The Python value the generator returns and the session stores: the
   * missing-key message, the completion, or `None` after an exception.
   */
  function Returned(o: Outcome): (v: Option<string>)
    ensures v.None? <==> o.BackendError?
    ensures o.MissingApiKey? ==> v == Some(MissingKeyMessage)
    ensures o.Generated? ==> v == Some(o.text)
  {
    match o
    case MissingApiKey => Some(MissingKeyMessage)
    case Generated(t) => Some(t)
    case BackendError(_) => None
  }

  /**
   * Without a key the outcome is the same whatever the service would have
   * answered, and the value returned is the fixed error string.
   */
  lemma NoKeyIndependentOfService(apiKey: Option<string>, t: PromptTemplate, finding: Finding, row: GuideRow,
                                  context: string, s1: Request -> Reply, s2: Request -> Reply)
    requires !HasApiKey(apiKey)
    ensures Generate(apiKey, t, finding, row, context, s1) == Generate(apiKey, t, finding, row, context, s2)
    ensures Returned(Generate(apiKey, t, finding, row, context, s1)) == Some(MissingKeyMessage)
  {
  }

  /**
   * The client of the completion service. `respond` stands for the service;
   * `sent` records every request issued through this client, in order.
   */
  class GroqClient {
    const respond: Request -> Reply
    ghost var sent: seq<Request>

    constructor (respond: Request -> Reply)
      ensures this.respond == respond && sent == []
    {
      this.respond := respond;
      sent := [];
    }

    /** `groq.generate(prompt, max_tokens=1500, temperature=0, use_cot=True)`. */
    method Complete(req: Request) returns (reply: Reply)
      modifies this
      ensures sent == old(sent) + [req]
      ensures reply == respond(req)
    {
      reply := respond(req);
      sent := sent + [req];
    }
  }

  /** The requests one generation sends: none without a key, otherwise exactly one. */
  function RequestsSent(apiKey: Option<string>, t: PromptTemplate, finding: Finding, row: GuideRow, context: string): (rs: seq<Request>)
    requires HasApiKey(apiKey) ==> HasPromptColumns(row)
    ensures |rs| <= 1 && (rs == [] <==> !HasApiKey(apiKey))
    ensures HasApiKey(apiKey) ==> rs == [RequestFor(t, finding, row, context)]
  {
    if HasApiKey(apiKey) then [RequestFor(t, finding, row, context)] else []
  }

  /**
   * `generate_ai_recommendation_groq`: checks the key, then sends the prompt
   * through the client and turns an exception into `BackendError`.
   */
  method GenerateRecommendation(apiKey: Option<string>, t: PromptTemplate, finding: Finding, row: GuideRow,
                                context: string, client: GroqClient) returns (o: Outcome)
    requires HasApiKey(apiKey) ==> HasPromptColumns(row)
    modifies client
    ensures o == Generate(apiKey, t, finding, row, context, client.respond)
    ensures client.sent == old(client.sent) + RequestsSent(apiKey, t, finding, row, context)
  {
    if !HasApiKey(apiKey) {
      return MissingApiKey;
    }
    var reply := client.Complete(RequestFor(t, finding, row, context));
    match reply
    case Completion(text) => o := Generated(text);
    case Raised(m) => o := BackendError(m);
  }
}
