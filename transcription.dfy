/** The transcription front-end: a lazily created OpenAI client guarded by the configured
    API key, a fixed request shape, and the mapping from an upstream failure to the error
    the service throws. The network call itself is an oracle: the `Reply` the endpoint would
    give is passed in, and the service records every request it actually sends. */
module Transcription {
  import opened Wrappers
  import opened Js
  import opened Config

  /** An OpenAI client, constructed with the key it authenticates with. */
  datatype Client = Client(apiKey: string)

  /** The arguments of `openai.audio.transcriptions.create`. */
  datatype Request = Request(file: string, model: string, language: string, responseFormat: string)

  /** What the endpoint answers when it is called: the transcript, or a thrown error with
      its `status` (if any), its `message` (if any) and its string rendering. */
  datatype Reply =
    | Transcript(text: string)
    | Failed(status: Option<int>, message: Option<string>, rendered: string)

  /** The errors `transcribeAudio` throws, one per distinct message. */
  datatype TranscribeError =
    | KeyNotConfigured
    | InvalidKey
    | RateLimited
    | QuotaExceeded
    | Upstream(detail: string)

  const KeyNotConfiguredMessage := "OpenAI API key not configured"
  const InvalidKeyMessage := "Invalid OpenAI API key"
  const RateLimitedMessage := "API rate limit exceeded"
  const QuotaExceededMessage := "API quota exceeded"
  const UpstreamPrefix := "Transcription failed: "

  /** The message of the thrown `Error`: an upstream failure is its detail behind the
      `Transcription failed: ` prefix, and no fixed message looks like one. */
  function Message(e: TranscribeError): (m: string)
    ensures e.Upstream? ==> HasPrefix(m, UpstreamPrefix) && m[|UpstreamPrefix|..] == e.detail
    ensures !e.Upstream? ==> !HasPrefix(m, UpstreamPrefix) && |m| > 0
  {
    match e
    case KeyNotConfigured => NotUpstream(KeyNotConfiguredMessage); KeyNotConfiguredMessage
    case InvalidKey => NotUpstream(InvalidKeyMessage); InvalidKeyMessage
    case RateLimited => NotUpstream(RateLimitedMessage); RateLimitedMessage
    case QuotaExceeded => NotUpstream(QuotaExceededMessage); QuotaExceededMessage
    case Upstream(d) => assert (UpstreamPrefix + d)[..|UpstreamPrefix|] == UpstreamPrefix; UpstreamPrefix + d
  }

  /** A message that does not begin with `T` is not an upstream failure. */
  lemma NotUpstream(m: string)
    requires |m| > 0 && m[0] != UpstreamPrefix[0]
    ensures !HasPrefix(m, UpstreamPrefix)
  {
    if |UpstreamPrefix| <= |m| {
      assert m[..|UpstreamPrefix|][0] == m[0];
    }
  }

  /** Recovers the error from its message; the partner of `Message`. */
  function ParseMessage(m: string): Option<TranscribeError>
  {
    if m == KeyNotConfiguredMessage then Some(KeyNotConfigured)
    else if m == InvalidKeyMessage then Some(InvalidKey)
    else if m == RateLimitedMessage then Some(RateLimited)
    else if m == QuotaExceededMessage then Some(QuotaExceeded)
    else if HasPrefix(m, UpstreamPrefix) then Some(Upstream(m[|UpstreamPrefix|..]))
    else None
  }

  lemma ParseMessageOfMessage(e: TranscribeError)
    ensures ParseMessage(Message(e)) == Some(e)
  {
    if e.Upstream? {
      var m := Message(e);
      assert m[0] == 'T';
      assert m[..|UpstreamPrefix|] == UpstreamPrefix;
      assert m[|UpstreamPrefix|..] == e.detail;
    }
  }

  /** Every error is told apart by its message alone: the four fixed messages differ from each
      other and from every upstream failure, and an upstream failure keeps its detail. */
  lemma MessageInjective(e1: TranscribeError, e2: TranscribeError)
    ensures Message(e1) == Message(e2) ==> e1 == e2
  {
    ParseMessageOfMessage(e1);
    ParseMessageOfMessage(e2);
  }

  /** The key to build a client with: the configured `openaiApiKey` when it is truthy. */
  function ConfiguredKey(key: Option<string>): (k: Option<string>)
    ensures k.Some? <==> Truthy(key)
    ensures k.Some? ==> k == key && k.value != ""
  {
    if Truthy(key) then key else None
  }

  /** The client after `initializeOpenAI`: a new one for a truthy key; otherwise the
      current one, which is never cleared. */
  function Initialized(current: Option<Client>, key: Option<string>): (c: Option<Client>)
    ensures Truthy(key) ==> c == Some(Client(key.value))
    ensures !Truthy(key) ==> c == current
  {
    match ConfiguredKey(key)
    case Some(k) => Some(Client(k))
    case None => current
  }

  /** Whether `transcribeAudio` gets past its key guard: a client exists, or the lazy
      re-initialisation creates one. */
  predicate Ready(current: Option<Client>, key: Option<string>)
  {
    current.Some? || Initialized(current, key).Some?
  }

  /** The request sent: the configured language (or "en" when it is empty or undefined),
      and always model `whisper-1` and plain text output. */
  function BuildRequest(audioFilePath: string, language: Option<string>): (r: Request)
    ensures r.file == audioFilePath
    ensures r.model == "whisper-1" && r.responseFormat == "text"
    ensures r.language != ""
    ensures Truthy(language) ==> r.language == language.value
    ensures !Truthy(language) ==> r.language == "en"
  {
    Request(audioFilePath, "whisper-1", OrElse(language, "en"), "text")
  }

  /** `${error.message || error}`: the message when it is truthy, the rendering otherwise. */
  function Detail(message: Option<string>, rendered: string): (d: string)
    ensures Truthy(message) ==> d == message.value
    ensures !Truthy(message) ==> d == rendered
  {
    OrElse(message, rendered)
  }

  /** The status chain of the catch block: total, and each known status has its own error. */
  function ErrorForStatus(status: Option<int>, detail: string): (e: TranscribeError)
    ensures e == InvalidKey <==> status == Some(401)
    ensures e == RateLimited <==> status == Some(429)
    ensures e == QuotaExceeded <==> status == Some(402)
    ensures e.Upstream? <==> status != Some(401) && status != Some(429) && status != Some(402)
    ensures e.Upstream? ==> e.detail == detail
    ensures e != KeyNotConfigured
  {
    if status == Some(401) then InvalidKey
    else if status == Some(429) then RateLimited
    else if status == Some(402) then QuotaExceeded
    else Upstream(detail)
  }

  /** What `transcribeAudio` returns or throws, given the client before the call, the
      configured key and what the endpoint would reply. */
  function TranscribeOutcome(current: Option<Client>, key: Option<string>, reply: Reply): (r: Result<string, TranscribeError>)
    ensures r == Failure(KeyNotConfigured) <==> !Ready(current, key)
    ensures r.Success? <==> Ready(current, key) && reply.Transcript?
    ensures r.Success? ==> r.value == reply.text
    ensures Ready(current, key) && reply.Failed? ==>
              r == Failure(ErrorForStatus(reply.status, Detail(reply.message, reply.rendered)))
  {
    if !Ready(current, key) then Failure(KeyNotConfigured)
    else match reply
      case Transcript(text) => Success(text)
      case Failed(status, message, rendered) => Failure(ErrorForStatus(status, Detail(message, rendered)))
  }

  class TranscriptionService {
    var client: Option<Client>
    /** Every request sent to the endpoint, in order. */
    var requests: seq<Request>

    constructor (config: Configuration)
      ensures client == Initialized(None, config.openaiApiKey)
      ensures requests == []
    {
      requests := [];
      client := None;
      new;
      InitializeOpenAI(config);
    }

    /** Builds a client from the configured key; with no key it shows the settings prompt
        (not modelled) and leaves the client as it was. */
    method InitializeOpenAI(config: Configuration)
      modifies this`client
      ensures client == Initialized(old(client), config.openaiApiKey)
    {
      var apiKey := config.openaiApiKey;
      if !Truthy(apiKey) {
        return;
      }
      client := Some(Client(apiKey.value));
    }

    /** Transcribes the file, re-initialising the client only when there is none. The endpoint
        is called at most once, and not at all when no key is configured. */
    method TranscribeAudio(audioFilePath: string, config: Configuration, reply: Reply)
      returns (r: Result<string, TranscribeError>)
      modifies this
      ensures r == TranscribeOutcome(old(client), config.openaiApiKey, reply)
      ensures client == if old(client).Some? then old(client) else Initialized(None, config.openaiApiKey)
      ensures requests == old(requests) +
                (if Ready(old(client), config.openaiApiKey) then [BuildRequest(audioFilePath, config.language)] else [])
    {
      if client.None? {
        InitializeOpenAI(config);
        if client.None? {
          return Failure(KeyNotConfigured);
        }
      }
      var request := BuildRequest(audioFilePath, config.language);
      requests := requests + [request];
      match reply {
        case Transcript(text) =>
          r := Success(text);
        case Failed(status, message, rendered) =>
          r := Failure(ErrorForStatus(status, Detail(message, rendered)));
      }
    }

    /** Re-reads the key: exactly `initializeOpenAI` again. */
    method ReconfigureAPI(config: Configuration)
      modifies this`client
      ensures client == Initialized(old(client), config.openaiApiKey)
      ensures requests == old(requests)
    {
      InitializeOpenAI(config);
    }
  }

  /** A client, once it exists, is never lost by re-initialisation, and the service is ready
      from then on whatever the key setting becomes. */
  lemma InitializeNeverClears(current: Option<Client>, key: Option<string>, later: Option<string>)
    requires current.Some?
    ensures Initialized(current, key).Some?
    ensures Ready(Initialized(current, key), later)
  {
  }
}
