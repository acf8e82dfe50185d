/**
 * `classificar_email`: ask the remote language model first
 * (`classificar_com_openai`) and fall back to the keyword classifier when it
 * gives no result. The remote call itself (prompt, HTTP request, the search
 * for a `{...}` span and `json.loads`) is not modelled: its outcome is an
 * input, and only what the adapter does with that outcome is.
 */
module Orchestrator {
  import opened Wrappers
  import opened Audit
  import opened Keywords

  /**
   * What the adapter finds at start-up and in the environment: whether the
   * `openai` module imported, and the value of `OPENAI_API_KEY`.
   */
  datatype RemoteConfig = RemoteConfig(libraryLoaded: bool, apiKey: Option<string>)

  /** How the remote call ended, once it was made. */
  datatype RemoteOutcome =
    | CallFailed
      // the request, the indexing of the response or `json.loads` raised
    | NoJson(content: string)
      // the response content holds no `{...}` span
    | Parsed(category: Option<string>, reply: Option<string>)
      // the `{...}` span decoded to an object with these fields

  /** `if not openai` or `if not api_key`: the remote call is not attempted. */
  predicate RemoteDisabled(config: RemoteConfig) {
    !config.libraryLoaded || config.apiKey == None || config.apiKey == Some("")
  }

  /** What `classificar_com_openai` returns. */
  function Remote(config: RemoteConfig, outcome: RemoteOutcome): (res: Option<Classification>)
    ensures RemoteDisabled(config) || outcome == CallFailed <==> res == None
    ensures outcome.NoJson? && res.Some? ==> res.value == Classification(Produtivo, outcome.content)
    ensures outcome.Parsed? && res.Some? ==>
              res.value.category == outcome.category.GetOr(Produtivo) && res.value.reply == outcome.reply.GetOr("")
  {
    if RemoteDisabled(config) then None
    else match outcome
      case CallFailed => None
      case NoJson(content) => Some(Classification(Produtivo, content))
      case Parsed(category, reply) => Some(Classification(category.GetOr(Produtivo), reply.GetOr("")))
  }

  /** What `classificar_email` returns. */
  function Email(texto: string, config: RemoteConfig, outcome: RemoteOutcome): Classification {
    match Remote(config, outcome)
    case Some(res) => res
    case None => Fallback(texto)
  }

  /**
   * `classificar_com_openai(texto)`: returns `Remote(config, outcome)` and logs
   * one entry exactly when it returns a result.
   */
  method ClassifyRemote(texto: string, config: RemoteConfig, outcome: RemoteOutcome, log: Log)
    returns (res: Option<Classification>)
    modifies log
    ensures res == Remote(config, outcome)
    ensures log.entries == old(log.entries) + (if res.Some? then [LogEntry(texto, res.value.category)] else [])
  {
    if !config.libraryLoaded {
      return None;
    }
    if config.apiKey == None || config.apiKey.value == "" {
      return None;
    }
    match outcome
    case CallFailed =>
      res := None;
    case Parsed(category, reply) =>
      var cat := category.GetOr(Produtivo);
      log.Register(texto, cat);
      res := Some(Classification(cat, reply.GetOr("")));
    case NoJson(content) =>
      log.Register(texto, Produtivo);
      res := Some(Classification(Produtivo, content));
  }

  /**
   * `classificar_email(texto)`: always returns a classification and appends
   * exactly one log entry, carrying the returned category, on either path.
   */
  method ClassifyEmail(texto: string, config: RemoteConfig, outcome: RemoteOutcome, log: Log)
    returns (r: Classification)
    modifies log
    ensures r == Email(texto, config, outcome)
    ensures log.entries == old(log.entries) + [LogEntry(texto, r.category)]
  {
    var res := ClassifyRemote(texto, config, outcome, log);
    if res.Some? {
      return res.value;
    }
    r := ClassifyFallback(texto, log);
  }

  /** A remote result is returned unchanged. */
  lemma RemoteResultKept(texto: string, config: RemoteConfig, outcome: RemoteOutcome)
    requires Remote(config, outcome).Some?
    ensures Email(texto, config, outcome) == Remote(config, outcome).value
  {
  }

  /**
   * Without the library, without a key, or when the call fails, the result
   * is exactly the keyword classifier's.
   */
  lemma FallbackWhenNoRemote(texto: string, config: RemoteConfig, outcome: RemoteOutcome)
    requires RemoteDisabled(config) || outcome == CallFailed
    ensures Email(texto, config, outcome) == Fallback(texto)
  {
  }

  /**
   * The result is a valid category whenever the remote model did not supply
   * one of its own; a remote category is passed through unchecked.
   */
  lemma EmailCategory(texto: string, config: RemoteConfig, outcome: RemoteOutcome)
    ensures !(outcome.Parsed? && outcome.category.Some?) || RemoteDisabled(config)
            ==> Email(texto, config, outcome).category in {Produtivo, Improdutivo}
    ensures outcome.Parsed? && outcome.category.Some? && !RemoteDisabled(config)
            ==> Email(texto, config, outcome).category == outcome.category.value
  {
  }

  /** An urgent request for help, with no API key configured, is productive. */
  lemma UrgentErrorWithoutKey(outcome: RemoteOutcome)
    ensures Email("Preciso de ajuda com um erro urgente no sistema", RemoteConfig(true, None), outcome)
         == Classification(Produtivo, AckReply)
  {
    UrgentErrorExample();
  }
}
