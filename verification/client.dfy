/** The decision flow of the command-line client, as one pure function of
    what the process finds around it: the API key from the environment (if
    any), the argument vector, and the completion service, given as a
    function from the request sent to the reply obtained. The checks run in
    a fixed order (key, arguments, request, choices) and each early exit
    prints a fixed line and sends nothing.
 */
module Client {
  import opened Options
  import opened Text
  import opened Protocol

  /** One entry of the decoded `choices` list; only its text is read. */
  datatype Choice = Choice(text: string)

  /** What the completion service gives back for the one request. */
  datatype Reply =
    | Unreachable(cause: string)      // sending or reading the body failed
    | Undecodable                     // the body is not a completion object
    | Decoded(choices: seq<Choice>)

  /** How one modelled run of the client ends. Every outcome after the
      request was built carries that request. */
  datatype Outcome =
    | KeyMissing                                     // prints the key notice
    | NoProgramName                                  // empty argument vector: indexing it panics
    | Usage(program: string)                         // prints the usage line
    | TransportFailed(sent: Request, cause: string)  // `main` returns the error: reported on standard error
    | DecodePanicked(sent: Request)                  // decoding the body panics: reported on standard error
    | NoResult(sent: Request)                        // prints the no-result notice
    | Answer(sent: Request, text: string)            // prints the first choice
  {
    /** The request that went to the service, if one did. */
    function SentRequest(): Option<Request> {
      match this
      case KeyMissing => None
      case NoProgramName => None
      case Usage(_) => None
      case TransportFailed(req, _) => Some(req)
      case DecodePanicked(req) => Some(req)
      case NoResult(req) => Some(req)
      case Answer(req, _) => Some(req)
    }
  }

  /** Printed when the `OPENAI_API_KEY` environment variable cannot be read. */
  const KEY_MISSING_LINE: string := "OPENAI_API_KEY env not found"

  const NO_RESULT_LINE: string := "No result"

  /** Printed when no query follows the program name. */
  function UsageLine(program: string): string {
    "Usage: " + program + " <query>"
  }

  /** One run of the client. `key` is None when the variable is unset or
      not valid Unicode; an empty value is a key like any other. `args`
      holds the program name first, as the process received it. */
  function Main(key: Option<string>, args: seq<string>, service: Request -> Reply): (o: Outcome)
    // the key is checked before anything else
    ensures o.KeyMissing? <==> key.None?
    // then the argument count; the usage line names the program
    ensures o.NoProgramName? <==> key.Some? && |args| == 0
    ensures o.Usage? <==> key.Some? && |args| == 1
    ensures o.Usage? ==> o.program == args[0]
    // a request goes out exactly when both checks pass, and it is the one
    // built from the key and the words after the program name
    ensures o.SentRequest().Some? <==> key.Some? && |args| >= 2
    ensures o.SentRequest().Some? ==>
              var req := o.SentRequest().value;
              && req.contentType == CONTENT_TYPE
              && BearerToken(req.authorization) == Some(key.value)
              && EmbeddedQuery(req.body) == Some(Join(args[1..], " "))
    // the reply to that request decides the rest
    ensures o.SentRequest().Some? ==>
              var reply := service(o.SentRequest().value);
              && (o.TransportFailed? <==> reply.Unreachable?)
              && (o.TransportFailed? ==> o.cause == reply.cause)
              && (o.DecodePanicked? <==> reply.Undecodable?)
              && (o.NoResult? <==> reply.Decoded? && |reply.choices| == 0)
              && (o.Answer? <==> reply.Decoded? && |reply.choices| > 0)
              && (o.Answer? ==> o.text == reply.choices[0].text)
  {
    match key
    case None => KeyMissing
    case Some(apiKey) =>
      if |args| < 2 then
        if |args| == 0 then NoProgramName else Usage(args[0])
      else
        var req := BuildRequest(apiKey, args[1..]);
        match service(req)
        case Unreachable(cause) => TransportFailed(req, cause)
        case Undecodable => DecodePanicked(req)
        case Decoded(choices) =>
          if |choices| < 1 then NoResult(req) else Answer(req, choices[0].text)
  }

  /** The line the run prints to standard output, if it prints one. The
      spinner's output is not part of it. The panics and the returned
      transport error write their messages to standard error. */
  function Line(o: Outcome): (r: Option<string>)
    ensures r.None? <==> o.NoProgramName? || o.TransportFailed? || o.DecodePanicked?
    ensures o.KeyMissing? ==> r == Some(KEY_MISSING_LINE)
    ensures o.Usage? ==> r == Some(UsageLine(o.program))
    ensures o.NoResult? ==> r == Some(NO_RESULT_LINE)
    ensures o.Answer? ==> r == Some(o.text)
  {
    match o
    case KeyMissing => Some(KEY_MISSING_LINE)
    case NoProgramName => None
    case Usage(program) => Some(UsageLine(program))
    case TransportFailed(_, _) => None
    case DecodePanicked(_) => None
    case NoResult(_) => Some(NO_RESULT_LINE)
    case Answer(_, text) => Some(text)
  }

  /** Without a key the run prints the key notice and nothing is sent,
      whatever the arguments: the key check comes before the argument check. */
  lemma NoKeyNoRequest(args: seq<string>, service: Request -> Reply)
    ensures Main(None, args, service) == KeyMissing
    ensures Line(Main(None, args, service)) == Some(KEY_MISSING_LINE)
    ensures Main(None, args, service).SentRequest() == None
  {
  }

  /** With a key but no query the run prints the usage line naming the
      program and nothing is sent. */
  lemma NoQueryNoRequest(key: string, program: string, service: Request -> Reply)
    ensures Main(Some(key), [program], service) == Usage(program)
    ensures Line(Main(Some(key), [program], service)) == Some(UsageLine(program))
    ensures Main(Some(key), [program], service).SentRequest() == None
  {
  }

  /** A run that stops before building the request does not depend on the
      service at all. */
  lemma EarlyExitIgnoresService(key: Option<string>, args: seq<string>, s1: Request -> Reply, s2: Request -> Reply)
    requires key.None? || |args| < 2
    ensures Main(key, args, s1) == Main(key, args, s2)
    ensures Main(key, args, s1).SentRequest().None?
  {
  }

  /** Only the reply to the one request that was built matters: two
      services that answer it alike give the same outcome. */
  lemma OneRequestDecides(key: string, args: seq<string>, s1: Request -> Reply, s2: Request -> Reply)
    requires |args| >= 2
    requires s1(BuildRequest(key, args[1..])) == s2(BuildRequest(key, args[1..]))
    ensures Main(Some(key), args, s1) == Main(Some(key), args, s2)
  {
  }

  /** The request carries the bearer header built from the key and the
      payload holding the query verbatim between the fixed template parts. */
  lemma RequestContents(key: string, args: seq<string>, service: Request -> Reply)
    requires |args| >= 2
    ensures Main(Some(key), args, service).SentRequest() == Some(BuildRequest(key, args[1..]))
    ensures BuildRequest(key, args[1..]).authorization == "Bearer " + key
    ensures BuildRequest(key, args[1..]).body == PROMPT_PREFIX + Join(args[1..], " ") + PROMPT_SUFFIX
  {
  }

  /** An empty choice list prints the no-result notice. */
  lemma EmptyChoicesNoResult(key: string, args: seq<string>, service: Request -> Reply)
    requires |args| >= 2
    requires service(BuildRequest(key, args[1..])) == Decoded([])
    ensures Main(Some(key), args, service) == NoResult(BuildRequest(key, args[1..]))
    ensures Line(Main(Some(key), args, service)) == Some(NO_RESULT_LINE)
  {
  }

  /** A non-empty choice list prints the first choice's text; the choices
      after it are never looked at. */
  lemma FirstChoicePrinted(key: string, args: seq<string>, service: Request -> Reply, first: Choice, rest: seq<Choice>)
    requires |args| >= 2
    requires service(BuildRequest(key, args[1..])) == Decoded([first] + rest)
    ensures Main(Some(key), args, service) == Answer(BuildRequest(key, args[1..]), first.text)
    ensures Line(Main(Some(key), args, service)) == Some(first.text)
  {
  }
}
