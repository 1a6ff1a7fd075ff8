/** The optional value used wherever the client may have nothing. */
module Options {
  datatype Option<T> = None | Some(value: T)
}

/** The request the client sends to the completion endpoint: the query built
    from the command line, the JSON payload built from a fixed template, and
    the two headers. Only the text is modelled; the HTTP exchange is not.
 */
module Protocol {
  import opened Options
  import opened Text

  /** The one placeholder of the payload template. */
  const PLACEHOLDER: string := "{PROMPT}"

  /** The payload template before its placeholder, one template line per
      literal: the JSON text of a completion request for model
      `text-davinci-003` whose prompt labels the query as a question. Inside
      the prompt `\n` is the two characters backslash and `n`, a JSON escape. */
  const PROMPT_PREFIX: string :=
      "{\n"
    + "  \"model\": \"text-davinci-003\",\n"
    + "  \"prompt\": \"Question:\\n"

  /** The payload template after its placeholder: the end of the prompt,
      a 64-token budget, top-p 1.0 and both penalties 0.0. */
  const PROMPT_SUFFIX: string :=
      "\\nAnswer:\",\n"
    + "  \"max_tokens\": 64,\n"
    + "  \"top_p\": 1.0,\n"
    + "  \"frequency_penalty\": 0.0,\n"
    + "  \"presence_penalty\": 0.0\n"
    + "}"

  /** The payload template, character for character. */
  const TEMPLATE: string := PROMPT_PREFIX + PLACEHOLDER + PROMPT_SUFFIX

  const CONTENT_TYPE: string := "application/json"

  /** The authentication scheme of a bearer credential, with the single
      space that separates it from the token (section 2.1 of RFC 6750). */
  const BEARER: string := "Bearer "

  /** The placeholder occurs in the template exactly once, between the
      prefix and the suffix. */
  lemma TemplateHoldsOnePlaceholder()
    ensures OccursAt(TEMPLATE, PLACEHOLDER, |PROMPT_PREFIX|)
    ensures forall i :: OccursAt(TEMPLATE, PLACEHOLDER, i) ==> i == |PROMPT_PREFIX|
  {
    var n := |PROMPT_PREFIX|;
    assert TEMPLATE[n..n + |PLACEHOLDER|] == PLACEHOLDER;
    assert '{' !in PROMPT_PREFIX[1..];
    assert '{' !in PLACEHOLDER[1..];
    assert '{' !in PROMPT_SUFFIX;
    forall i | OccursAt(TEMPLATE, PLACEHOLDER, i) ensures i == n {
      assert TEMPLATE[i] == TEMPLATE[i..i + |PLACEHOLDER|][0] == '{';
      assert TEMPLATE[i + 1] == TEMPLATE[i..i + |PLACEHOLDER|][1] == 'P';
    }
  }

  /** The query carried by a payload: the text between the template's
      prefix and suffix, if the payload has that shape. */
  function EmbeddedQuery(body: string): Option<string> {
    if |body| >= |PROMPT_PREFIX| + |PROMPT_SUFFIX|
       && body[..|PROMPT_PREFIX|] == PROMPT_PREFIX
       && body[|body| - |PROMPT_SUFFIX|..] == PROMPT_SUFFIX
    then Some(body[|PROMPT_PREFIX|..|body| - |PROMPT_SUFFIX|])
    else None
  }

  /** The template with its placeholder replaced by the query. The query is
      inserted verbatim and not searched again, so even a query holding the
      placeholder itself is carried unchanged, and every other field of the
      payload is the same for all queries. */
  function Payload(query: string): (r: string)
    ensures r == PROMPT_PREFIX + query + PROMPT_SUFFIX
    ensures OccursAt(r, query, |PROMPT_PREFIX|)
    ensures EmbeddedQuery(r) == Some(query)
  {
    TemplateHoldsOnePlaceholder();
    ReplaceOnly(TEMPLATE, PLACEHOLDER, query, PROMPT_PREFIX, PROMPT_SUFFIX);
    var r := Replace(TEMPLATE, PLACEHOLDER, query);
    assert r[..|PROMPT_PREFIX|] == PROMPT_PREFIX;
    assert r[|PROMPT_PREFIX|..|PROMPT_PREFIX| + |query|] == query;
    assert r[|r| - |PROMPT_SUFFIX|..] == PROMPT_SUFFIX;
    r
  }

  /** The token of a bearer credential, if the header value has that form. */
  function BearerToken(value: string): Option<string> {
    if |value| >= |BEARER| && value[..|BEARER|] == BEARER
    then Some(value[|BEARER|..])
    else None
  }

  /** The Authorization header value built from the API key; it is a bearer
      credential whose token is exactly the key. */
  function Authorization(key: string): (r: string)
    ensures BearerToken(r) == Some(key)
  {
    BEARER + key
  }

  /** The words after the program name, separated by single spaces; a
      single word is the query unchanged. */
  function Query(words: seq<string>): (r: string)
    ensures |words| == 1 ==> r == words[0]
  {
    Join(words, " ")
  }

  /** Words without spaces can be recovered from the query by splitting it
      at spaces. */
  lemma QuerySplits(words: seq<string>)
    requires |words| >= 1
    requires forall k :: 0 <= k < |words| ==> ' ' !in words[k]
    ensures Split(Query(words), ' ') == words
  {
    SplitJoin(words, ' ');
  }

  /** What goes on the wire, apart from the fixed endpoint. */
  datatype Request = Request(contentType: string, authorization: string, body: string)

  /** The request for an API key and the words after the program name. */
  function BuildRequest(key: string, words: seq<string>): (r: Request)
    ensures r.contentType == CONTENT_TYPE
    ensures BearerToken(r.authorization) == Some(key)
    ensures EmbeddedQuery(r.body) == Some(Query(words))
  {
    Request(CONTENT_TYPE, Authorization(key), Payload(Query(words)))
  }
}
