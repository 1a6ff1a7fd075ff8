# rs-kai completion client, modelled in Dafny

`rs-kai` is a small command-line client for a text-completion HTTP API. One
run reads the API key from the `OPENAI_API_KEY` environment variable, joins
the command-line words into a query, substitutes the query into a fixed JSON
request template, sends one POST with a bearer-token `Authorization` header,
and prints the text of the first returned choice.

This project models the decision and string logic under that I/O as pure
functions:

- `Text` (`text.dfy`): the substitution Rust's `str::replace` performs
  (every occurrence, scanning left to right, the inserted text never
  searched again). Also `Join` as `[String]::join` computes it, and `Split`,
  its inverse.
- `Protocol` (`protocol.dfy`): the request template and its single
  `{PROMPT}` placeholder. Also the payload, the query built from the
  command-line words, the `Bearer <key>` header value (section 2.1 of
  RFC 6750) and the `Request` record.
- `Client` (`client.dfy`): the run as one function
  `Main(key, args, service)`. `key` is the environment lookup,
  `args` the argument vector and `service` the completion endpoint, given as
  a function from the request sent to the reply obtained. The `Outcome`
  datatype has one constructor per modelled exit path: `KeyMissing`,
  `NoProgramName`, `Usage`, `TransportFailed`, `DecodePanicked`, `NoResult`
  and `Answer`. Every outcome reached after the request was built carries
  that request, so "nothing was sent" is a statement about the outcome.
  `Line` gives the line printed on each path.

The checks run in the code's order: the key, then the argument count, then
the request is built and sent, then the decoded choice list is inspected.

In four places the code's behaviour is easy to miss. The model follows the
code:

- A key variable that is set but empty is accepted, and a request with
  `Authorization: Bearer ` is sent.
- With the key present, an argument vector holding only the program name
  prints the usage line. An entirely empty argument vector makes `args[0]`
  panic (`NoProgramName`).
- A reply body that does not decode makes the `unwrap` panic
  (`DecodePanicked`). Apart from the spinner's output, nothing is printed on
  standard output; the panic message, holding the parser's diagnostic, goes
  to standard error.
- A transport error leaves `main` through `?` (`TransportFailed`). Apart
  from the spinner's output, nothing is printed on standard output; the
  returned error is reported on standard error.

## Model

| member | source | states |
|---|---|---|
| Text.Replace | src/main.rs:55 | the substitution `str::replace` performs; a text that nowhere contains the pattern comes out unchanged, and Text.ReplaceFirst and Text.ReplaceOnly give its behaviour when the pattern occurs |
| Text.ReplaceFirst | src/main.rs:48-55 | the text before the first occurrence is copied unchanged, that occurrence becomes the replacement, and the scan resumes after the occurrence, not inside the inserted text |
| Text.ReplaceOnly | src/main.rs:48-55 | a text holding the pattern exactly once becomes the text before it, the replacement verbatim, and the text after it, whatever the replacement contains |
| Text.Join | src/main.rs:40 | `join` of the words with a separator; its contract says the joined text begins with the first word, Text.JoinAppend gives it for every list, and Text.SplitJoin and Text.JoinSplit relate it to splitting in both directions |
| Text.JoinAppend | src/main.rs:40 | for every non-empty list of words, whatever they contain (spaces included), appending a word appends the separator and that word to the joined text |
| Text.SplitJoin | src/main.rs:39-40 | joining words that contain no separator can be undone: splitting the joined text at the separator gives back exactly the same words |
| Text.JoinSplit | src/main.rs:39-40 | the converse: splitting any text at a separator and joining the pieces with that separator restores the text |
| Protocol.TemplateHoldsOnePlaceholder | src/main.rs:48-55 | `{PROMPT}` occurs in the request template at the position right after the prefix, and at no other position; the prefix is the template text ending in `Question:\n` |
| Protocol.Payload | src/main.rs:48-55 | the payload is the template prefix, the query verbatim and the template suffix, so the model, token and penalty fields are the same for every query; the query occurs at the prefix's end and can be read back from the payload, even when it holds `{PROMPT}` |
| Protocol.Authorization | src/main.rs:45-46 | the header value is a bearer credential whose token, read back after `Bearer `, is exactly the key |
| Protocol.Query | src/main.rs:39-40 | a single word after the program name is the query unchanged |
| Protocol.QuerySplits | src/main.rs:39-40 | words without spaces are recovered exactly from the query by splitting it at spaces |
| Protocol.BuildRequest | src/main.rs:42-55 | the request has content type `application/json`, an Authorization header whose bearer token is the key, and a body from which the joined query reads back |
| Client.Main | src/main.rs:20-84 | no key gives KeyMissing whatever the arguments. With a key, an empty vector panics and a vector of one gives Usage naming `args[0]`. A request goes out exactly when the key is present and there are at least two arguments; it carries the key's bearer header and the words after the program name. Its reply alone decides between transport failure (carrying the reply's cause), decode panic, NoResult (empty choices) and the first choice's text |
| Client.Line | src/main.rs:28-81 | a line is printed on standard output on every exit path except the empty-vector panic, the transport error and the decode panic; it is `OPENAI_API_KEY env not found`, `Usage: <program> <query>`, `No result` or the answer text as the outcome says |
| Client.NoKeyNoRequest | src/main.rs:23-30 | without a key the run prints `OPENAI_API_KEY env not found` and sends nothing, even with no arguments at all, so the key check precedes the argument check |
| Client.NoQueryNoRequest | src/main.rs:34-38 | with a key and only the program name the run prints `Usage: <program> <query>` and sends nothing |
| Client.EarlyExitIgnoresService | src/main.rs:23-38 | a run that fails the key or argument check has the same outcome for every service, and no request in it |
| Client.OneRequestDecides | src/main.rs:58-81 | two services that give the same reply to the request built from the key and arguments give the same outcome: only that one request is consulted |
| Client.RequestContents | src/main.rs:39-55 | the request sent is `Authorization: Bearer <key>` with body prefix, arguments after the program name joined by single spaces, and suffix |
| Client.EmptyChoicesNoResult | src/main.rs:76-78 | a decoded reply with no choices prints `No result` |
| Client.FirstChoicePrinted | src/main.rs:80-81 | a decoded reply with choices prints the first choice's text, whatever the later choices are |

## Left out

- The HTTP POST, the endpoint URL, the client construction and the transport errors of `send()` and `text()` are network I/O. They are the `service` parameter and the `Unreachable` reply.
- JSON decoding of the reply body is a foreign library. Its result is the `Decoded` or `Undecodable` reply, and only the choice texts are kept.
- The payload is not claimed to be valid JSON. The query is spliced in without escaping, so a `"` or `\` in it breaks the string escaping that section 7 of RFC 8259 requires.
- The terminal spinner is cosmetic output driven by a background timer. It writes its frames to standard output while the request is outstanding. On every path that got a reply, stopping it at src/main.rs:72 writes a line that clears it. `Line` leaves both out.
- Reading the environment and `env::args()` are I/O. They become the `key` and `args` parameters.
- The newline `println!` appends is left out: `Line` is the printed text without it.
- The process exit status is left out. It is 0 on every printed exit path because `main` returns `Ok(())`.
- A command-line argument that is not valid Unicode makes `env::args()` panic before the argument check. The model takes the arguments as strings and has no outcome for that panic.
- Protocol.Authorization: the `parse().unwrap()` of the header values is not modelled. A key holding a character a header value may not contain, such as a control character, would panic there; the model sends the request.
- Text.Replace: requires a non-empty pattern. The only substitution in the client uses `{PROMPT}`, so Rust's behaviour for an empty pattern is not modelled.
- Protocol.BearerToken reads exactly one space after `Bearer`. It is only the reading used to state what `Authorization` builds, not a full parser of the header grammar.
