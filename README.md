# Accommodation search route, modelled in Dafny

This project models the `POST` handler of the accommodation finder's
search route (`accommodation-finder/app/api/search/route.ts`). The handler
takes the user's message and the conversation history. It first checks that
a web-search key is configured. It then renders the history into a system
instruction for a language model and asks the model whether a location, a
budget and a type of accommodation are known. When the model calls its
`search_accommodations` tool, the handler runs one web search with the
query `"<type> for rent in <location> under <budget>"` and reshapes the
documents found into `SearchResult` listings. When the model calls no tool,
the handler passes on its clarifying question. Every failure inside the
`try` block is classified into 401, 429 or 500 by substring tests on the
error's message. A failed web search is first rewrapped as
`"Tavily API Error: …"`.

The handler is modelled as one total function, `Route.Post`. It is split
into the stages `Route.Answer` and `Route.Search`. Its collaborators are
parameters of the function: the chat completion, the web search and the
host-name part of URL parsing. `Route.Post` returns the reply together with
the list of outbound requests it made, so the properties can speak about
the exact query sent and about requests that were never made.

Files:

- `strings.dfy` (`Strings`) models `includes`, `join` and the split that
  undoes a join.
- `types.dfy` (`Types`) holds the `SearchResult` and `ApiResponse` records
  of `lib/types.ts`, plus `Option` and `Result`.
- `prompt.dfy` (`Prompt`) models transcript rendering and the system
  instruction.
- `errors.dfy` (`Errors`) models error classification and the rewrapping
  of search failures.
- `route.dfy` (`Route`) models the handler and holds its properties.

Four behaviours of the code are easy to overlook, and the model keeps them:

- **Result count.** The search asks for three results (`maxResults: 3`,
  route.ts:95), but the handler does not truncate what comes back
  (route.ts:111-120). `Route.ResultsNotCapped` shows four documents
  becoming four listings.
- **Missing search key.** The `catch` at route.ts:134 classifies every
  error it sees, but the key check at route.ts:18-20 comes before the
  `try` at route.ts:44. That error therefore escapes the handler. It is
  modelled as `Uncaught` and is never turned into a 401, although its
  message contains "API key".
- **Reply text.** `ApiResponse.response` is typed as a string
  (lib/types.ts:12). The handler passes on the model's `content`
  (route.ts:129), which can be `null`, so the model types the field as
  `Option<string>`.
- **Empty tool-call array.** An empty `tool_calls` array is truthy in
  JavaScript. The code then reads `tool_calls[0].function` from
  `undefined`, which throws a `TypeError` that is answered with 500. The
  same happens when `choices` is empty.

## Model

| member | source | states |
|---|---|---|
| Route.Post | accommodation-finder/app/api/search/route.ts:10-171 | the handler: the key check outside the `try`, then the system instruction, the completion request and the branch on its answer, with every failure inside the `try` classified; returns the reply and the outbound requests in order |
| Route.Answer | accommodation-finder/app/api/search/route.ts:81-133 | the branch on the model's answer: no choice or an empty tool-call array throws a `TypeError`, no tool call passes the text on, a first tool call with bad arguments throws, otherwise the search runs |
| Route.Search | accommodation-finder/app/api/search/route.ts:88-126 | the search for the criteria, its rewrapped failure, the mapping of its documents and the completed-search reply |
| Route.SearchQuery | accommodation-finder/app/api/search/route.ts:88 | the query "<type> for rent in <location> under <budget>" |
| Route.SearchingText | accommodation-finder/app/api/search/route.ts:123 | the reply text "Searching for <type> in <location> under <budget>..." |
| Route.ToListing | accommodation-finder/app/api/search/route.ts:112-119 | one document as a listing with price "N/A", the criteria's location, the given host as source, the URL as link and the content as description |
| Route.KeyMissing | accommodation-finder/app/api/search/route.ts:18 | the key is absent or empty, both falsy |
| Prompt.Line | accommodation-finder/app/api/search/route.ts:35 | a turn as "User: <text>" or "Assistant: <text>" |
| Prompt.Transcript | accommodation-finder/app/api/search/route.ts:34-36 | the lines of the turns joined by line breaks |
| Prompt.SystemPrompt | accommodation-finder/app/api/search/route.ts:26-42 | the fixed head, the transcript and the fixed trailer |
| Prompt.MultilineTextIsAmbiguous | accommodation-finder/app/api/search/route.ts:34-36 | one turn with the text "a\nUser: b" gives the same instruction as the two turns "a" and "b", so the single-line premise of the round trip cannot be dropped |
| Errors.WrapTavily | accommodation-finder/app/api/search/route.ts:104-108 | the search failure rethrown as "Tavily API Error: " followed by its message, or by "Unknown error" for a value that is not an `Error` |
| Errors.ErrorText | accommodation-finder/app/api/search/route.ts:143-168 | the fixed error text of each status |
| Strings.Includes | accommodation-finder/app/api/search/route.ts:140-153 | `includes`, as a left-to-right scan for a start position of the marker |
| Strings.Join | accommodation-finder/app/api/search/route.ts:36 | `join` with one separator between neighbouring parts |
| Route.CompletionFailureIsClassified | accommodation-finder/app/api/search/route.ts:46-78 | a completion that throws `e` is answered with the status `Status(e)` and its text, and no search is made |
| Route.ArgumentErrorIsClassified | accommodation-finder/app/api/search/route.ts:86-88 | tool-call arguments that throw are answered with the status of the thrown message, and no search is made |
| Route.UrlErrorIsClassified | accommodation-finder/app/api/search/route.ts:111-120 | when the k-th document is the first whose URL does not parse, the reply carries the status of the parser's message for that URL |
| Route.FirstBadUrlUnique | accommodation-finder/app/api/search/route.ts:111-116 | only one document is the first with a URL that does not parse, so the mapping's error message is determined |
| Strings.IncludesIffOccurs | accommodation-finder/app/api/search/route.ts:140-141 | the scanning `includes` is true exactly when some slice of the message equals the marker |
| Strings.SplitJoin | accommodation-finder/app/api/search/route.ts:36 | splitting a newline join of parts that hold no newline gives back the parts |
| Strings.JoinSeparatorCount | accommodation-finder/app/api/search/route.ts:36 | joining n parts that hold no separator puts exactly n - 1 separators in the result |
| Strings.JoinSnoc | accommodation-finder/app/api/search/route.ts:36 | joining with one more part appends the separator and that part |
| Strings.IncludesPastPrefix | accommodation-finder/app/api/search/route.ts:104-107 | a prefix in which no occurrence can start neither creates nor hides an occurrence |
| Strings.MissingCharExcludes | accommodation-finder/app/api/search/route.ts:140-153 | a message that lacks a character of the marker does not include the marker |
| Prompt.Lines | accommodation-finder/app/api/search/route.ts:34-35 | one line per turn, in order, and the line at index i renders turn i |
| Prompt.ParseLineInverse | accommodation-finder/app/api/search/route.ts:35 | a rendered line reads back as the same turn, speaker and text |
| Prompt.ParseLinesInverse | accommodation-finder/app/api/search/route.ts:34-35 | the rendered lines read back as the whole history, in order |
| Prompt.TranscriptLines | accommodation-finder/app/api/search/route.ts:34-36 | with single-line texts, the transcript splits at line breaks into one line per turn; line i is "User: " or "Assistant: " by the speaker of turn i, followed by its text; n turns give n - 1 line breaks |
| Prompt.TranscriptRoundTrip | accommodation-finder/app/api/search/route.ts:34-36 | with single-line texts, the history is read back exactly from the transcript |
| Prompt.TranscriptAppend | accommodation-finder/app/api/search/route.ts:34-36 | a turn added to the history adds one line at the end of the transcript and changes no earlier line |
| Prompt.PromptEmbedsTranscript | accommodation-finder/app/api/search/route.ts:26-42 | the system instruction is the fixed head, then the transcript, then the fixed trailer |
| Prompt.PromptDeterminesHistory | accommodation-finder/app/api/search/route.ts:26-42 | two histories with single-line texts and the same system instruction are equal |
| Errors.Status | accommodation-finder/app/api/search/route.ts:138-169 | the status is 401, 429 or 500. 401 holds exactly when an `Error` message has "Unauthorized" or "API key". 429 holds exactly when it has neither and has "rate limit" or "quota", so 401 takes precedence. Every other value, including every non-`Error`, gives 500 |
| Errors.PrefixKeepsMarkers | accommodation-finder/app/api/search/route.ts:104-107 | "Tavily API Error: " in front of a message does not change which of the four markers it includes |
| Errors.WrapErrorKeepsStatus | accommodation-finder/app/api/search/route.ts:102-109 | a rewrapped search `Error` gets the status of its original message |
| Errors.WrapKeepsStatus | accommodation-finder/app/api/search/route.ts:102-109 | rewrapping any thrown search failure keeps its status |
| Errors.UnknownSearchErrorIs500 | accommodation-finder/app/api/search/route.ts:106 | a non-`Error` search failure, rewrapped as "Unknown error", is answered with 500 |
| Errors.MarkerFree | accommodation-finder/app/api/search/route.ts:138-169 | a message lacking 'U', 'A', 'l' and 'q' is answered with 500 |
| Route.MapResults | accommodation-finder/app/api/search/route.ts:111-120 | the mapping succeeds exactly when every URL parses. On success it has one listing per document, in order, with the document's title, URL as link and content as description, price "N/A", the criteria's location, no amenities, and the link's host as source. On failure its message is that of the first URL that does not parse |
| Route.SameLinkSameSource | accommodation-finder/app/api/search/route.ts:116-117 | two listings with the same link have the same source |
| Route.Caught | accommodation-finder/app/api/search/route.ts:134-169 | a caught value becomes a failure whose status is the classification `Status(e)` of that value, which is 401, 429 or 500, and whose text is that status's fixed text |
| Route.OutboundCalls | accommodation-finder/app/api/search/route.ts:18-20 | an exception escapes exactly when the key is absent or empty, and then nothing was sent. Otherwise the first request is the completion with the rendered instruction and the user's message, and at most one search follows, asking for three results |
| Route.FailureReplies | accommodation-finder/app/api/search/route.ts:134-169 | every caught failure of the handler carries 401, 429 or 500 and that status's text; which status a given failure gets is stated per path by CompletionFailureIsClassified, ArgumentErrorIsClassified, SearchFailureKeepsStatus, UrlErrorIsClassified and MalformedCompletionIs500 |
| Route.SuccessReplies | accommodation-finder/app/api/search/route.ts:83-133 | a 200 reply without a completed search has no results and made no search. A 200 reply with a completed search sent the query for some criteria, its text names those criteria, and each listing has price "N/A", their location and its own link's host |
| Route.MissingKeyThrowsFirst | accommodation-finder/app/api/search/route.ts:18-20 | without a key the handler throws "Tavily API key is missing" before any request, and the exception is not classified |
| Route.NoToolCallAsksBack | accommodation-finder/app/api/search/route.ts:127-133 | without a tool call the reply is the model's text verbatim, with no results and `searchComplete` false, and no search was made |
| Route.ToolCallSearches | accommodation-finder/app/api/search/route.ts:83-126 | for a first tool call with criteria c, the query is exactly "<type> for rent in <location> under <budget>" with three results asked for, the reply text is "Searching for <type> in <location> under <budget>...", `searchComplete` is true, and the listings are the documents in order |
| Route.EmptySearchIsComplete | accommodation-finder/app/api/search/route.ts:111-126 | a search that finds nothing gives a completed search with no listings |
| Route.SearchFailureKeepsStatus | accommodation-finder/app/api/search/route.ts:92-109 | a failed search is answered with the status and text of its own error; a non-`Error` failure gives 500 |
| Route.MalformedCompletionIs500 | accommodation-finder/app/api/search/route.ts:81-85 | a completion with no choice, or with an empty tool-call array, is answered with 500 |
| Route.NoChoiceIs500 | accommodation-finder/app/api/search/route.ts:81 | the engine's message for reading `message` of a missing choice is answered with 500 |
| Route.NoToolCallIs500 | accommodation-finder/app/api/search/route.ts:85-86 | the engine's message for reading `function` of a missing tool call is answered with 500 |
| Route.OnlyFirstToolCallMatters | accommodation-finder/app/api/search/route.ts:81-86 | answers whose first choices have the same first tool call give the same exchange, whatever the other choices, other tool calls and message text are |
| Route.ConsultsOnlyRecordedRequests | accommodation-finder/app/api/search/route.ts:46-96 | collaborators that give the same answers to the recorded requests, and parse URLs alike, give the same exchange |
| Route.ResultsNotCapped | accommodation-finder/app/api/search/route.ts:94-96 | a search service that returns four documents gives four listings, although three were asked for |

## Left out

- The chat completion and the web search are network calls. They are
  modelled as the function parameters `complete` and `search`. The fixed
  completion settings are not recorded in `CompletionRequest`: the model
  name, the tool schema and `tool_choice: "auto"` (route.ts:46-78).
- `JSON.parse` of the tool-call arguments is a library parser. An argument
  text is modelled as either three criteria or the message of the error
  the handler throws before the search. Each criterion is held as the text
  the query template renders for it: a number field such as a budget of
  10000 renders as "10000", and a missing field renders as "undefined".
  Two errors are covered by the thrown message: the `SyntaxError` of
  `JSON.parse` (route.ts:86) and the `TypeError` of reading a field when
  the text parses to `null` (route.ts:88). The mapping from an argument
  text to these outcomes is not modelled.
- `new URL(url).hostname` is left to the URL parsing of the WHATWG URL
  Standard. It is modelled as the parameter `hostname`, which gives a host
  or the parser's error message.
- The wording of the JavaScript engine's `TypeError` messages for a
  missing choice or tool call is the one V8 uses. Other engines word them
  differently. The 500 outcome holds for any message without the four
  markers.
- Logging with `console.log` and `console.error` is left out (I/O).
- The environment is read only to the extent of whether the search key is
  present and non-empty; its length and first characters, which are only
  logged, are left out.
- The `NextRequest`/`NextResponse` framing is left out. So is a request
  body that fails to parse, which throws at route.ts:11 before the key
  check.
- A request without `conversationHistory` is not modelled. When a key is
  present it throws a `TypeError` at route.ts:34-35 (`undefined.map`).
  That is after the key check and outside the `try`, so the error escapes
  the handler unclassified.
- A turn whose text is `null` is not a separate case. The client sends one
  when the model's reply text was `null`, and route.ts:35 renders it as
  "Assistant: null", so it is modelled as the text "null".
- Prompt.TranscriptLines, Prompt.TranscriptRoundTrip and
  Prompt.PromptDeterminesHistory hold only for turn texts without line
  breaks. The client does not guarantee this, since assistant replies can
  span several lines. Prompt.MultilineTextIsAmbiguous shows two histories
  that then give the same instruction.
- A search response whose `results` field is missing is not modelled.
  The search outcome is always a list of documents.
- The client module, the React components and the page are presentation
  and are not part of this model.
