/** The `POST` handler of the accommodation search route
    (accommodation-finder/app/api/search/route.ts). The handler asks a
    language model whether the conversation already names a location, a
    budget and a type of accommodation; if the model calls its
    `search_accommodations` tool, the handler runs one web search for those
    criteria and reshapes the documents found into listings; otherwise it
    passes the model's clarifying question back. Failures are caught and
    answered with 401, 429 or 500.

    The two remote services and the URL parser are parameters: the handler
    is a total function from the request, the search key and those
    services to the reply plus the list of outbound requests it made. */
module Route {
  import opened Types
  import opened Strings
  import opened Prompt
  import opened Errors

  /** The parsed arguments of a `search_accommodations` call; `kind` holds
      the argument named `type`. */
  datatype Criteria = Criteria(location: string, budget: string, kind: string)

  /** A tool call made by the model. Its argument text either yields the
      three criteria, each as the text the query template renders for it,
      or makes the handler throw an error with the given message before
      the search: a `SyntaxError` from `JSON.parse`, or a `TypeError` when
      the text parses to `null`. */
  datatype ToolCall = ToolCall(arguments: Result<Criteria, string>)

  /** The message of one completion choice: its text (`null` is `None`) and
      its `tool_calls` field (absent is `None`; a present array, even an
      empty one, counts as a tool call). */
  datatype AssistantMessage = AssistantMessage(
    content: Option<string>,
    toolCalls: Option<seq<ToolCall>>)

  /** One web-search hit. */
  datatype Document = Document(title: string, url: string, content: string)

  /** The request body. */
  datatype Request = Request(message: string, conversationHistory: seq<Turn>)

  /** An outbound request the handler makes. */
  datatype OutboundCall =
    | CompletionRequest(system: string, user: string)
    | SearchRequest(query: string, maxResults: nat)

  /** What the client receives: a 200 reply, a caught and classified
      failure, or an exception that escapes the handler (raised before its
      `try` block). */
  datatype Reply =
    | Ok(body: ApiResponse)
    | Failed(status: int, error: string)
    | Uncaught(thrown: Thrown)

  /** The reply together with the outbound requests, in the order made. */
  datatype Exchange = Exchange(reply: Reply, calls: seq<OutboundCall>)

  /** The handler's collaborators: the chat completion (system instruction
      and user message to the list of choices, or a thrown value), the web
      search (query to documents, or a thrown value) and the host-name part
      of URL parsing (a URL to its host, or the message of the `TypeError`
      the parser throws). */
  datatype Services = Services(
    complete: (string, string) -> Result<seq<AssistantMessage>, Thrown>,
    search: string -> Result<seq<Document>, Thrown>,
    hostname: string -> Result<string, string>)

  /** The result count the search is asked for. */
  const MaxResults: nat := 3

  const MissingKeyMessage: string := "Tavily API key is missing"

  /** The `TypeError` messages of the JavaScript engine when the completion
      has no choice, or an empty tool-call array, to read from. */
  const NoChoiceMessage: string :=
    "Cannot read " + "properties of " + "undefined " + "(reading " + "'message')"
  const NoToolCallMessage: string :=
    "Cannot read " + "properties of " + "undefined " + "(reading " + "'function')"

  /** The web-search query for the extracted criteria. */
  function SearchQuery(c: Criteria): string {
    c.kind + " for rent in " + c.location + " under " + c.budget
  }

  /** The reply text that accompanies search results. */
  function SearchingText(c: Criteria): string {
    "Searching for " + c.kind + " in " + c.location + " under " + c.budget + "..."
  }

  /** One document as a listing, given the criteria's location and the
      host name of the document's URL. */
  function ToListing(d: Document, location: string, source: string): SearchResult {
    SearchResult(d.title, "N/A", location, source, d.url, None, Some(d.content))
  }

  /** The k-th document is the first whose URL does not parse, with that
      message. */
  ghost predicate FirstBadUrl(docs: seq<Document>, hostname: string -> Result<string, string>,
                              k: int, message: string) {
    && 0 <= k < |docs|
    && hostname(docs[k].url) == Failure(message)
    && forall j :: 0 <= j < k ==> hostname(docs[j].url).Success?
  }

  lemma BadUrlBehindGoodOne(docs: seq<Document>, hostname: string -> Result<string, string>,
                            message: string)
    requires |docs| > 0 && hostname(docs[0].url).Success?
    requires exists k :: FirstBadUrl(docs[1..], hostname, k, message)
    ensures exists k :: FirstBadUrl(docs, hostname, k, message)
  {
    var k :| FirstBadUrl(docs[1..], hostname, k, message);
    forall j | 0 <= j < k + 1 ensures hostname(docs[j].url).Success? {
      if j > 0 { assert docs[j] == docs[1..][j - 1]; }
    }
    assert FirstBadUrl(docs, hostname, k + 1, message);
  }

  /** The documents mapped to listings in order. Reading the host name of a
      URL that does not parse throws, so the first such URL ends the
      mapping with the parser's message. */
  function MapResults(docs: seq<Document>, location: string,
                      hostname: string -> Result<string, string>)
                      : (r: Result<seq<SearchResult>, string>)
    ensures r.Success? <==> forall i :: 0 <= i < |docs| ==> hostname(docs[i].url).Success?
    ensures r.Success? ==> |r.value| == |docs|
    ensures r.Success? ==> forall i :: 0 <= i < |docs| ==>
      && r.value[i].title == docs[i].title
      && r.value[i].price == "N/A"
      && r.value[i].location == location
      && hostname(r.value[i].link) == Success(r.value[i].source)
      && r.value[i].link == docs[i].url
      && r.value[i].description == Some(docs[i].content)
      && r.value[i].amenities == None
    ensures r.Failure? ==> exists k :: FirstBadUrl(docs, hostname, k, r.error)
    decreases |docs|
  {
    if |docs| == 0 then Success([])
    else
      match hostname(docs[0].url)
      case Failure(m) =>
        assert FirstBadUrl(docs, hostname, 0, m);
        Failure(m)
      case Success(host) =>
        var rest := MapResults(docs[1..], location, hostname);
        if rest.Failure? then
          BadUrlBehindGoodOne(docs, hostname, rest.error);
          Failure(rest.error)
        else
          Success([ToListing(docs[0], location, host)] + rest.value)
  }

  /** A caught value answered with its status and that status's text. */
  function Caught(e: Thrown): (r: Reply)
    ensures r.Failed? && (r.status == 401 || r.status == 429 || r.status == 500)
    ensures r.Failed? && r.status == Status(e) && r.error == ErrorText(r.status)
  {
    Failed(Status(e), ErrorText(Status(e)))
  }

  /** The search key is absent or empty (both are falsy). */
  predicate KeyMissing(tavilyKey: Option<string>) {
    tavilyKey.None? || tavilyKey.value == ""
  }

  /** The handler. The key check comes first and lies outside the `try`;
      everything after it is inside, so what it throws is caught and
      classified. */
  function Post(req: Request, tavilyKey: Option<string>, services: Services): Exchange {
    if KeyMissing(tavilyKey) then
      Exchange(Uncaught(ErrorObject(MissingKeyMessage)), [])
    else
      var system := SystemPrompt(req.conversationHistory);
      var asked := [CompletionRequest(system, req.message)];
      match services.complete(system, req.message)
      case Failure(e) => Exchange(Caught(e), asked)
      case Success(choices) => Answer(choices, asked, services)
  }

  /** The branch on the model's answer: only the first choice, and only
      that choice's first tool call, is read. */
  function Answer(choices: seq<AssistantMessage>, asked: seq<OutboundCall>, services: Services)
    : Exchange
  {
    if |choices| == 0 then Exchange(Caught(ErrorObject(NoChoiceMessage)), asked)
    else
      match choices[0].toolCalls
      case None => Exchange(Ok(ApiResponse(choices[0].content, [], false)), asked)
      case Some(toolCalls) =>
        if |toolCalls| == 0 then Exchange(Caught(ErrorObject(NoToolCallMessage)), asked)
        else
          match toolCalls[0].arguments
          case Failure(syntaxError) => Exchange(Caught(ErrorObject(syntaxError)), asked)
          case Success(criteria) => Search(criteria, asked, services)
  }

  /** The search for the extracted criteria; its failure is rewrapped
      before being classified. */
  function Search(criteria: Criteria, asked: seq<OutboundCall>, services: Services): Exchange {
    var query := SearchQuery(criteria);
    var searched := asked + [SearchRequest(query, MaxResults)];
    match services.search(query)
    case Failure(e) => Exchange(Caught(WrapTavily(e)), searched)
    case Success(docs) =>
      match MapResults(docs, criteria.location, services.hostname)
      case Failure(m) => Exchange(Caught(ErrorObject(m)), searched)
      case Success(results) =>
        Exchange(Ok(ApiResponse(Some(SearchingText(criteria)), results, true)), searched)
  }

  // ---------------------------------------------------------------------
  // Properties of the handler
  // ---------------------------------------------------------------------

  /** An exception escapes exactly when the key is missing, and then
      nothing was sent. Otherwise the model was asked once, with the
      rendered history and the user's message, and at most one search
      followed, asking for three results. */
  lemma OutboundCalls(req: Request, tavilyKey: Option<string>, services: Services)
    ensures var x := Post(req, tavilyKey, services);
      && (x.reply.Uncaught? <==> KeyMissing(tavilyKey))
      && (x.reply.Uncaught? ==> x.calls == [])
      && (!KeyMissing(tavilyKey) ==>
            && 1 <= |x.calls| <= 2
            && x.calls[0] == CompletionRequest(SystemPrompt(req.conversationHistory), req.message))
      && (|x.calls| == 2 ==> x.calls[1].SearchRequest? && x.calls[1].maxResults == MaxResults)
  {
  }

  /** A caught failure carries 401, 429 or 500 and that status's text. */
  lemma FailureReplies(req: Request, tavilyKey: Option<string>, services: Services)
    ensures var x := Post(req, tavilyKey, services);
      x.reply.Failed? ==>
        && (x.reply.status == 401 || x.reply.status == 429 || x.reply.status == 500)
        && x.reply.error == ErrorText(x.reply.status)
  {
    if !KeyMissing(tavilyKey) {
      var system := SystemPrompt(req.conversationHistory);
      var asked := [CompletionRequest(system, req.message)];
      match services.complete(system, req.message)
      case Failure(e) =>
      case Success(choices) =>
        if |choices| > 0 && choices[0].toolCalls.Some? && |choices[0].toolCalls.value| > 0 {
          match choices[0].toolCalls.value[0].arguments
          case Failure(_) =>
          case Success(c) =>
            var y := Search(c, asked, services);
            assert y.reply.Failed? ==> y.reply.error == ErrorText(y.reply.status);
        }
    }
  }

  /** Every 200 reply is one of two kinds. Without a completed search it
      has no results and no search was made. With a completed search, the
      search went out with the query for some criteria, the reply names
      those criteria, and each listing has the fixed price, the criteria's
      location and the host of its own link. */
  lemma SuccessReplies(req: Request, tavilyKey: Option<string>, services: Services)
    ensures var x := Post(req, tavilyKey, services);
      && (x.reply.Ok? && !x.reply.body.searchComplete ==>
            x.reply.body.results == [] && |x.calls| == 1)
      && (x.reply.Ok? && x.reply.body.searchComplete ==>
            && |x.calls| == 2
            && exists c :: SearchedFor(x, c, services.hostname))
  {
    if !KeyMissing(tavilyKey) {
      var system := SystemPrompt(req.conversationHistory);
      var outcome := services.complete(system, req.message);
      if outcome.Success? && |outcome.value| > 0 {
        var answer := outcome.value[0];
        if answer.toolCalls.Some? && |answer.toolCalls.value| > 0 {
          var arguments := answer.toolCalls.value[0].arguments;
          if arguments.Success? {
            var c := arguments.value;
            var x := Post(req, tavilyKey, services);
            if x.reply.Ok? {
              assert SearchedFor(x, c, services.hostname);
            }
          }
        }
      }
    }
  }

  /** A completed search for criteria `c`: the query sent was the one for
      `c`, the reply text names `c`, and every listing carries the fixed
      price, the location of `c` and the host name of its own link. */
  ghost predicate SearchedFor(x: Exchange, c: Criteria, hostname: string -> Result<string, string>)
    requires |x.calls| == 2 && x.reply.Ok?
  {
    && x.calls[1] == SearchRequest(SearchQuery(c), MaxResults)
    && x.reply.body.response == Some(SearchingText(c))
    && forall i :: 0 <= i < |x.reply.body.results| ==>
         && x.reply.body.results[i].price == "N/A"
         && x.reply.body.results[i].location == c.location
         && hostname(x.reply.body.results[i].link) == Success(x.reply.body.results[i].source)
  }

  /** Without a search key the handler throws before asking anything; the
      exception is not caught, so it never becomes a 401 reply. */
  lemma MissingKeyThrowsFirst(req: Request, tavilyKey: Option<string>, services: Services)
    requires KeyMissing(tavilyKey)
    ensures Post(req, tavilyKey, services)
      == Exchange(Uncaught(ErrorObject("Tavily API key is missing")), [])
  {
  }

  /** When the model calls no tool, its text is the reply verbatim, with no
      results, no completed search and no search request. */
  lemma NoToolCallAsksBack(req: Request, tavilyKey: Option<string>, services: Services,
                           choices: seq<AssistantMessage>)
    requires !KeyMissing(tavilyKey)
    requires services.complete(SystemPrompt(req.conversationHistory), req.message) == Success(choices)
    requires |choices| > 0 && choices[0].toolCalls.None?
    ensures Post(req, tavilyKey, services) == Exchange(
      Ok(ApiResponse(choices[0].content, [], false)),
      [CompletionRequest(SystemPrompt(req.conversationHistory), req.message)])
  {
  }

  /** When the model's first tool call parses into `c` and the search for
      `c` succeeds on parseable URLs, the query sent is exactly
      `"<type> for rent in <location> under <budget>"`, the search is marked
      complete, the reply text names `c`, and the listings are the documents
      in order, as many as the search returned. */
  lemma ToolCallSearches(req: Request, tavilyKey: Option<string>, services: Services,
                         choices: seq<AssistantMessage>, toolCalls: seq<ToolCall>,
                         c: Criteria, docs: seq<Document>)
    requires !KeyMissing(tavilyKey)
    requires services.complete(SystemPrompt(req.conversationHistory), req.message) == Success(choices)
    requires |choices| > 0 && choices[0].toolCalls == Some(toolCalls)
    requires |toolCalls| > 0 && toolCalls[0].arguments == Success(c)
    requires services.search(c.kind + " for rent in " + c.location + " under " + c.budget) == Success(docs)
    requires forall i :: 0 <= i < |docs| ==> services.hostname(docs[i].url).Success?
    ensures var x := Post(req, tavilyKey, services);
      && x.calls == [CompletionRequest(SystemPrompt(req.conversationHistory), req.message),
                     SearchRequest(c.kind + " for rent in " + c.location + " under " + c.budget, 3)]
      && x.reply.Ok?
      && x.reply.body.searchComplete
      && x.reply.body.response
           == Some("Searching for " + c.kind + " in " + c.location + " under " + c.budget + "...")
      && |x.reply.body.results| == |docs|
      && forall i :: 0 <= i < |docs| ==>
           x.reply.body.results[i]
             == ToListing(docs[i], c.location, services.hostname(docs[i].url).value)
  {
    var r := MapResults(docs, c.location, services.hostname);
    assert r.Success?;
  }

  /** A search that finds nothing still counts as a completed search, with
      an empty list of listings. */
  lemma EmptySearchIsComplete(req: Request, tavilyKey: Option<string>, services: Services,
                              choices: seq<AssistantMessage>, toolCalls: seq<ToolCall>,
                              c: Criteria)
    requires !KeyMissing(tavilyKey)
    requires services.complete(SystemPrompt(req.conversationHistory), req.message) == Success(choices)
    requires |choices| > 0 && choices[0].toolCalls == Some(toolCalls)
    requires |toolCalls| > 0 && toolCalls[0].arguments == Success(c)
    requires services.search(SearchQuery(c)) == Success([])
    ensures Post(req, tavilyKey, services).reply
      == Ok(ApiResponse(Some(SearchingText(c)), [], true))
  {
  }

  /** A completion that throws is answered with the status of what it
      threw, and no search is made: an error whose message names the API
      key is a 401, one that names a quota is a 429. */
  lemma CompletionFailureIsClassified(req: Request, tavilyKey: Option<string>,
                                      services: Services, e: Thrown)
    requires !KeyMissing(tavilyKey)
    requires services.complete(SystemPrompt(req.conversationHistory), req.message) == Failure(e)
    ensures Post(req, tavilyKey, services) == Exchange(
      Failed(Status(e), ErrorText(Status(e))),
      [CompletionRequest(SystemPrompt(req.conversationHistory), req.message)])
  {
  }

  /** Tool-call arguments that do not yield criteria are answered with the
      status of the error thrown, and no search is made. */
  lemma ArgumentErrorIsClassified(req: Request, tavilyKey: Option<string>, services: Services,
                                  choices: seq<AssistantMessage>, toolCalls: seq<ToolCall>,
                                  message: string)
    requires !KeyMissing(tavilyKey)
    requires services.complete(SystemPrompt(req.conversationHistory), req.message) == Success(choices)
    requires |choices| > 0 && choices[0].toolCalls == Some(toolCalls)
    requires |toolCalls| > 0 && toolCalls[0].arguments == Failure(message)
    ensures var x := Post(req, tavilyKey, services);
      x.reply == Failed(Status(ErrorObject(message)), ErrorText(Status(ErrorObject(message))))
      && |x.calls| == 1
  {
  }

  /** At most one document is the first with a URL that does not parse. */
  lemma FirstBadUrlUnique(docs: seq<Document>, hostname: string -> Result<string, string>,
                          k1: int, m1: string, k2: int, m2: string)
    requires FirstBadUrl(docs, hostname, k1, m1) && FirstBadUrl(docs, hostname, k2, m2)
    ensures k1 == k2 && m1 == m2
  {
  }

  /** When the k-th document is the first whose URL does not parse, the
      reply is classified by the parser's message for that URL. */
  lemma UrlErrorIsClassified(req: Request, tavilyKey: Option<string>, services: Services,
                             choices: seq<AssistantMessage>, toolCalls: seq<ToolCall>,
                             c: Criteria, docs: seq<Document>, k: int, message: string)
    requires !KeyMissing(tavilyKey)
    requires services.complete(SystemPrompt(req.conversationHistory), req.message) == Success(choices)
    requires |choices| > 0 && choices[0].toolCalls == Some(toolCalls)
    requires |toolCalls| > 0 && toolCalls[0].arguments == Success(c)
    requires services.search(SearchQuery(c)) == Success(docs)
    requires 0 <= k < |docs| && services.hostname(docs[k].url) == Failure(message)
    requires forall j :: 0 <= j < k ==> services.hostname(docs[j].url).Success?
    ensures var x := Post(req, tavilyKey, services);
      x.reply == Failed(Status(ErrorObject(message)), ErrorText(Status(ErrorObject(message))))
      && |x.calls| == 2
  {
    var r := MapResults(docs, c.location, services.hostname);
    assert !services.hostname(docs[k].url).Success?;
    assert r.Failure?;
    var k' :| FirstBadUrl(docs, services.hostname, k', r.error);
    assert FirstBadUrl(docs, services.hostname, k, message);
    FirstBadUrlUnique(docs, services.hostname, k', r.error, k, message);
  }

  /** A failed search is answered with the status its own error deserves:
      the "Tavily API Error: " rewrapping neither adds nor hides a marker. */
  lemma SearchFailureKeepsStatus(req: Request, tavilyKey: Option<string>, services: Services,
                                 choices: seq<AssistantMessage>, toolCalls: seq<ToolCall>,
                                 c: Criteria, e: Thrown)
    requires !KeyMissing(tavilyKey)
    requires services.complete(SystemPrompt(req.conversationHistory), req.message) == Success(choices)
    requires |choices| > 0 && choices[0].toolCalls == Some(toolCalls)
    requires |toolCalls| > 0 && toolCalls[0].arguments == Success(c)
    requires services.search(SearchQuery(c)) == Failure(e)
    ensures Post(req, tavilyKey, services).reply == Failed(Status(e), ErrorText(Status(e)))
    ensures e.OtherValue? ==> Post(req, tavilyKey, services).reply.status == 500
  {
    WrapKeepsStatus(e);
  }

  /** A completion with no choice, or with an empty tool-call array, makes
      the engine throw a `TypeError` that is answered as a server error. */
  lemma MalformedCompletionIs500(req: Request, tavilyKey: Option<string>, services: Services,
                                 choices: seq<AssistantMessage>)
    requires !KeyMissing(tavilyKey)
    requires services.complete(SystemPrompt(req.conversationHistory), req.message) == Success(choices)
    requires |choices| == 0 || choices[0].toolCalls == Some([])
    ensures Post(req, tavilyKey, services).reply == Failed(500, ErrorText(500))
  {
    NoChoiceIs500();
    NoToolCallIs500();
  }

  /** The engine message for a missing choice holds no marker. */
  lemma NoChoiceIs500()
    ensures Status(ErrorObject(NoChoiceMessage)) == 500
  {
    EngineMessageIs500("'message')");
  }

  /** The engine message for an empty tool-call array holds no marker. */
  lemma NoToolCallIs500()
    ensures Status(ErrorObject(NoToolCallMessage)) == 500
  {
    EngineMessageIs500("'function')");
  }

  lemma EngineMessageIs500(property: string)
    requires property == "'message')" || property == "'function')"
    ensures Status(ErrorObject("Cannot read " + "properties of " + "undefined " + "(reading " + property)) == 500
  {
    var w1, w2, w3, w4 := "Cannot read ", "properties of ", "undefined ", "(reading ";
    assert LacksMarkerChars(w1);
    assert LacksMarkerChars(w2);
    assert LacksMarkerChars(w3);
    assert LacksMarkerChars(w4);
    if property == "'message')" {
      assert LacksMarkerChars("'message')");
    } else {
      assert LacksMarkerChars("'function')");
    }
    LacksMarkerCharsConcat(w1, w2);
    LacksMarkerCharsConcat(w1 + w2, w3);
    LacksMarkerCharsConcat(w1 + w2 + w3, w4);
    LacksMarkerCharsConcat(w1 + w2 + w3 + w4, property);
    MarkerFree(w1 + w2 + w3 + w4 + property);
  }

  /** Two result records with the same link carry the same source: the
      source is the host name of the link and of nothing else. */
  lemma SameLinkSameSource(docs: seq<Document>, location: string,
                           hostname: string -> Result<string, string>, i: int, j: int)
    requires MapResults(docs, location, hostname).Success?
    requires 0 <= i < |docs| && 0 <= j < |docs| && docs[i].url == docs[j].url
    ensures var r := MapResults(docs, location, hostname).value;
      r[i].link == r[j].link && r[i].source == r[j].source
  {
  }

  /** Two sets of collaborators that answer every recorded request alike. */
  ghost predicate AgreeOn(calls: seq<OutboundCall>, s1: Services, s2: Services) {
    forall i :: 0 <= i < |calls| ==>
      match calls[i]
      case CompletionRequest(system, user) => s1.complete(system, user) == s2.complete(system, user)
      case SearchRequest(query, _) => s1.search(query) == s2.search(query)
  }

  /** The handler consults its collaborators only through the requests it
      records: collaborators that answer those requests alike, and parse
      URLs alike, lead to the same exchange. */
  lemma ConsultsOnlyRecordedRequests(req: Request, tavilyKey: Option<string>,
                                     s1: Services, s2: Services)
    requires s1.hostname == s2.hostname
    requires AgreeOn(Post(req, tavilyKey, s1).calls, s1, s2)
    ensures Post(req, tavilyKey, s1) == Post(req, tavilyKey, s2)
  {
    if !KeyMissing(tavilyKey) {
      var x := Post(req, tavilyKey, s1);
      var system := SystemPrompt(req.conversationHistory);
      assert x.calls[0] == CompletionRequest(system, req.message);
      match s1.complete(system, req.message)
      case Failure(_) =>
      case Success(choices) =>
        if |choices| > 0 && choices[0].toolCalls.Some? && |choices[0].toolCalls.value| > 0 {
          match choices[0].toolCalls.value[0].arguments
          case Failure(_) =>
          case Success(c) =>
            assert x.calls[1] == SearchRequest(SearchQuery(c), MaxResults);
        }
    }
  }

  /** Only the first choice's first tool call is read: answers that agree
      on it, whatever else they hold (other choices, other tool calls, the
      text of the message), lead to the same exchange. */
  lemma OnlyFirstToolCallMatters(req: Request, tavilyKey: Option<string>,
                                 s1: Services, s2: Services,
                                 choices1: seq<AssistantMessage>, choices2: seq<AssistantMessage>)
    requires s1.search == s2.search && s1.hostname == s2.hostname
    requires s1.complete(SystemPrompt(req.conversationHistory), req.message) == Success(choices1)
    requires s2.complete(SystemPrompt(req.conversationHistory), req.message) == Success(choices2)
    requires |choices1| > 0 && choices1[0].toolCalls.Some? && |choices1[0].toolCalls.value| > 0
    requires |choices2| > 0 && choices2[0].toolCalls.Some? && |choices2[0].toolCalls.value| > 0
    requires choices1[0].toolCalls.value[0] == choices2[0].toolCalls.value[0]
    ensures Post(req, tavilyKey, s1) == Post(req, tavilyKey, s2)
  {
  }

  /** The handler itself never caps the number of listings: a search that
      returns four documents yields four listings, although three were
      asked for. Only the search service keeps the count at three. */
  lemma ResultsNotCapped(req: Request, c: Criteria, d: Document)
    ensures var answer := AssistantMessage(None, Some([ToolCall(Success(c))]));
      var services := Services((system, user) => Success([answer]),
                               query => Success([d, d, d, d]),
                               url => Success("example.com"));
      var x := Post(req, Some("key"), services);
      && x.calls[1] == SearchRequest(SearchQuery(c), MaxResults)
      && x.reply.Ok?
      && |x.reply.body.results| == 4 > MaxResults
  {
    var answer := AssistantMessage(None, Some([ToolCall(Success(c))]));
    var services := Services((system, user) => Success([answer]),
                             query => Success([d, d, d, d]),
                             url => Success("example.com"));
    var docs := [d, d, d, d];
    assert services.search(c.kind + " for rent in " + c.location + " under " + c.budget)
      == Success(docs);
    ToolCallSearches(req, Some("key"), services, [answer], [ToolCall(Success(c))], c, docs);
  }
}
