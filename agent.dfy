/** The assistant object: its own implementations of the graph's weather, document
    and response nodes, the `query` turn (graph run, one retry, keyword fallback,
    conversation history) and the corpus state that document uploads switch on. */
module Agents {
  import opened Outcomes
  import opened Text
  import opened DecisionAgent
  import opened WeatherApi

  /** The retriever the document node searches with: the canned one of the mockups,
      or one over the vector store a document was indexed into. */
  datatype Retriever = MockRetriever | StoreRetriever(store: nat)

  /** The question-answering chain over the documents. */
  datatype RagChain = MockChain | StoreChain(store: nat)

  /** Which implementations the compiled graph runs for its weather, document and
      response nodes: the placeholders of the graph module or the assistant's own. */
  datatype GraphNodes = DefaultNodes | AgentNodes

  /** The routing model's reply to a query on the first (0) or second (1) run of the
      graph, or the text of the exception its call raised. */
  type Routing = (string, nat) -> Outcome<string>

  /** The calls the weather and document nodes make into code the model does not see.
      Each returns its result or the text of the exception it raised. */
  datatype Services = Services(
    /** The HTTP fetch of the current weather record for a city. */
    fetchWeather: string -> Outcome<Json>,
    /** The weather chain, given the weather text and the query. */
    weatherChain: (string, string) -> Outcome<string>,
    /** `retriever.get_relevant_documents(query)`: the number of documents found. */
    retrieve: (Retriever, string) -> Outcome<nat>,
    /** `rag_chain.invoke(query)`. */
    answer: (RagChain, string) -> Outcome<string>)

  /** What the nodes read of the assistant besides the turn state. */
  datatype Corpus = Corpus(mockups: bool, retriever: Option<Retriever>, chain: Option<RagChain>)

  /** A chain is only ever installed together with a retriever, and with mockups the
      canned pair is installed from construction on. */
  predicate CorpusValid(c: Corpus) {
    && (c.chain.Some? ==> c.retriever.Some?)
    && (c.mockups ==> c.retriever == Some(MockRetriever) && c.chain == Some(MockChain))
  }

  /** How far indexing a document got: loading or storing it failed, or the store was
      made but building its retriever or its chain failed, or all three were made. */
  datatype Indexing = StoreFailed | RetrieverFailed(store: nat) | ChainFailed(store: nat) | Indexed(store: nat)

  const NeedCity := "I need a city name to provide weather information."
  const NoDocuments := "No documents have been uploaded yet. Please upload a document first."
  const DocumentError := "Error processing document query: "
  const UnknownLocation := "Unknown location"

  /** `get_mock_weather(city)`. */
  function MockWeather(city: string): string {
    "\n    Mock weather data for " + city + ":\n    - Temperature: 22" + Degrees
    + "\n    - Feels like: 24" + Degrees + "\n    - Humidity: 45%\n    - Conditions: Partly cloudy"
    + "\n    - Wind speed: 5 m/s\n    "
  }

  /** The weather text for a city: the canned one with mockups, `get_weather` otherwise. */
  function WeatherText(mockups: bool, services: Services, city: string): string {
    if mockups then MockWeather(city) else GetWeather(services.fetchWeather(city))
  }

  function WeatherFailure(city: string, msg: string): string {
    "I couldn't get weather information for " + city + ". Error: " + msg
  }

  /** The `weather_result` the assistant's weather node writes. */
  function WeatherResult(mockups: bool, services: Services, city: string, query: string): string {
    if city == "" then NeedCity
    else
      match services.weatherChain(WeatherText(mockups, services, city), query)
      case Ok(response) => response
      case Err(msg) => WeatherFailure(city, msg)
  }

  /** The `document_result` the assistant's document node writes. */
  function DocumentResult(c: Corpus, services: Services, query: string): string
    requires CorpusValid(c)
  {
    if c.chain.None? then NoDocuments
    else
      match services.retrieve(c.retriever.value, query)
      case Err(msg) => DocumentError + msg
      case Ok(_) =>
        match services.answer(c.chain.value, query)
        case Ok(response) => response
        case Err(msg) => DocumentError + msg
  }

  /** The assistant's weather node: writes `weather_result` and nothing else. */
  function WeatherStep(s: TurnState, mockups: bool, services: Services): (r: TurnState)
    ensures r == s.(weatherResult := r.weatherResult)
    ensures r.weatherResult == WeatherResult(mockups, services, s.weatherCity, s.query)
  {
    s.(weatherResult := WeatherResult(mockups, services, s.weatherCity, s.query))
  }

  /** The assistant's document node: writes `document_result` and nothing else. */
  function DocumentStep(s: TurnState, c: Corpus, services: Services): (r: TurnState)
    requires CorpusValid(c)
    ensures r == s.(documentResult := r.documentResult)
    ensures r.documentResult == DocumentResult(c, services, s.query)
  {
    s.(documentResult := DocumentResult(c, services, s.query))
  }

  /** The assistant's response node: the final response is the result of the branch
      the decision names, and nothing else changes. */
  function ResponseStep(s: TurnState): (r: TurnState)
    ensures r == s.(finalResponse := r.finalResponse)
    ensures r.finalResponse == if s.decision == "weather" then s.weatherResult else s.documentResult
  {
    s.(finalResponse := if s.decision == "weather" then s.weatherResult else s.documentResult)
  }

  /** One run of the compiled graph from `s`: decide, the branch the decision names,
      response. Only the routing model's call can raise out of it. */
  function GraphRun(s: TurnState, nodes: GraphNodes, c: Corpus, routing: Routing, services: Services, attempt: nat)
    : Outcome<TurnState>
    requires CorpusValid(c)
  {
    match routing(s.query, attempt)
    case Err(msg) => Err(msg)
    case Ok(reply) =>
      var decided := DecideStep(s, reply);
      var branched :=
        if decided.decision == "weather" then
          (if nodes == AgentNodes then WeatherStep(decided, c.mockups, services) else DefaultWeatherStep(decided))
        else
          (if nodes == AgentNodes then DocumentStep(decided, c, services) else DefaultDocumentStep(decided));
      Ok(if nodes == AgentNodes then ResponseStep(branched) else DefaultResponseStep(branched))
  }

  // ---------------------------------------------------------------------------
  // The keyword fallback

  /** The fallback's test for a weather question: the lower-cased input mentions
      `weather`, `temperature` or `forecast`. */
  predicate AsksAboutWeather(input: string) {
    var lowered := Lower(input);
    Contains(lowered, "weather") || Contains(lowered, "temperature") || Contains(lowered, "forecast")
  }

  /** The class `[A-Za-z\s]`. */
  predicate LetterOrSpace(c: char) {
    ('A' <= c <= 'Z') || ('a' <= c <= 'z') || IsSpace(c)
  }

  /** The end of the longest run of white space starting at `j`. */
  function SpaceRunEnd(s: string, j: nat): (k: nat)
    requires j <= |s|
    ensures j <= k <= |s| && (k == |s| || !IsSpace(s[k]))
    ensures forall m :: j <= m < k ==> IsSpace(s[m])
    decreases |s| - j
  {
    if j < |s| && IsSpace(s[j]) then SpaceRunEnd(s, j + 1) else j
  }

  /** The end of the longest run of letters and white space starting at `j`. */
  function WordRunEnd(s: string, j: nat): (k: nat)
    requires j <= |s|
    ensures j <= k <= |s| && (k == |s| || !LetterOrSpace(s[k]))
    ensures forall m :: j <= m < k ==> LetterOrSpace(s[m])
    decreases |s| - j
  {
    if j < |s| && LetterOrSpace(s[j]) then WordRunEnd(s, j + 1) else j
  }

  /** The group of `in\s+([A-Za-z\s]+)(?:\?|$)` matched at `i`, if one matches there.
      `\s+` takes the white space after `in`, the group the rest of the run of
      letters and white space, and the run must end the input or stop at a `?`. When
      the run is white space only, `\s+` gives back its last character to the group. */
  function MatchAt(s: string, i: nat): (m: Option<string>)
    requires i + 2 <= |s|
    ensures m.Some? ==> OccursAt(s, "in", i) && i + 2 < |s| && IsSpace(s[i + 2])
    ensures m.Some? ==> m.value != [] && forall k :: 0 <= k < |m.value| ==> LetterOrSpace(m.value[k])
  {
    var w := SpaceRunEnd(s, i + 2);
    var k := WordRunEnd(s, i + 2);
    if s[i..i + 2] == "in" && w > i + 2 && k - (i + 2) >= 2 && (k == |s| || s[k] == '?') then
      Some(if w < k then s[w..k] else s[k - 1..k])
    else None
  }

  /** `re.search`: the group of the leftmost match starting at `i` or later. */
  function SearchFrom(s: string, i: nat): (r: Option<string>)
    ensures r.Some? ==> r.value != [] && forall k :: 0 <= k < |r.value| ==> LetterOrSpace(r.value[k])
    decreases |s| - i
  {
    if i + 2 > |s| then None
    else if MatchAt(s, i).Some? then MatchAt(s, i)
    else SearchFrom(s, i + 1)
  }

  /** The city the fallback extracts from the input: "Unknown location" when the regex
      matches nowhere, otherwise letters and white space with none at either end. */
  function FallbackCity(input: string): (city: string)
    ensures (forall j :: 0 <= j && j + 2 <= |input| ==> MatchAt(input, j).None?) ==> city == UnknownLocation
    ensures city == UnknownLocation || (
      && (forall k :: 0 <= k < |city| ==> LetterOrSpace(city[k]))
      && (city == [] || (!IsSpace(city[0]) && !IsSpace(city[|city| - 1]))))
  {
    SearchNone(input, 0);
    match SearchFrom(input, 0)
    case Some(group) => StripLetters(group); Strip(group)
    case None => UnknownLocation
  }

  /** The search finds nothing exactly when no start position from `i` on matches. */
  lemma {:induction false} SearchNone(s: string, i: nat)
    ensures SearchFrom(s, i).None? <==> forall j :: i <= j && j + 2 <= |s| ==> MatchAt(s, j).None?
    decreases |s| - i
  {
    if i + 2 <= |s| {
      SearchNone(s, i + 1);
    }
  }

  /** Stripping a run of letters and white space leaves letters and white space. */
  lemma StripLetters(g: string)
    requires forall k :: 0 <= k < |g| ==> LetterOrSpace(g[k])
    ensures forall k :: 0 <= k < |Strip(g)| ==> LetterOrSpace(Strip(g)[k])
  {
    var t := Strip(g);
    var j :| Framed(g, j, t);
    forall k | 0 <= k < |t|
      ensures LetterOrSpace(t[k])
    {
      assert t[k] == g[j + k];
    }
  }

  const WeatherInfoPrefix := "Weather information for "

  /** The answer of the keyword fallback that runs when the graph failed twice. */
  function Fallback(c: Corpus, services: Services, input: string): string {
    if AsksAboutWeather(input) then
      var city := FallbackCity(input);
      WeatherInfoPrefix + city + ":\n\n" + WeatherText(c.mockups, services, city)
    else if c.chain.None? then NoDocuments
    else
      match services.answer(c.chain.value, input)
      case Ok(response) => response
      case Err(msg) => DocumentError + msg
  }

  /** The answer `query` returns: the first graph run's final response, else the
      second's, else the fallback's. */
  function QueryResponse(history: seq<Message>, c: Corpus, routing: Routing, services: Services, input: string): string
    requires CorpusValid(c)
  {
    var start := Initial(history, input);
    match GraphRun(start, AgentNodes, c, routing, services, 0)
    case Ok(done) => done.finalResponse
    case Err(_) =>
      match GraphRun(start, AgentNodes, c, routing, services, 1)
      case Ok(done) => done.finalResponse
      case Err(_) => Fallback(c, services, input)
  }

  // ---------------------------------------------------------------------------
  // Properties of the nodes, the graph run and the fallback

  /** Without a city the weather node answers with its fixed request for one, whatever
      the services would have answered: it consults none of them. */
  lemma EmptyCityAsksForCity(mockups: bool, s1: Services, s2: Services, q1: string, q2: string)
    ensures WeatherResult(mockups, s1, "", q1) == NeedCity
    ensures WeatherResult(mockups, s1, "", q1) == WeatherResult(!mockups, s2, "", q2)
  {
  }

  /** A failed weather chain is contained: the weather result is the failure message,
      which names the city and carries the error text. */
  lemma WeatherFailureContained(mockups: bool, services: Services, city: string, query: string, msg: string)
    requires city != ""
    requires services.weatherChain(WeatherText(mockups, services, city), query) == Err(msg)
    ensures WeatherResult(mockups, services, city, query) == WeatherFailure(city, msg)
    ensures Contains(WeatherFailure(city, msg), city) && Contains(WeatherFailure(city, msg), msg)
  {
    var r := WeatherFailure(city, msg);
    var lead := "I couldn't get weather information for ";
    assert r == lead + city + ". Error: " + msg;
    assert r[|lead|..|lead| + |city|] == city;
    assert OccursAt(r, city, |lead|);
    assert r[|r| - |msg|..] == msg;
    assert OccursAt(r, msg, |r| - |msg|);
  }

  /** Without a corpus the document node answers with its fixed message, whatever the
      services would have answered. */
  lemma NoCorpusNoDocuments(c: Corpus, s1: Services, s2: Services, q1: string, q2: string)
    requires CorpusValid(c) && c.chain.None?
    ensures DocumentResult(c, s1, q1) == NoDocuments == DocumentResult(c, s2, q2)
  {
  }

  /** A failed retrieval or answer is contained: the document result carries the error text. */
  lemma DocumentFailureContained(c: Corpus, services: Services, query: string, msg: string)
    requires CorpusValid(c) && c.chain.Some?
    requires services.retrieve(c.retriever.value, query) == Err(msg)
          || (services.retrieve(c.retriever.value, query).Ok? && services.answer(c.chain.value, query) == Err(msg))
    ensures DocumentResult(c, services, query) == DocumentError + msg
    ensures Contains(DocumentResult(c, services, query), msg)
  {
    var r := DocumentError + msg;
    assert r[|DocumentError|..] == msg;
    assert OccursAt(r, msg, |DocumentError|);
  }

  /** A graph run raises exactly when the routing model's call does, with its error;
      otherwise it keeps the messages and the query and ends with one of the two
      decisions. */
  lemma GraphRunShape(s: TurnState, nodes: GraphNodes, c: Corpus, routing: Routing, services: Services, attempt: nat)
    requires CorpusValid(c)
    ensures GraphRun(s, nodes, c, routing, services, attempt).Err? <==> routing(s.query, attempt).Err?
    ensures GraphRun(s, nodes, c, routing, services, attempt).Err? ==>
      GraphRun(s, nodes, c, routing, services, attempt).msg == routing(s.query, attempt).msg
    ensures GraphRun(s, nodes, c, routing, services, attempt).Ok? ==>
      var r := GraphRun(s, nodes, c, routing, services, attempt).value;
      r.messages == s.messages && r.query == s.query && (r.decision == "weather" || r.decision == "document")
  {
  }

  /** With the assistant's nodes, a turn the routing model sends to weather answers with
      the weather result for the parsed city, and one it sends to documents with the
      document result. */
  lemma AgentTurnAnswer(s: TurnState, c: Corpus, routing: Routing, services: Services, attempt: nat, reply: string)
    requires CorpusValid(c) && routing(s.query, attempt) == Ok(reply)
    ensures GraphRun(s, AgentNodes, c, routing, services, attempt).Ok?
    ensures GraphRun(s, AgentNodes, c, routing, services, attempt).value.finalResponse ==
      if ReplyDecision(reply) == "weather" then WeatherResult(c.mockups, services, ReplyCity(reply), s.query)
      else DocumentResult(c, services, s.query)
  {
  }

  /** A reply that votes for weather but names no city has the weather looked up for the
      literal city `none`, not answered with the request for a city. */
  lemma MissingCityLineLooksUpNone(s: TurnState, c: Corpus, routing: Routing, services: Services, attempt: nat, reply: string)
    requires CorpusValid(c) && routing(s.query, attempt) == Ok(reply)
    requires exists i :: 0 <= i < |ReplyLines(reply)| && VotesWeather(ReplyLines(reply)[i])
    requires forall i :: 0 <= i < |ReplyLines(reply)| ==> !IsCityLine(ReplyLines(reply)[i])
    ensures GraphRun(s, AgentNodes, c, routing, services, attempt).value.finalResponse ==
      WeatherResult(c.mockups, services, "none", s.query)
  {
    CityNoneIffNoCityLine(ReplyLines(reply));
    AgentTurnAnswer(s, c, routing, services, attempt, reply);
  }

  /** Any spelling of a keyword, in any letter case and anywhere in the input, sends the
      fallback to the weather path. */
  lemma KeywordAnywhere(before: string, word: string, after: string)
    requires Lower(word) == "weather" || Lower(word) == "temperature" || Lower(word) == "forecast"
    ensures AsksAboutWeather(before + word + after)
  {
    var s := before + word + after;
    var lowered := Lower(s);
    assert lowered[|before|..|before| + |word|] == Lower(word) by {
      forall m | 0 <= m < |word|
        ensures lowered[|before| + m] == Lower(word)[m]
      {
        assert s[|before| + m] == word[m];
      }
    }
    assert OccursAt(lowered, Lower(word), |before|);
  }

  /** The fallback's weather path always reports weather information: the message for a
      failed lookup cannot come out, as neither weather source raises. */
  lemma FallbackWeatherAnswer(c: Corpus, services: Services, input: string)
    requires AsksAboutWeather(input)
    ensures StartsWith(Fallback(c, services, input), WeatherInfoPrefix + FallbackCity(input) + ":\n\n")
    ensures !StartsWith(Fallback(c, services, input), "I couldn't get weather information for ")
  {
    var head := WeatherInfoPrefix + FallbackCity(input) + ":\n\n";
    var r := Fallback(c, services, input);
    assert r == head + WeatherText(c.mockups, services, FallbackCity(input));
    assert r[..|head|] == head;
    assert r[0] == 'W';
    DifferentStart(r, "I couldn't get weather information for ");
  }

  /** The regex search skips start positions where nothing matches. */
  lemma {:induction false} SearchSkips(s: string, i: nat, n: nat)
    requires i <= n && n + 2 <= |s|
    requires forall j :: i <= j < n ==> MatchAt(s, j).None?
    ensures SearchFrom(s, i) == SearchFrom(s, n)
    decreases n - i
  {
    if i < n {
      SearchSkips(s, i + 1, n);
    }
  }

  /** Without an `in` followed by white space the regex finds nothing and the fallback
      looks up "Unknown location". */
  lemma {:induction false} NoInUnknownLocation(s: string, i: nat)
    requires forall j :: i <= j && j + 2 < |s| ==> !(OccursAt(s, "in", j) && IsSpace(s[j + 2]))
    ensures SearchFrom(s, i) == None
    ensures i == 0 ==> FallbackCity(s) == UnknownLocation
    decreases |s| - i
  {
    if i + 2 <= |s| {
      if s[i..i + 2] == "in" {
        assert OccursAt(s, "in", i);
        assert SpaceRunEnd(s, i + 2) == i + 2;
      }
      assert MatchAt(s, i).None?;
      NoInUnknownLocation(s, i + 1);
    }
  }

  /** No match starts inside a lead that holds no `in` followed by white space, when
      an `i` comes right after the lead. */
  lemma NoMatchInLead(lead: string, rest: string)
    requires forall j :: 0 <= j && j + 2 < |lead| ==> !(OccursAt(lead, "in", j) && IsSpace(lead[j + 2]))
    requires rest != [] && rest[0] == 'i'
    ensures forall j :: 0 <= j < |lead| ==> MatchAt(lead + rest, j).None?
  {
    var s := lead + rest;
    var n := |lead|;
    forall j | 0 <= j < n
      ensures MatchAt(s, j).None?
    {
      if j + 2 < n {
        assert s[j..j + 2] == lead[j..j + 2] && s[j + 2] == lead[j + 2];
        if s[j..j + 2] == "in" {
          assert OccursAt(lead, "in", j);
          assert SpaceRunEnd(s, j + 2) == j + 2;
        }
      } else if j + 2 == n {
        assert s[j + 2] == 'i';
        assert SpaceRunEnd(s, j + 2) == j + 2;
      } else {
        assert s[j..j + 2][1] == s[n] == 'i';
      }
    }
  }

  /** `in <city>` followed by a `?` or by the end of the input matches with `city` as
      its group. */
  lemma MatchCity(s: string, n: nat, city: string)
    requires n + 3 + |city| <= |s| && s[n..n + 3] == "in " && s[n + 3..n + 3 + |city|] == city
    requires city != [] && !IsSpace(city[0])
    requires forall m :: 0 <= m < |city| ==> LetterOrSpace(city[m])
    requires n + 3 + |city| == |s| || s[n + 3 + |city|] == '?'
    ensures MatchAt(s, n) == Some(city)
  {
    var e := n + 3 + |city|;
    assert s[n..n + 2] == "in" && s[n + 2] == ' ' by {
      assert s[n..n + 3][..2] == s[n..n + 2];
      assert s[n..n + 3][2] == s[n + 2];
    }
    assert s[n + 3] == city[0];
    assert SpaceRunEnd(s, n + 3) == n + 3;
    assert forall m :: n + 3 <= m < e ==> s[m] == city[m - n - 3];
    assert WordRunEnd(s, e) == e;
    WordRunSpans(s, n + 2, e);
  }

  /** `... in <city>?` and `... in <city>` at the end of the input: the fallback extracts
      the city, spaces inside it included, when no `in` followed by white space comes
      before it. */
  lemma CityAfterIn(lead: string, city: string, tail: string)
    requires forall j :: 0 <= j && j + 2 < |lead| ==> !(OccursAt(lead, "in", j) && IsSpace(lead[j + 2]))
    requires city != [] && !IsSpace(city[0]) && !IsSpace(city[|city| - 1])
    requires forall m :: 0 <= m < |city| ==> LetterOrSpace(city[m])
    requires tail == [] || tail[0] == '?'
    ensures FallbackCity(lead + "in " + city + tail) == city
  {
    var rest := "in " + city + tail;
    var s := lead + rest;
    assert s == lead + "in " + city + tail;
    var n := |lead|;
    NoMatchInLead(lead, rest);
    SearchSkips(s, 0, n);
    assert s[n..n + 3] == "in " && s[n + 3..n + 3 + |city|] == city;
    assert tail != [] ==> s[n + 3 + |city|] == tail[0];
    MatchCity(s, n, city);
    assert SearchFrom(s, 0) == Some(city);
    StripKeeps(city);
  }

  /** A run that is letters and white space up to `k`, where it ends, ends at `k`. */
  lemma {:induction false} WordRunSpans(s: string, j: nat, k: nat)
    requires j <= k <= |s|
    requires forall m :: j <= m < k ==> LetterOrSpace(s[m])
    requires WordRunEnd(s, k) == k
    ensures WordRunEnd(s, j) == k
    decreases k - j
  {
  }

  /** `query` runs the graph at most twice: only the routing model's first two replies
      matter. */
  lemma AtMostTwoRuns(history: seq<Message>, c: Corpus, r1: Routing, r2: Routing, services: Services, input: string)
    requires CorpusValid(c)
    requires r1(input, 0) == r2(input, 0) && r1(input, 1) == r2(input, 1)
    ensures QueryResponse(history, c, r1, services, input) == QueryResponse(history, c, r2, services, input)
  {
  }

  /** The fallback answers exactly when both runs raised; otherwise the answer is the
      final response of the first run that did not raise. */
  lemma FallbackOnlyAfterTwoFailures(history: seq<Message>, c: Corpus, routing: Routing, services: Services, input: string)
    requires CorpusValid(c)
    ensures routing(input, 0).Ok? ==>
      QueryResponse(history, c, routing, services, input)
        == GraphRun(Initial(history, input), AgentNodes, c, routing, services, 0).value.finalResponse
    ensures routing(input, 0).Err? && routing(input, 1).Ok? ==>
      QueryResponse(history, c, routing, services, input)
        == GraphRun(Initial(history, input), AgentNodes, c, routing, services, 1).value.finalResponse
    ensures routing(input, 0).Err? && routing(input, 1).Err? ==>
      QueryResponse(history, c, routing, services, input) == Fallback(c, services, input)
  {
  }

  // ---------------------------------------------------------------------------
  // The assistant

  class Agent {
    /** Whether the mockups replace the language-model and vector-store services;
        fixed when the process starts. */
    const mockups: bool
    /** Whether `DocumentProcessor()` succeeded in the constructor. When it raised,
        the attribute was never set, and every later `self.doc_processor` raises. */
    const hasProcessor: bool
    var vectorStore: Option<nat>
    var retriever: Option<Retriever>
    var ragChain: Option<RagChain>
    var graph: GraphNodes
    var history: seq<Message>

    function CorpusState(): Corpus
      reads this
    {
      Corpus(mockups, retriever, ragChain)
    }

    predicate Valid()
      reads this
    {
      CorpusValid(CorpusState())
    }

    /** `Agent()`: `processorMade` says whether `DocumentProcessor()` succeeded,
        `store` is the vector store it opened, or `None` when opening it or building
        its retriever or chain raised. */
    constructor (mockups: bool, processorMade: bool, store: Option<nat>)
      ensures Valid() && this.mockups == mockups && hasProcessor == processorMade
      ensures mockups ==> vectorStore == None && retriever == Some(MockRetriever) && ragChain == Some(MockChain)
      ensures !mockups && processorMade && store.Some? ==>
        vectorStore == store && retriever == Some(StoreRetriever(store.value)) && ragChain == Some(StoreChain(store.value))
      ensures !mockups && !(processorMade && store.Some?) ==> vectorStore == None && retriever == None && ragChain == None
      ensures graph == DefaultNodes && history == []
    {
      this.mockups := mockups;
      hasProcessor := processorMade;
      if processorMade && mockups {
        vectorStore := None;
        retriever := Some(MockRetriever);
        ragChain := Some(MockChain);
      } else if processorMade && store.Some? {
        vectorStore := store;
        retriever := Some(StoreRetriever(store.value));
        ragChain := Some(StoreChain(store.value));
      } else {
        vectorStore := None;
        retriever := None;
        ragChain := None;
        if mockups {
          retriever := Some(MockRetriever);
          ragChain := Some(MockChain);
        }
      }
      graph := DefaultNodes;
      history := [];
    }

    /** `process_weather`. */
    method ProcessWeather(state: AgentState, services: Services)
      modifies state
      ensures state.Snapshot() == WeatherStep(old(state.Snapshot()), mockups, services)
    {
      var city := state.weatherCity;
      var query := state.query;
      if city == "" {
        state.weatherResult := NeedCity;
        return;
      }
      var weatherData;
      if mockups {
        weatherData := MockWeather(city);
      } else {
        weatherData := GetWeather(services.fetchWeather(city));
      }
      var response := services.weatherChain(weatherData, query);
      if response.Ok? {
        state.weatherResult := response.value;
      } else {
        state.weatherResult := WeatherFailure(city, response.msg);
      }
    }

    /** `process_document`. */
    method ProcessDocument(state: AgentState, services: Services)
      requires Valid()
      modifies state
      ensures state.Snapshot() == DocumentStep(old(state.Snapshot()), CorpusState(), services)
    {
      var query := state.query;
      if ragChain.None? {
        state.documentResult := NoDocuments;
        return;
      }
      var retrieved := services.retrieve(retriever.value, query);
      if retrieved.Err? {
        state.documentResult := DocumentError + retrieved.msg;
        return;
      }
      var response := services.answer(ragChain.value, query);
      if response.Ok? {
        state.documentResult := response.value;
      } else {
        state.documentResult := DocumentError + response.msg;
      }
    }

    /** `generate_response`. */
    method GenerateResponse(state: AgentState)
      modifies state
      ensures state.Snapshot() == ResponseStep(old(state.Snapshot()))
    {
      if state.decision == "weather" {
        state.finalResponse := state.weatherResult;
      } else {
        state.finalResponse := state.documentResult;
      }
    }

    /** `update_graph`: rebuild the graph with the assistant's own nodes. */
    method UpdateGraph()
      modifies this
      ensures graph == AgentNodes
      ensures history == old(history) && CorpusState() == old(CorpusState()) && vectorStore == old(vectorStore)
    {
      graph := AgentNodes;
    }

    /** `graph.invoke(initial_state)`: a fresh state dictionary walked from decide to END. */
    method InvokeGraph(messages: seq<Message>, query: string, routing: Routing, services: Services, attempt: nat)
      returns (result: Outcome<TurnState>)
      requires Valid()
      ensures result == GraphRun(Initial(messages, query), graph, CorpusState(), routing, services, attempt)
    {
      var state := new AgentState(messages, query);
      var reply := routing(query, attempt);
      var raised := Decide(state, reply);
      if raised.Some? {
        return Err(raised.value);
      }
      var next := Next(DecideNode, state.decision);
      DecideEdge(state.decision);
      if next == Some(WeatherNode) {
        if graph == AgentNodes {
          ProcessWeather(state, services);
        } else {
          DefaultProcessWeather(state);
        }
      } else {
        if graph == AgentNodes {
          ProcessDocument(state, services);
        } else {
          DefaultProcessDocument(state);
        }
      }
      if graph == AgentNodes {
        GenerateResponse(state);
      } else {
        DefaultGenerateResponse(state);
      }
      result := Ok(state.Snapshot());
    }

    /** `query`: one turn. Records the user's message, runs the graph (a second time
        if the first run raised, the keyword fallback if that raised too) and records
        and returns the answer. */
    method Query(input: string, routing: Routing, services: Services) returns (response: string)
      requires Valid()
      modifies this
      ensures Valid() && CorpusState() == old(CorpusState()) && vectorStore == old(vectorStore) && graph == AgentNodes
      ensures history == old(history) + [Message(Human, input), Message(Ai, response)]
      ensures response == QueryResponse(old(history) + [Message(Human, input)], CorpusState(), routing, services, input)
    {
      UpdateGraph();
      history := history + [Message(Human, input)];
      response := Answer(input, routing, services);
      history := history + [Message(Ai, response)];
    }

    /** The answering part of `query`: the graph, run a second time if the first run
        raised, then the keyword fallback if that raised too. */
    method Answer(input: string, routing: Routing, services: Services) returns (response: string)
      requires Valid() && graph == AgentNodes
      ensures response == QueryResponse(history, CorpusState(), routing, services, input)
    {
      var result := InvokeGraph(history, input, routing, services, 0);
      if result.Err? {
        result := InvokeGraph(history, input, routing, services, 1);
      }
      if result.Ok? {
        response := result.value.finalResponse;
      } else {
        response := Fallback(CorpusState(), services, input);
      }
    }

    /** Install the canned retriever and chain of the mockups. */
    method UseMockups()
      modifies this
      ensures retriever == Some(MockRetriever) && ragChain == Some(MockChain)
      ensures vectorStore == old(vectorStore) && graph == old(graph) && history == old(history)
    {
      retriever := Some(MockRetriever);
      ragChain := Some(MockChain);
    }

    /** Index a document: each step assigns its field before the next one can raise.
        Returns whether all three steps succeeded. */
    method Index(indexing: Indexing) returns (ok: bool)
      modifies this
      ensures ok <==> indexing.Indexed?
      ensures indexing.Indexed? ==> ragChain == Some(StoreChain(indexing.store))
      ensures indexing.Indexed? || indexing.ChainFailed? ==> retriever == Some(StoreRetriever(indexing.store))
      ensures !indexing.StoreFailed? ==> vectorStore == Some(indexing.store)
      ensures indexing.StoreFailed? ==> vectorStore == old(vectorStore)
      ensures !(indexing.Indexed? || indexing.ChainFailed?) ==> retriever == old(retriever)
      ensures !indexing.Indexed? ==> ragChain == old(ragChain)
      ensures graph == old(graph) && history == old(history)
    {
      if indexing.StoreFailed? {
        return false;
      }
      vectorStore := Some(indexing.store);
      if indexing.RetrieverFailed? {
        return false;
      }
      retriever := Some(StoreRetriever(indexing.store));
      if indexing.ChainFailed? {
        return false;
      }
      ragChain := Some(StoreChain(indexing.store));
      return true;
    }

    /** `add_document_text`: `indexing` is how far `process_text` and the two builds
        after it got. */
    method AddDocumentText(indexing: Indexing) returns (ok: bool)
      requires Valid()
      modifies this
      ensures Valid() && graph == old(graph) && history == old(history)
      ensures mockups ==> ok && CorpusState() == old(CorpusState())
      ensures !mockups && !hasProcessor ==> !ok && CorpusState() == old(CorpusState()) && vectorStore == old(vectorStore)
      ensures mockups ==> vectorStore == old(vectorStore)
      ensures !mockups && hasProcessor ==> (ok <==> indexing.Indexed?)
      ensures !mockups && ok ==> ragChain == Some(StoreChain(indexing.store))
      ensures !mockups && !ok ==> ragChain == old(ragChain)
      ensures !mockups && hasProcessor ==>
        && (indexing.Indexed? || indexing.ChainFailed? ==> retriever == Some(StoreRetriever(indexing.store)))
        && (!(indexing.Indexed? || indexing.ChainFailed?) ==> retriever == old(retriever))
        && (!indexing.StoreFailed? ==> vectorStore == Some(indexing.store))
        && (indexing.StoreFailed? ==> vectorStore == old(vectorStore))
    {
      var raised := false;
      if !hasProcessor {
        raised := true;
      } else if mockups {
        UseMockups();
        return true;
      } else {
        ok := Index(indexing);
        raised := !ok;
      }
      if raised {
        if mockups {
          UseMockups();
          return true;
        }
        return false;
      }
      return true;
    }

    /** `upload_pdf`: `indexing` is how far `load_pdf`, `store_documents` and the two
        builds after them got. The temporary file is not modelled. */
    method UploadPdf(indexing: Indexing) returns (ok: bool)
      requires Valid()
      modifies this
      ensures Valid() && graph == old(graph) && history == old(history)
      ensures mockups ==> ok && CorpusState() == old(CorpusState())
      ensures !mockups && !hasProcessor ==> !ok && CorpusState() == old(CorpusState()) && vectorStore == old(vectorStore)
      ensures mockups ==> vectorStore == old(vectorStore)
      ensures !mockups && hasProcessor ==> (ok <==> indexing.Indexed?)
      ensures !mockups && ok ==> ragChain == Some(StoreChain(indexing.store))
      ensures !mockups && !ok ==> ragChain == old(ragChain)
      ensures !mockups && hasProcessor ==>
        && (indexing.Indexed? || indexing.ChainFailed? ==> retriever == Some(StoreRetriever(indexing.store)))
        && (!(indexing.Indexed? || indexing.ChainFailed?) ==> retriever == old(retriever))
        && (!indexing.StoreFailed? ==> vectorStore == Some(indexing.store))
        && (indexing.StoreFailed? ==> vectorStore == old(vectorStore))
    {
      if mockups {
        UseMockups();
        return true;
      }
      // The mockups fallback of the exception handler cannot run: with mockups the
      // method has already returned.
      if !hasProcessor {
        return false;
      }
      ok := Index(indexing);
    }

    /** `clear_conversation`. */
    method ClearConversation()
      modifies this
      ensures history == [] && CorpusState() == old(CorpusState()) && vectorStore == old(vectorStore) && graph == old(graph)
    {
      history := [];
    }
  }
}
