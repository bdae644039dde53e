# paper-weather: the query router, the agent turn and the weather formatter

paper-weather is a small chat assistant. Each user query is routed either to a
weather lookup or to questions over uploaded documents (retrieval-augmented
generation). This project models the assistant's core in Dafny and proves
properties of it. The core has three files.

- `app/agents/decision_agent.py` (module `DecisionAgent`, file `decision_agent.dfy`).
  - The state dictionary threaded through the graph: class `AgentState`, with value snapshot `TurnState`.
  - The `decide` node, which parses the routing model's reply: loop `ParseReply`, method `Decide`. Its meaning is given by `DecisionOf` and `CityOf` over the reply's lines.
  - The default node implementations.
  - The fixed graph START -> decide -> {weather | document} -> response -> END: `Next` and `PathFrom`.
- `app/agents/agent.py` (module `Agents`, file `agent.dfy`).
  - The class `Agent`, with its own weather, document and response nodes.
  - `query`: runs the graph, runs it a second time when the first run raised, and falls back to keyword matching with a regular expression when that raised too. It also keeps the conversation history.
  - Document indexing: `add_document_text` and `upload_pdf`, which install a retriever and a chain.
  - Specification functions: `WeatherResult`, `DocumentResult`, `GraphRun`, `Fallback` and `QueryResponse`.
- `app/utils/weather_api.py` (module `WeatherApi`, file `weather_api.dfy`).
  - `format_weather_data`: the seven dictionary lookups in source order and the text block they fill.
  - `get_weather`, which never raises.

Two support modules:
- `text.dfy` (module `Text`) holds the Python `str` operations the parsers use: `strip`, `split`, `startswith`, `lower`, `in`, `split(":", 1)[1]`. `split` is proved to invert joining, and `strip` is characterised by a uniqueness lemma.
- `outcomes.dfy` holds `Option` and `Outcome`. An `Err(msg)` stands for a raised exception whose `str(e)` is `msg`.

Calls into code the model cannot see are parameters. These are:
- the routing language model (`Routing`, indexed by the query and by whether this is the first or second graph run);
- the HTTP weather fetch, the weather chain, the retriever and the document chain (`Services`);
- the outcome of the document loader and vector-store calls (`Indexing`).

Mockup mode (`USE_MOCKUPS and MOCKUPS_AVAILABLE`) is the constant `Agent.mockups`. `MOCKUPS_AVAILABLE` can only be true when `USE_MOCKUPS` is, so the one flag covers both.

Behaviour of the code worth knowing:
- A reply without any `City:` line leaves the city at the literal `"none"`. Only a `City:` line whose value is `none` clears it to `""`. So a weather vote without a city line looks up the weather of a city called "none" (`MissingCityLineLooksUpNone`).
- `Decision: document` together with `City: X` keeps `X` as the city.
- `query` invokes the graph a second time when the first invocation raised (`agent.py:196-200`). So the routing model is asked at most twice, and the keyword fallback runs only when both invocations raised (`AtMostTwoRuns`, `FallbackOnlyAfterTwoFailures`).
- A failed weather fetch does not produce the text "I couldn't get weather information".
  - `get_weather` turns every failure into `Error fetching weather data: ...`, which the weather chain then receives as its weather data.
  - "I couldn't get weather information" appears only when the weather chain itself raises.
  - In the keyword fallback it can never appear (`FallbackWeatherAnswer`).
- The fallback's regular expression `in\s+([A-Za-z\s]+)(?:\?|$)` matches `in` anywhere it is followed by white space, at the end of a word too. For `weather again in Paris` it matches at `again` and extracts the city `in Paris`. It is modelled exactly: leftmost start, greedy runs, and backtracking of `\s+` into the group.
- When `DocumentProcessor()` raises in the constructor, the attribute `doc_processor` is never set. Every later `self.doc_processor is None` then raises `AttributeError`, so without mockups `add_document_text` and `upload_pdf` always return `False` (`Agent.hasProcessor`).

## Model

| member | source | states |
|---|---|---|
| DecisionAgent.AgentState.constructor | app/agents/agent.py:176-184 | a fresh state holds the history and the query, and every other field is empty |
| DecisionAgent.ParseReply | app/agents/decision_agent.py:53-65 | the loop over the stripped reply's lines computes exactly `ReplyDecision` and `ReplyCity` (first weather vote sticks, last `City:` line wins); the decision is always `weather` or `document` |
| DecisionAgent.Decide | app/agents/decision_agent.py:48-69 | a failed model call propagates its error and leaves the state untouched; otherwise only `decision` and `weather_city` change, to the parsed reply's values, and the decision is one of the two routing keys |
| DecisionAgent.DecisionOf | app/agents/decision_agent.py:54-61 | the decision defaults to `document` and is `weather` exactly when some line votes for it |
| DecisionAgent.CityOf | app/agents/decision_agent.py:55-65 | the city: the value of the last `City:` line, or the literal `none` when there is none |
| DecisionAgent.ReplyDecision | app/agents/decision_agent.py:53-61 | the decision parsed from the stripped reply split into lines |
| DecisionAgent.ReplyCity | app/agents/decision_agent.py:53-65 | the city parsed from the stripped reply split into lines |
| DecisionAgent.DecideStep | app/agents/decision_agent.py:67-68 | `decide` writes `decision` and `weather_city` from the reply and nothing else |
| DecisionAgent.CityValue | app/agents/decision_agent.py:62-65 | the city a `City:` line yields is never `none` in any letter case: that value is cleared to "" |
| DecisionAgent.PrefixLineHasColon | app/agents/decision_agent.py:58-63 | a `Decision:` or `City:` line always has a colon, so `split(":", 1)[1]` cannot raise |
| DecisionAgent.PrefixesExclusive | app/agents/decision_agent.py:58-62 | no line carries both prefixes, so the `elif` never hides a `City:` line |
| DecisionAgent.DecisionOfSnoc | app/agents/decision_agent.py:57-61 | one more line turns the decision to `weather` exactly when it votes for it, and never back |
| DecisionAgent.CityOfSnoc | app/agents/decision_agent.py:62-65 | one more line replaces the city exactly when it is a `City:` line |
| DecisionAgent.ParseStep | app/agents/decision_agent.py:57-65 | what one loop iteration does to decision and city |
| DecisionAgent.WeatherVoteSticks | app/agents/decision_agent.py:58-61 | after a weather vote, later lines (a `Decision: document` one included) never reset the decision |
| DecisionAgent.CityFromLastCityLine | app/agents/decision_agent.py:62-65 | the city is the value of the last `City:` line |
| DecisionAgent.CityNoneIffNoCityLine | app/agents/decision_agent.py:55-65 | the city is the literal `none` exactly when no line starts with `City:` |
| DecisionAgent.StripKeeps | app/agents/decision_agent.py:53 | `strip` leaves a string without white space at its ends unchanged |
| DecisionAgent.StripLeading | app/agents/decision_agent.py:59 | `strip` removes the white space between a prefix's colon and its value |
| DecisionAgent.FieldValueOf | app/agents/decision_agent.py:59-63 | the value read from `Prefix: v` is `v` |
| DecisionAgent.ReplyLinesOf | app/agents/decision_agent.py:53 | a reply joined from line-break-free lines, with no white space at its ends, splits back into exactly those lines |
| DecisionAgent.CityLineValue | app/agents/decision_agent.py:62-65 | `City: v` names `v`, including colons after the first one, or "" when `v` is `none` in any letter case |
| DecisionAgent.DecisionLineVote | app/agents/decision_agent.py:58-61 | `Decision: w` votes for weather exactly when `w` lower-cases to `weather` |
| DecisionAgent.OtherLineIgnored | app/agents/decision_agent.py:57-65 | a `Reasoning:` line matches neither prefix |
| DecisionAgent.TwoLinesDecision | app/agents/decision_agent.py:57-61 | the decision of two lines, line by line |
| DecisionAgent.TwoLinesCity | app/agents/decision_agent.py:62-65 | the city of two lines: the later `City:` line wins |
| DecisionAgent.IndentedLineIgnored | app/agents/decision_agent.py:58-62 | prefixes match at column 0 only, so an indented line is ignored |
| DecisionAgent.ThreeLines | app/agents/decision_agent.py:57-65 | decision and city of three lines, line by line |
| DecisionAgent.TwoLineReply | app/agents/decision_agent.py:53 | a two-line reply parses as its two lines |
| DecisionAgent.ThreeLineReply | app/agents/decision_agent.py:53 | a three-line reply parses as its three lines |
| DecisionAgent.WeatherReplyParsed | app/tests/test_decision_agent.py:24-36 | every reply in the prompt's three-line format with decision `weather` (any case) and a city other than `none` parses as `weather` and that city |
| DecisionAgent.DocumentReplyParsed | app/tests/test_decision_agent.py:39-45 | the same format with any other decision and city `none` (any case) parses as `document` and "" |
| DecisionAgent.IndentedCityIgnored | app/agents/decision_agent.py:53-65 | only the whole reply is stripped: an indented `City:` line leaves the city at `none` |
| DecisionAgent.DefaultWeatherStep | app/agents/decision_agent.py:74-77 | the default weather node writes only the placeholder `Weather data for <city> will be fetched.` |
| DecisionAgent.DefaultDocumentStep | app/agents/decision_agent.py:80-83 | the default document node writes only its fixed placeholder |
| DecisionAgent.DefaultResponseStep | app/agents/decision_agent.py:86-92 | the default response node tags the named branch's result with `Weather Response: ` or `Document Response: ` |
| DecisionAgent.DefaultProcessWeather | app/agents/decision_agent.py:74-77 | the default weather node writes only `weather_result` |
| DecisionAgent.DefaultProcessDocument | app/agents/decision_agent.py:80-83 | the default document node writes only `document_result` |
| DecisionAgent.DefaultGenerateResponse | app/agents/decision_agent.py:86-92 | the default response node writes only `final_response`, from the branch the decision names |
| DecisionAgent.DefaultResponseTagged | app/agents/decision_agent.py:86-92 | the default response starts with `Weather Response: ` exactly when the decision is `weather`, and nothing else changes |
| DecisionAgent.Router | app/agents/decision_agent.py:95-97 | the routing key is the decision itself |
| DecisionAgent.Next | app/agents/decision_agent.py:129-144 | every edge moves closer to END, so the graph has no cycle; only END, or decide with an unknown routing key, has no successor |
| DecisionAgent.GraphPath | app/agents/decision_agent.py:129-144 | for either decision a run visits START, decide, exactly the named branch, response, END |
| DecisionAgent.DecideEdge | app/agents/decision_agent.py:133-140 | the conditional edge maps `weather` to the weather node and `document` to the document node |
| DecisionAgent.UnknownRouteStops | app/agents/decision_agent.py:133-140 | any other routing key stops the walk at decide |
| WeatherApi.Lookup | app/utils/weather_api.py:45-51 | the seven lookups in source order with their defaults; the first that raises decides the error |
| WeatherApi.Slots | app/utils/weather_api.py:45-51 | the report an accepted record shows: each value, or `Unknown`, "" or `N/A` when its key is missing |
| WeatherApi.Render | app/utils/weather_api.py:53-60 | the text block: each label followed by its value, then a final line break |
| WeatherApi.FormatWeatherData | app/utils/weather_api.py:35-60 | formatting succeeds exactly on the accepted record shapes and then renders each looked-up value or its default in its slot; otherwise it raises the first failing lookup's error, `'T' object has no attribute 'get'` for a record that is not a dict |
| WeatherApi.GetWeather | app/utils/weather_api.py:62-77 | never raises: a failed fetch or format becomes `Error fetching weather data: ` plus its message, and a success is the formatted block |
| WeatherApi.FormatSucceedsIff | app/utils/weather_api.py:45-51 | the lookups succeed exactly on dicts whose `sys`, `main` and `wind` are missing or dicts, and whose `weather` is missing or a non-empty list starting with a dict |
| WeatherApi.EmptyConditionsFail | app/utils/weather_api.py:49 | an empty `weather` list raises, with `list index out of range` once the lookups before it succeeded |
| WeatherApi.SlotsAndDefaults | app/utils/weather_api.py:45-51 | on an accepted record the lookups give exactly `Slots`: each looked-up value, or its default when the key is missing |
| WeatherApi.OtherKeysIgnored | app/utils/weather_api.py:45-51 | records agreeing on the five keys read format identically |
| WeatherApi.RenderInOrder | app/utils/weather_api.py:53-60 | the block shows location, temperature, feels-like, conditions, humidity and wind in that order |
| WeatherApi.InOrderStep | app/utils/weather_api.py:53-60 | interleaving labels with values keeps the values in order |
| WeatherApi.GetWeatherFailsIff | app/utils/weather_api.py:73-77 | the result starts with the error prefix exactly when fetching or formatting failed |
| WeatherApi.FailureMessageKeepsError | app/utils/weather_api.py:76-77 | the error text is kept whole in the message |
| WeatherApi.LondonRecordShown | app/tests/test_weather_api.py:20-30 | the complete London record renders London, GB, 15.2°C, 14.5°C, cloudy, 76% and 5.1 m/s, each present |
| Text.Strip | app/agents/decision_agent.py:53 | `strip` returns a piece of its input surrounded by white space, with no white space at its own ends |
| Text.StripUnique | app/agents/decision_agent.py:53 | that characterisation determines `strip`'s result |
| Text.SplitOn | app/agents/decision_agent.py:53 | `split("\n")` yields at least one part, no part holds the separator, and joining the parts gives the input back |
| Text.SplitOnJoin | app/agents/decision_agent.py:53 | splitting a join of separator-free parts yields those parts |
| Text.IndexOf | app/agents/decision_agent.py:59 | the index found holds the first occurrence of the character |
| Text.AfterFirstPrefix | app/agents/decision_agent.py:59 | after a prefix ending in its only colon, `split(":", 1)[1]` is the rest of the line |
| Text.Lower | app/agents/decision_agent.py:59 | `lower()` folds each letter and keeps the length |
| Text.InOrderContains | app/tests/test_weather_api.py:24-30 | every piece of an in-order occurrence occurs in the text |
| Agents.MockWeather | app/utils/mockups.py:57-66 | the canned weather text for a city |
| Agents.WeatherResult | app/agents/agent.py:82-109 | the weather node's result: the request for a city, the weather chain's answer, or the failure message naming city and error |
| Agents.DocumentResult | app/agents/agent.py:111-136 | the document node's result: the "no documents" message, the chain's answer, or the error prefix plus the error |
| Agents.GraphRun | app/agents/agent.py:186-203 | one graph invocation: decide, the named branch, response; only the routing call can raise |
| Agents.QueryResponse | app/agents/agent.py:186-235 | the answer of `query`: first invocation, else second, else the fallback |
| Agents.AsksAboutWeather | app/agents/agent.py:211 | the lower-cased input contains `weather`, `temperature` or `forecast` |
| Agents.Fallback | app/agents/agent.py:205-235 | the keyword fallback: weather information for the extracted city, else the "no documents" message, the chain's answer or the error prefix plus the error |
| Agents.MatchAt | app/agents/agent.py:214 | a match at `i` starts with `in` and white space, and its group is non-empty letters and white space |
| Agents.SearchFrom | app/agents/agent.py:214 | `re.search` from `i`: a found group is non-empty letters and white space |
| Agents.SearchNone | app/agents/agent.py:214-215 | the search finds nothing exactly when no start position matches |
| Agents.FallbackCity | app/agents/agent.py:214-215 | `Unknown location` when nothing matches; otherwise letters and white space with no white space at either end |
| Agents.StripLetters | app/agents/agent.py:215 | stripping the group keeps only letters and white space |
| Agents.WeatherStep | app/agents/agent.py:82-109 | the agent's weather node writes only `weather_result` |
| Agents.DocumentStep | app/agents/agent.py:111-136 | the agent's document node writes only `document_result` |
| Agents.ResponseStep | app/agents/agent.py:138-145 | the final response is the named branch's result, and nothing else changes |
| Agents.EmptyCityAsksForCity | app/agents/agent.py:87-89 | without a city the answer is the fixed request for one, whatever the services and mode |
| Agents.WeatherFailureContained | app/agents/agent.py:106-107 | a failed weather chain yields a message containing both the city and the error text |
| Agents.NoCorpusNoDocuments | app/agents/agent.py:115-117 | without a chain the answer is the fixed "no documents" message, whatever the services |
| Agents.DocumentFailureContained | app/agents/agent.py:120-134 | a failed retrieval or answer yields the error prefix plus the error text |
| Agents.GraphRunShape | app/agents/agent.py:187-200 | a graph run raises exactly when the routing call does, with its error; otherwise messages and query are kept and the decision is `weather` or `document` |
| Agents.AgentTurnAnswer | app/agents/agent.py:82-145 | with the agent's nodes, a run answers with the weather result for the parsed city, or with the document result, as the reply decides |
| Agents.MissingCityLineLooksUpNone | app/agents/agent.py:84-97 | a weather vote without a `City:` line looks up the city `none` instead of asking for a city |
| Agents.SpaceRunEnd | app/agents/agent.py:214 | `\s+` consumes the longest run of white space |
| Agents.WordRunEnd | app/agents/agent.py:214 | `[A-Za-z\s]+` consumes the longest run of letters and white space |
| Agents.KeywordAnywhere | app/agents/agent.py:211 | any spelling of a keyword, anywhere in the input, selects the weather path |
| Agents.FallbackWeatherAnswer | app/agents/agent.py:217-226 | the fallback's weather path always begins `Weather information for <city>:`, never the failure message |
| Agents.SearchSkips | app/agents/agent.py:214 | the search skips start positions with no match |
| Agents.NoInUnknownLocation | app/agents/agent.py:214-215 | with no `in` followed by white space, the city is `Unknown location` |
| Agents.NoMatchInLead | app/agents/agent.py:214 | no match starts inside a lead holding no `in` followed by white space |
| Agents.MatchCity | app/agents/agent.py:214 | `in <city>` before a `?` or the end of the input matches with the city as its group |
| Agents.CityAfterIn | app/agents/agent.py:214-215 | `... in <city>?` with no earlier `in` followed by white space yields the city, inner spaces included (`What is the weather in New York?` gives `New York`) |
| Agents.WordRunSpans | app/agents/agent.py:214 | a letter run ends where its last letter ends |
| Agents.AtMostTwoRuns | app/agents/agent.py:187-200 | only the routing model's first two replies affect the answer |
| Agents.FallbackOnlyAfterTwoFailures | app/agents/agent.py:186-235 | the answer is the first run's response if it succeeds, else the second's, and the keyword fallback only when both raised |
| Agents.Agent.constructor | app/agents/agent.py:35-80 | mockups install the canned retriever and chain; otherwise an opened store installs its retriever and chain; any failure leaves none; history empty, default graph |
| Agents.Agent.ProcessWeather | app/agents/agent.py:82-109 | updates the state exactly as `WeatherStep` |
| Agents.Agent.ProcessDocument | app/agents/agent.py:111-136 | updates the state exactly as `DocumentStep` |
| Agents.Agent.GenerateResponse | app/agents/agent.py:138-145 | updates the state exactly as `ResponseStep` |
| Agents.Agent.UpdateGraph | app/agents/agent.py:147-159 | installs the agent's own nodes and changes nothing else |
| Agents.Agent.InvokeGraph | app/agents/agent.py:176-203 | walking a fresh state from decide to END gives exactly `GraphRun` from the initial state |
| Agents.Agent.Query | app/agents/agent.py:161-240 | the history grows by exactly the user's message and the answer; the answer is `QueryResponse` over the history including the user's message; the corpus is unchanged |
| Agents.Agent.Answer | app/agents/agent.py:186-235 | the answer is `QueryResponse`: first run, else second run, else fallback |
| Agents.Agent.UseMockups | app/agents/agent.py:249-253 | installs the canned retriever and chain and nothing else |
| Agents.Agent.Index | app/agents/agent.py:255-266 | succeeds exactly when all steps do; each step's field is assigned before the next can fail, and later fields stay as they were |
| Agents.Agent.AddDocumentText | app/agents/agent.py:242-278 | with mockups always succeeds, keeping the store; without a processor always fails, changing nothing; otherwise succeeds exactly when indexing completes; the store, retriever and chain are each replaced exactly when their step was reached, so a failed chain build leaves the new retriever with the old chain |
| Agents.Agent.UploadPdf | app/agents/agent.py:280-326 | the same outcomes and post-state as `AddDocumentText`; the mockups branch of its handler cannot run |
| Agents.Agent.ClearConversation | app/agents/agent.py:328-330 | empties the history and changes nothing else |

## Left out

- Language-model prompts, model choice, HTTP requests (`WeatherAPI.get_weather_by_city`), the vector store and the RAG chain internals: they are parameters (`Routing`, `Services`, `Indexing`), since their code is not part of this model.
- LangSmith tracing (`agent.py:188-193`) is not modelled as a step of its own. A failure of the traced first invocation, whether in tracing or in the graph, is represented by the first attempt's `Routing` outcome being `Err`, after which `query` invokes the graph again untraced.
- Printing, tracebacks and the retrieved-document debug listing: they are output only. The document count the retriever returns is read but not used.
- Deleting the temporary PDF file in `upload_pdf`: file-system I/O.
- Failures of `create_weather_chain`, `create_agent_graph` in the constructor, and `update_graph`'s own exception handler: these are library constructors whose failure modes are not visible here; the model assumes they succeed.
- WeatherApi.Show: a dict or list in a scalar slot renders as a placeholder (`{...}`, `[...]`), not Python's full `repr`; numbers are carried as the text `str()` gives them, since float formatting is out of scope.
- Exception texts are those of CPython for the cases modelled (`'T' object has no attribute 'get'`, `list index out of range`, `0` for a `KeyError`); other exception wording is not modelled.
- Text.Lower: folds ASCII letters only. Python's `lower()` differs only on non-ASCII letters, and only `İ` and `K` (Kelvin) lower to ASCII; neither produces a letter of `weather`, `temperature`, `forecast` or `none`, so the comparisons and keyword tests made with it are exact.
- The mock retriever's documents and the mock chain's answers: they come from `app/utils/mockups.py`, which is not part of this model beyond `get_mock_weather` (`Agents.MockWeather`).
- `document_processor.py`, the UI and the command-line entry point are not part of this model.
