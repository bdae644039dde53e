/** The routing half of the assistant: the state dictionary threaded through the
    graph, the node that turns the language model's routing reply into a decision
    and a city, the default node implementations, and the fixed graph
    decide -> {weather | document} -> response -> END. */
module DecisionAgent {
  import opened Outcomes
  import opened Text

  datatype Role = Human | Ai

  /** A `HumanMessage` or an `AIMessage` of the conversation. */
  datatype Message = Message(role: Role, content: string)

  /** The values an `AgentState` dictionary holds at one moment. */
  datatype TurnState = TurnState(
    messages: seq<Message>,
    query: string,
    decision: string,
    weatherCity: string,
    weatherResult: string,
    documentResult: string,
    finalResponse: string)

  /** The state a turn starts from: every field but the messages and the query is empty. */
  function Initial(messages: seq<Message>, query: string): TurnState {
    TurnState(messages, query, "", "", "", "", "")
  }

  /** `AgentState`: the dictionary every node of the graph updates in place. */
  class AgentState {
    var messages: seq<Message>
    var query: string
    var decision: string
    var weatherCity: string
    var weatherResult: string
    var documentResult: string
    var finalResponse: string

    function Snapshot(): TurnState
      reads this
    {
      TurnState(messages, query, decision, weatherCity, weatherResult, documentResult, finalResponse)
    }

    constructor (messages: seq<Message>, query: string)
      ensures Snapshot() == Initial(messages, query)
    {
      this.messages := messages;
      this.query := query;
      decision, weatherCity, weatherResult, documentResult, finalResponse := "", "", "", "", "";
    }
  }

  // ---------------------------------------------------------------------------
  // Parsing the routing reply

  const DecisionPrefix: string := "Decision:"
  const CityPrefix: string := "City:"

  /** `response_text.strip().split("\n")`: only the reply as a whole is stripped. */
  function ReplyLines(reply: string): seq<string> {
    SplitOn(Strip(reply), '\n')
  }

  /** Prefixes are matched case-sensitively at column 0. */
  predicate IsDecisionLine(line: string) {
    StartsWith(line, DecisionPrefix)
  }

  predicate IsCityLine(line: string) {
    StartsWith(line, CityPrefix)
  }

  /** Both prefixes end in their only colon, so a line carrying either has one. */
  lemma PrefixLineHasColon(line: string)
    requires IsDecisionLine(line) || IsCityLine(line)
    ensures ':' in line
  {
    if IsDecisionLine(line) {
      AfterFirstPrefix(line, DecisionPrefix, ':');
    } else {
      AfterFirstPrefix(line, CityPrefix, ':');
    }
  }

  /** No line is both a `Decision:` line and a `City:` line, so the `elif` between
      them never hides a `City:` line. */
  lemma PrefixesExclusive(line: string)
    ensures !(IsDecisionLine(line) && IsCityLine(line))
  {
    if IsDecisionLine(line) {
      assert line[0] == DecisionPrefix[0] == 'D';
      assert CityPrefix[0] == 'C';
    }
  }

  /** `line.split(":", 1)[1].strip()`: the trimmed text after the first colon. */
  function FieldValue(line: string): string
    requires ':' in line
  {
    Strip(AfterFirst(line, ':'))
  }

  /** A `Decision:` line whose trimmed, lower-cased value is exactly `weather`. */
  predicate VotesWeather(line: string) {
    IsDecisionLine(line) && (PrefixLineHasColon(line); Lower(FieldValue(line)) == "weather")
  }

  /** The city a `City:` line names: its trimmed value, or "" when that is `none` in any case. */
  function CityValue(line: string): (city: string)
    requires IsCityLine(line)
    ensures city != "none" && Lower(city) != "none"
  {
    PrefixLineHasColon(line);
    var c := FieldValue(line);
    if Lower(c) == "none" then
      ""
    else c
  }

  /** The decision: `weather` exactly when some line votes for it, `document` otherwise. */
  function DecisionOf(lines: seq<string>): (decision: string)
    ensures decision == "weather" || decision == "document"
  {
    if exists i :: 0 <= i < |lines| && VotesWeather(lines[i]) then "weather" else "document"
  }

  /** The city: the value of the last `City:` line, or the literal "none" if there is none. */
  function CityOf(lines: seq<string>): string {
    if lines == [] then "none"
    else if IsCityLine(lines[|lines| - 1]) then CityValue(lines[|lines| - 1])
    else CityOf(lines[..|lines| - 1])
  }

  function ReplyDecision(reply: string): string {
    DecisionOf(ReplyLines(reply))
  }

  function ReplyCity(reply: string): string {
    CityOf(ReplyLines(reply))
  }

  /** One more line turns the decision to `weather` if it votes for it and never back. */
  lemma {:induction false} DecisionOfSnoc(lines: seq<string>, line: string)
    ensures DecisionOf(lines + [line]) == if VotesWeather(line) then "weather" else DecisionOf(lines)
  {
    var all := lines + [line];
    assert forall i :: 0 <= i < |lines| ==> all[i] == lines[i];
    assert all[|lines|] == line;
  }

  /** One more line replaces the city if it is a `City:` line. */
  lemma CityOfSnoc(lines: seq<string>, line: string)
    ensures CityOf(lines + [line]) == if IsCityLine(line) then CityValue(line) else CityOf(lines)
  {
    assert (lines + [line])[..|lines|] == lines;
  }

  /** The loop step: what reading line `i` does to decision and city. */
  lemma ParseStep(lines: seq<string>, i: int)
    requires 0 <= i < |lines|
    ensures DecisionOf(lines[..i + 1]) == if VotesWeather(lines[i]) then "weather" else DecisionOf(lines[..i])
    ensures CityOf(lines[..i + 1]) == if IsCityLine(lines[i]) then CityValue(lines[i]) else CityOf(lines[..i])
  {
    assert lines[..i + 1] == lines[..i] + [lines[i]];
    DecisionOfSnoc(lines[..i], lines[i]);
    CityOfSnoc(lines[..i], lines[i]);
  }

  /** The `decide` loop: walks the lines once, keeping the first `weather` vote and the
      last `City:` line. */
  method ParseReply(reply: string) returns (decision: string, city: string)
    ensures decision == ReplyDecision(reply) && city == ReplyCity(reply)
    ensures decision == "weather" || decision == "document"
  {
    var lines := SplitOn(Strip(reply), '\n');
    decision := "document";
    city := "none";
    for i := 0 to |lines|
      invariant decision == DecisionOf(lines[..i])
      invariant city == CityOf(lines[..i])
    {
      var line := lines[i];
      ParseStep(lines, i);
      PrefixesExclusive(line);
      if StartsWith(line, DecisionPrefix) {
        PrefixLineHasColon(line);
        var value := Lower(Strip(AfterFirst(line, ':')));
        if value == "weather" {
          decision := "weather";
        }
      } else if StartsWith(line, CityPrefix) {
        PrefixLineHasColon(line);
        city := Strip(AfterFirst(line, ':'));
        if Lower(city) == "none" {
          city := "";
        }
      }
    }
    assert lines[..|lines|] == lines;
  }

  /** `decide`: asks the model (its reply, or the error it raised, is `reply`), parses
      the reply and writes `decision` and `weather_city`, leaving every other field as
      it was. A failed model call propagates before anything is written. */
  method Decide(state: AgentState, reply: Outcome<string>) returns (raised: Option<string>)
    modifies state
    ensures reply.Err? ==> raised == Some(reply.msg) && unchanged(state)
    ensures reply.Ok? ==> raised == None && state.Snapshot() == DecideStep(old(state.Snapshot()), reply.value)
    ensures reply.Ok? ==> state.decision == "weather" || state.decision == "document"
  {
    if reply.Err? {
      return Some(reply.msg);
    }
    var decision, city := ParseReply(reply.value);
    state.decision := decision;
    state.weatherCity := city;
    raised := None;
  }

  /** What `decide` does to the state when the model answered `reply`. */
  function DecideStep(s: TurnState, reply: string): TurnState {
    s.(decision := ReplyDecision(reply), weatherCity := ReplyCity(reply))
  }

  // ---------------------------------------------------------------------------
  // Properties of the parser

  /** A `weather` vote sticks: lines after it, `Decision: document` ones included, never reset it. */
  lemma {:induction false} WeatherVoteSticks(lines: seq<string>, later: seq<string>)
    requires DecisionOf(lines) == "weather"
    ensures DecisionOf(lines + later) == "weather"
  {
    var i :| 0 <= i < |lines| && VotesWeather(lines[i]);
    assert (lines + later)[i] == lines[i];
  }

  /** The city is the value of the last `City:` line. */
  lemma {:induction false} CityFromLastCityLine(lines: seq<string>, k: int)
    requires 0 <= k < |lines| && IsCityLine(lines[k])
    requires forall j :: k < j < |lines| ==> !IsCityLine(lines[j])
    ensures CityOf(lines) == CityValue(lines[k])
  {
    if k < |lines| - 1 {
      var init := lines[..|lines| - 1];
      assert init[k] == lines[k];
      forall j | k < j < |init|
        ensures !IsCityLine(init[j])
      {
        assert init[j] == lines[j];
      }
      CityFromLastCityLine(init, k);
    }
  }

  /** The city is the literal "none" exactly when no line starts with `City:`; a
      `City: none` line gives "" instead. */
  lemma {:induction false} CityNoneIffNoCityLine(lines: seq<string>)
    ensures CityOf(lines) == "none" <==> forall j :: 0 <= j < |lines| ==> !IsCityLine(lines[j])
  {
    if lines != [] {
      var init := lines[..|lines| - 1];
      CityNoneIffNoCityLine(init);
      if !IsCityLine(lines[|lines| - 1]) {
        forall j | 0 <= j < |init|
          ensures lines[j] == init[j]
        {
        }
      }
    }
  }

  /** `strip` keeps a string that has no white space at either end. */
  lemma StripKeeps(s: string)
    requires s != [] ==> !IsSpace(s[0]) && !IsSpace(s[|s| - 1])
    ensures Strip(s) == s
  {
  }

  /** `strip` drops white space in front of a string that has none at its ends. */
  lemma StripLeading(pad: string, s: string)
    requires forall i :: 0 <= i < |pad| ==> IsSpace(pad[i])
    requires s != [] && !IsSpace(s[0]) && !IsSpace(s[|s| - 1])
    ensures Strip(pad + s) == s
  {
    var all := pad + s;
    assert Framed(all, |pad|, s) by {
      assert all[|pad|..|pad| + |s|] == s;
      assert forall i :: 0 <= i < |pad| ==> all[i] == pad[i];
    }
    StripUnique(all, |pad|, s);
  }

  /** The value of a well-formed `Prefix: value` line is `value`. */
  lemma FieldValueOf(prefix: string, v: string)
    requires prefix == DecisionPrefix || prefix == CityPrefix
    requires v != [] && !IsSpace(v[0]) && !IsSpace(v[|v| - 1])
    ensures ':' in prefix + " " + v && FieldValue(prefix + " " + v) == v
  {
    var line := prefix + " " + v;
    assert line[..|prefix|] == prefix;
    AfterFirstPrefix(line, prefix, ':');
    assert line[|prefix|..] == " " + v;
    StripLeading(" ", v);
  }

  /** The lines of a reply made of lines without line breaks and without white space at
      the reply's two ends. */
  lemma ReplyLinesOf(lines: seq<string>)
    requires |lines| >= 1 && forall k :: 0 <= k < |lines| ==> '\n' !in lines[k]
    requires var r := JoinWith(lines, '\n'); r != [] ==> !IsSpace(r[0]) && !IsSpace(r[|r| - 1])
    ensures ReplyLines(JoinWith(lines, '\n')) == lines
  {
    StripKeeps(JoinWith(lines, '\n'));
    SplitOnJoin(lines, '\n');
  }

  /** A well-formed `City: value` line names `value`, colons after the first one included,
      or "" when `value` is `none` in some letter case. */
  lemma CityLineValue(v: string)
    requires v != [] && !IsSpace(v[0]) && !IsSpace(v[|v| - 1])
    ensures IsCityLine(CityPrefix + " " + v) && !IsDecisionLine(CityPrefix + " " + v)
    ensures CityValue(CityPrefix + " " + v) == if Lower(v) == "none" then "" else v
  {
    var line := CityPrefix + " " + v;
    assert line[..|CityPrefix|] == CityPrefix;
    FieldValueOf(CityPrefix, v);
    PrefixesExclusive(line);
  }

  /** A well-formed `Decision: word` line votes for `weather` exactly when `word` is
      `weather` in some letter case. */
  lemma DecisionLineVote(word: string)
    requires word != [] && !IsSpace(word[0]) && !IsSpace(word[|word| - 1])
    ensures IsDecisionLine(DecisionPrefix + " " + word) && !IsCityLine(DecisionPrefix + " " + word)
    ensures VotesWeather(DecisionPrefix + " " + word) <==> Lower(word) == "weather"
  {
    var line := DecisionPrefix + " " + word;
    assert line[..|DecisionPrefix|] == DecisionPrefix;
    FieldValueOf(DecisionPrefix, word);
    PrefixesExclusive(line);
  }

  /** A line that is not a `Decision:` or `City:` line, such as a `Reasoning:` line. */
  lemma OtherLineIgnored(text: string)
    ensures !IsDecisionLine("Reasoning: " + text) && !IsCityLine("Reasoning: " + text)
  {
    assert ("Reasoning: " + text)[0] == 'R';
  }

  /** The decision of a two-line reply, line by line. */
  lemma TwoLinesDecision(l1: string, l2: string)
    ensures DecisionOf([l1, l2]) == if VotesWeather(l1) || VotesWeather(l2) then "weather" else "document"
  {
    var ls := [l1, l2];
    assert ls[0] == l1 && ls[1] == l2;
    if exists i :: 0 <= i < |ls| && VotesWeather(ls[i]) {
      var i :| 0 <= i < |ls| && VotesWeather(ls[i]);
      assert i == 0 || i == 1;
    }
  }

  /** The city of a two-line reply, line by line. */
  lemma TwoLinesCity(l1: string, l2: string)
    ensures CityOf([l1, l2]) ==
      if IsCityLine(l2) then CityValue(l2) else if IsCityLine(l1) then CityValue(l1) else "none"
  {
    assert [l1, l2][..1] == [l1];
    assert [l1][..0] == [];
    assert CityOf([l1]) == if IsCityLine(l1) then CityValue(l1) else "none";
  }

  /** Prefixes are matched at column 0, so an indented line carries neither. */
  lemma IndentedLineIgnored(line: string)
    requires line != [] && IsSpace(line[0])
    ensures !IsDecisionLine(line) && !IsCityLine(line)
  {
  }

  /** The outcome of a three-line reply, line by line. */
  lemma ThreeLines(l1: string, l2: string, l3: string)
    ensures DecisionOf([l1, l2, l3]) ==
      if VotesWeather(l1) || VotesWeather(l2) || VotesWeather(l3) then "weather" else "document"
    ensures CityOf([l1, l2, l3]) ==
      if IsCityLine(l3) then CityValue(l3)
      else if IsCityLine(l2) then CityValue(l2)
      else if IsCityLine(l1) then CityValue(l1) else "none"
  {
    TwoLinesDecision(l1, l2);
    TwoLinesCity(l1, l2);
    DecisionOfSnoc([l1, l2], l3);
    CityOfSnoc([l1, l2], l3);
    assert [l1, l2] + [l3] == [l1, l2, l3];
  }

  /** A reply of two lines without line breaks, with no white space at its two ends. */
  lemma TwoLineReply(l1: string, l2: string)
    requires '\n' !in l1 && '\n' !in l2
    requires l1 != [] && !IsSpace(l1[0]) && l2 != [] && !IsSpace(l2[|l2| - 1])
    ensures ReplyDecision(l1 + "\n" + l2) == DecisionOf([l1, l2])
    ensures ReplyCity(l1 + "\n" + l2) == CityOf([l1, l2])
  {
    JoinTwo(l1, l2, '\n');
    var r := l1 + "\n" + l2;
    assert r[0] == l1[0] && r[|r| - 1] == l2[|l2| - 1];
    ReplyLinesOf([l1, l2]);
  }

  /** A reply of three lines without line breaks, with no white space at its two ends. */
  lemma ThreeLineReply(l1: string, l2: string, l3: string)
    requires '\n' !in l1 && '\n' !in l2 && '\n' !in l3
    requires l1 != [] && !IsSpace(l1[0]) && l3 != [] && !IsSpace(l3[|l3| - 1])
    ensures ReplyDecision(l1 + "\n" + l2 + "\n" + l3) == DecisionOf([l1, l2, l3])
    ensures ReplyCity(l1 + "\n" + l2 + "\n" + l3) == CityOf([l1, l2, l3])
  {
    JoinThree(l1, l2, l3, '\n');
    var r := l1 + "\n" + l2 + "\n" + l3;
    assert r[0] == l1[0] && r[|r| - 1] == l3[|l3| - 1];
    ReplyLinesOf([l1, l2, l3]);
  }

  /** Every reply in the three-line shape the routing prompt asks for, whose decision is
      `weather` in any letter case and whose city is not `none`, parses as `weather`
      and that city. */
  lemma WeatherReplyParsed(word: string, city: string, reasoning: string)
    requires word != [] && !IsSpace(word[|word| - 1]) && '\n' !in word && Lower(word) == "weather"
    requires city != [] && !IsSpace(city[0]) && !IsSpace(city[|city| - 1])
    requires '\n' !in city && Lower(city) != "none"
    requires reasoning != [] && !IsSpace(reasoning[|reasoning| - 1]) && '\n' !in reasoning
    ensures var reply := (DecisionPrefix + " " + word) + "\n" + (CityPrefix + " " + city) + "\n" + ("Reasoning: " + reasoning);
            ReplyDecision(reply) == "weather" && ReplyCity(reply) == city
  {
    assert !IsSpace(word[0]) by { assert LowerChar(word[0]) == 'w'; }
    var l1, l2, l3 := DecisionPrefix + " " + word, CityPrefix + " " + city, "Reasoning: " + reasoning;
    assert l1[0] == 'D' && l3[|l3| - 1] == reasoning[|reasoning| - 1];
    ThreeLineReply(l1, l2, l3);
    DecisionLineVote(word);
    CityLineValue(city);
    OtherLineIgnored(reasoning);
    ThreeLines(l1, l2, l3);
  }

  /** The same shape with any other decision word and city `none` in any letter case
      parses as `document` with the city cleared to "". */
  lemma DocumentReplyParsed(word: string, none: string, reasoning: string)
    requires word != [] && !IsSpace(word[0]) && !IsSpace(word[|word| - 1]) && '\n' !in word
    requires Lower(word) != "weather"
    requires Lower(none) == "none"
    requires reasoning != [] && !IsSpace(reasoning[|reasoning| - 1]) && '\n' !in reasoning
    ensures var reply := (DecisionPrefix + " " + word) + "\n" + (CityPrefix + " " + none) + "\n" + ("Reasoning: " + reasoning);
            ReplyDecision(reply) == "document" && ReplyCity(reply) == ""
  {
    var l1, l2, l3 := DecisionPrefix + " " + word, CityPrefix + " " + none, "Reasoning: " + reasoning;
    assert '\n' !in none && !IsSpace(none[0]) && !IsSpace(none[3]) by {
      forall i | 0 <= i < |none| ensures none[i] != '\n' && !IsSpace(none[i]) {
        assert LowerChar(none[i]) == "none"[i];
      }
    }
    assert l1[0] == 'D' && l3[|l3| - 1] == reasoning[|reasoning| - 1];
    ThreeLineReply(l1, l2, l3);
    DecisionLineVote(word);
    CityLineValue(none);
    OtherLineIgnored(reasoning);
    ThreeLines(l1, l2, l3);
  }

  /** Only the whole reply is stripped: a `City:` line indented by even one space is
      not a `City:` line, so the city stays at the literal "none". */
  lemma IndentedCityIgnored(word: string, pad: string, city: string)
    requires word != [] && !IsSpace(word[|word| - 1]) && '\n' !in word && Lower(word) == "weather"
    requires pad != [] && forall i :: 0 <= i < |pad| ==> IsSpace(pad[i]) && pad[i] != '\n'
    requires '\n' !in city && city != [] && !IsSpace(city[|city| - 1])
    ensures var reply := (DecisionPrefix + " " + word) + "\n" + (pad + CityPrefix + " " + city);
            ReplyCity(reply) == "none" && ReplyDecision(reply) == "weather"
  {
    assert !IsSpace(word[0]) by { assert LowerChar(word[0]) == 'w'; }
    var l1, l2 := DecisionPrefix + " " + word, pad + CityPrefix + " " + city;
    assert '\n' !in l2 by {
      forall i | 0 <= i < |l2| ensures l2[i] != '\n' {
        if i < |pad| { assert l2[i] == pad[i]; }
      }
    }
    assert l1[0] == 'D' && l2[|l2| - 1] == city[|city| - 1];
    TwoLineReply(l1, l2);
    DecisionLineVote(word);
    assert l2[0] == pad[0];
    IndentedLineIgnored(l2);
    TwoLinesDecision(l1, l2);
    TwoLinesCity(l1, l2);
  }

  // ---------------------------------------------------------------------------
  // Default node implementations, used when the graph is built without custom ones

  function DefaultWeatherStep(s: TurnState): TurnState {
    s.(weatherResult := "Weather data for " + s.weatherCity + " will be fetched.")
  }

  function DefaultDocumentStep(s: TurnState): TurnState {
    s.(documentResult := "Document search results will go here.")
  }

  function DefaultResponseStep(s: TurnState): TurnState {
    if s.decision == "weather" then s.(finalResponse := "Weather Response: " + s.weatherResult)
    else s.(finalResponse := "Document Response: " + s.documentResult)
  }

  method DefaultProcessWeather(state: AgentState)
    modifies state
    ensures state.Snapshot() == DefaultWeatherStep(old(state.Snapshot()))
  {
    state.weatherResult := "Weather data for " + state.weatherCity + " will be fetched.";
  }

  method DefaultProcessDocument(state: AgentState)
    modifies state
    ensures state.Snapshot() == DefaultDocumentStep(old(state.Snapshot()))
  {
    state.documentResult := "Document search results will go here.";
  }

  method DefaultGenerateResponse(state: AgentState)
    modifies state
    ensures state.Snapshot() == DefaultResponseStep(old(state.Snapshot()))
  {
    if state.decision == "weather" {
      state.finalResponse := "Weather Response: " + state.weatherResult;
    } else {
      state.finalResponse := "Document Response: " + state.documentResult;
    }
  }

  /** The default response node tags the answer with the branch it came from and
      changes nothing else. */
  lemma DefaultResponseTagged(s: TurnState)
    ensures DefaultResponseStep(s) == s.(finalResponse := DefaultResponseStep(s).finalResponse)
    ensures StartsWith(DefaultResponseStep(s).finalResponse, "Weather Response: ") <==> s.decision == "weather"
  {
    var r := DefaultResponseStep(s).finalResponse;
    if s.decision == "weather" {
      assert r[..18] == "Weather Response: ";
    } else {
      assert r[0] == 'D';
      DifferentStart(r, "Weather Response: ");
    }
  }

  // ---------------------------------------------------------------------------
  // The graph

  datatype Node = StartNode | DecideNode | WeatherNode | DocumentNode | ResponseNode | EndNode

  /** `router`: the routing key is the decision itself. */
  function Router(decision: string): string {
    decision
  }

  /** The conditional edges out of `decide`, from routing key to node. */
  const Branches: map<string, Node> := map["weather" := WeatherNode, "document" := DocumentNode]

  /** Distance to END; every edge lowers it, so the graph has no cycle. */
  function Rank(n: Node): nat {
    match n
    case StartNode => 4
    case DecideNode => 3
    case WeatherNode => 2
    case DocumentNode => 2
    case ResponseNode => 1
    case EndNode => 0
  }

  /** The node after `n`; `None` at END, and after `decide` when the routing key has
      no edge (the graph library raises then). */
  function Next(n: Node, decision: string): (next: Option<Node>)
    ensures next.Some? ==> Rank(next.value) < Rank(n)
    ensures next.None? <==> n == EndNode || (n == DecideNode && Router(decision) !in Branches)
  {
    match n
    case StartNode => Some(DecideNode)
    case DecideNode => if Router(decision) in Branches then Some(Branches[Router(decision)]) else None
    case WeatherNode => Some(ResponseNode)
    case DocumentNode => Some(ResponseNode)
    case ResponseNode => Some(EndNode)
    case EndNode => None
  }

  /** The nodes visited from `n` on, following `Next`. */
  function PathFrom(n: Node, decision: string): seq<Node>
    decreases Rank(n)
  {
    match Next(n, decision)
    case None => [n]
    case Some(m) => [n] + PathFrom(m, decision)
  }

  /** With either decision the parser can produce, a turn visits decide, exactly the
      branch named by the decision, response, and END. */
  lemma GraphPath(decision: string)
    requires decision == "weather" || decision == "document"
    ensures PathFrom(StartNode, decision)
         == [StartNode, DecideNode, if decision == "weather" then WeatherNode else DocumentNode, ResponseNode, EndNode]
  {
  }

  /** The conditional edge out of decide for the two decisions the parser produces. */
  lemma DecideEdge(decision: string)
    requires decision == "weather" || decision == "document"
    ensures Next(DecideNode, decision) == Some(if decision == "weather" then WeatherNode else DocumentNode)
  {
  }

  /** Any other routing key stops the walk at decide. */
  lemma UnknownRouteStops(decision: string)
    requires decision != "weather" && decision != "document"
    ensures PathFrom(StartNode, decision) == [StartNode, DecideNode]
  {
  }
}
