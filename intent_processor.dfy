/** The intent processor: the cache tier first, then the router narrowing the tools
    offered to the language model, the model's tool calls executed in order, and the
    executed calls learned into the cache. The language model and the router's match
    are abstract functions of their inputs. */
module IntentProcessor {
  import opened Common
  import opened Text
  import opened HaClient
  import opened ToolHandler
  import opened SemanticCache

  const CacheThreshold: real := 0.92
  /** A router score at or below this leaves the tools unfiltered. */
  const RouteThreshold: real := 0.6
  const Fallback: string := "Das habe ich nicht verstanden."

  /** One entry of the tool definitions: its function name and the rest of its schema. */
  datatype ToolDef = ToolDef(name: string, schema: Args)

  /** A tool call the model asks for, with its arguments already decoded. */
  datatype ToolCall = ToolCall(name: string, arguments: Args)

  datatype ChatMessage = ChatMessage(role: string, content: string)

  /** The chat request: messages, the offered tools (`None` for none) and the tool choice. */
  datatype ChatRequest = ChatRequest(messages: seq<ChatMessage>, tools: Option<seq<ToolDef>>, toolChoice: string)

  /** The model's first choice: its text content and its tool calls (an absent list is empty). */
  datatype ChatReply = ChatReply(content: Option<string>, toolCalls: seq<ToolCall>)

  /** What the router reports for an utterance: the route, the phrase matched and its score. */
  datatype RouteMatch = RouteMatch(route: Option<string>, matchedText: string, score: real)

  /** `if route:` on an optional string. */
  predicate TruthyRoute(route: Option<string>) {
    route.Some? && route.value != ""
  }

  /** The router's route, dropped when its score is not above the threshold. */
  function EffectiveRoute(m: RouteMatch): (route: Option<string>)
    ensures m.score <= RouteThreshold ==> route.None?
    ensures m.score > RouteThreshold ==> route == m.route
  {
    if m.score <= RouteThreshold then None else m.route
  }

  /** The tools whose name is allowed, in their original order. */
  function FilterByName(tools: seq<ToolDef>, allowed: seq<string>): seq<ToolDef>
    decreases |tools|
  {
    if tools == [] then []
    else
      var rest := FilterByName(tools[1..], allowed);
      if tools[0].name in allowed then [tools[0]] + rest else rest
  }

  /** `xs` is `ys` with some elements left out, order kept. */
  predicate Subsequence<T(==)>(xs: seq<T>, ys: seq<T>)
    decreases |ys|
  {
    if xs == [] then true
    else if ys == [] then false
    else if xs[0] == ys[0] then Subsequence(xs[1..], ys[1..])
    else Subsequence(xs, ys[1..])
  }

  /** Filtering keeps exactly the allowed tools, in their order. */
  lemma FilterByNameSpec(tools: seq<ToolDef>, allowed: seq<string>)
    ensures forall t :: t in FilterByName(tools, allowed) <==> t in tools && t.name in allowed
    ensures Subsequence(FilterByName(tools, allowed), tools)
    ensures (forall k :: 0 <= k < |tools| ==> tools[k].name in allowed) ==> FilterByName(tools, allowed) == tools
  {
    FilterByNameMembers(tools, allowed);
    FilterByNameOrder(tools, allowed);
    if forall k :: 0 <= k < |tools| ==> tools[k].name in allowed {
      FilterByNameKeepsAll(tools, allowed);
    }
  }

  lemma {:induction false} FilterByNameMembers(tools: seq<ToolDef>, allowed: seq<string>)
    ensures forall t :: t in FilterByName(tools, allowed) <==> t in tools && t.name in allowed
    decreases |tools|
  {
    if tools != [] {
      FilterByNameMembers(tools[1..], allowed);
      assert tools == [tools[0]] + tools[1..];
    }
  }

  lemma {:induction false} FilterByNameOrder(tools: seq<ToolDef>, allowed: seq<string>)
    ensures Subsequence(FilterByName(tools, allowed), tools)
    decreases |tools|
  {
    if tools != [] {
      FilterByNameOrder(tools[1..], allowed);
      var rest := FilterByName(tools[1..], allowed);
      if tools[0].name in allowed {
        assert ([tools[0]] + rest)[1..] == rest;
      } else {
        SubsequenceSkipHead(rest, tools);
      }
    }
  }

  lemma {:induction false} FilterByNameKeepsAll(tools: seq<ToolDef>, allowed: seq<string>)
    requires forall k :: 0 <= k < |tools| ==> tools[k].name in allowed
    ensures FilterByName(tools, allowed) == tools
    decreases |tools|
  {
    if tools != [] {
      assert forall k :: 0 <= k < |tools[1..]| ==> tools[1..][k] == tools[k + 1];
      FilterByNameKeepsAll(tools[1..], allowed);
      assert tools == [tools[0]] + tools[1..];
    }
  }

  /** A subsequence of the tail is a subsequence of the whole. */
  lemma SubsequenceSkipHead<T>(xs: seq<T>, ys: seq<T>)
    requires ys != [] && Subsequence(xs, ys[1..])
    ensures Subsequence(xs, ys)
    decreases |ys|, |xs|
  {
    if xs != [] && xs[0] == ys[0] {
      SubsequenceTail(xs, ys[1..]);
    }
  }

  /** Dropping the first element of a subsequence keeps it a subsequence. */
  lemma SubsequenceTail<T>(xs: seq<T>, ys: seq<T>)
    requires xs != [] && Subsequence(xs, ys)
    ensures Subsequence(xs[1..], ys)
    decreases |ys|, |xs|
  {
    if ys != [] && xs[1..] != [] {
      if xs[0] != ys[0] {
        SubsequenceTail(xs, ys[1..]);
      }
      SubsequenceSkipHead(xs[1..], ys);
    }
  }

  /** The tools offered to the model: with a route, those the route map allows for it
      (none for an unmapped route); without one, all of them. */
  function ActiveTools(tools: seq<ToolDef>, routeMap: map<string, seq<string>>, route: Option<string>): seq<ToolDef> {
    if TruthyRoute(route) then FilterByName(tools, if route.value in routeMap then routeMap[route.value] else [])
    else tools
  }

  lemma ActiveToolsSpec(tools: seq<ToolDef>, routeMap: map<string, seq<string>>, route: Option<string>)
    ensures !TruthyRoute(route) ==> ActiveTools(tools, routeMap, route) == tools
    ensures TruthyRoute(route) ==>
              && Subsequence(ActiveTools(tools, routeMap, route), tools)
              && forall t :: t in ActiveTools(tools, routeMap, route) <==>
                               t in tools && route.value in routeMap && t.name in routeMap[route.value]
  {
    if TruthyRoute(route) {
      FilterByNameSpec(tools, if route.value in routeMap then routeMap[route.value] else []);
    }
  }

  /** `tools_param` and `tool_choice_param`: no tools means none offered and choice "none". */
  function ToolsParam(active: seq<ToolDef>): (p: (Option<seq<ToolDef>>, string))
    ensures p.0.Some? <==> p.1 == "auto"
    ensures p.0.Some? ==> p.0.value == active && active != []
    ensures p.0.None? ==> active == [] && p.1 == "none"
  {
    if active != [] then (Some(active), "auto") else (None, "none")
  }

  const PromptRules: string :=
    "Control devices or answer questions based on status. You must answer in german and keep the answers brief. "
    + "You musn't include any entity ids in the response text. "
    + "Address the user by their name if it is known."

  const PromptIntro: string := "You are a smart home assistant.\nDevices:\n"

  /** The system prompt: the device context, the speaker and, at the end, the room. */
  function SystemPrompt(deviceContext: string, speakerId: string, room: string): (prompt: string)
    ensures |prompt| >= |room| && prompt[|prompt| - |room|..] == room
    ensures |PromptIntro + deviceContext| <= |prompt| && prompt[..|PromptIntro + deviceContext|] == PromptIntro + deviceContext
  {
    var head := PromptIntro + deviceContext;
    var middle := "\nCurrent Speaker: " + speakerId + "\n" + PromptRules + "\nThe user is currently in room: ";
    var prompt := head + (middle + room);
    assert prompt[..|head|] == head;
    assert prompt == (head + middle) + room;
    prompt
  }

  /** `if not final_text_response`: no text and the empty text both become the fallback. */
  function Reply(text: Option<string>): (r: string)
    ensures r != ""
    ensures text.Some? && text.value != "" ==> r == text.value
    ensures text.None? || text.value == "" ==> r == Fallback
  {
    if text.None? || text.value == "" then Fallback else text.value
  }

  /** The answer to the model's reply: the last tool's result when it asked for tools,
      otherwise its text. */
  function LlmReply(msg: ChatReply, ha: Ha): string {
    if msg.toolCalls != [] then
      var last := msg.toolCalls[|msg.toolCalls| - 1];
      Reply(ExecuteToolRun(last.name, last.arguments, ha).output)
    else Reply(msg.content)
  }

  /** A last call whose handler answers with the empty string is answered with the
      fallback, since `if not final_text_response` treats it as no answer. */
  lemma EmptyAnswerFallsBack(msg: ChatReply, ha: Ha, tool: Tool)
    requires msg.toolCalls != []
    requires var last := msg.toolCalls[|msg.toolCalls| - 1];
             && last.name == ToolName(tool) && "context" !in last.arguments
             && ToolRunOf(tool, last.arguments, ha).output == Some("")
    ensures LlmReply(msg, ha) == Fallback
  {
    var last := msg.toolCalls[|msg.toolCalls| - 1];
    ExecuteToolDispatches(tool, last.arguments, ha);
  }

  /** One learning step: `add_to_cache` with `room` removed, which stores only an
      utterance not yet in the table. */
  function LearnStep(d: Dict<CacheEntry>, utterance: string, call: ToolCall, exactTools: set<string>): (d': Dict<CacheEntry>)
    requires d.Valid()
    ensures d'.Valid()
  {
    var key := Normalize(utterance);
    if key in d.values then d
    else d.Put(key, CacheEntry(call.name, call.arguments - {"room"}, Some(call.name in exactTools)))
  }

  /** The write history while learning: the table is written once, when the utterance's
      key is first stored, and `add_to_cache` on a known key writes nothing. */
  lemma LearnWritesStep<V>(start: Dict<V>, startWrites: seq<Dict<V>>, key: string,
                           before: Dict<V>, writesBefore: seq<Dict<V>>, after: Dict<V>, writesAfter: seq<Dict<V>>)
    requires writesBefore == startWrites + (if before == start then [] else [before])
    requires before != start ==> key in before.values
    requires key in before.values ==> after == before && writesAfter == writesBefore
    requires key !in before.values ==> key in after.values && writesAfter == writesBefore + [after]
    ensures writesAfter == startWrites + (if after == start then [] else [after])
    ensures after != start ==> key in after.values
  {
    if key !in before.values {
      assert after != start by { assert key in after.values && key !in start.values; }
    }
  }

  /** The table after learning the executed calls in order. */
  function LearnAll(d: Dict<CacheEntry>, utterance: string, calls: seq<ToolCall>, exactTools: set<string>): (d': Dict<CacheEntry>)
    requires d.Valid()
    ensures d'.Valid()
    decreases |calls|
  {
    if calls == [] then d
    else LearnStep(LearnAll(d, utterance, calls[..|calls| - 1], exactTools), utterance, calls[|calls| - 1], exactTools)
  }

  /** Learning one more call of the list is one more learning step. */
  lemma LearnAllStep(d: Dict<CacheEntry>, utterance: string, calls: seq<ToolCall>, i: int, exactTools: set<string>)
    requires d.Valid() && 0 <= i < |calls|
    ensures LearnAll(d, utterance, calls[..i + 1], exactTools)
            == LearnStep(LearnAll(d, utterance, calls[..i], exactTools), utterance, calls[i], exactTools)
  {
    assert calls[..i + 1][..i] == calls[..i];
  }

  /** All the calls of one utterance share its key, so only the first executed call is
      learned, and only when the utterance was not known. */
  lemma {:induction false} LearnOnlyFirst(d: Dict<CacheEntry>, utterance: string, calls: seq<ToolCall>, exactTools: set<string>)
    requires d.Valid()
    ensures LearnAll(d, utterance, calls, exactTools) == if calls == [] then d else LearnStep(d, utterance, calls[0], exactTools)
    decreases |calls|
  {
    if |calls| > 1 {
      var init := calls[..|calls| - 1];
      LearnOnlyFirst(d, utterance, init, exactTools);
      assert init[0] == calls[0];
      var learned := LearnStep(d, utterance, calls[0], exactTools);
      assert Normalize(utterance) in learned.values;
    }
  }

  /** A learned entry is the first call with `room` removed, flagged by the registry. */
  lemma LearnedEntry(d: Dict<CacheEntry>, utterance: string, calls: seq<ToolCall>, exactTools: set<string>)
    requires d.Valid() && calls != [] && Normalize(utterance) !in d.values
    ensures Normalize(utterance) in LearnAll(d, utterance, calls, exactTools).values
    ensures var e := LearnAll(d, utterance, calls, exactTools).values[Normalize(utterance)];
            e.tool == calls[0].name && "room" !in e.args && e.exactOnly == Some(calls[0].name in exactTools)
  {
    LearnOnlyFirst(d, utterance, calls, exactTools);
  }

  /** The Home Assistant calls the handler of each tool call issues. */
  function Issued(ha: Ha): ToolCall -> seq<ServiceCall> {
    (call: ToolCall) => ExecuteToolRun(call.name, call.arguments, ha).calls
  }

  /** The calls issued by running `toolCalls` in order. */
  function CallsOf(toolCalls: seq<ToolCall>, issued: ToolCall -> seq<ServiceCall>): seq<ServiceCall>
    decreases |toolCalls|
  {
    if toolCalls == [] then []
    else CallsOf(toolCalls[..|toolCalls| - 1], issued) + issued(toolCalls[|toolCalls| - 1])
  }

  /** Running two batches of tool calls one after the other issues the calls of the
      first batch, then those of the second. */
  lemma {:induction false} CallsOfConcat(a: seq<ToolCall>, b: seq<ToolCall>, issued: ToolCall -> seq<ServiceCall>)
    ensures CallsOf(a + b, issued) == CallsOf(a, issued) + CallsOf(b, issued)
    decreases |b|
  {
    if b == [] {
      assert a + b == a;
    } else {
      var init := b[..|b| - 1];
      assert (a + b)[..|a + b| - 1] == a + init && (a + b)[|a + b| - 1] == b[|b| - 1];
      CallsOfConcat(a, init, issued);
    }
  }

  /** One more turn of the tool-call loop records the call and issues its handler's calls. */
  lemma RunToolCallsStep(toolCalls: seq<ToolCall>, i: int, issued: ToolCall -> seq<ServiceCall>, executedTools: seq<ToolCall>, calls: seq<ServiceCall>)
    requires 0 <= i < |toolCalls|
    requires executedTools == toolCalls[..i]
    requires calls == CallsOf(toolCalls[..i], issued)
    ensures executedTools + [toolCalls[i]] == toolCalls[..i + 1]
    ensures calls + issued(toolCalls[i]) == CallsOf(toolCalls[..i + 1], issued)
  {
    assert toolCalls[..i + 1][..i] == toolCalls[..i];
  }

  /** The tool-call loop of `run_llm_inference`: each call runs in turn, the text
      response is overwritten by each result, each call is recorded, and the Home
      Assistant calls of every handler are issued in call order. */
  method RunToolCalls(toolCalls: seq<ToolCall>, ha: Ha)
    returns (finalTextResponse: Option<string>, executedTools: seq<ToolCall>, calls: seq<ServiceCall>)
    requires toolCalls != []
    ensures executedTools == toolCalls
    ensures calls == CallsOf(toolCalls, Issued(ha))
    ensures var last := toolCalls[|toolCalls| - 1];
            finalTextResponse == ExecuteToolRun(last.name, last.arguments, ha).output
  {
    finalTextResponse := Some("");
    executedTools := [];
    calls := [];
    ghost var last := toolCalls[0];
    for i := 0 to |toolCalls|
      invariant executedTools == toolCalls[..i]
      invariant calls == CallsOf(toolCalls[..i], Issued(ha))
      invariant i > 0 ==> last == toolCalls[i - 1]
      invariant i > 0 ==> finalTextResponse == ExecuteToolRun(last.name, last.arguments, ha).output
    {
      var tool := toolCalls[i];
      var run := ExecuteTool(tool.name, tool.arguments, ha);
      finalTextResponse := run.output;
      RunToolCallsStep(toolCalls, i, Issued(ha), executedTools, calls);
      calls := calls + run.calls;
      executedTools := executedTools + [tool];
      last := tool;
    }
    assert toolCalls[..|toolCalls|] == toolCalls;
  }

  class IntentProcessor {
    const haClient: HomeAssistantClient
    /** The client as the tools see it. */
    const ha: Ha
    const llm: ChatRequest -> ChatReply
    const matchDetails: string -> RouteMatch
    const semanticCache: S3SemanticCache
    const toolsDefinitions: seq<ToolDef>
    const routeMap: map<string, seq<string>>
    /** Home Assistant's rendering of the area template and of the context template. */
    const areasResponse: Option<string>
    const renderContext: (seq<string>, string, bool, string) -> Option<string>
    /** The similarity the cache scores with. */
    const sim: (string, string) -> real

    ghost predicate Valid()
      reads this, semanticCache
    {
      semanticCache.Valid()
    }

    constructor(haClient: HomeAssistantClient, ha: Ha, llm: ChatRequest -> ChatReply, matchDetails: string -> RouteMatch,
                semanticCache: S3SemanticCache, toolsDefinitions: seq<ToolDef>, routeMap: map<string, seq<string>>,
                areasResponse: Option<string>, renderContext: (seq<string>, string, bool, string) -> Option<string>,
                sim: (string, string) -> real)
      ensures this.haClient == haClient && this.ha == ha && this.llm == llm && this.matchDetails == matchDetails
      ensures this.semanticCache == semanticCache && this.toolsDefinitions == toolsDefinitions
      ensures this.routeMap == routeMap && this.areasResponse == areasResponse
      ensures this.renderContext == renderContext && this.sim == sim
    {
      this.haClient := haClient;
      this.ha := ha;
      this.llm := llm;
      this.matchDetails := matchDetails;
      this.semanticCache := semanticCache;
      this.toolsDefinitions := toolsDefinitions;
      this.routeMap := routeMap;
      this.areasResponse := areasResponse;
      this.renderContext := renderContext;
      this.sim := sim;
    }

    /** The request `run_llm_inference` sends. */
    function Request(room: string, text: string, speakerId: string, route: Option<string>): ChatRequest {
      var deviceContext := ContextFrom(renderContext(AllowedDomains(route), ToLower(room), false, "voice-assistant"));
      var params := ToolsParam(ActiveTools(toolsDefinitions, routeMap, route));
      ChatRequest([ChatMessage("system", SystemPrompt(deviceContext, speakerId, room)), ChatMessage("user", text)],
                  params.0, params.1)
    }

    /** `run_llm_inference`: every requested tool runs in order, the answer is the reply
        of the last one (or the model's text without tool calls), and no client action
        is produced. */
    method RunLlmInference(room: string, text: string, speakerId: string, route: Option<string>)
      returns (response: string, clientActions: seq<Args>, executedTools: seq<ToolCall>, calls: seq<ServiceCall>)
      modifies haClient
      ensures executedTools == llm(Request(room, text, speakerId, route)).toolCalls
      ensures calls == CallsOf(executedTools, Issued(ha))
      ensures response == LlmReply(llm(Request(room, text, speakerId, route)), ha)
      ensures clientActions == []
      ensures old(haClient.areas) != [] ==> haClient.areas == old(haClient.areas)
      ensures old(haClient.areas) == [] ==> haClient.areas == AreasFrom(areasResponse)
    {
      var activeTools := ActiveTools(toolsDefinitions, routeMap, route);
      var deviceContext := haClient.GetDynamicContext(text, room, route, "voice-assistant", areasResponse, renderContext);
      var systemPrompt := SystemPrompt(deviceContext, speakerId, room);
      var messages := [ChatMessage("system", systemPrompt), ChatMessage("user", text)];
      var params := ToolsParam(activeTools);
      var msg := llm(ChatRequest(messages, params.0, params.1));
      var finalTextResponse: Option<string> := Some("");
      clientActions := [];
      executedTools := [];
      calls := [];
      if msg.toolCalls != [] {
        finalTextResponse, executedTools, calls := RunToolCalls(msg.toolCalls, ha);
      } else {
        finalTextResponse := msg.content;
      }
      response := Reply(finalTextResponse);
    }

    /** A cache hit: a truthy cached tool. */
    predicate IsHit(lookup: Lookup) {
      lookup.tool.Some? && lookup.tool.value != "" && lookup.args.Some?
    }

    /** `resolve_and_execute_intent`. On a cache hit the cached tool runs with the room
        added and nothing else happens; otherwise the router's route narrows the tools,
        the model runs, and the executed calls are learned. The answer is `None` when a
        cached tool raised. */
    method ResolveAndExecuteIntent(room: string, text: string, speakerId: string)
      returns (response: Option<string>, actions: seq<Args>, calls: seq<ServiceCall>)
      requires Valid()
      modifies semanticCache, haClient
      ensures Valid()
      ensures actions == []
      ensures var lookup := old(semanticCache.GetCachedTool(text, CacheThreshold, sim));
              IsHit(lookup) ==>
                && response == ExecuteToolRun(lookup.tool.value, lookup.args.value["room" := VStr(room)], ha).output
                && calls == ExecuteToolRun(lookup.tool.value, lookup.args.value["room" := VStr(room)], ha).calls
                && semanticCache.cacheDict == old(semanticCache.cacheDict)
                && semanticCache.writes == old(semanticCache.writes)
                && haClient.areas == old(haClient.areas)
      ensures var lookup := old(semanticCache.GetCachedTool(text, CacheThreshold, sim));
              var msg := llm(Request(room, text, speakerId, EffectiveRoute(matchDetails(text))));
              !IsHit(lookup) ==>
                && response == Some(LlmReply(msg, ha))
                && calls == CallsOf(msg.toolCalls, Issued(ha))
                && semanticCache.cacheDict == LearnAll(old(semanticCache.cacheDict), text, msg.toolCalls, semanticCache.exactTools)
                && semanticCache.writes == old(semanticCache.writes) +
                     (if semanticCache.cacheDict == old(semanticCache.cacheDict) then [] else [semanticCache.cacheDict])
                && (old(haClient.areas) != [] ==> haClient.areas == old(haClient.areas))
                && (old(haClient.areas) == [] ==> haClient.areas == AreasFrom(areasResponse))
    {
      actions := [];
      var lookup := semanticCache.GetCachedTool(text, CacheThreshold, sim);
      if lookup.tool.Some? && lookup.tool.value != "" {
        assert lookup.args.Some?;
        var toolArgs := lookup.args.value["room" := VStr(room)];
        var run := ExecuteTool(lookup.tool.value, toolArgs, ha);
        return run.output, actions, run.calls;
      }
      var routeMatch := matchDetails(text);
      var route := routeMatch.route;
      if routeMatch.score <= RouteThreshold {
        route := None;
      }
      var responseText, executedTools;
      responseText, actions, executedTools, calls := RunLlmInference(room, text, speakerId, route);
      Learn(text, executedTools);
      response := Some(responseText);
    }

    /** The learning loop: every executed call goes to `add_to_cache` with `room` removed. */
    method Learn(text: string, executedTools: seq<ToolCall>)
      requires Valid()
      modifies semanticCache
      ensures Valid()
      ensures semanticCache.cacheDict == LearnAll(old(semanticCache.cacheDict), text, executedTools, semanticCache.exactTools)
      ensures semanticCache.writes == old(semanticCache.writes) +
                (if semanticCache.cacheDict == old(semanticCache.cacheDict) then [] else [semanticCache.cacheDict])
    {
      for i := 0 to |executedTools|
        invariant semanticCache.Valid()
        invariant semanticCache.cacheDict == LearnAll(old(semanticCache.cacheDict), text, executedTools[..i], semanticCache.exactTools)
        invariant semanticCache.writes == old(semanticCache.writes) +
                    (if semanticCache.cacheDict == old(semanticCache.cacheDict) then [] else [semanticCache.cacheDict])
        invariant semanticCache.cacheDict != old(semanticCache.cacheDict) ==> Normalize(text) in semanticCache.cacheDict.values
      {
        var tool := executedTools[i];
        ghost var before, writesBefore := semanticCache.cacheDict, semanticCache.writes;
        semanticCache.AddToCache(text, tool.name, tool.arguments - {"room"});
        LearnWritesStep(old(semanticCache.cacheDict), old(semanticCache.writes), Normalize(text),
                        before, writesBefore, semanticCache.cacheDict, semanticCache.writes);
        LearnAllStep(old(semanticCache.cacheDict), text, executedTools, i, semanticCache.exactTools);
      }
      assert executedTools[..|executedTools|] == executedTools;
    }
  }
}
