/**
 * The `supply-chain-ai` edge function
 * (supabase/functions/supply-chain-ai/index.ts): one HTTP request becomes
 * one response. A preflight is answered at once; any other request is
 * parsed, turned into a chat-completion request whose system prompt may
 * carry a "CURRENT FOCUS" section on one platform, and the completion's
 * text is sent back. The parsed body and the completion service's answer
 * are parameters; so is the API key read from the environment.
 */
module SupplyChainAI {
  import opened Text

  type Header = (string, string)

  const CorsHeaders: seq<Header> := [
    ("Access-Control-Allow-Origin", "*"),
    ("Access-Control-Allow-Headers", "authorization, x-client-info, apikey, content-type")
  ]

  /** The headers of every JSON answer: the CORS headers, then the content type. */
  const JsonHeaders: seq<Header> := CorsHeaders + [("Content-Type", "application/json")]

  /** The header list starts with the CORS headers. */
  predicate HasCors(headers: seq<Header>)
  {
    |CorsHeaders| <= |headers| && headers[..|CorsHeaders|] == CorsHeaders
  }

  /** A platform's entry: a description, then named lists of phrases, in the order they are written. */
  datatype KnowledgeEntry = KnowledgeEntry(description: string, lists: seq<(string, seq<string>)>)

  /** The knowledge base, keyed by platform display name (not by category identifier). */
  const Knowledge: map<string, KnowledgeEntry> := map[
    "Blue Yonder" := KnowledgeEntry(
      "AI-driven supply chain solutions focusing on demand planning, inventory optimization, and autonomous supply chains",
      [("capabilities", ["Demand sensing", "Inventory optimization", "Supply planning", "Warehouse management",
                         "Transportation optimization", "Price optimization"]),
       ("features", ["Machine learning algorithms", "Real-time analytics", "Autonomous replenishment",
                     "Multi-echelon inventory optimization"])]),
    "Kinaxis" := KnowledgeEntry(
      "RapidResponse platform for concurrent supply chain planning with real-time visibility and scenario modeling",
      [("capabilities", ["Demand planning", "Supply planning", "S&OP", "Risk management", "Scenario modeling",
                         "Real-time collaboration"]),
       ("features", ["Concurrent planning", "What-if analysis", "Supply chain control tower", "Risk monitoring",
                     "Multi-tier visibility"])]),
    "Coupa" := KnowledgeEntry(
      "Business Spend Management platform covering procurement, invoicing, expenses, and supply chain collaboration",
      [("capabilities", ["Procurement", "Supplier management", "Contract management", "Invoice processing",
                         "Expense management", "Supply chain collaboration"]),
       ("features", ["AI-powered insights", "Supplier risk management", "Spend analytics",
                     "Contract lifecycle management", "Community intelligence"])]),
    "Manhattan" := KnowledgeEntry(
      "Supply chain commerce solutions for warehouse management, transportation, and omnichannel fulfillment",
      [("capabilities", ["Warehouse management", "Transportation management", "Distributed order management",
                         "Labor management", "Yard management"]),
       ("features", ["Real-time inventory tracking", "Advanced fulfillment", "Labor optimization",
                     "Route optimization", "Multi-channel distribution"])]),
    "Daily Hurdles" := KnowledgeEntry(
      "Common operational challenges in supply chain and business operations",
      [("areas", ["Process inefficiencies", "Communication gaps", "Resource constraints", "Technology limitations",
                  "Compliance issues"])])
  ]

  /** A JSON string literal for text that needs no escaping. */
  function JsonString(s: string): (r: string)
    ensures |r| == |s| + 2 && r[0] == '"' && r[|r| - 1] == '"' && r[1..|r| - 1] == s
  {
    "\"" + s + "\""
  }

  /** A list of strings as `JSON.stringify(_, null, 2)` lays it out one level deep. */
  function RenderList(items: seq<string>): string
  {
    if items == [] then "[]"
    else "[\n" + Join(seq(|items|, k requires 0 <= k < |items| => "    " + JsonString(items[k])), ",\n") + "\n  ]"
  }

  /** The members of an entry, one per line, each indented by two spaces. */
  function EntryMembers(e: KnowledgeEntry): (members: seq<string>)
    ensures |members| == 1 + |e.lists|
    ensures members[0] == "  " + JsonString("description") + ": " + JsonString(e.description)
  {
    ["  " + JsonString("description") + ": " + JsonString(e.description)]
      + seq(|e.lists|, k requires 0 <= k < |e.lists| =>
            "  " + JsonString(e.lists[k].0) + ": " + RenderList(e.lists[k].1))
  }

  /** `JSON.stringify(entry, null, 2)`. */
  function RenderEntry(e: KnowledgeEntry): string
  {
    "{\n" + Join(EntryMembers(e), ",\n") + "\n}"
  }

  /** Each member is a piece of the joined members. */
  lemma {:induction false} JoinedPartIsInfix(parts: seq<string>, sep: string, k: nat)
    requires k < |parts|
    ensures IsInfix(parts[k], Join(parts, sep))
    decreases |parts|
  {
    var s := Join(parts, sep);
    if |parts| == 1 {
      PrefixIsInfix(parts[0], s);
    } else if k == 0 {
      assert s == [] + parts[0] + (sep + Join(parts[1..], sep));
      InfixOfConcat([], parts[0], sep + Join(parts[1..], sep));
    } else {
      JoinedPartIsInfix(parts[1..], sep, k - 1);
      assert s == (parts[0] + sep) + Join(parts[1..], sep) + [];
      InfixOfConcat(parts[0] + sep, Join(parts[1..], sep), []);
      InfixTransitive(parts[1..][k - 1], Join(parts[1..], sep), s);
    }
  }

  /** The rendered entry carries its description and every phrase of every list, quoted. */
  lemma RenderEntryShowsContent(e: KnowledgeEntry, i: nat, j: nat)
    ensures IsInfix(JsonString(e.description), RenderEntry(e))
    ensures i < |e.lists| && j < |e.lists[i].1| ==> IsInfix(JsonString(e.lists[i].1[j]), RenderEntry(e))
  {
    var members := EntryMembers(e);
    var joined := Join(members, ",\n");
    InfixOfConcat("{\n", joined, "\n}");
    JoinedPartIsInfix(members, ",\n", 0);
    assert members[0] == ("  " + JsonString("description") + ": ") + JsonString(e.description) + [];
    InfixOfConcat("  " + JsonString("description") + ": ", JsonString(e.description), []);
    InfixTransitive(JsonString(e.description), members[0], joined);
    InfixTransitive(JsonString(e.description), joined, RenderEntry(e));
    if i < |e.lists| && j < |e.lists[i].1| {
      var items := e.lists[i].1;
      var lines := seq(|items|, k requires 0 <= k < |items| => "    " + JsonString(items[k]));
      var list := RenderList(items);
      JoinedPartIsInfix(lines, ",\n", j);
      assert lines[j] == "    " + JsonString(items[j]) + [];
      InfixOfConcat("    ", JsonString(items[j]), []);
      InfixTransitive(JsonString(items[j]), lines[j], Join(lines, ",\n"));
      InfixOfConcat("[\n", Join(lines, ",\n"), "\n  ]");
      InfixTransitive(JsonString(items[j]), Join(lines, ",\n"), list);
      assert members[1 + i] == ("  " + JsonString(e.lists[i].0) + ": ") + list + [];
      InfixOfConcat("  " + JsonString(e.lists[i].0) + ": ", list, []);
      InfixTransitive(JsonString(items[j]), list, members[1 + i]);
      JoinedPartIsInfix(members, ",\n", 1 + i);
      InfixTransitive(JsonString(items[j]), members[1 + i], joined);
      InfixTransitive(JsonString(items[j]), joined, RenderEntry(e));
    }
  }

  /** `category && categoryKnowledge`: a non-empty category that names a knowledge entry. */
  predicate FocusShown(category: Option<string>)
  {
    category.Some? && category.value != "" && category.value in Knowledge
  }

  /** The emptiness test is subsumed by the lookup: no entry is keyed by the empty string. */
  lemma FocusShownIffKnown(category: Option<string>)
    ensures FocusShown(category) <==> category.Some? && category.value in Knowledge
  {
  }

  const PromptHead := "You are a specialized AI assistant for supply chain management and innovation. You have deep expertise in the following platforms and areas:\n\n"

  const PromptTail := "\n\nSUPPLY CHAIN PLATFORMS EXPERTISE:\n"
    + "- Kinaxis RapidResponse: Concurrent planning, real-time visibility, scenario modeling, S&OP\n"
    + "- Blue Yonder: AI-driven demand planning, inventory optimization, autonomous supply chains\n"
    + "- Coupa: Business spend management, procurement, supplier management, contract management\n"
    + "- Manhattan: Warehouse management, transportation, omnichannel fulfillment, labor optimization\n\n"
    + "Your role is to:\n"
    + "1. Help users brainstorm innovative solutions for supply chain challenges\n"
    + "2. Provide specific insights related to the selected platform/category\n"
    + "3. Suggest practical implementation approaches\n"
    + "4. Consider integration possibilities between different platforms\n"
    + "5. Focus on real-world business value and ROI\n\n"
    + "Be specific, actionable, and innovative in your responses. Consider both technical and business perspectives."

  const FocusHead := "CURRENT FOCUS: "

  /** The optional section between the prompt's opening and its fixed platform overview. */
  function FocusSection(category: Option<string>): (r: string)
    ensures !FocusShown(category) ==> r == ""
  {
    if FocusShown(category) then
      "\n" + (FocusHead + category.value) + "\n" + RenderEntry(Knowledge[category.value]) + "\n"
    else ""
  }

  function SystemPrompt(category: Option<string>): string
  {
    PromptHead + FocusSection(category) + PromptTail
  }

  /**
   * The prompt always opens and closes with the fixed text. With a focus it
   * names the category and carries the rendered knowledge entry; without
   * one it is the fixed text alone.
   */
  lemma SystemPromptShape(category: Option<string>)
    ensures var p := SystemPrompt(category);
      && p[..|PromptHead|] == PromptHead && p[|p| - |PromptTail|..] == PromptTail
      && (!FocusShown(category) ==> p == PromptHead + PromptTail)
      && (FocusShown(category) ==>
            IsInfix(FocusHead + category.value, p) && IsInfix(RenderEntry(Knowledge[category.value]), p))
  {
    var focus := FocusSection(category);
    FramedParts(PromptHead, focus, PromptTail);
    if FocusShown(category) {
      FocusFacts(PromptHead, FocusHead + category.value, RenderEntry(Knowledge[category.value]), PromptTail);
    } else {
      assert PromptHead + focus == PromptHead;
    }
  }

  lemma FramedParts(h: string, m: string, t: string)
    ensures (h + m + t)[..|h|] == h && (h + m + t)[|h + m + t| - |t|..] == t
  {
  }

  lemma FocusFacts(h: string, named: string, entry: string, t: string)
    ensures var p := h + ("\n" + named + "\n" + entry + "\n") + t;
      IsInfix(named, p) && IsInfix(entry, p)
  {
    assert h + ("\n" + named + "\n" + entry + "\n") + t == (h + "\n") + named + "\n" + entry + ("\n" + t);
    InfixesOfFive(h + "\n", named, "\n", entry, "\n" + t);
  }

  datatype ChatMessage = ChatMessage(role: string, content: string)

  /** The parsed request body; `category` and `context` may be absent. */
  datatype Payload = Payload(message: string, category: Option<string>, context: Option<seq<ChatMessage>>)

  /** `[system, ...(context || []), user]`. */
  function Messages(p: Payload): (ms: seq<ChatMessage>)
    ensures var context := if p.context.Some? then p.context.value else [];
      && |ms| == 2 + |context|
      && ms[0] == ChatMessage("system", SystemPrompt(p.category))
      && ms[1..|ms| - 1] == context
      && ms[|ms| - 1] == ChatMessage("user", p.message)
  {
    var context := if p.context.Some? then p.context.value else [];
    [ChatMessage("system", SystemPrompt(p.category))] + context + [ChatMessage("user", p.message)]
  }

  /** The chat-completion request; the sampling temperature is not modelled. */
  datatype Completion = Completion(authorization: string, model: string, messages: seq<ChatMessage>, maxTokens: nat)

  /** `Bearer ${openAIApiKey}`: an unset key is rendered as "undefined". */
  function Authorization(apiKey: Option<string>): string
  {
    "Bearer " + if apiKey.Some? then apiKey.value else "undefined"
  }

  /**
   * What the completion service did: the fetch itself threw, or it answered
   * with a status and, for a readable body, the first choice's text (a body
   * that cannot be read throws with the given message).
   */
  datatype UpstreamReply = FetchThrew(message: string) | Replied(status: int, content: Result<string, string>)

  datatype Request = Request(httpMethod: string, body: Result<Payload, string>)

  datatype ResponseBody = NoBody | Answer(response: string, category: Option<string>) | Failure(error: string)

  datatype Response = Response(status: int, headers: seq<Header>, body: ResponseBody)

  const DefaultError := "Failed to generate AI response"

  /** `error.message || 'Failed to generate AI response'`. */
  function ErrorResponse(message: string): (r: Response)
    ensures r.status == 500 && r.headers == JsonHeaders && HasCors(r.headers)
    ensures r.body.Failure? && r.body.error != ""
    ensures message != "" ==> r.body.error == message
  {
    Response(500, JsonHeaders, Failure(if message == "" then DefaultError else message))
  }

  predicate IsOk(status: int)
  {
    200 <= status <= 299
  }

  /**
   * The handler. `sent` is the completion request, when one was made. A
   * preflight gets an empty 200 with the CORS headers and nothing is sent;
   * an unreadable body is a 500 and nothing is sent; otherwise the request
   * is sent and the answer's text comes back with the request's category, or
   * any failure on the way becomes a 500 with the failure's message.
   */
  function Handle(req: Request, apiKey: Option<string>, upstream: UpstreamReply): (out: (Response, Option<Completion>))
    ensures var (resp, sent) := out;
      && HasCors(resp.headers)
      && (req.httpMethod == "OPTIONS" ==> resp == Response(200, CorsHeaders, NoBody) && sent.None?)
      && (sent.Some? <==> req.httpMethod != "OPTIONS" && req.body.Ok?)
      && (sent.Some? ==> sent.value.messages == Messages(req.body.value))
      && (req.httpMethod != "OPTIONS" && req.body.Err? ==> resp == ErrorResponse(req.body.error))
      && (resp.status == 200 <==> req.httpMethod == "OPTIONS" || resp.body.Answer?)
      && (resp.body.Answer? <==> sent.Some? && upstream.Replied? && IsOk(upstream.status) && upstream.content.Ok?)
      && (resp.body.Answer? ==> resp.body == Answer(upstream.content.value, req.body.value.category))
      && (sent.Some? && upstream.Replied? && !IsOk(upstream.status) ==>
            resp == ErrorResponse("OpenAI API error: " + IntToString(upstream.status)))
      && (sent.Some? && upstream.FetchThrew? ==> resp == ErrorResponse(upstream.message))
      && (sent.Some? && upstream.Replied? && IsOk(upstream.status) && upstream.content.Err? ==>
            resp == ErrorResponse(upstream.content.error))
  {
    if req.httpMethod == "OPTIONS" then (Response(200, CorsHeaders, NoBody), None)
    else
      match req.body
      case Err(message) => (ErrorResponse(message), None)
      case Ok(payload) =>
        var sent := Completion(Authorization(apiKey), "gpt-4o-mini", Messages(payload), 1000);
        var resp :=
          match upstream
          case FetchThrew(message) => ErrorResponse(message)
          case Replied(status, content) =>
            if !IsOk(status) then ErrorResponse("OpenAI API error: " + IntToString(status))
            else
              match content
              case Err(message) => ErrorResponse(message)
              case Ok(text) => Response(200, JsonHeaders, Answer(text, payload.category));
        (resp, Some(sent))
  }

  /** Every error the handler reports says something: its body never carries an empty message. */
  lemma ErrorsAreExplained(req: Request, apiKey: Option<string>, upstream: UpstreamReply)
    ensures var resp := Handle(req, apiKey, upstream).0;
      resp.body.Failure? ==> resp.status == 500 && resp.body.error != ""
    ensures var resp := Handle(req, apiKey, upstream).0;
      resp.status == 500 <==> resp.body.Failure?
  {
  }
}
