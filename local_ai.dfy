/**
 * The in-browser brainstorming service (src/services/localAI.ts): a
 * text-generation pipeline that is set up once, on WebGPU or else on WASM,
 * prompts built from a category context, and the cut that turns the
 * generator's output into a one-line idea. The pipeline itself is an oracle:
 * each setup attempt either loads or fails, and each generator call either
 * throws or returns a raw result, all supplied as parameters.
 */
module LocalAI {
  import opened Text

  /** The backend a setup attempt asks the pipeline for. */
  datatype Device = WebGpu | Wasm

  /** A loaded text generator, identified by the backend it runs on. */
  datatype Generator = Generator(device: Device)

  /**
   * What a generator call produced: a batch (an array whose first element may
   * carry `generated_text`) or a single object (which may carry it).
   */
  datatype RawOutput = Batch(items: seq<Option<string>>) | Single(text: Option<string>)

  /** The outcome of awaiting the generator: it threw, or it returned a raw result. */
  datatype GeneratorReply = Threw | Returned(output: RawOutput)

  const NotInitialized := "AI model not initialized"
  const UnableToInitialize := "Unable to initialize local AI model"
  const FailedToGenerate := "Failed to generate idea"
  const FailedToRefine := "Failed to refine idea"

  const IdeaMarker := "Idea:"
  const RefinedIdeaMarker := "Refined Idea:"

  const OtherScmContext := "Focus on general supply chain management, logistics, transportation, distribution, and emerging supply chain technologies."

  const Contexts: map<string, string> := map[
    "daily_hurdles" := "Focus on everyday challenges, personal productivity, lifestyle improvements, and common problems people face in their daily lives.",
    "blue_yonder" := "Focus on supply chain optimization, demand planning, inventory management, warehouse management, and Blue Yonder platform specific solutions.",
    "kinaxis" := "Focus on supply chain planning, demand sensing, supply planning, inventory optimization, and Kinaxis RapidResponse platform capabilities.",
    "coupa" := "Focus on procurement, spend management, supplier management, contract management, and business spend optimization using Coupa platform.",
    "manhattan" := "Focus on warehouse management, transportation management, distributed order management, and Manhattan Associates solutions.",
    "other_scm" := OtherScmContext
  ]

  /** The guidance text for a category; any unlisted identifier gets the general supply-chain text. */
  function CategoryContext(category: string): (r: string)
    ensures category in Contexts ==> r == Contexts[category]
    ensures category !in Contexts ==> r == OtherScmContext
    ensures r != ""
  {
    if category in Contexts && Contexts[category] != "" then Contexts[category] else Contexts["other_scm"]
  }

  /** Every one of the six form categories has its own context text, and only `other_scm` shares the default. */
  lemma ContextsDistinct(a: string, b: string)
    requires a in Contexts && b in Contexts && a != b
    ensures CategoryContext(a) != CategoryContext(b)
  {
  }

  const PromptHead := "You are an innovation expert specializing in "
  const GenerateInstruction := "\n\nGenerate a creative and practical solution idea that addresses this problem. Provide a clear, actionable idea with specific benefits and implementation approach.\n\n"
  const RefineInstruction := "\n\nBased on the feedback, refine and improve the idea. Make it more specific, practical, and aligned with the user's needs.\n\n"

  /** The prompt for a new idea: category, its context and the problem verbatim, ending with the marker. */
  function GeneratePrompt(category: string, problemStatement: string): (p: string)
    ensures IsInfix(category, p) && IsInfix(CategoryContext(category), p) && IsInfix(problemStatement, p)
    ensures |p| >= |IdeaMarker| && p[|p| - |IdeaMarker|..] == IdeaMarker
  {
    TemplateFacts(PromptHead, category, ". ", CategoryContext(category), "\n\nProblem Statement: ", problemStatement,
      GenerateInstruction, IdeaMarker);
    PromptHead + category + ". " + CategoryContext(category) + "\n\nProblem Statement: " + problemStatement
      + GenerateInstruction + IdeaMarker
  }

  /** The prompt for a refinement: the current idea and the feedback verbatim, ending with the marker. */
  function RefinePrompt(category: string, currentIdea: string, feedback: string): (p: string)
    ensures IsInfix(category, p) && IsInfix(currentIdea, p) && IsInfix(feedback, p)
    ensures |p| >= |RefinedIdeaMarker| && p[|p| - |RefinedIdeaMarker|..] == RefinedIdeaMarker
  {
    TemplateFacts(PromptHead, category, ". " + CategoryContext(category) + "\n\nCurrent Idea: ", currentIdea,
      "\n\nUser Feedback: ", feedback, RefineInstruction, RefinedIdeaMarker);
    PromptHead + category + (". " + CategoryContext(category) + "\n\nCurrent Idea: ") + currentIdea
      + "\n\nUser Feedback: " + feedback + RefineInstruction + RefinedIdeaMarker
  }

  /** `Array.isArray(result) ? result[0]?.generated_text : result.generated_text`; None stands for `undefined`. */
  function GeneratedText(output: RawOutput): Option<string>
  {
    match output
    case Batch(items) => if |items| > 0 then items[0] else None
    case Single(text) => text
  }

  /**
   * `generated.split(marker)[1]?.trim() || generated`, then the first line of
   * that, or all of it when the first line is empty.
   */
  function ExtractIdea(generated: string, marker: string): (r: string)
    requires marker != []
    ensures IsInfix(r, generated)
    ensures r == [] <==> generated == []
  {
    var parts := Split(generated, marker);
    var after := if |parts| > 1 then Trim(parts[1]) else "";
    var ideaText := if after != "" then after else generated;
    var line := FirstLine(ideaText);
    assert IsInfix(ideaText, generated) by {
      if after != "" {
        SplitPartsAreInfixes(generated, marker, 1);
        InfixTransitive(after, parts[1], generated);
      } else {
        assert OccursAt(generated, generated, 0);
      }
    }
    PrefixIsInfix(line, ideaText);
    InfixTransitive(line, ideaText, generated);
    if line != "" then line else ideaText
  }

  /** The text between the first occurrence of `marker` and the next one (or the end); None without a marker. */
  function SegmentAfterMarker(s: string, marker: string): Option<string>
    requires marker != []
  {
    match IndexOf(s, marker)
    case None => None
    case Some(i) =>
      var rest := s[i + |marker|..];
      match IndexOf(rest, marker)
      case None => Some(rest)
      case Some(j) => Some(rest[..j])
  }

  /** JavaScript's `split(marker)[1]` is exactly the segment after the first marker. */
  lemma SplitSecondPiece(s: string, marker: string)
    requires marker != []
    ensures |Split(s, marker)| > 1 <==> SegmentAfterMarker(s, marker).Some?
    ensures |Split(s, marker)| > 1 ==> Split(s, marker)[1] == SegmentAfterMarker(s, marker).value
  {
    match IndexOf(s, marker)
    case None =>
    case Some(i) =>
      var rest := s[i + |marker|..];
      FirstPiece(rest, marker);
  }

  /**
   * The extraction: with a marker followed by text that is not
   * all whitespace, the idea is the first line of that text, trimmed; it is
   * non-empty and has no line break. Otherwise the first line of the whole
   * output, or the whole output when that line is empty.
   */
  lemma {:induction false} ExtractIdeaCases(generated: string, marker: string)
    requires marker != []
    ensures var seg := SegmentAfterMarker(generated, marker);
      if seg.Some? && Trim(seg.value) != "" then
        var r := ExtractIdea(generated, marker);
        r == FirstLine(Trim(seg.value)) && r != "" && '\n' !in r
      else
        ExtractIdea(generated, marker) == if FirstLine(generated) != "" then FirstLine(generated) else generated
  {
    SplitSecondPiece(generated, marker);
    var parts := Split(generated, marker);
    var seg := SegmentAfterMarker(generated, marker);
    var after := if |parts| > 1 then Trim(parts[1]) else "";
    if seg.Some? && Trim(seg.value) != "" {
      assert after == Trim(seg.value);
      FirstLineOfTrimmed(after);
    } else {
      assert after == "";
    }
  }

  /** A trimmed, non-empty text has a non-empty first line. */
  lemma FirstLineOfTrimmed(t: string)
    requires t != [] && !IsJsWhitespace(t[0])
    ensures FirstLine(t) != ""
  {
    FirstLineBreak(t);
  }

  /** The process-wide text-generation service. */
  class LocalAIBrainstorming {
    var textGenerator: Option<Generator>
    var isInitialized: bool

    /** A generator is held exactly when the service is initialised. */
    ghost predicate Valid()
      reads this
    {
      isInitialized <==> textGenerator.Some?
    }

    constructor ()
      ensures Valid() && !isInitialized && textGenerator == None
    {
      textGenerator := None;
      isInitialized := false;
    }

    /**
     * Sets up the generator: WebGPU first, WASM if that fails. `attempts`
     * lists the pipeline calls made, in order. Once initialised, a call
     * changes nothing and makes no pipeline call.
     */
    method Initialize(webGpuLoads: bool, wasmLoads: bool) returns (attempts: seq<Device>, r: Result<(), string>)
      requires Valid()
      modifies this
      ensures Valid()
      ensures old(isInitialized) ==> attempts == [] && r.Ok? && textGenerator == old(textGenerator) && isInitialized
      ensures !old(isInitialized) ==> attempts == if webGpuLoads then [WebGpu] else [WebGpu, Wasm]
      ensures !old(isInitialized) ==> (r.Ok? <==> webGpuLoads || wasmLoads)
      ensures isInitialized <==> r.Ok?
      ensures !old(isInitialized) && r.Ok? ==> textGenerator == Some(Generator(if webGpuLoads then WebGpu else Wasm))
      ensures r.Err? ==> r.error == UnableToInitialize && textGenerator == old(textGenerator)
    {
      if isInitialized {
        return [], Ok(());
      }
      attempts := [WebGpu];
      if webGpuLoads {
        textGenerator := Some(Generator(WebGpu));
        isInitialized := true;
        return attempts, Ok(());
      }
      attempts := attempts + [Wasm];
      if wasmLoads {
        textGenerator := Some(Generator(Wasm));
        isInitialized := true;
        return attempts, Ok(());
      }
      r := Err(UnableToInitialize);
    }

    predicate Ready()
      reads this
    {
      isInitialized && textGenerator.Some?
    }

    /**
     * Generates an idea for a problem. `sent` is the prompt handed to the
     * generator, None when the generator was not called.
     */
    method GenerateIdea(problemStatement: string, category: string, reply: GeneratorReply)
      returns (sent: Option<string>, r: Result<string, string>)
      ensures !Ready() ==> sent == None && r == Err(NotInitialized)
      ensures Ready() ==> sent == Some(GeneratePrompt(category, problemStatement))
      ensures Ready() && reply.Returned? && GeneratedText(reply.output).Some? ==>
        r == Ok(ExtractIdea(GeneratedText(reply.output).value, IdeaMarker))
      ensures Ready() && (reply.Threw? || GeneratedText(reply.output).None?) ==> r == Err(FailedToGenerate)
    {
      if !isInitialized || textGenerator.None? {
        return None, Err(NotInitialized);
      }
      var prompt := GeneratePrompt(category, problemStatement);
      sent := Some(prompt);
      if reply.Threw? {
        return sent, Err(FailedToGenerate);
      }
      var generated := GeneratedText(reply.output);
      if generated.None? {
        // `undefined.split` throws a TypeError, which the catch turns into the same failure.
        return sent, Err(FailedToGenerate);
      }
      r := Ok(ExtractIdea(generated.value, IdeaMarker));
    }

    /** Refines an idea from user feedback; same guard and failure handling as GenerateIdea. */
    method RefineIdea(currentIdea: string, feedback: string, category: string, reply: GeneratorReply)
      returns (sent: Option<string>, r: Result<string, string>)
      ensures !Ready() ==> sent == None && r == Err(NotInitialized)
      ensures Ready() ==> sent == Some(RefinePrompt(category, currentIdea, feedback))
      ensures Ready() && reply.Returned? && GeneratedText(reply.output).Some? ==>
        r == Ok(ExtractIdea(GeneratedText(reply.output).value, RefinedIdeaMarker))
      ensures Ready() && (reply.Threw? || GeneratedText(reply.output).None?) ==> r == Err(FailedToRefine)
    {
      if !isInitialized || textGenerator.None? {
        return None, Err(NotInitialized);
      }
      var prompt := RefinePrompt(category, currentIdea, feedback);
      sent := Some(prompt);
      if reply.Threw? {
        return sent, Err(FailedToRefine);
      }
      var generated := GeneratedText(reply.output);
      if generated.None? {
        return sent, Err(FailedToRefine);
      }
      r := Ok(ExtractIdea(generated.value, RefinedIdeaMarker));
    }
  }

  /** The module-level slot that holds the singleton service. */
  class ServiceRegistry {
    var instance: LocalAIBrainstorming?

    constructor ()
      ensures instance == null
    {
      instance := null;
    }

    /**
     * `getBrainstormingService`: the first call creates the service, stores it
     * and then initialises it, so a failed initialisation leaves the
     * uninitialised service stored; later calls return the stored service
     * without initialising it again.
     */
    method GetBrainstormingService(webGpuLoads: bool, wasmLoads: bool)
      returns (created: bool, r: Result<LocalAIBrainstorming, string>)
      modifies this
      ensures instance != null && instance.Valid()
      ensures created <==> old(instance) == null
      ensures !created ==> instance == old(instance) && r == Ok(instance) && unchanged(instance)
      ensures created ==> fresh(instance)
      ensures created ==> (instance.isInitialized <==> webGpuLoads || wasmLoads)
      ensures created ==> (r.Ok? <==> instance.isInitialized) && (r.Ok? ==> r.value == instance)
      ensures created && r.Err? ==> r.error == UnableToInitialize
      requires instance != null ==> instance.Valid()
    {
      if instance != null {
        return false, Ok(instance);
      }
      var service := new LocalAIBrainstorming();
      instance := service;
      var _, init := service.Initialize(webGpuLoads, wasmLoads);
      created := true;
      r := if init.Ok? then Ok(service) else Err(init.error);
    }

    /**
     * The accessor as evidently intended: a stored service that failed to
     * initialise is initialised again on the next call, so a later call
     * whose loads succeed hands out a ready service.
     */
    method GetInitializedService(webGpuLoads: bool, wasmLoads: bool)
      returns (r: Result<LocalAIBrainstorming, string>)
      requires instance != null ==> instance.Valid()
      modifies this, instance
      ensures instance != null && instance.Valid()
      ensures old(instance) != null ==> instance == old(instance)
      ensures old(instance) == null ==> fresh(instance)
      ensures r.Ok? <==> (old(instance) != null && old(instance.isInitialized)) || webGpuLoads || wasmLoads
      ensures r.Ok? ==> r.value == instance && r.value.Ready()
      ensures r.Err? ==> r.error == UnableToInitialize
    {
      var service := instance;
      if service == null {
        service := new LocalAIBrainstorming();
        instance := service;
      }
      var _, init := service.Initialize(webGpuLoads, wasmLoads);
      r := if init.Ok? then Ok(service) else Err(init.error);
    }
  }

  /**
   * A failed first initialisation is permanent: the second call returns the
   * stored service, which is still not initialised, so generating fails
   * without calling the generator.
   */
  method FailedInitIsNotRetried(problemStatement: string, category: string, reply: GeneratorReply)
    returns (first: Result<LocalAIBrainstorming, string>, second: Result<LocalAIBrainstorming, string>,
             sent: Option<string>, idea: Result<string, string>)
    ensures first == Err(UnableToInitialize)
    ensures second.Ok? && !second.value.isInitialized
    ensures sent == None && idea == Err(NotInitialized)
  {
    var registry := new ServiceRegistry();
    var _, f := registry.GetBrainstormingService(false, false);
    var _, s := registry.GetBrainstormingService(true, true);
    first, second := f, s;
    sent, idea := s.value.GenerateIdea(problemStatement, category, reply);
  }

  /**
   * With the corrected accessor, a failed first initialisation is retried:
   * once a load succeeds, generating sends the prompt to the generator.
   */
  method FailedInitIsRetried(problemStatement: string, category: string, reply: GeneratorReply)
    returns (first: Result<LocalAIBrainstorming, string>, second: Result<LocalAIBrainstorming, string>,
             sent: Option<string>)
    ensures first == Err(UnableToInitialize)
    ensures second.Ok? && second.value.isInitialized
    ensures sent == Some(GeneratePrompt(category, problemStatement))
  {
    var registry := new ServiceRegistry();
    first := registry.GetInitializedService(false, false);
    second := registry.GetInitializedService(false, true);
    var idea;
    sent, idea := second.value.GenerateIdea(problemStatement, category, reply);
  }
}
