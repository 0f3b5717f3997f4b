/**
 * The chat panel (src/components/AIBrainstorming.tsx) as a session object:
 * the message list only grows, a send is refused while the input is blank
 * or a reply is pending, and whether the service is asked to generate or to
 * refine depends on whether an idea is already on the table. The service
 * (getting the singleton and calling it) is an oracle: its answer, or its
 * failure, is a parameter.
 */
module AIBrainstorming {
  import opened Text

  datatype Sender = User | Ai

  /** A chat bubble; ids and timestamps are not modelled. */
  datatype Message = Message(sender: Sender, content: string)

  /** The service call a send makes. */
  datatype ServiceCall =
    | Generate(problemStatement: string, category: string)
    | Refine(currentIdea: string, feedback: string, category: string)

  const Descriptions: map<string, string> := map[
    "daily_hurdles" := "Everyday challenges and lifestyle improvements",
    "blue_yonder" := "Blue Yonder supply chain optimization",
    "kinaxis" := "Kinaxis supply chain planning solutions",
    "coupa" := "Coupa business spend management",
    "manhattan" := "Manhattan supply chain commerce",
    "other_scm" := "General supply chain management"
  ]

  /** `${categoryDescriptions[category]}`: the lookup has no default, so an unlisted category renders as "undefined". */
  function DescriptionText(category: string): (r: string)
    ensures category !in Descriptions ==> r == "undefined"
    ensures category in Descriptions ==> r == Descriptions[category]
  {
    if category in Descriptions then Descriptions[category] else "undefined"
  }

  /** The greeting shown once the service is ready. */
  function WelcomeText(categoryLabel: string, category: string): (r: string)
  {
    WelcomeHead + categoryLabel + ". " + DescriptionText(category) + WelcomeTail
  }

  const WelcomeHead := "Hello! I'm your local AI brainstorming assistant for "
  const WelcomeTail := ". \n\nTell me about the problem or challenge you're facing, and I'll help you generate innovative solutions!"

  lemma WelcomeNamesCategory(categoryLabel: string, category: string)
    ensures IsInfix(categoryLabel, WelcomeText(categoryLabel, category))
    ensures IsInfix(DescriptionText(category), WelcomeText(categoryLabel, category))
  {
    InfixesOfFive(WelcomeHead, categoryLabel, ". ", DescriptionText(category), WelcomeTail);
  }

  class BrainstormSession {
    const category: string
    const categoryLabel: string
    var messages: seq<Message>
    var inputMessage: string
    var isLoading: bool
    var isInitializing: bool
    var currentIdea: string

    /** The state right after mounting: no messages, waiting for the service. */
    constructor (category: string, categoryLabel: string)
      ensures this.category == category && this.categoryLabel == categoryLabel
      ensures messages == [] && inputMessage == "" && !isLoading && isInitializing && currentIdea == ""
    {
      this.category := category;
      this.categoryLabel := categoryLabel;
      messages := [];
      inputMessage := "";
      isLoading := false;
      isInitializing := true;
      currentIdea := "";
    }

    /** The send button is enabled: `!(!inputMessage.trim() || isLoading)`. */
    predicate SendButtonEnabled()
      reads this
    {
      !(Trim(inputMessage) == "" || isLoading)
    }

    /**
     * `initializeAI`: when getting the service resolves (which it also does
     * with a stored service whose set-up failed earlier), the list is exactly
     * the welcome message; when it rejects, the list is left as it was
     * (empty after mounting). Either way the spinner stops.
     */
    method InitializeAI(serviceResolved: bool)
      modifies this
      ensures !isInitializing
      ensures serviceResolved ==> messages == [Message(Ai, WelcomeText(categoryLabel, category))]
      ensures !serviceResolved ==> messages == old(messages)
      ensures inputMessage == old(inputMessage) && isLoading == old(isLoading) && currentIdea == old(currentIdea)
    {
      if serviceResolved {
        isInitializing := false;
        messages := [Message(Ai, WelcomeText(categoryLabel, category))];
      } else {
        isInitializing := false;
      }
    }

    /**
     * What one send does to the session, given the service's answer and the
     * call that was made: nothing when the button is disabled; otherwise one
     * user message with the trimmed input, a cleared input, a refine call
     * exactly when an idea is current, and either the answer appended and
     * made current or, on failure, nothing more.
     */
    twostate predicate SendEffect(new reply: Result<string, string>, new call: Option<ServiceCall>)
      reads this
    {
      if !old(SendButtonEnabled()) then
        call == None && messages == old(messages) && inputMessage == old(inputMessage)
        && isLoading == old(isLoading) && currentIdea == old(currentIdea) && isInitializing == old(isInitializing)
      else
        var userMessage := Message(User, Trim(old(inputMessage)));
        && call == Some(if old(currentIdea) != "" then Refine(old(currentIdea), userMessage.content, category)
                        else Generate(userMessage.content, category))
        && inputMessage == "" && !isLoading && isInitializing == old(isInitializing)
        && (reply.Ok? ==> messages == old(messages) + [userMessage, Message(Ai, reply.value)] && currentIdea == reply.value)
        && (reply.Err? ==> messages == old(messages) + [userMessage] && currentIdea == old(currentIdea))
    }

    /** `sendMessage`, run to completion as one step. */
    method SendMessage(reply: Result<string, string>) returns (call: Option<ServiceCall>)
      modifies this
      ensures SendEffect(reply, call)
      ensures call.Some? <==> old(SendButtonEnabled())
    {
      if Trim(inputMessage) == "" || isLoading {
        return None;
      }
      var userMessage := Message(User, Trim(inputMessage));
      messages := messages + [userMessage];
      inputMessage := "";
      isLoading := true;
      if currentIdea != "" {
        call := Some(Refine(currentIdea, userMessage.content, category));
      } else {
        call := Some(Generate(userMessage.content, category));
      }
      match reply {
        case Ok(aiResponse) =>
          currentIdea := aiResponse;
          messages := messages + [Message(Ai, aiResponse)];
        case Err(_) =>
      }
      isLoading := false;
    }

    /** `handleKeyPress`: Enter without Shift sends (and suppresses the default); any other key does nothing. */
    method HandleKeyPress(key: string, shiftKey: bool, reply: Result<string, string>)
      returns (prevented: bool, call: Option<ServiceCall>)
      modifies this
      ensures prevented <==> key == "Enter" && !shiftKey
      ensures prevented ==> SendEffect(reply, call)
      ensures !prevented ==> call == None && unchanged(this)
    {
      if key == "Enter" && !shiftKey {
        prevented := true;
        call := SendMessage(reply);
      } else {
        prevented, call := false, None;
      }
    }
  }

  /**
   * A conversation from mounting: a successful start, a problem statement and
   * one piece of feedback. The first send generates, the second refines the
   * idea the first produced, and the list holds the four messages in order.
   */
  method GenerateThenRefine(category: string, categoryLabel: string, problem: string, feedback: string, idea1: string, idea2: string)
    returns (first: Option<ServiceCall>, second: Option<ServiceCall>, log: seq<Message>)
    requires Trim(problem) != "" && Trim(feedback) != "" && idea1 != ""
    ensures first == Some(Generate(Trim(problem), category))
    ensures second == Some(Refine(idea1, Trim(feedback), category))
    ensures |log| == 5 && log[0] == Message(Ai, WelcomeText(categoryLabel, category))
    ensures log[1] == Message(User, Trim(problem)) && log[2] == Message(Ai, idea1)
    ensures log[3] == Message(User, Trim(feedback)) && log[4] == Message(Ai, idea2)
  {
    var session := StartSession(category, categoryLabel);
    first := TypeAndSend(session, problem, idea1);
    assert |session.messages| == 3 && session.currentIdea == idea1;
    assert session.messages[0] == Message(Ai, WelcomeText(categoryLabel, category));
    assert session.messages[1] == Message(User, Trim(problem)) && session.messages[2] == Message(Ai, idea1);
    ghost var afterFirst := session.messages;
    second := TypeAndSend(session, feedback, idea2);
    assert session.messages[..3] == afterFirst;
    log := session.messages;
  }

  /** Mounting the panel and a successful start: the welcome message alone, an idle session, no idea yet. */
  method StartSession(category: string, categoryLabel: string) returns (session: BrainstormSession)
    ensures fresh(session) && session.category == category
    ensures session.messages == [Message(Ai, WelcomeText(categoryLabel, category))]
    ensures !session.isLoading && !session.isInitializing && session.currentIdea == ""
  {
    session := new BrainstormSession(category, categoryLabel);
    session.InitializeAI(true);
  }

  /** The user types `input` into an idle session and sends it; the service answers `answer`. */
  method TypeAndSend(session: BrainstormSession, input: string, answer: string) returns (call: Option<ServiceCall>)
    requires Trim(input) != "" && !session.isLoading
    modifies session
    ensures call == Some(if old(session.currentIdea) != "" then Refine(old(session.currentIdea), Trim(input), session.category)
                         else Generate(Trim(input), session.category))
    ensures session.messages == old(session.messages) + [Message(User, Trim(input)), Message(Ai, answer)]
    ensures session.currentIdea == answer && !session.isLoading && session.isInitializing == old(session.isInitializing)
  {
    session.inputMessage := input;
    call := session.SendMessage(Ok(answer));
  }
}
