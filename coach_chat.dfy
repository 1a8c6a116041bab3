// The career-coach chat page: the keyword routing that picks a canned
// answer, the send / reply pair around the simulated thinking delay, the
// quick-start prompts, reset and resume, and what the header and input show.
// Message ids and times (clock readings in the page) are parameters; the
// 1.5 s delay is the gap between calling Send and calling Reply.

module CoachChat {
  import opened Wrappers
  import opened Strings

  /** The four canned answers. */
  datatype Topic = ResumeTopic | SalaryTopic | InterviewTopic | GeneralTopic

  datatype Response = Response(content: string, actionItems: Option<seq<string>>)

  const ResumeAnswer: string :=
    "I'd be happy to help you review your resume! Here are some key areas I can assist with:\n\n• **Content optimization** - Ensuring your experience highlights achievements with quantifiable results\n• **ATS compatibility** - Making sure your resume passes through applicant tracking systems\n• **Industry-specific keywords** - Incorporating relevant terms for your target role\n• **Format and structure** - Organizing information for maximum impact\n\nTo get started, you can upload your current resume or tell me about your target role and experience level. What specific aspect would you like to focus on first?"

  const SalaryAnswer: string :=
    "Great question! Salary negotiation is a crucial skill. Here's my strategic approach:\n\n• **Research thoroughly** - Use sites like Glassdoor, PayScale, and industry reports to understand market rates\n• **Document your value** - Prepare specific examples of your contributions and achievements\n• **Time it right** - Best to negotiate after receiving an offer, not during initial interviews\n• **Consider the full package** - Benefits, PTO, flexible work, professional development\n\nThe key is to frame it as a collaborative discussion about fair compensation based on market value and your contributions. Would you like me to help you prepare for a specific negotiation scenario?"

  const InterviewAnswer: string :=
    "Interview preparation is essential for success! Let me help you get ready:\n\n• **Common questions practice** - Behavioral, technical, and situational questions\n• **STAR method** - Structure your answers with Situation, Task, Action, Result\n• **Company research** - Understanding their culture, values, and recent developments\n• **Questions to ask** - Showing genuine interest and engagement\n\nI can conduct mock interviews, help you craft compelling stories, or focus on specific interview types (phone, video, panel, technical). What type of interview are you preparing for?"

  const GeneralAnswer: string :=
    "I'm here to help with all aspects of your career development! As your AI Career Coach, I can assist with:\n\n• **Resume and LinkedIn optimization**\n• **Interview preparation and practice**\n• **Career planning and goal setting**\n• **Skill development recommendations**\n• **Job search strategies**\n• **Salary negotiation guidance**\n• **Professional networking tips**\n• **Work-life balance advice**\n\nWhat specific area would you like to explore today? I'm here to provide personalized guidance based on your unique situation and goals."

  /** The answer and its action items for each topic; only the general answer has none. */
  function ResponseFor(t: Topic): (r: Response)
    ensures r.actionItems.None? <==> t == GeneralTopic
  {
    match t
    case ResumeTopic => Response(
      ResumeAnswer,
      Some(["Upload current resume for detailed review", "Identify target job descriptions for keyword analysis", "Quantify achievements with specific metrics"]))
    case SalaryTopic => Response(
      SalaryAnswer,
      Some(["Research salary ranges for your role and location", "Prepare 3-5 specific achievement examples", "Practice negotiation conversation"]))
    case InterviewTopic => Response(
      InterviewAnswer,
      Some(["Practice 10 common behavioral questions", "Research company culture and recent news", "Prepare 5 thoughtful questions to ask interviewer"]))
    case GeneralTopic => Response(
      GeneralAnswer,
      None)
  }

  /** `getAIResponse`'s keyword test, checked in this order on the lower-cased message. */
  function Route(userMessage: string): (t: Topic)
    ensures t == ResumeTopic <==> Contains(Lower(userMessage), "resume")
    ensures t == SalaryTopic <==> (!Contains(Lower(userMessage), "resume")
      && (Contains(Lower(userMessage), "salary") || Contains(Lower(userMessage), "negotiation")))
    ensures t == InterviewTopic <==> (!Contains(Lower(userMessage), "resume") && !Contains(Lower(userMessage), "salary")
      && !Contains(Lower(userMessage), "negotiation") && Contains(Lower(userMessage), "interview"))
  {
    var m := Lower(userMessage);
    if Contains(m, "resume") then ResumeTopic
    else if Contains(m, "salary") || Contains(m, "negotiation") then SalaryTopic
    else if Contains(m, "interview") then InterviewTopic
    else GeneralTopic
  }

  /** Routing ignores case: a message and its lower-cased form get the same answer. */
  lemma RouteIgnoresCase(userMessage: string)
    ensures Route(Lower(userMessage)) == Route(userMessage)
  {
    LowerIdempotent(userMessage);
  }

  /** A keyword found at an offset of the lower-cased message decides at least that much of the routing. */
  lemma MentionRoutesAtLeast(userMessage: string, i: nat)
    ensures OccursAt(Lower(userMessage), "resume", i) ==> Route(userMessage) == ResumeTopic
    ensures OccursAt(Lower(userMessage), "salary", i) ==> Route(userMessage) in {ResumeTopic, SalaryTopic}
    ensures OccursAt(Lower(userMessage), "interview", i) ==> Route(userMessage) != GeneralTopic
  {
    var m := Lower(userMessage);
    if OccursAt(m, "resume", i) {
      OccurrenceContained(m, "resume", i);
    }
    if OccursAt(m, "salary", i) {
      OccurrenceContained(m, "salary", i);
    }
    if OccursAt(m, "interview", i) {
      OccurrenceContained(m, "interview", i);
    }
  }

  const CareerPlanningPrompt: string := "I want to discuss my career goals and create a plan for advancement."

  /**
   * `handleQuickStart`'s prompt; an unknown card type falls back to career
   * planning. The resume prompt is written in three pieces so that the
   * offset of its keyword can be read off.
   */
  function QuickStartPrompt(kind: string): (prompt: string)
    ensures kind !in ["resume-review", "interview-prep", "career-planning", "skill-assessment"] ==> prompt == CareerPlanningPrompt
  {
    match kind
    case "resume-review" => "I need help reviewing my " + "resume" + ". Can you guide me through the process?"
    case "interview-prep" => "I have an upcoming interview and need help preparing. What should I focus on?"
    case "career-planning" => CareerPlanningPrompt
    case "skill-assessment" => "Can you help me identify which skills I should develop for my career goals?"
    case _ => CareerPlanningPrompt
  }

  /** Lower-casing leaves an occurrence of a word with no capitals where it was. */
  lemma LowerKeepsOccurrence(s: string, t: string, i: nat)
    requires OccursAt(s, t, i)
    requires forall k :: 0 <= k < |t| ==> !('A' <= t[k] <= 'Z')
    ensures OccursAt(Lower(s), t, i)
  {
    var l := Lower(s);
    forall k | 0 <= k < |t|
      ensures l[i..i + |t|][k] == t[k]
    {
      assert s[i..i + |t|][k] == s[i + k] == t[k];
      assert l[i + k] == LowerChar(s[i + k]);
    }
    assert l[i..i + |t|] == t;
  }

  /** The resume-review card gets the resume answer. */
  lemma ResumeCardGetsResumeAnswer()
    ensures Route(QuickStartPrompt("resume-review")) == ResumeTopic
  {
    var p := QuickStartPrompt("resume-review");
    assert p[25..31] == "resume";
    LowerKeepsOccurrence(p, "resume", 25);
    MentionRoutesAtLeast(p, 25);
  }

  /** The eight suggestion chips: their text and icon. */
  datatype Suggestion = Suggestion(text: string, icon: string)

  const Suggestions: seq<Suggestion> := [
    Suggestion("Review my resume", "FileText"),
    Suggestion("Salary negotiation tips", "DollarSign"),
    Suggestion("Interview preparation", "MessageCircle"),
    Suggestion("Career change advice", "Compass"),
    Suggestion("Skill development plan", "TrendingUp"),
    Suggestion("LinkedIn optimization", "Users"),
    Suggestion("Job search strategy", "Search"),
    Suggestion("Work-life balance", "Scale")
  ]

  /** The resume chip gets the resume answer. */
  lemma ResumeChipTopic()
    ensures Route(Suggestions[0].text) == ResumeTopic
  {
    var s := Suggestions[0].text;
    assert s[10..16] == "resume";
    LowerKeepsOccurrence(s, "resume", 10);
    MentionRoutesAtLeast(s, 10);
  }

  /**
   * A text with no 'm', 's', 't' or 'w' in either case names none of the
   * keywords and gets the general answer ("Career change advice" is one).
   */
  lemma NoKeywordLetters(s: string)
    requires 'm' !in s && 'M' !in s && 's' !in s && 'S' !in s && 't' !in s && 'T' !in s && 'w' !in s && 'W' !in s
    ensures Route(s) == GeneralTopic
  {
    MissingLetter(s, "resume", 'm');
    MissingLetter(s, "salary", 's');
    MissingLetter(s, "negotiation", 't');
    MissingLetter(s, "interview", 'w');
  }

  datatype Status = Online | Processing

  datatype Message = Message(id: int, content: string, timestamp: int, isUser: bool, actionItems: Option<seq<string>>)

  class ChatPage {
    var messages: seq<Message>
    var isTyping: bool
    var showSuggestions: bool
    var isHistoryOpen: bool
    var aiStatus: Status
    var currentConversationId: Option<int>

    /** The status light says "processing" exactly while the typing bubble shows. */
    predicate Valid()
      reads this
    {
      isTyping <==> aiStatus == Processing
    }

    constructor ()
      ensures messages == [] && !isTyping && showSuggestions && !isHistoryOpen
      ensures aiStatus == Online && currentConversationId == None
      ensures Valid()
    {
      messages := [];
      isTyping := false;
      showSuggestions := true;
      isHistoryOpen := false;
      aiStatus := Online;
      currentConversationId := None;
    }

    /** `handleSendMessage` up to the delay: one user message is appended and the coach starts thinking. */
    method Send(text: string, id: int, now: int)
      modifies this
      ensures messages == old(messages) + [Message(id, text, now, true, None)]
      ensures !showSuggestions && isTyping && aiStatus == Processing && Valid()
      ensures isHistoryOpen == old(isHistoryOpen) && currentConversationId == old(currentConversationId)
    {
      messages := messages + [Message(id, text, now, true, None)];
      showSuggestions := false;
      isTyping := true;
      aiStatus := Processing;
    }

    /** The delayed half: the routed answer is appended and the coach is idle again. */
    method Reply(text: string, id: int, now: int)
      modifies this
      ensures messages == old(messages) + [Message(id, ResponseFor(Route(text)).content, now, false, ResponseFor(Route(text)).actionItems)]
      ensures !isTyping && aiStatus == Online && Valid()
      ensures showSuggestions == old(showSuggestions) && isHistoryOpen == old(isHistoryOpen)
      ensures currentConversationId == old(currentConversationId)
    {
      var r := ResponseFor(Route(text));
      messages := messages + [Message(id, r.content, now, false, r.actionItems)];
      isTyping := false;
      aiStatus := Online;
    }

    /** A quick-start card sends its prompt. */
    method QuickStart(kind: string, id: int, now: int)
      modifies this
      ensures messages == old(messages) + [Message(id, QuickStartPrompt(kind), now, true, None)]
      ensures !showSuggestions && isTyping && aiStatus == Processing && Valid()
      ensures isHistoryOpen == old(isHistoryOpen) && currentConversationId == old(currentConversationId)
    {
      Send(QuickStartPrompt(kind), id, now);
    }

    /** A suggestion chip sends its own text. */
    method SuggestionClick(suggestionText: string, id: int, now: int)
      modifies this
      ensures messages == old(messages) + [Message(id, suggestionText, now, true, None)]
      ensures !showSuggestions && isTyping && aiStatus == Processing && Valid()
      ensures isHistoryOpen == old(isHistoryOpen) && currentConversationId == old(currentConversationId)
    {
      Send(suggestionText, id, now);
    }

    /**
     * The reset button: no messages, suggestions back, no conversation. It
     * leaves `isTyping` alone, so a reply already on its way is still appended.
     */
    method Reset()
      modifies this
      ensures messages == [] && showSuggestions && currentConversationId == None
      ensures isTyping == old(isTyping) && aiStatus == old(aiStatus) && isHistoryOpen == old(isHistoryOpen)
    {
      messages := [];
      showSuggestions := true;
      currentConversationId := None;
    }

    method OpenHistory()
      modifies this
      ensures isHistoryOpen
      ensures messages == old(messages) && isTyping == old(isTyping) && aiStatus == old(aiStatus)
      ensures showSuggestions == old(showSuggestions) && currentConversationId == old(currentConversationId)
    {
      isHistoryOpen := true;
    }

    method CloseHistory()
      modifies this
      ensures !isHistoryOpen
      ensures messages == old(messages) && isTyping == old(isTyping) && aiStatus == old(aiStatus)
      ensures showSuggestions == old(showSuggestions) && currentConversationId == old(currentConversationId)
    {
      isHistoryOpen := false;
    }

    /** `handleResumeConversation`: remember the id and close the history panel; no messages are loaded. */
    method ResumeConversation(conversationId: int)
      modifies this
      ensures currentConversationId == Some(conversationId) && !isHistoryOpen
      ensures messages == old(messages) && isTyping == old(isTyping) && aiStatus == old(aiStatus)
      ensures showSuggestions == old(showSuggestions)
    {
      currentConversationId := Some(conversationId);
      isHistoryOpen := false;
    }

    /** The chips show only on an empty chat that has not hidden them. */
    function SuggestionsVisible(): (visible: bool)
      reads this
      ensures visible ==> messages == []
    {
      showSuggestions && |messages| == 0
    }

    /** Export needs something to export: the button is off while there are no messages. */
    function ExportDisabled(): (disabled: bool)
      reads this
      ensures disabled <==> messages == []
    {
      |messages| == 0
    }

    /** The welcome card replaces the message list while there are no messages. */
    function WelcomeShown(): (shown: bool)
      reads this
      ensures shown <==> messages == []
    {
      |messages| == 0
    }

    /** The typing bubble sits at the end of the list, so it needs a non-empty list. */
    function TypingBubbleShown(): (shown: bool)
      reads this
      ensures shown <==> isTyping && messages != []
    {
      isTyping && |messages| > 0
    }

    /** The input is disabled while the coach is thinking. */
    function InputDisabled(): (disabled: bool)
      reads this
      ensures Valid() ==> (disabled <==> aiStatus == Processing)
    {
      isTyping
    }

    function Placeholder(): (text: string)
      reads this
      ensures text == "AI is thinking..." <==> isTyping
    {
      if isTyping then "AI is thinking..." else "Ask me anything about your career..."
    }
  }

  /** One exchange from a fresh page: the question, then the answer, and the chips are gone. */
  method Exchange(text: string, id: int, now: int) returns (page: ChatPage)
    ensures fresh(page) && page.Valid()
    ensures page.messages == [Message(id, text, now, true, None),
                              Message(id + 1, ResponseFor(Route(text)).content, now, false, ResponseFor(Route(text)).actionItems)]
    ensures !page.SuggestionsVisible() && !page.isTyping
  {
    page := new ChatPage();
    page.Send(text, id, now);
    page.Reply(text, id + 1, now);
  }

  /**
   * Resetting while the coach is thinking clears the question, but the
   * pending answer still arrives and becomes the only message, under the
   * welcome card's replacement.
   */
  method ResetWhileThinking(text: string, id: int, now: int) returns (page: ChatPage)
    ensures fresh(page) && page.Valid()
    ensures page.messages == [Message(id + 1, ResponseFor(Route(text)).content, now, false, ResponseFor(Route(text)).actionItems)]
    ensures page.showSuggestions && !page.SuggestionsVisible() && !page.WelcomeShown()
  {
    page := new ChatPage();
    page.Send(text, id, now);
    page.Reset();
    page.Reply(text, id + 1, now);
  }
}
