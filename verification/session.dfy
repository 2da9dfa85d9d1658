/**
  The chat application's session state: the conversation shown to the user, the five onboarding
  flags the tools' callbacks raise, and the handling of one chat input, which stores the user's
  message, runs the agent on the earlier history and stores the agent's answer with its log.
*/
module Session {
  import opened Wrappers
  import opened Text
  import opened Ansi
  import opened Effects
  import opened Tools
  import opened Executor

  /** The assistant's first message of every conversation. */
  const Greeting: string :=
    "\n                Hi, I am Maria, your personal HR assistant. To get started, can you please provide the following information:\n\n"
    + "                    - First Name\n"
    + "                    - Last Name\n"
    + "                    - Email Address\n"
    + "                I will then:\n\n"
    + "                    1. Send you a welcome email, the HR policies and a Slack invite.\n"
    + "                    2. Schedule a calendar event for your onboarding.\n"
    + "                    3. Enroll you in the HR system.\n"
    + "                Thanks!\n"
    + "                "

  /** Inputs with more words than this are refused. */
  const WordLimit: nat := 500

  const TooLongNotice: string := "Please keep your message under 500 words."

  /** The onboarding status: welcome email, policies email, Slack invite, calendar event, HR enrolment. */
  datatype Flags = Flags(welcome: bool, policies: bool, slack: bool, calendar: bool, enrolled: bool)

  const NoFlags: Flags := Flags(false, false, false, false, false)

  /** Every flag raised in `f` is raised in `g`. */
  predicate Below(f: Flags, g: Flags)
  {
    (f.welcome ==> g.welcome) && (f.policies ==> g.policies) && (f.slack ==> g.slack)
    && (f.calendar ==> g.calendar) && (f.enrolled ==> g.enrolled)
  }

  /** The five status callbacks of `init_agent`: each raises the flag of its tool; other tools have none. */
  function Raise(f: Flags, k: ToolKind): Flags
  {
    match k
    case WelcomeEmail => f.(welcome := true)
    case PolicyEmail => f.(policies := true)
    case SlackInvite => f.(slack := true)
    case CalendarEvent => f.(calendar := true)
    case AddEmployee => f.(enrolled := true)
    case _ => f
  }

  /**
    The flags after the callbacks `fired`: a flag is up if it was, or if its tool's callback ran.
    Callbacks never lower a flag.
  */
  function RaiseAll(f: Flags, fired: seq<ToolKind>): (g: Flags)
    ensures Below(f, g)
    ensures fired == [] ==> g == f
    ensures g.enrolled <==> f.enrolled || AddEmployee in fired
  {
    Flags(f.welcome || WelcomeEmail in fired, f.policies || PolicyEmail in fired, f.slack || SlackInvite in fired,
          f.calendar || CalendarEvent in fired, f.enrolled || AddEmployee in fired)
  }

  /** Running one more callback is raising its flag in the flags so far. */
  lemma RaiseAllSnoc(f: Flags, fired: seq<ToolKind>, k: ToolKind)
    ensures RaiseAll(f, fired + [k]) == Raise(RaiseAll(f, fired), k)
  {
    forall t: ToolKind
      ensures t in fired + [k] <==> t in fired || t == k
    {
      if t in fired + [k] && t != k {
        var i :| 0 <= i < |fired + [k]| && (fired + [k])[i] == t;
        assert i < |fired| && fired[i] == t;
      }
    }
  }

  /** The tools of one agent, as `init_agent` builds them: the five onboarding tools carry a callback. */
  function MainTools(): (r: seq<Tool>)
  {
    [Tool(Respond, false), Tool(WelcomeEmail, true), Tool(PolicyEmail, true), Tool(SlackInvite, true),
     Tool(CalendarEvent, true), Tool(AddEmployee, true), Tool(PolicyQuestion, false),
     Tool(ModifyEmployee, false), Tool(ViewTimeOff, false), Tool(MakeTimeOff, false),
     Tool(CancelTimeOff, false), Tool(EstimateTimeOff, false)]
  }

  /** The position in `get_all_tools()` of the tool at position `i` of `init_agent`'s list. */
  function RegistryIndex(i: int): int
  {
    if i == 5 then 6 else if i == 6 then 5 else i
  }

  /**
    The agent's tools are the registry's twelve tools in another order (the policy questions and
    the HR enrolment tools trade places); a tool has a callback exactly when it has an onboarding
    flag to raise.
  */
  lemma MainToolsAreRegistry()
    ensures |MainTools()| == |AllTools()|
    ensures forall i :: 0 <= i < |MainTools()| ==>
      0 <= RegistryIndex(i) < |AllTools()| && MainTools()[i].kind == AllTools()[RegistryIndex(i)].kind
    ensures forall i :: 0 <= i < |MainTools()| ==>
      (MainTools()[i].hasCallback <==> Raise(NoFlags, MainTools()[i].kind) != NoFlags)
  {
    var m, a := MainTools(), AllTools();
    forall i | 0 <= i < |m|
      ensures 0 <= RegistryIndex(i) < |a| && m[i].kind == a[RegistryIndex(i)].kind
      ensures m[i].hasCallback <==> Raise(NoFlags, m[i].kind) != NoFlags
    {
    }
  }

  /** Positions in the agent's list name different positions in the registry, so no tool comes twice. */
  lemma MainToolsDistinct()
    ensures forall i, j :: 0 <= i < j < |MainTools()| ==> MainTools()[i].kind != MainTools()[j].kind
  {
    MainToolsAreRegistry();
    var m, a := MainTools(), AllTools();
    forall i, j | 0 <= i < j < |m|
      ensures m[i].kind != m[j].kind
    {
      var p, q := RegistryIndex(i), RegistryIndex(j);
      if p < q {
        assert a[p].kind != a[q].kind;
      } else {
        assert a[q].kind != a[p].kind;
      }
    }
  }

  /** What the agent executor does with one input: the callbacks it ran, what it printed, its answer or exception. */
  datatype AgentRun = AgentRun(callbacks: seq<ToolKind>, stdout: string, output: Result<string>)

  /** The result of one chat input. */
  datatype TurnOutcome = Ignored | Rejected(notice: string) | Answered | Raised(error: string)

  /**
    The debug log of a turn: the captured output, stripped of surrounding whitespace and of ANSI
    codes, split into lines, blank lines dropped.
  */
  function TurnLogs(stdout: string): (logs: seq<string>)
    ensures forall i :: 0 <= i < |logs| ==> logs[i] != "" && '\n' !in logs[i]
    ensures var lines := SplitOn(NoAnsi(Strip(stdout)), '\n');
      IsSubsequence(logs, lines) && multiset(logs) == multiset(lines)["" := 0]
  {
    var lines := SplitOn(NoAnsi(Strip(stdout)), '\n');
    var logs := FilterNonEmpty(lines);
    SubsequenceElements(logs, lines);
    logs
  }

  /** `st.session_state`, as far as the application uses it. */
  class State {
    var messages: seq<ChatMessage>
    var debugLogs: seq<string>
    var thinking: bool
    var welcomeEmailSent: bool
    var policiesEmailSent: bool
    var slackInviteSent: bool
    var calendarEventCreated: bool
    var enrolledInHRSystem: bool

    function Status(): Flags
      reads this
    {
      Flags(welcomeEmailSent, policiesEmailSent, slackInviteSent, calendarEventCreated, enrolledInHRSystem)
    }

    /** A fresh conversation: the greeting alone, no logs, nothing in progress, no onboarding step done. */
    predicate Initial()
      reads this
    {
      messages == [ChatMessage(Assistant, Greeting, [])] && debugLogs == [] && !thinking && Status() == NoFlags
    }

    constructor ()
      ensures Initial()
    {
      messages := [ChatMessage(Assistant, Greeting, [])];
      debugLogs := [];
      thinking := false;
      welcomeEmailSent, policiesEmailSent, slackInviteSent := false, false, false;
      calendarEventCreated, enrolledInHRSystem := false, false;
    }

    /** `init_session_state`, also the Reset button: whatever happened before is forgotten. */
    method InitSessionState()
      modifies this
      ensures Initial()
    {
      messages := [ChatMessage(Assistant, Greeting, [])];
      debugLogs := [];
      thinking := false;
      welcomeEmailSent, policiesEmailSent, slackInviteSent := false, false, false;
      calendarEventCreated, enrolledInHRSystem := false, false;
    }

    /** `store_message`: one message appended, nothing else touched. */
    method StoreMessage(role: Role, content: string, log: seq<string>)
      modifies this
      ensures messages == old(messages) + [ChatMessage(role, content, log)]
      ensures Status() == old(Status()) && debugLogs == old(debugLogs) && thinking == old(thinking)
    {
      messages := messages + [ChatMessage(role, content, log)];
    }

    /** One status callback of `init_agent`. */
    method Callback(k: ToolKind)
      modifies this
      ensures Status() == Raise(old(Status()), k)
      ensures messages == old(messages) && debugLogs == old(debugLogs) && thinking == old(thinking)
    {
      match k
      case WelcomeEmail => welcomeEmailSent := true;
      case PolicyEmail => policiesEmailSent := true;
      case SlackInvite => slackInviteSent := true;
      case CalendarEvent => calendarEventCreated := true;
      case AddEmployee => enrolledInHRSystem := true;
      case _ =>
    }

    /** The callbacks of an agent run, in the order the tools called them. */
    method RunCallbacks(fired: seq<ToolKind>)
      modifies this
      ensures Status() == RaiseAll(old(Status()), fired)
      ensures messages == old(messages) && debugLogs == old(debugLogs) && thinking == old(thinking)
    {
      var i := 0;
      while i < |fired|
        invariant 0 <= i <= |fired|
        invariant Status() == RaiseAll(old(Status()), fired[..i])
        invariant messages == old(messages) && debugLogs == old(debugLogs) && thinking == old(thinking)
      {
        RaiseAllSnoc(old(Status()), fired[..i], fired[i]);
        assert fired[..i + 1] == fired[..i] + [fired[i]];
        Callback(fired[i]);
        i := i + 1;
      }
      assert fired[..i] == fired;
    }

    /**
      `handle_chat_input`: an empty input does nothing; an input of more than 500 words is refused
      and changes nothing. Otherwise the user's message is stored, the agent runs on the input and on
      the history before that message, its callbacks raise their flags, and its answer is stored
      with the turn's log. If the agent raises, only the user's message has been stored.
    */
    method HandleChatInput(userInput: string, agent: (string, seq<ChatMessage>) -> AgentRun) returns (outcome: TurnOutcome)
      modifies this
      ensures userInput == "" ==>
        outcome == Ignored && messages == old(messages) && Status() == old(Status())
      ensures userInput != "" && |Words(userInput)| > WordLimit ==>
        outcome == Rejected(TooLongNotice) && messages == old(messages) && Status() == old(Status())
      ensures userInput != "" && |Words(userInput)| <= WordLimit ==>
        var run := agent(userInput, old(messages));
        var asked := old(messages) + [ChatMessage(User, userInput, [])];
        && Status() == RaiseAll(old(Status()), run.callbacks)
        && (run.output.Ok? ==>
              outcome == Answered
              && messages == asked + [ChatMessage(Assistant, run.output.value, TurnLogs(run.stdout))])
        && (run.output.Err? ==> outcome == Raised(run.output.error) && messages == asked)
      ensures debugLogs == old(debugLogs) && thinking == old(thinking)
    {
      if userInput == "" {
        return Ignored;
      }
      if |Words(userInput)| > WordLimit {
        return Rejected(TooLongNotice);
      }
      StoreMessage(User, userInput, []);
      var history := messages[..|messages| - 1];
      assert history == old(messages);
      var run := agent(userInput, history);
      RunCallbacks(run.callbacks);
      if run.output.Err? {
        return Raised(run.output.error);
      }
      var fullResponse := Accumulate(run.output.value);
      var logs := TurnLogs(run.stdout);
      StoreMessage(Assistant, fullResponse, logs);
      outcome := Answered;
    }
  }

  /** The streaming loop: the answer rebuilt piece by piece is the agent's answer. */
  method Accumulate(output: string) returns (full: string)
    ensures full == output
  {
    full := "";
    var i := 0;
    while i < |output|
      invariant 0 <= i <= |output|
      invariant full == output[..i]
    {
      full := full + [output[i]];
      i := i + 1;
    }
    assert output[..i] == output;
  }

  /** A text of `n` words separated by single spaces is refused exactly when `n` is over the limit. */
  lemma WordLimitBoundary(ws: seq<string>)
    requires forall i :: 0 <= i < |ws| ==> IsWord(ws[i])
    ensures |Words(Join(" ", ws))| > WordLimit <==> |ws| > WordLimit
  {
    WordsJoin(ws);
  }
}
