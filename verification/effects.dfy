/**
  The outside world the agent's tools talk to: BambooHR over HTTP, the Gmail and Google Calendar
  APIs, the policy question-answering chain and the tool callbacks of the chat session. Every call
  appends one effect to a trace; what comes back is decided by oracles that may look at the
  position of the call in the trace, so a reply may differ from one call to the next.
*/
module Effects {
  import opened Wrappers
  import opened Json
  import opened BambooHttp
  import Gmail

  /** The twelve tools of the agent. */
  datatype ToolKind =
    | Respond
    | WelcomeEmail
    | PolicyEmail
    | SlackInvite
    | CalendarEvent
    | AddEmployee
    | PolicyQuestion
    | ModifyEmployee
    | ViewTimeOff
    | MakeTimeOff
    | CancelTimeOff
    | EstimateTimeOff

  datatype Effect =
    | HttpSent(request: Request)
    | MailSent(message: Gmail.Message)
    | EventInserted(event: map<string, Json>)
    | PolicyAsked(searchQuery: string, question: string)
    | CallbackFired(tool: ToolKind)

  /** No tool callback in `trace` from position `start` on. */
  predicate NoCallbackFrom(trace: seq<Effect>, start: nat)
  {
    forall i :: start <= i < |trace| ==> !trace[i].CallbackFired?
  }

  /** A request sent just before a stretch without callbacks extends that stretch. */
  lemma NoCallbackBefore(trace: seq<Effect>, start: nat)
    requires start < |trace| && trace[start].HttpSent? && NoCallbackFrom(trace, start + 1)
    ensures NoCallbackFrom(trace, start)
  {
  }

  class World {
    /** Everything sent out so far, oldest first. */
    var trace: seq<Effect>
    /** BambooHR's reply to the request made at a trace position. */
    const httpReply: (nat, Request) -> Response
    /** Whether Gmail accepts the message sent at a trace position (otherwise the client raises). */
    const mailDelivered: nat -> bool
    /** The event Calendar returns for an insertion at a trace position, or the error it raises. */
    const calendarReply: nat -> Result<Json>
    /** The language model's answer to a policy question asked at a trace position. */
    const policyAnswer: (nat, string, string) -> string

    constructor (httpReply: (nat, Request) -> Response, mailDelivered: nat -> bool,
                 calendarReply: nat -> Result<Json>, policyAnswer: (nat, string, string) -> string)
      ensures trace == []
      ensures this.httpReply == httpReply && this.mailDelivered == mailDelivered
      ensures this.calendarReply == calendarReply && this.policyAnswer == policyAnswer
    {
      trace := [];
      this.httpReply := httpReply;
      this.mailDelivered := mailDelivered;
      this.calendarReply := calendarReply;
      this.policyAnswer := policyAnswer;
    }

    /** `requests.request(...)` against BambooHR. */
    method Http(request: Request) returns (res: Response)
      modifies this
      ensures trace == old(trace) + [HttpSent(request)]
      ensures res == httpReply(|old(trace)|, request)
    {
      res := httpReply(|trace|, request);
      trace := trace + [HttpSent(request)];
    }

    /** `users().messages().send(...).execute()`; `false` when the client raises. */
    method Mail(message: Gmail.Message) returns (delivered: bool)
      modifies this
      ensures trace == old(trace) + [MailSent(message)]
      ensures delivered == mailDelivered(|old(trace)|)
    {
      delivered := mailDelivered(|trace|);
      trace := trace + [MailSent(message)];
    }

    /** `events().insert(...).execute()`. */
    method InsertEvent(event: map<string, Json>) returns (inserted: Result<Json>)
      modifies this
      ensures trace == old(trace) + [EventInserted(event)]
      ensures inserted == calendarReply(|old(trace)|)
    {
      inserted := calendarReply(|trace|);
      trace := trace + [EventInserted(event)];
    }

    /** Document search with `searchQuery` followed by the language model's answer to `question`. */
    method AskPolicy(searchQuery: string, question: string) returns (answer: string)
      modifies this
      ensures trace == old(trace) + [PolicyAsked(searchQuery, question)]
      ensures answer == policyAnswer(|old(trace)|, searchQuery, question)
    {
      answer := policyAnswer(|trace|, searchQuery, question);
      trace := trace + [PolicyAsked(searchQuery, question)];
    }

    /** A tool's `callback()`. */
    method Callback(tool: ToolKind)
      modifies this
      ensures trace == old(trace) + [CallbackFired(tool)]
    {
      trace := trace + [CallbackFired(tool)];
    }
  }
}
