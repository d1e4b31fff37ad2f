/**
 * The session registry and the two routes that use it (`init_session` and
 * `query` in app.py). The registry maps a session id to the handle of a chat
 * with the remote generative-AI service; the service itself is an oracle.
 */
module Sessions {
  import opened Wrappers
  import opened Reassembly
  import opened DataSummary

  /** The session id used when a request names none. */
  const DefaultSessionId := "default"

  /** The two client errors of the query route (HTTP 400). */
  const NoQueryMessage := "No query provided"
  const NotInitializedMessage := "Session not initialized"

  /** An opaque chat handle; handles are numbered in the order the service starts them. */
  datatype Handle = Handle(id: nat)

  /** What is sent to a chat: the system context built from the data summary, or a user question. */
  datatype Message = SystemContext(summary: Summary) | UserQuery(text: string)

  /** One message sent, and the chat it was sent to. */
  datatype Sent = Sent(chat: Handle, message: Message)

  /** The service's answer to a message: an ordered sequence of parts, or the text of the exception raised. */
  datatype Reply = Replied(parts: seq<Part>) | Failed(error: string)

  /**
   * The remote chat service. Which reply a message gets is decided by the
   * oracle `respond`, from everything sent before it and the message itself;
   * `sent` records every message in order, so "no remote call" means `sent`
   * did not grow.
   */
  class ChatService {
    const respond: (seq<Sent>, Sent) -> Reply
    var started: nat
    var sent: seq<Sent>

    constructor (respond: (seq<Sent>, Sent) -> Reply)
      ensures this.respond == respond
      ensures started == 0 && sent == []
    {
      this.respond := respond;
      started := 0;
      sent := [];
    }

    /** `model.start_chat()`: a new chat, distinct from every chat started before. */
    method StartChat() returns (chat: Handle)
      modifies this
      ensures chat == Handle(old(started))
      ensures started == old(started) + 1 && sent == old(sent)
    {
      chat := Handle(started);
      started := started + 1;
    }

    /** `chat.send_message(message)`. */
    method SendMessage(chat: Handle, message: Message) returns (reply: Reply)
      modifies this
      ensures reply == respond(old(sent), Sent(chat, message))
      ensures sent == old(sent) + [Sent(chat, message)] && started == old(started)
    {
      reply := respond(sent, Sent(chat, message));
      sent := sent + [Sent(chat, message)];
    }
  }

  /** The success payload of the init route. */
  datatype InitInfo = InitInfo(rows: nat, columns: nat, columnNames: seq<string>)

  /**
   * The init route's result: the payload, or the exception `send_message` raised,
   * which the route does not catch (the web framework answers HTTP 500).
   */
  datatype InitOutcome = Initialized(info: InitInfo) | InitFailed(error: string)

  /** The query route's result: HTTP 200 with the record, 400 or 500 with an error text. */
  datatype QueryOutcome = Answered(result: QueryResult) | ClientError(error: string) | ServerError(error: string)

  /** `request.json.get('session_id', 'default')`. */
  function SessionKey(sessionId: Option<string>): string {
    sessionId.GetOr(DefaultSessionId)
  }

  /** `not request.json.get('query', '')`. */
  predicate IsEmptyQuery(query: Option<string>) {
    query.None? || query.value == ""
  }

  /** The process: its table (loaded once, never changed), the chat service and the `chat_sessions` registry. */
  class App {
    const table: Table
    const service: ChatService
    var sessions: map<string, Handle>

    /** Every registered handle is one the service has started. */
    ghost predicate Valid()
      reads this, service
    {
      forall s :: s in sessions ==> sessions[s].id < service.started
    }

    constructor (table: Table, service: ChatService)
      ensures this.table == table && this.service == service
      ensures sessions == map[]
      ensures Valid()
    {
      this.table := table;
      this.service := service;
      sessions := map[];
    }

    /**
     * `init_session`: start a chat, send it the system context built from the
     * current data summary, and only then store it under the session id,
     * replacing any earlier handle. When the send fails the registry is unchanged.
     */
    method InitSession(sessionId: Option<string>) returns (outcome: InitOutcome)
      requires Valid()
      modifies this, service
      ensures Valid()
      ensures service.started == old(service.started) + 1
      ensures service.sent == old(service.sent) + [Sent(Handle(old(service.started)), SystemContext(Summarize(table)))]
      ensures match service.respond(old(service.sent), Sent(Handle(old(service.started)), SystemContext(Summarize(table))))
        case Failed(e) =>
          outcome == InitFailed(e) && sessions == old(sessions)
        case Replied(_) =>
          && outcome == Initialized(InitInfo(|table.rows|, |table.columns|, ColumnNames(table.columns)))
          && sessions == old(sessions)[SessionKey(sessionId) := Handle(old(service.started))]
      ensures forall s :: s in old(sessions) ==> old(sessions)[s] != Handle(old(service.started))
    {
      var chat := service.StartChat();
      var reply := service.SendMessage(chat, SystemContext(Summarize(table)));
      match reply
      case Failed(e) =>
        outcome := InitFailed(e);
      case Replied(_) =>
        sessions := sessions[SessionKey(sessionId) := chat];
        outcome := Initialized(InitInfo(|table.rows|, |table.columns|, ColumnNames(table.columns)));
    }

    /**
     * `query`: reject an empty query, then an unknown session, and only then
     * forward the question to the session's chat and reassemble the reply; a
     * failed call becomes a server error carrying the exception text. The
     * registry is never changed.
     */
    method Query(sessionId: Option<string>, query: Option<string>) returns (outcome: QueryOutcome)
      requires Valid()
      modifies service
      ensures Valid()
      ensures sessions == old(sessions) && service.started == old(service.started)
      ensures IsEmptyQuery(query) ==>
        outcome == ClientError(NoQueryMessage) && service.sent == old(service.sent)
      ensures !IsEmptyQuery(query) && SessionKey(sessionId) !in sessions ==>
        outcome == ClientError(NotInitializedMessage) && service.sent == old(service.sent)
      ensures !IsEmptyQuery(query) && SessionKey(sessionId) in sessions ==>
        var question := Sent(sessions[SessionKey(sessionId)], UserQuery(query.value));
        && service.sent == old(service.sent) + [question]
        && match service.respond(old(service.sent), question)
           case Replied(parts) => outcome == Answered(Reassemble(parts))
           case Failed(e) => outcome == ServerError(e)
    {
      if IsEmptyQuery(query) {
        return ClientError(NoQueryMessage);
      }
      var key := SessionKey(sessionId);
      if key !in sessions {
        return ClientError(NotInitializedMessage);
      }
      var chat := sessions[key];
      var reply := service.SendMessage(chat, UserQuery(query.value));
      match reply
      case Failed(e) =>
        outcome := ServerError(e);
      case Replied(parts) =>
        var result := ReassembleParts(parts);
        outcome := Answered(result);
    }
  }
}
