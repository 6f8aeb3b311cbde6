/**
 * The `dptree` handler chain of src/main.rs: four branches tried in order,
 * the first that accepts an update handles it. The first branch is the
 * registration gate, keyed by `is_not_subscribed`; the second has no gate.
 */
module Routing {
  import opened Types
  import opened FeedStore
  import opened Commands

  datatype ChatKind = Private | Group | Supergroup | ChannelPost

  /**
   * An incoming message: its chat, the kind of chat, and how teloxide's
   * `filter_command` reads its text as each command enum (None when the text
   * is not such a command).
   */
  datatype Message = Message(chatId: I64, kind: ChatKind,
                             asLoggedOut: Option<LoggedOutCommand>,
                             asLoggedIn: Option<LoggedInCommand>)

  datatype Update = MessageUpdate(message: Message) | CallbackQueryUpdate | OtherUpdate

  /** Which endpoint of the chain handles an update. */
  datatype Endpoint =
    | LoggedOutEndpoint(outCmd: LoggedOutCommand)  // `process_logged_out_command`
    | LoggedInEndpoint(inCmd: LoggedInCommand)     // `process_command`
    | CallbackEndpoint                             // `handle_callback`
    | NoopEndpoint                                 // `noop`
    | DefaultEndpoint                              // the dispatcher's default handler (logs)

  /**
   * The routing decision, given whether the message's chat has no row
   * (`is_not_subscribed`).
   */
  function Route(u: Update, notSubscribed: bool): (e: Endpoint)
    ensures e.LoggedOutEndpoint? ==> notSubscribed
    ensures e.NoopEndpoint? ==> u.MessageUpdate? && u.message.kind in {Group, Supergroup}
  {
    match u
    case MessageUpdate(m) =>
      if notSubscribed && m.asLoggedOut.Some? then LoggedOutEndpoint(m.asLoggedOut.value)
      else if m.asLoggedIn.Some? then LoggedInEndpoint(m.asLoggedIn.value)
      else if m.kind == Group || m.kind == Supergroup then NoopEndpoint
      else DefaultEndpoint
    case CallbackQueryUpdate => CallbackEndpoint
    case OtherUpdate => DefaultEndpoint
  }

  /** `is_not_subscribed` for this update's chat, as the gate sees it (false for non-messages). */
  function Unregistered(t: Tables, u: Update): bool
  {
    u.MessageUpdate? && u.message.chatId !in t.chats
  }

  /** One update handled from start to end: endpoint, new tables, reply sent (if any). */
  function Step(t: Tables, u: Update, oracle: FeedOracle, now: Timestamp)
    : (res: (Endpoint, Tables, Option<Reply>))
    ensures WellFormed(t) ==> WellFormed(res.1)
  {
    var e := Route(u, Unregistered(t, u));
    match e
    case LoggedOutEndpoint(cmd) =>
      var (t', reply) := LoggedOutStep(t, u.message.chatId, cmd, now);
      (e, t', Some(reply))
    case LoggedInEndpoint(cmd) =>
      var (t', reply) := LoggedInStep(t, u.message.chatId, cmd, oracle, now);
      (e, t', Some(reply))
    case _ => (e, t, None)
  }

  /** `is_not_subscribed`: no chat row has the message's chat id. */
  method IsNotSubscribed(store: Store, chatId: I64) returns (b: bool)
    ensures b <==> chatId !in store.chats
  {
    var c := store.FindChat(chatId);
    b := c.None?;
  }

  /** The dispatcher handling one update with the handler chain. */
  method HandleUpdate(store: Store, u: Update, oracle: FeedOracle, now: Timestamp)
    returns (e: Endpoint, reply: Option<Reply>)
    requires store.Valid()
    modifies store
    ensures store.Valid()
    ensures (e, store.State(), reply) == Step(old(store.State()), u, oracle, now)
  {
    var notSubscribed := false;
    if u.MessageUpdate? {
      notSubscribed := IsNotSubscribed(store, u.message.chatId);
    }
    e := Route(u, notSubscribed);
    match e {
      case LoggedOutEndpoint(cmd) =>
        var r := ProcessLoggedOutCommand(store, u.message.chatId, cmd, now);
        reply := Some(r);
      case LoggedInEndpoint(cmd) =>
        var r := ProcessCommand(store, u.message.chatId, cmd, oracle, now);
        reply := Some(r);
      case CallbackEndpoint =>
        reply := None;
      case NoopEndpoint =>
        reply := None;
      case DefaultEndpoint =>
        reply := None;
    }
  }

  // ---------------------------------------------------------------------------
  // Properties of the gate
  // ---------------------------------------------------------------------------

  /** A logged-out command reaches its handler exactly when the chat has no row. */
  lemma LoggedOutGate(t: Tables, m: Message, oracle: FeedOracle, now: Timestamp)
    requires m.asLoggedOut.Some?
    ensures Step(t, MessageUpdate(m), oracle, now).0 == LoggedOutEndpoint(m.asLoggedOut.value)
      <==> m.chatId !in t.chats
  {
  }

  /**
   * The logged-in branch has no gate: a logged-in command reaches
   * `process_command` from a registered chat, and from an unregistered one
   * whenever its text is not also a logged-out command.
   */
  lemma LoggedInUngated(t: Tables, m: Message, oracle: FeedOracle, now: Timestamp)
    requires m.asLoggedIn.Some?
    requires m.chatId in t.chats || m.asLoggedOut.None?
    ensures Step(t, MessageUpdate(m), oracle, now).0 == LoggedInEndpoint(m.asLoggedIn.value)
  {
  }

  /** Whatever reaches neither command handler leaves the tables alone and sends nothing. */
  lemma OtherUpdatesChangeNothing(t: Tables, u: Update, oracle: FeedOracle, now: Timestamp)
    requires !Step(t, u, oracle, now).0.LoggedOutEndpoint?
    requires !Step(t, u, oracle, now).0.LoggedInEndpoint?
    ensures Step(t, u, oracle, now).1 == t
    ensures Step(t, u, oracle, now).2 == None
  {
  }

  /** Group and supergroup messages that are no command end in `noop`, with no change. */
  lemma GroupChatterIsNoop(t: Tables, m: Message, oracle: FeedOracle, now: Timestamp)
    requires m.kind == Group || m.kind == Supergroup
    requires m.asLoggedOut.None? && m.asLoggedIn.None?
    ensures Step(t, MessageUpdate(m), oracle, now) == (NoopEndpoint, t, None)
  {
  }

  /**
   * An unregistered chat sending `/subscribe url` gets past the gate into
   * `process_command`, yet no feed is stored: either the oracle rejects the
   * URL or the foreign key rejects the insert.
   */
  lemma UnregisteredSubscribeStoresNothing(t: Tables, m: Message, oracle: FeedOracle, now: Timestamp)
    requires m.chatId !in t.chats
    requires m.asLoggedOut.None? && m.asLoggedIn.Some? && m.asLoggedIn.value.Subscribe?
    ensures var (e, t', reply) := Step(t, MessageUpdate(m), oracle, now);
      && e == LoggedInEndpoint(m.asLoggedIn.value)
      && t' == t
      && reply.Some? && (reply.value.FeedRejected? || reply.value == StoreFailed(ForeignKeyViolation))
  {
    SubscribeUnregistered(t, m.chatId, m.asLoggedIn.value.link, oracle, now);
  }

  /** Only `/start` through the gate adds a chat; it adds the sender's own id and no other. */
  lemma OnlyStartAddsChats(t: Tables, u: Update, oracle: FeedOracle, now: Timestamp)
    ensures var (e, t', _) := Step(t, u, oracle, now);
      t'.chats.Keys == t.chats.Keys ||
      (e == LoggedOutEndpoint(LoggedOutCommand.Start) && u.message.chatId !in t.chats &&
       t'.chats.Keys == t.chats.Keys + {u.message.chatId})
  {
  }

  /**
   * A registered chat's `/start` never reaches `process_logged_out_command`:
   * the gate turns it away, and since it is no logged-in command it ends in
   * `noop` (group chats) or the default handler, with no change and no reply.
   */
  lemma RegisteredStartTurnedAway(t: Tables, m: Message, oracle: FeedOracle, now: Timestamp)
    requires m.chatId in t.chats
    requires m.asLoggedOut == Some(LoggedOutCommand.Start) && m.asLoggedIn.None?
    ensures var (e, t', reply) := Step(t, MessageUpdate(m), oracle, now);
      && (e == NoopEndpoint || e == DefaultEndpoint)
      && t' == t && reply == None
  {
    LoggedOutGate(t, m, oracle, now);
    OtherUpdatesChangeNothing(t, MessageUpdate(m), oracle, now);
  }
}
