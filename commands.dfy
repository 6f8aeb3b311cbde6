/**
 * The two command handlers of src/main.rs, `process_logged_out_command` and
 * `process_command`, and `validate_feed`. Commands arrive already parsed by
 * teloxide; the handlers' effect on the database is given by `LoggedOutStep`
 * and `LoggedInStep`, which the methods are proved to follow.
 */
module Commands {
  import opened Types
  import opened FeedStore

  /** The commands an unregistered ("logged out") chat may send. */
  datatype LoggedOutCommand = Help | Start

  /** The commands of the second handler branch. */
  datatype LoggedInCommand = Help | Subscribe(link: string) | Unsubscribe | Delete

  /** The one message each handler sends back to the chat. */
  datatype Reply =
    | LoggedOutHelpText                      // the logged-out command list
    | Registered(createdAt: Timestamp)       // registration done, with the row's `created_at`
    | RegistrationFailed(error: StoreError)  // registration error, with the database error
    | LoggedInHelpText                       // the logged-in command list
    | FeedIsValid(title: string, link: string)  // the stored channel's title and link
    | FeedRejected(reason: FeedError)        // why `validate_feed` failed
    | StoreFailed(error: StoreError)         // why `create_feed` failed
    | FeedMenu(feeds: seq<Feed>)             // the menu of the chat's feeds, one button each
    | AccountDeleted                         // the account-deletion notice

  /**
   * What the network and the `rss` crate do for one URL: `fetched` is the
   * outcome of the HTTP GET plus `Channel::read_from`, `verdict` that of
   * `channel.validate()` (None when the channel is valid).
   */
  datatype FeedOracle = FeedOracle(fetched: Result<Channel, FeedError>, verdict: Channel -> Option<FeedError>)

  /** `validate_feed`: fetch and decode, overwrite the channel's link with the URL, validate. */
  function ValidateFeed(link: string, oracle: FeedOracle): (r: Result<Channel, FeedError>)
    ensures oracle.fetched.Err? ==> r == Err(oracle.fetched.error)
    ensures r.Ok? <==> oracle.fetched.Ok? && oracle.verdict(oracle.fetched.value.(link := link)).None?
    ensures r.Ok? ==> r.value.link == link && r.value.title == oracle.fetched.value.title
    ensures oracle.fetched.Ok? && oracle.verdict(oracle.fetched.value.(link := link)).Some? ==>
      r == Err(oracle.verdict(oracle.fetched.value.(link := link)).value)
  {
    match oracle.fetched
    case Err(e) => Err(e)
    case Ok(channel) =>
      var linked := channel.(link := link);
      match oracle.verdict(linked)
      case Some(e) => Err(e)
      case None => Ok(linked)
  }

  /** Effect and reply of `process_logged_out_command`. */
  function LoggedOutStep(t: Tables, chatId: I64, cmd: LoggedOutCommand, now: Timestamp)
    : (res: (Tables, Reply))
    ensures WellFormed(t) ==> WellFormed(res.0)
  {
    match cmd
    case Help => (t, LoggedOutHelpText)
    case Start =>
      var (r, t') := InsertChat(t, chatId, now);
      match r
      case Ok(chat) => (t', Registered(chat.createdAt))
      case Err(e) => (t', RegistrationFailed(e))
  }

  /** Effect and reply of `process_command`. */
  function LoggedInStep(t: Tables, chatId: I64, cmd: LoggedInCommand, oracle: FeedOracle, now: Timestamp)
    : (res: (Tables, Reply))
    ensures WellFormed(t) ==> WellFormed(res.0)
  {
    match cmd
    case Help => (t, LoggedInHelpText)
    case Subscribe(link) =>
      (match ValidateFeed(link, oracle)
       case Err(e) => (t, FeedRejected(e))
       case Ok(channel) =>
         var (r, t') := InsertFeed(t, channel, chatId, now);
         if r.Ok? then (t', FeedIsValid(channel.title, channel.link))
         else (t', StoreFailed(r.error)))
    case Unsubscribe => (t, FeedMenu(FeedsOf(t.feeds, chatId)))
    case Delete => (t, AccountDeleted)
  }

  /** `process_logged_out_command`. */
  method ProcessLoggedOutCommand(store: Store, chatId: I64, cmd: LoggedOutCommand, now: Timestamp)
    returns (reply: Reply)
    requires store.Valid()
    modifies store
    ensures store.Valid()
    ensures (store.State(), reply) == LoggedOutStep(old(store.State()), chatId, cmd, now)
  {
    match cmd {
      case Help =>
        reply := LoggedOutHelpText;
      case Start =>
        var r := store.CreateChat(chatId, now);
        match r {
          case Ok(chat) => reply := Registered(chat.createdAt);
          case Err(e) => reply := RegistrationFailed(e);
        }
    }
  }

  /** `process_command`. */
  method ProcessCommand(store: Store, chatId: I64, cmd: LoggedInCommand, oracle: FeedOracle, now: Timestamp)
    returns (reply: Reply)
    requires store.Valid()
    modifies store
    ensures store.Valid()
    ensures (store.State(), reply) == LoggedInStep(old(store.State()), chatId, cmd, oracle, now)
  {
    match cmd {
      case Help =>
        reply := LoggedInHelpText;
      case Subscribe(link) =>
        var valid := ValidateFeed(link, oracle);
        match valid {
          case Ok(channel) =>
            var newFeed := store.CreateFeed(channel, chatId, now);
            match newFeed {
              case Ok(_) => reply := FeedIsValid(channel.title, channel.link);
              case Err(e) => reply := StoreFailed(e);
            }
          case Err(e) =>
            reply := FeedRejected(e);
        }
      case Unsubscribe =>
        var feeds := store.ReadFeed(chatId);
        reply := FeedMenu(feeds);
      case Delete =>
        reply := AccountDeleted;
    }
  }

  // ---------------------------------------------------------------------------
  // Properties of the handlers
  // ---------------------------------------------------------------------------

  /** `/start` from a new chat adds exactly that chat, with `now` as `created_at`, and nothing else. */
  lemma StartRegisters(t: Tables, chatId: I64, now: Timestamp)
    requires chatId !in t.chats
    ensures var (t', reply) := LoggedOutStep(t, chatId, LoggedOutCommand.Start, now);
      && reply == Registered(now)
      && t'.chats.Keys == t.chats.Keys + {chatId}
      && |t'.chats| == |t.chats| + 1
      && t'.chats[chatId] == now
      && (forall c :: c in t.chats ==> t'.chats[c] == t.chats[c])
      && t'.feeds == t.feeds && t'.nextFeedId == t.nextFeedId
  {
  }

  /** `/start` from a stored chat fails on the primary key and changes nothing. */
  lemma StartDuplicate(t: Tables, chatId: I64, now: Timestamp)
    requires chatId in t.chats
    ensures LoggedOutStep(t, chatId, LoggedOutCommand.Start, now) == (t, RegistrationFailed(DuplicateKey))
  {
  }

  /** Registering twice: the second attempt fails and the first `created_at` stays. */
  lemma StartTwice(t: Tables, chatId: I64, first: Timestamp, second: Timestamp)
    requires chatId !in t.chats
    ensures var (t1, r1) := LoggedOutStep(t, chatId, LoggedOutCommand.Start, first);
      var (t2, r2) := LoggedOutStep(t1, chatId, LoggedOutCommand.Start, second);
      && r1 == Registered(first)
      && r2 == RegistrationFailed(DuplicateKey)
      && t2 == t1 && t2.chats[chatId] == first
  {
    StartRegisters(t, chatId, first);
    var (t1, _) := LoggedOutStep(t, chatId, LoggedOutCommand.Start, first);
    StartDuplicate(t1, chatId, second);
  }

  /** A feed the oracle rejects leaves the database as it was. */
  lemma SubscribeRejected(t: Tables, chatId: I64, link: string, oracle: FeedOracle, now: Timestamp)
    requires ValidateFeed(link, oracle).Err?
    ensures LoggedInStep(t, chatId, Subscribe(link), oracle, now)
      == (t, FeedRejected(ValidateFeed(link, oracle).error))
  {
  }

  /**
   * A valid feed for a stored chat adds exactly one row: the next id, owned by
   * the requesting chat, with the channel's title and the URL the user gave as
   * link; it is the last entry of that chat's listing and of no other's.
   */
  lemma SubscribeAdds(t: Tables, chatId: I64, link: string, oracle: FeedOracle, now: Timestamp)
    requires chatId in t.chats
    requires ValidateFeed(link, oracle).Ok?
    ensures var (t', reply) := LoggedInStep(t, chatId, Subscribe(link), oracle, now);
      var f := Feed(t.nextFeedId, chatId, oracle.fetched.value.title, link, now, now);
      && t'.feeds == t.feeds + [f]
      && t'.chats == t.chats
      && reply == FeedIsValid(f.title, link)
      && FeedsOf(t'.feeds, chatId) == FeedsOf(t.feeds, chatId) + [f]
      && (forall other :: other != chatId ==> FeedsOf(t'.feeds, other) == FeedsOf(t.feeds, other))
  {
    var f := Feed(t.nextFeedId, chatId, oracle.fetched.value.title, link, now, now);
    FeedsOfAppend(t.feeds, f, chatId);
    forall other | other != chatId
      ensures FeedsOf(t.feeds + [f], other) == FeedsOf(t.feeds, other)
    {
      FeedsOfAppend(t.feeds, f, other);
    }
  }

  /**
   * `/subscribe` from a chat with no row is refused by the database's foreign
   * key (or earlier by the oracle): no feed is added.
   */
  lemma SubscribeUnregistered(t: Tables, chatId: I64, link: string, oracle: FeedOracle, now: Timestamp)
    requires chatId !in t.chats
    ensures var (t', reply) := LoggedInStep(t, chatId, Subscribe(link), oracle, now);
      && t' == t
      && (reply.FeedRejected? || reply == StoreFailed(ForeignKeyViolation))
  {
  }

  /**
   * `/help`, `/unsubscribe` and `/delete` change no stored state; `/unsubscribe`
   * replies with exactly the chat's own feeds, and `/delete` keeps the chat and
   * its feeds although it reports the account deleted.
   */
  lemma ReadOnlyCommands(t: Tables, chatId: I64, oracle: FeedOracle, now: Timestamp)
    ensures LoggedInStep(t, chatId, LoggedInCommand.Help, oracle, now) == (t, LoggedInHelpText)
    ensures var (t', reply) := LoggedInStep(t, chatId, Unsubscribe, oracle, now);
      t' == t && reply.FeedMenu? &&
      forall f :: f in reply.feeds <==> f in t.feeds && f.chatId == chatId
    ensures LoggedInStep(t, chatId, Delete, oracle, now) == (t, AccountDeleted)
    ensures LoggedOutStep(t, chatId, LoggedOutCommand.Help, now) == (t, LoggedOutHelpText)
  {
  }

  /** No handler removes anything: rows only ever get added. */
  lemma HandlersOnlyAdd(t: Tables, chatId: I64, outCmd: LoggedOutCommand, inCmd: LoggedInCommand,
                        oracle: FeedOracle, now: Timestamp)
    ensures var (t', _) := LoggedOutStep(t, chatId, outCmd, now);
      t.chats.Keys <= t'.chats.Keys && t.feeds <= t'.feeds
    ensures var (t', _) := LoggedInStep(t, chatId, inCmd, oracle, now);
      t.chats == t'.chats && t.feeds <= t'.feeds
  {
  }
}
