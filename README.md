# multitude_bot — a verified model of its command core

multitude_bot is a Telegram bot: a chat registers itself with `/start`, then
subscribes to RSS feeds with `/subscribe <url>`. Chats and feeds live in two
database tables, `chat` and `feed`. This project models the logic in
`src/main.rs` that is more than I/O:

- **`parse_callback_data`**: the callback-data parser. It splits the text on
  `:`, demands exactly two pieces and reads the second as an `i64` feed id.
  Rust's `str::split` and `i64::from_str` are modelled too: `Split`, and
  `ParseI64` with its left-to-right digit loop. Each has a reference definition
  (`Join`; `WellFormedI64`/`SignedValue`) and lemmas that tie the two together.
- **The handler chain**: four `dptree` branches tried in order. The first
  branch is the registration gate (`is_not_subscribed`). The second branch,
  the logged-in commands, has no gate. Then come callback queries, and a
  no-op for group chatter.
- **The command handlers and their database effects**: `create_chat`,
  `create_feed`, `read_feed` and `delete_feed`. The database is a `Store`
  class whose fields (`chats`, `feeds`, `nextFeedId`) its methods update in
  place. Each method is proved against a function on the `Tables` value.
  `WellFormed` is the table invariant. It holds the schema's foreign key from
  `feed.chat_id` to `chat.id`, and keeps feed ids below the sequence's next
  value. It also requires ids to ascend along the rows. That ordering is
  the model's choice; the schema only makes ids unique. Every operation
  preserves the invariant.

Files: `types.dfy` (shared values), `callback_data.dfy`, `feed_store.dfy`,
`commands.dfy` (both handlers and `validate_feed`), `routing.dfy` (the chain
and a whole update, `Step`/`HandleUpdate`).

Gaps in the code that the model keeps as written:

- `delete_feed` filters on the feed id alone, not on the owner
  (`DeleteIgnoresOwner`).
- `/delete` replies "Your account has been deleted." but deletes nothing.
  `/unsubscribe` only lists the chat's feeds. No command removes a row
  (`HandlersOnlyAdd`). Nothing cascades: the migration's foreign key
  declares no cascade.
- The logged-in branch has no gate. An unregistered chat's `/subscribe`
  reaches `process_command`. Only the foreign key then stops the insert
  (`UnregisteredSubscribeStoresNothing`).
- An unknown command in a private chat reaches the dispatcher's default
  handler. That handler logs and sends no reply.

Two places where the file does not compile as shown; the model follows the
evident intent. `handle_callback` names a type `RequestResult`. The
keyboard code builds `FeedCommand::Delete(f.id)` against a struct variant.
The migration's `feed` table has a `url` column and no `title`, while
`create_feed` sets `title` and `link`. The entity definitions are not part of
this model; it follows `create_feed`.

## Model

| member | source | states |
|---|---|---|
| `CallbackData.Split` | src/main.rs:153 | one piece more than there are ':' characters, and no piece contains ':' |
| `CallbackData.JoinSplit` | src/main.rs:153 | joining the pieces with ':' gives back the original string |
| `CallbackData.SplitJoin` | src/main.rs:153 | splitting colon-free pieces joined by ':' gives back the pieces (Split and Join are inverse) |
| `CallbackData.SplitPrefix` | src/main.rs:153 | a colon-free prefix followed by ':' is the first piece, the rest splits on its own |
| `CallbackData.SplitNoColon` | src/main.rs:153 | a colon-free string is a single piece |
| `CallbackData.Accumulate` | src/main.rs:156 | the digit loop of `i64::from_str` stays within the `i64` magnitude for its sign; its only errors are InvalidDigit or the overflow of that sign |
| `CallbackData.AccumulateDigits` | src/main.rs:156 | on an all-digit string, the checked loop equals the unbounded decimal value when that value fits, and the overflow error otherwise |
| `CallbackData.AccumulateNonDigit` | src/main.rs:156 | any non-digit makes the loop fail |
| `CallbackData.ParseI64` | src/main.rs:156 | the Empty error happens exactly for the empty string |
| `CallbackData.ParseI64Iff` | src/main.rs:156 | parse succeeds iff the text is an optional sign then at least one digit, with a value in the `i64` range; the result is that signed value |
| `CallbackData.ParseDecimal` | src/main.rs:156 | the decimal rendering of every `i64` parses back to it |
| `CallbackData.ParseCallbackData` | src/main.rs:152-161 | "Invalid callback data format" exactly when the data does not contain exactly one ':' |
| `CallbackData.ParseAfterColon` | src/main.rs:153-157 | with one ':', the result is the `i64` parse of the text after it; an invalid number gives an error carrying its kind |
| `CallbackData.PrefixIrrelevant` | src/main.rs:153-157 | the text before the ':' (empty included) does not influence the result |
| `CallbackData.RoundTrip` | src/main.rs:152-161 | any colon-free prefix, ':' and the decimal `i64` id parse back to `Ok(id)` |
| `CallbackData.ParseCallbackDataOk` | src/main.rs:152-161 | every success has one ':' and a well-formed in-range numeral after it, whose value is returned |
| `FeedStore.InsertChat` | src/main.rs:203-212 | fails (DuplicateKey, tables unchanged) exactly when the id is stored; otherwise adds exactly that id with the returned `created_at`, leaving other chats, feeds and the sequence alone; keeps the invariant |
| `FeedStore.InsertFeed` | src/main.rs:299-311 | fails (ForeignKeyViolation, tables unchanged) exactly when the chat is not stored; otherwise appends one row owned by the chat with the channel's title and link and `now` timestamps, under a fresh id, and advances the sequence; keeps the invariant |
| `FeedStore.FeedsOf` | src/main.rs:313-321 | returns exactly the rows whose `chat_id` is the argument; in the model's table order ids stay ascending |
| `FeedStore.WithoutFeed` | src/main.rs:323-328 | keeps exactly the rows with another id, whoever owns them, with ids still ascending |
| `FeedStore.FeedsOfAppend` | src/main.rs:313-321 | an appended row enters its owner's listing and no other; in the model's table order it comes last |
| `FeedStore.WithoutPresentFeed` | src/main.rs:323-328 | deleting an id that is present removes exactly one row |
| `FeedStore.WithoutAbsentFeed` | src/main.rs:323-328 | deleting an id that is absent changes nothing |
| `FeedStore.DeleteIgnoresOwner` | src/main.rs:323-328 | for every chat, deleting a feed id removes that feed from the chat's listing and keeps all its other feeds: no owner check |
| `FeedStore.Store.constructor` | migration/src/m20231104_000001_create_table.rs:8-68 | a freshly migrated database is empty, satisfies the table invariant, and its feed ids start at 1 |
| `FeedStore.Store.FindChat` | src/main.rs:114-117 | finds a chat exactly when its id is stored, with its `created_at` |
| `FeedStore.Store.CreateChat` | src/main.rs:203-212 | updates the tables as `InsertChat` says and keeps the invariant |
| `FeedStore.Store.CreateFeed` | src/main.rs:299-311 | updates the tables as `InsertFeed` says and keeps the invariant |
| `FeedStore.Store.ReadFeed` | src/main.rs:313-321 | returns exactly the stored rows whose `chat_id` is the argument (as `FeedsOf`) and changes nothing |
| `FeedStore.Store.DeleteFeed` | src/main.rs:323-328 | the rows become `WithoutFeed` of the old rows, chats untouched; rows affected is 1 if the id was present, else 0 |
| `Commands.ValidateFeed` | src/main.rs:291-297 | a fetch or decode failure, or a validation failure, is returned as is; success iff fetched and valid after the link is overwritten; the channel's link is the URL given, its title the fetched one |
| `Commands.LoggedOutStep` | src/main.rs:214-249 | the logged-out handler keeps the table invariant |
| `Commands.LoggedInStep` | src/main.rs:330-405 | the logged-in handler keeps the table invariant |
| `Commands.ProcessLoggedOutCommand` | src/main.rs:214-249 | the store and reply follow `LoggedOutStep` and the invariant holds |
| `Commands.ProcessCommand` | src/main.rs:330-405 | the store and reply follow `LoggedInStep` and the invariant holds |
| `Commands.StartRegisters` | src/main.rs:228-238 | `/start` from a new chat adds exactly that chat id, with `now` as its `created_at`; other chats, feeds and the id sequence are unchanged; the reply carries `created_at` |
| `Commands.StartDuplicate` | src/main.rs:239-245 | at handler level, `/start` for a stored chat fails on the primary key, replies with the error and changes nothing. Through the handler chain a stored chat's `/start` never reaches this handler (see `Routing.RegisteredStartTurnedAway`); the branch is reachable only when two updates race past the gate, which the one-step-at-a-time model excludes |
| `Commands.StartTwice` | src/main.rs:228-246 | two `/start`s run through the handler itself: the second fails and the first `created_at` stays. Through the chain the second one is turned away before the handler (`Routing.RegisteredStartTurnedAway`) |
| `Commands.SubscribeRejected` | src/main.rs:360-363 | when the oracle fails, the store is unchanged and the error is the reply |
| `Commands.SubscribeAdds` | src/main.rs:341-358 | a valid feed for a stored chat appends exactly one row: the next id, the requester as owner, the channel's title and the user's URL as link. It becomes the last of the requester's feeds; other chats' listings do not change |
| `Commands.SubscribeUnregistered` | src/main.rs:341-358 | for a chat with no row nothing changes; the reply is the oracle's error or the foreign-key violation |
| `Commands.ReadOnlyCommands` | src/main.rs:336-401 | help, `/unsubscribe` and `/delete` change nothing; `/unsubscribe` lists exactly the chat's own feeds; `/delete` still reports deletion |
| `Commands.HandlersOnlyAdd` | src/main.rs:214-405 | no handler removes a chat or a feed; the logged-in handler never touches chats |
| `Routing.Route` | src/main.rs:71-91 | the logged-out endpoint needs the unregistered state; `noop` is reached only by group or supergroup messages |
| `Routing.Step` | src/main.rs:71-91 | handling any update keeps the table invariant |
| `Routing.IsNotSubscribed` | src/main.rs:112-119 | true exactly when no chat row has the message's chat id |
| `Routing.HandleUpdate` | src/main.rs:71-91 | the dispatcher's endpoint, new store and reply follow `Step`, and the invariant holds |
| `Routing.LoggedOutGate` | src/main.rs:72-78 | a logged-out command reaches `process_logged_out_command` iff the chat has no row |
| `Routing.LoggedInUngated` | src/main.rs:79-83 | a logged-in command reaches `process_command` from any registered chat, and from an unregistered one whose text is not also a logged-out command |
| `Routing.OtherUpdatesChangeNothing` | src/main.rs:84-91 | updates that reach neither command handler change nothing and send no reply |
| `Routing.GroupChatterIsNoop` | src/main.rs:87-91 | a group or supergroup message that is no command ends in `noop` with no change |
| `Routing.UnregisteredSubscribeStoresNothing` | src/main.rs:79-83 | an unregistered chat's `/subscribe` passes the chain into `process_command`, but no feed is stored and the reply is an error |
| `Routing.RegisteredStartTurnedAway` | src/main.rs:71-91 | a stored chat's `/start` is turned away by the gate and ends in `noop` or the default handler, with no change and no reply |
| `Routing.OnlyStartAddsChats` | src/main.rs:71-91 | the set of chat ids changes only by `/start` through the gate, which adds exactly the sender's id |

## Left out

- Process bootstrap (src/main.rs:29-63, 93-104): environment variables, secret files, the database URL, migrations and the dispatcher setup. All of it is configuration and I/O.
- The 30-second scheduled job (src/main.rs:66-69). It only prints; the repository has no feed-update detection to model.
- FeedsOf, FeedsOfAppend, SubscribeAdds: `read_feed` has no `ORDER BY`, so the database promises no row order. The model chooses table (insertion) order, so listings come out in ascending id order and a new feed is last in its owner's listing. Those order facts hold of the model only; the source promises just which rows come back.
- The HTTP fetch and the RSS decoding and validation inside `validate_feed`. These are network I/O and calls into the `rss` crate. They are the `FeedOracle` parameter. Only the `set_link` override is modelled.
- teloxide's command-text parsing, help texts, message sending and keyboard rendering. A message arrives with its text already read as each command enum. A reply is a `Reply` value, not text. `/unsubscribe`'s reply carries the feeds the menu would show, not the buttons and the "Exit menu" button.
- `handle_callback`: its body is commented out. Its endpoint is reached and does nothing. The keyboard's callback data is not modelled.
- Failure of `send_message` (the `?` after each reply) is not modelled. A failed send does not undo a store change that came before it.
- Database errors other than a duplicate chat key and the feed foreign key are not modelled: lost connections, and the `expect` panic in `is_not_subscribed`. So `read_feed` always succeeds.
- The `feed.id` column is a 32-bit serial. The model's counter is unbounded, and a failed insert does not consume a value. So feed ids are only known to be fresh and ascending.
- Timestamps are opaque values passed in as `now`; there is no clock.
- Concurrency between updates. Each update is one sequential, atomic step on the store.
- The chat table's id column is declared `auto_increment`, but `create_chat` always supplies the id. The column's own sequence is not modelled.
