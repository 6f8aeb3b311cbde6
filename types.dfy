/** Values shared by the parser, the store and the command handlers of the bot. */
module Types {

  datatype Option<+T> = None | Some(value: T)

  /** The source's `Result<T, Box<dyn Error>>`, with the error kinds spelled out. */
  datatype Result<+T, +E> = Ok(value: T) | Err(error: E)

  const I64_MIN: int := -0x8000_0000_0000_0000
  const I64_MAX: int := 0x7FFF_FFFF_FFFF_FFFF

  /** Rust's `i64`: chat ids (`msg.chat.id.0`) and parsed feed ids. */
  type I64 = x: int | -0x8000_0000_0000_0000 <= x <= 0x7FFF_FFFF_FFFF_FFFF

  /**
   * A `created_at` / `updated_at` column value. The database fills it in from
   * `current_timestamp`; the model only passes it through, so it is opaque.
   */
  datatype Timestamp = Timestamp(micros: int)

  /** The two fields of an RSS `Channel` that the bot stores. */
  datatype Channel = Channel(title: string, link: string)

  /** A row of the `chat` table. */
  datatype Chat = Chat(id: I64, createdAt: Timestamp)

  /** A row of the `feed` table. */
  datatype Feed = Feed(id: int, chatId: I64, title: string, link: string,
                       createdAt: Timestamp, updatedAt: Timestamp)

  /** The database errors an insert can raise in this model. */
  datatype StoreError =
    | DuplicateKey        // primary key of `chat` already taken
    | ForeignKeyViolation // `feed.chat_id` names no row of `chat`

  /** Why `validate_feed` rejected a URL: transport, RSS decoding, RSS validation. */
  datatype FeedError = Network | Decode | Invalid
}
