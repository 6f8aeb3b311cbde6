/**
 * The two database tables the bot uses (`chat` and `feed`) and the four
 * operations of src/main.rs that touch them: `create_chat`, `create_feed`,
 * `read_feed` and `delete_feed`. Each operation is a method of `Store` that
 * updates its fields in place, proved against a function on `Tables`.
 */
module FeedStore {
  import opened Types

  /**
   * The contents of both tables: `chat` as a map from chat id to `created_at`,
   * `feed` as its rows in insertion order, and the `feed.id` sequence's next value.
   */
  datatype Tables = Tables(chats: map<I64, Timestamp>, feeds: seq<Feed>, nextFeedId: int)

  /** Feed ids strictly increase along the table, so they are unique. */
  predicate AscendingIds(feeds: seq<Feed>)
  {
    forall i, j :: 0 <= i < j < |feeds| ==> feeds[i].id < feeds[j].id
  }

  /**
   * The table invariant: every `feed.chat_id` names a chat (the schema's
   * foreign key), and feed ids stay below the next value of their sequence.
   * That ids also ascend along `feeds` is this model's choice of row order
   * (insertion order); the schema itself only makes them unique.
   */
  predicate WellFormed(t: Tables)
  {
    && (forall i :: 0 <= i < |t.feeds| ==> t.feeds[i].chatId in t.chats)
    && (forall i :: 0 <= i < |t.feeds| ==> t.feeds[i].id < t.nextFeedId)
    && AscendingIds(t.feeds)
  }

  /** The empty database right after the migration. */
  const EMPTY: Tables := Tables(map[], [], 1)

  /** `INSERT INTO chat (id) VALUES (id)`: fails when the primary key is taken. */
  function InsertChat(t: Tables, id: I64, now: Timestamp): (res: (Result<Chat, StoreError>, Tables))
    ensures WellFormed(t) ==> WellFormed(res.1)
    ensures res.0.Err? <==> id in t.chats
    ensures res.0.Err? ==> res.0.error == DuplicateKey && res.1 == t
    ensures res.0.Ok? ==> res.0.value.id == id && id in res.1.chats && res.1.chats[id] == res.0.value.createdAt
    ensures res.0.Ok? ==>
      && res.1.chats.Keys == t.chats.Keys + {id}
      && (forall c :: c in t.chats ==> res.1.chats[c] == t.chats[c])
      && res.1.feeds == t.feeds && res.1.nextFeedId == t.nextFeedId
  {
    if id in t.chats then (Err(DuplicateKey), t)
    else (Ok(Chat(id, now)), t.(chats := t.chats[id := now]))
  }

  /**
   * `INSERT INTO feed (chat_id, title, link)`: the id comes from the sequence,
   * both timestamps from `current_timestamp`; fails on the foreign key when the
   * chat is not stored.
   */
  function InsertFeed(t: Tables, channel: Channel, chatId: I64, now: Timestamp)
    : (res: (Result<Feed, StoreError>, Tables))
    ensures WellFormed(t) ==> WellFormed(res.1)
    ensures WellFormed(t) && res.0.Ok? ==> res.0.value.id !in FeedIds(t.feeds)
    ensures res.0.Err? <==> chatId !in t.chats
    ensures res.0.Err? ==> res.0.error == ForeignKeyViolation && res.1 == t
    ensures res.0.Ok? ==> var f := res.0.value;
      && f.chatId == chatId && f.title == channel.title && f.link == channel.link
      && f.createdAt == now && f.updatedAt == now
      && res.1 == t.(feeds := t.feeds + [f], nextFeedId := t.nextFeedId + 1)
  {
    if chatId !in t.chats then (Err(ForeignKeyViolation), t)
    else
      var f := Feed(t.nextFeedId, chatId, channel.title, channel.link, now, now);
      assert WellFormed(t) ==> f.id !in FeedIds(t.feeds) by {
        if WellFormed(t) {
          forall g | g in t.feeds ensures g.id != f.id {
            var k :| 0 <= k < |t.feeds| && t.feeds[k] == g;
          }
        }
      }
      (Ok(f), t.(feeds := t.feeds + [f], nextFeedId := t.nextFeedId + 1))
  }

  function FeedIds(feeds: seq<Feed>): set<int>
  {
    set f | f in feeds :: f.id
  }

  /**
   * `SELECT * FROM feed WHERE chat_id = chatId`. The query has no `ORDER BY`;
   * the model returns the rows in table order.
   */
  function FeedsOf(feeds: seq<Feed>, chatId: I64): (r: seq<Feed>)
    ensures forall f :: f in r <==> f in feeds && f.chatId == chatId
    ensures AscendingIds(feeds) ==> AscendingIds(r)
  {
    if feeds == [] then []
    else
      var rest := FeedsOf(feeds[1..], chatId);
      if feeds[0].chatId == chatId then
        AscendingCons(feeds, rest);
        [feeds[0]] + rest
      else rest
  }

  /** `DELETE FROM feed WHERE id = id`: no owner in the condition. */
  function WithoutFeed(feeds: seq<Feed>, id: int): (r: seq<Feed>)
    ensures forall f :: f in r <==> f in feeds && f.id != id
    ensures AscendingIds(feeds) ==> AscendingIds(r)
    ensures |r| <= |feeds|
  {
    if feeds == [] then []
    else
      var rest := WithoutFeed(feeds[1..], id);
      if feeds[0].id == id then rest
      else
        AscendingCons(feeds, rest);
        [feeds[0]] + rest
  }

  /** Putting a sorted table's first row before rows taken from its tail keeps ids ascending. */
  lemma AscendingCons(feeds: seq<Feed>, rest: seq<Feed>)
    requires feeds != []
    requires forall f :: f in rest ==> f in feeds[1..]
    requires AscendingIds(feeds) ==> AscendingIds(rest)
    ensures AscendingIds(feeds) ==> AscendingIds([feeds[0]] + rest)
  {
    if AscendingIds(feeds) {
      forall j | 0 <= j < |rest| ensures rest[j].id > feeds[0].id {
        assert rest[j] in feeds[1..];
        var k :| 0 <= k < |feeds[1..]| && feeds[1..][k] == rest[j];
        assert feeds[k + 1] == rest[j];
      }
    }
  }

  /** Appending a row appends it to its owner's listing and to no other. */
  lemma {:induction false} FeedsOfAppend(feeds: seq<Feed>, f: Feed, chatId: I64)
    ensures FeedsOf(feeds + [f], chatId) ==
      FeedsOf(feeds, chatId) + (if f.chatId == chatId then [f] else [])
  {
    if feeds != [] {
      assert (feeds + [f])[1..] == feeds[1..] + [f];
      FeedsOfAppend(feeds[1..], f, chatId);
    }
  }

  /** With unique ids, deleting an id that is present removes exactly one row. */
  lemma {:induction false} WithoutPresentFeed(feeds: seq<Feed>, id: int)
    requires AscendingIds(feeds)
    requires id in FeedIds(feeds)
    ensures |WithoutFeed(feeds, id)| == |feeds| - 1
  {
    if feeds[0].id != id {
      assert id in FeedIds(feeds[1..]) by {
        var f :| f in feeds && f.id == id;
        assert f in feeds[1..] by {
          var k :| 0 <= k < |feeds| && feeds[k] == f;
          assert k != 0;
          assert feeds[1..][k - 1] == f;
        }
      }
      WithoutPresentFeed(feeds[1..], id);
    } else {
      assert WithoutFeed(feeds[1..], id) == feeds[1..] by {
        WithoutAbsentFeed(feeds[1..], id);
      }
    }
  }

  /** Deleting an id that is absent changes nothing. */
  lemma {:induction false} WithoutAbsentFeed(feeds: seq<Feed>, id: int)
    requires id !in FeedIds(feeds)
    ensures WithoutFeed(feeds, id) == feeds
  {
    if feeds != [] {
      assert feeds[0] in feeds;
      assert id !in FeedIds(feeds[1..]) by {
        forall f | f in feeds[1..] ensures f.id != id {
          assert f in feeds;
        }
      }
      WithoutAbsentFeed(feeds[1..], id);
      assert [feeds[0]] + feeds[1..] == feeds;
    }
  }

  /**
   * `delete_feed` is not scoped to an owner: whichever chat owns feed `id`,
   * the row disappears from that chat's listing, and every other row stays.
   */
  lemma DeleteIgnoresOwner(feeds: seq<Feed>, id: int, owner: I64)
    ensures forall f :: f in FeedsOf(WithoutFeed(feeds, id), owner) <==>
      f in FeedsOf(feeds, owner) && f.id != id
  {
  }

  /**
   * The database, updated in place by the handlers. Its fields are the two
   * tables and the `feed.id` sequence.
   */
  class Store {
    var chats: map<I64, Timestamp>
    var feeds: seq<Feed>
    var nextFeedId: int

    function State(): Tables
      reads this
    {
      Tables(chats, feeds, nextFeedId)
    }

    ghost predicate Valid()
      reads this
    {
      WellFormed(State())
    }

    /** A freshly migrated, empty database. */
    constructor ()
      ensures Valid() && State() == EMPTY
    {
      chats := map[];
      feeds := [];
      nextFeedId := 1;
    }

    /** `Chat::find_by_id(id).one(db)`. */
    method FindChat(id: I64) returns (c: Option<Chat>)
      ensures c.Some? <==> id in chats
      ensures c.Some? ==> c.value == Chat(id, chats[id])
    {
      if id in chats {
        c := Some(Chat(id, chats[id]));
      } else {
        c := None;
      }
    }

    /** `create_chat`: a chat row whose id is the given chat id. */
    method CreateChat(id: I64, now: Timestamp) returns (r: Result<Chat, StoreError>)
      requires Valid()
      modifies this
      ensures Valid()
      ensures (r, State()) == InsertChat(old(State()), id, now)
    {
      if id in chats {
        r := Err(DuplicateKey);
      } else {
        chats := chats[id := now];
        r := Ok(Chat(id, now));
      }
    }

    /** `create_feed`: a feed row owned by `chatId` with the channel's title and link. */
    method CreateFeed(channel: Channel, chatId: I64, now: Timestamp) returns (r: Result<Feed, StoreError>)
      requires Valid()
      modifies this
      ensures Valid()
      ensures (r, State()) == InsertFeed(old(State()), channel, chatId, now)
    {
      if chatId !in chats {
        r := Err(ForeignKeyViolation);
      } else {
        var f := Feed(nextFeedId, chatId, channel.title, channel.link, now, now);
        feeds := feeds + [f];
        nextFeedId := nextFeedId + 1;
        r := Ok(f);
      }
    }

    /** `read_feed`: the rows whose `chat_id` is `chatId`. */
    method ReadFeed(chatId: I64) returns (r: seq<Feed>)
      ensures forall f :: f in r <==> f in feeds && f.chatId == chatId
      ensures r == FeedsOf(feeds, chatId)
    {
      r := FeedsOf(feeds, chatId);
    }

    /** `delete_feed`: removes the row with this id, whoever owns it; returns rows affected. */
    method DeleteFeed(id: int) returns (rowsAffected: nat)
      requires Valid()
      modifies this
      ensures Valid()
      ensures State() == old(State()).(feeds := WithoutFeed(old(feeds), id))
      ensures rowsAffected == (if id in FeedIds(old(feeds)) then 1 else 0)
    {
      var before := feeds;
      feeds := WithoutFeed(feeds, id);
      if id in FeedIds(before) {
        WithoutPresentFeed(before, id);
      } else {
        WithoutAbsentFeed(before, id);
      }
      rowsAffected := |before| - |feeds|;
    }
  }
}
