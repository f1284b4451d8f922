/**
 * The client-side quota tracker, the `usePromptCount` hook
 * (frontend/src/hooks/usePromptCount.jsx).
 *
 * The hook keeps {promptCount, maxPrompts, loading, error} for the identity it is
 * given (a device fingerprint, a user id and whether a session exists), reads the
 * identity's row once, and listens on one change-feed channel for later changes of
 * that row.  The database client is not modelled: a read is issued as a `Query`
 * and its outcome comes back as the argument of `FetchDone`; a change-feed
 * notification is the argument of `FeedEvent`.  The async runtime is not modelled
 * either: the model admits every order of these events, and in particular a
 * `FetchDone` is applied whenever it arrives, as the hook does.
 */
module PromptCount {
  import opened Wrappers
  import opened Quota

  /** The two tables the hook reads and listens to. */
  datatype Table = UserStats | GuestTracking

  function TableName(t: Table): string {
    match t
    case UserStats => "user_stats"
    case GuestTracking => "guest_tracking"
  }

  /** The column a row of the table is selected by. */
  function KeyColumn(t: Table): string {
    match t
    case UserStats => "user_id"
    case GuestTracking => "fingerprint_id"
  }

  /** A point read of `prompt_count` in `table` where the key column equals `key`. */
  datatype Query = Query(table: Table, key: string)

  /** A change-feed channel: its name, the table it watches and its row filter. */
  datatype Channel = Channel(name: string, table: Table, filter: string)

  /** A row as returned by the read; `promptCount` is None when the column is null. */
  datatype CountRow = CountRow(promptCount: Option<int>)

  /** The outcome of a read: at most one row, or an error carrying its message. */
  datatype FetchResult = Rows(data: Option<CountRow>) | QueryError(message: string)

  /** The `new` record of a change-feed payload; `promptCount` is None when the field is undefined. */
  datatype NewRecord = NewRecord(promptCount: Option<int>)

  /** A change-feed payload; `newRecord` is None when the payload carries no `new` record. */
  datatype Payload = Payload(newRecord: Option<NewRecord>)

  /** The guard of the fetch: a fingerprint or a user id is present. */
  predicate HasIdentity(fingerprint: Option<string>, userId: Option<string>) {
    Truthy(fingerprint) || Truthy(userId)
  }

  /**
   * The table and key the hook uses for an identity, both for the read and for the
   * channel: a logged-in user's user_stats row, otherwise a guest's guest_tracking row.
   */
  function Plan(fingerprint: Option<string>, userId: Option<string>, session: bool): (q: Option<Query>)
    // there is a row to track exactly when there is a session with a user id, or a fingerprint
    ensures q.Some? <==> (session && Truthy(userId)) || Truthy(fingerprint)
    ensures q.Some? ==> HasIdentity(fingerprint, userId) && q.value.key != ""
    // the key is the identity of the table's kind, and the logged-in identity wins
    ensures q.Some? && q.value.table == UserStats <==> session && Truthy(userId)
    ensures q.Some? && q.value.table == UserStats ==> userId == Some(q.value.key)
    ensures q.Some? && q.value.table == GuestTracking ==> fingerprint == Some(q.value.key)
  {
    if session && Truthy(userId) then Some(Query(UserStats, userId.value))
    else if Truthy(fingerprint) then Some(Query(GuestTracking, fingerprint.value))
    else None
  }

  /** The ceiling shown with a table's count. */
  function Ceiling(t: Table): (n: nat)
    ensures n == if t == UserStats then UserLimit else GuestLimit
  {
    match t
    case UserStats => 8
    case GuestTracking => 5
  }

  /** `data?.prompt_count || 0`: the stored count, with a missing row or a null or zero count read as 0. */
  function NormalizeCount(data: Option<CountRow>): (n: int)
    ensures data.None? ==> n == 0
    ensures n == 0 || (data.Some? && data.value.promptCount == Some(n))
    ensures data.Some? && data.value.promptCount.Some? ==> n == data.value.promptCount.value
  {
    if data.Some? && data.value.promptCount.Some? then data.value.promptCount.value else 0
  }

  /** The channel for a read: named `<table>_<key>`, filtered on `<key column>=eq.<key>`. */
  function ChannelFor(q: Query): (c: Channel)
    ensures c.table == q.table
    // the name is the table's name and `_`, then the key
    ensures var p := TableName(q.table) + "_"; p <= c.name && c.name[|p|..] == q.key
    // the filter selects the key column equal to the key
    ensures var p := KeyColumn(q.table) + "=eq."; p <= c.filter && c.filter[|p|..] == q.key
  {
    Channel(TableName(q.table) + "_" + q.key, q.table, KeyColumn(q.table) + "=eq." + q.key)
  }

  /** The channel a plan opens, if any. */
  function ChannelOf(plan: Option<Query>): Option<Channel> {
    if plan.Some? then Some(ChannelFor(plan.value)) else None
  }

  function StripPrefix(prefix: string, s: string): Option<string> {
    if prefix <= s then Some(s[|prefix|..]) else None
  }

  /** The identity a channel's name refers to. */
  function NameKey(c: Channel): Option<string> {
    StripPrefix(TableName(c.table) + "_", c.name)
  }

  /** The identity a channel's filter selects. */
  function FilterKey(c: Channel): Option<string> {
    StripPrefix(KeyColumn(c.table) + "=eq.", c.filter)
  }

  /** A channel's name and its filter both name the identity that was read. */
  lemma ChannelScopedToKey(q: Query)
    ensures NameKey(ChannelFor(q)) == Some(q.key)
    ensures FilterKey(ChannelFor(q)) == Some(q.key)
    ensures ChannelFor(q).table == q.table
  {
  }

  /** Different identities get channels of different names. */
  lemma ChannelNamesDistinct(q1: Query, q2: Query)
    requires q1 != q2
    ensures ChannelFor(q1).name != ChannelFor(q2).name
  {
    if q1.table == q2.table {
      ChannelScopedToKey(q1);
      ChannelScopedToKey(q2);
    } else {
      assert ChannelFor(q1).name[0] == TableName(q1.table)[0];
      assert ChannelFor(q2).name[0] == TableName(q2.table)[0];
    }
  }

  /** The count a change-feed payload carries: `payload.new?.prompt_count` when it is defined. */
  function FeedValue(p: Payload): (v: Option<int>)
    ensures v.Some? <==> p.newRecord.Some? && p.newRecord.value.promptCount.Some?
    ensures v.Some? ==> p.newRecord.value.promptCount == v
  {
    if p.newRecord.Some? then p.newRecord.value.promptCount else None
  }

  /** The count after the feed handler has run on each payload in turn. */
  function AfterFeed(count: int, events: seq<Payload>): int
    decreases |events|
  {
    if events == [] then count
    else AfterFeed(if FeedValue(events[0]).Some? then FeedValue(events[0]).value else count, events[1..])
  }

  /** The count carried by the last payload that carries one. */
  function LastFeedValue(events: seq<Payload>): Option<int>
    decreases |events|
  {
    if events == [] then None
    else if LastFeedValue(events[1..]).Some? then LastFeedValue(events[1..])
    else FeedValue(events[0])
  }

  /** Last write wins: after a run of feed events the count is the last one carried, or unchanged if none carried one. */
  lemma {:induction false} FeedLastWriteWins(count: int, events: seq<Payload>)
    ensures AfterFeed(count, events) == if LastFeedValue(events).Some? then LastFeedValue(events).value else count
    decreases |events|
  {
    if events != [] {
      var next := if FeedValue(events[0]).Some? then FeedValue(events[0]).value else count;
      FeedLastWriteWins(next, events[1..]);
    }
  }

  /** The channels open in the database client are exactly the one held, if any. */
  ghost predicate OnlyHeldChannelOpen(open: multiset<Channel>, held: Option<Channel>) {
    open == if held.Some? then multiset{held.value} else multiset{}
  }

  /** A held channel is the one planned for the identity. */
  predicate WatchesIdentity(held: Option<Channel>, fingerprint: Option<string>, userId: Option<string>, session: bool) {
    held.Some? ==> held == ChannelOf(Plan(fingerprint, userId, session))
  }

  /** The state of one `usePromptCount` instance. */
  class PromptCountTracker {
    // the identity of the latest render
    var fingerprint: Option<string>
    var userId: Option<string>
    var session: bool
    // the state the hook returns
    var promptCount: int
    var maxPrompts: nat
    var loading: bool
    var error: Option<string>
    /** The current effect's channel, if it opened one. */
    var subscription: Option<Channel>
    /** The channels the database client holds open: `channel(...).subscribe()` adds one, `removeChannel` removes it. */
    ghost var openChannels: multiset<Channel>

    /** The only open channel is the one held, and it watches the current identity's row. */
    ghost predicate Valid()
      reads this`subscription, this`openChannels, this`fingerprint, this`userId, this`session
    {
      OnlyHeldChannelOpen(openChannels, subscription) && WatchesIdentity(subscription, fingerprint, userId, session)
    }

    /** The first render: the initial state, before the effect has run. */
    constructor (fingerprint: Option<string>, userId: Option<string>, session: bool)
      ensures Valid()
      ensures this.fingerprint == fingerprint && this.userId == userId && this.session == session
      ensures promptCount == 0 && maxPrompts == GuestLimit && loading && error.None?
      ensures subscription.None? && openChannels == multiset{}
    {
      this.fingerprint, this.userId, this.session := fingerprint, userId, session;
      promptCount, maxPrompts, loading, error := 0, 5, true, None;
      subscription := None;
      openChannels := multiset{};
    }

    /**
     * `fetchPromptCount` (also exposed as `refetchPromptCount`) up to its await: the
     * guard, then the ceiling and the read for the identity.  `pending` is the read
     * issued, whose outcome `FetchDone` applies; when none is issued the procedure
     * has already run to its end.
     */
    method FetchPromptCount() returns (pending: Option<Query>)
      requires Valid()
      modifies this`loading, this`error, this`maxPrompts
      ensures Valid()
      // without an identity only `loading` is cleared
      ensures !HasIdentity(fingerprint, userId) ==>
                pending.None? && !loading && error == old(error) && maxPrompts == old(maxPrompts)
      // otherwise the read of the planned row is issued, with the ceiling of its table
      ensures HasIdentity(fingerprint, userId) ==>
                && pending == Plan(fingerprint, userId, session)
                && error.None?
                && loading == pending.Some?
                && maxPrompts == if pending.Some? then Ceiling(pending.value.table) else old(maxPrompts)
    {
      if !HasIdentity(fingerprint, userId) {
        // nothing to track yet: skip the read
        loading := false;
        pending := None;
      } else {
        loading := true;
        error := None;
        if session && Truthy(userId) {
          maxPrompts := 8;
          pending := Some(Query(UserStats, userId.value));
        } else if Truthy(fingerprint) {
          maxPrompts := 5;
          pending := Some(Query(GuestTracking, fingerprint.value));
        } else {
          pending := None;
        }
        if pending.None? {
          // no read was awaited: the `finally` runs at once
          loading := false;
        }
      }
      // follows from the modifies frame; stated only so the solver settles Valid() quickly
      assert unchanged(this`openChannels, this`subscription, this`fingerprint, this`userId, this`session);
    }

    /**
     * The rest of `fetchPromptCount` once the read returns: the count, or on an
     * error its message and a count reset to 0; `loading` ends either way.
     */
    method FetchDone(result: FetchResult)
      requires Valid()
      modifies this`promptCount, this`error, this`loading
      ensures Valid()
      ensures !loading
      ensures result.Rows? ==> promptCount == NormalizeCount(result.data) && error == old(error)
      ensures result.QueryError? ==> promptCount == 0 && error == Some(result.message)
    {
      // the setters run in one synchronous block, so React applies them together
      if result.QueryError? {
        error, promptCount, loading := Some(result.message), 0, false;
      } else {
        promptCount, loading := NormalizeCount(result.data), false;
      }
      // follows from the modifies frame; stated only so the solver settles Valid() quickly
      assert unchanged(this`openChannels, this`subscription, this`fingerprint, this`userId, this`session);
    }

    /** The feed handler: a payload carrying a count replaces `promptCount`; any other leaves it. */
    method FeedEvent(payload: Payload)
      requires Valid() && subscription.Some?  // the handler runs only on the open channel
      modifies this`promptCount
      ensures Valid()
      ensures promptCount == if FeedValue(payload).Some? then FeedValue(payload).value else old(promptCount)
    {
      if payload.newRecord.Some? && payload.newRecord.value.promptCount.Some? {
        promptCount := payload.newRecord.value.promptCount.value;
      }
    }

    /**
     * The effect for a new identity: it starts the fetch and opens the identity's
     * channel.  The runtime has run the previous effect's cleanup first, so no
     * channel is held.
     */
    method Activate(fingerprint: Option<string>, userId: Option<string>, session: bool)
      returns (pending: Option<Query>)
      requires Valid() && subscription.None?
      modifies this
      ensures Valid()
      ensures this.fingerprint == fingerprint && this.userId == userId && this.session == session
      // the read and the channel are both for the planned row
      ensures pending == Plan(fingerprint, userId, session)
      ensures subscription == ChannelOf(pending)
      // at most one channel is opened, and it is then the only one open
      ensures openChannels == old(openChannels) + if subscription.Some? then multiset{subscription.value} else multiset{}
      // the state, as the fetch leaves it
      ensures promptCount == old(promptCount)
      ensures loading == pending.Some?
      ensures !HasIdentity(fingerprint, userId) ==> error == old(error) && maxPrompts == old(maxPrompts)
      ensures HasIdentity(fingerprint, userId) ==> error.None?
      ensures maxPrompts == if pending.Some? then Ceiling(pending.value.table) else old(maxPrompts)
    {
      this.fingerprint, this.userId, this.session := fingerprint, userId, session;
      pending := FetchPromptCount();
      Subscribe();
    }

    /** The subscription half of the effect: open the channel for the identity's row, if there is one. */
    method Subscribe()
      requires Valid() && subscription.None?
      modifies this`subscription, this`openChannels
      ensures Valid()
      ensures subscription == ChannelOf(Plan(fingerprint, userId, session))
      ensures openChannels == old(openChannels) + if subscription.Some? then multiset{subscription.value} else multiset{}
    {
      if session && Truthy(userId) {
        subscription := Some(ChannelFor(Query(UserStats, userId.value)));
        openChannels := openChannels + multiset{subscription.value};
      } else if Truthy(fingerprint) {
        subscription := Some(ChannelFor(Query(GuestTracking, fingerprint.value)));
        openChannels := openChannels + multiset{subscription.value};
      }
    }

    /** The effect's cleanup: remove the channel if one was opened. */
    method Cleanup()
      requires Valid()
      modifies this`subscription, this`openChannels
      ensures Valid()
      ensures subscription.None?
      ensures openChannels == multiset{}
      ensures old(subscription).None? ==> openChannels == old(openChannels)
    {
      if subscription.Some? {
        openChannels := openChannels - multiset{subscription.value};
        subscription := None;
      }
    }
  }
}
