/**
 * The server's in-memory store: a table of messages keyed by id, a table of
 * client statuses keyed by client id, and the time of the last change.
 * Each mutator changes the tables first and then writes them to data.json;
 * whether that write succeeds is a parameter, and a failed write leaves the
 * in-memory change in place.
 */
module Storage {
  import opened Wrappers
  import opened Models

  datatype ClientStatus = ClientStatus(
    id: string,
    name: string,
    lastSeen: Timestamp,
    isOnline: bool,
    ipAddress: Option<string>,
    deviceInfo: Option<string>)

  datatype DataStats = DataStats(
    totalMessages: nat,
    activeMessages: nat,
    totalClients: nat,
    onlineClients: nat,
    lastUpdated: Timestamp)

  // ---------------------------------------------------------------------------
  // Expiry and the online window
  // ---------------------------------------------------------------------------

  /** A message is shown while it has no expiry or its expiry lies strictly after `now`. */
  predicate IsLive(m: Message, now: Timestamp) {
    m.expiresAt.None? || m.expiresAt.value > now
  }

  /**
   * Expiry is final: a message without an expiry is live at every time, and
   * one that is no longer live stays so at every later time.
   */
  lemma ExpiryIsFinal(m: Message, now: Timestamp, later: Timestamp)
    requires now <= later
    ensures m.expiresAt.None? ==> IsLive(m, now) && IsLive(m, later)
    ensures !IsLive(m, now) ==> !IsLive(m, later)
  {
  }

  /** Integer division that rounds toward zero. */
  function TruncDiv(a: int, b: int): int
    requires b > 0
  {
    if a >= 0 then a / b else -((-a) / b)
  }

  /**
   * `(to - from).num_minutes()`: whole minutes elapsed, truncated toward zero,
   * so a negative difference of less than a minute counts as zero minutes.
   */
  function WholeMinutes(from: Timestamp, to: Timestamp): (minutes: int)
    ensures to - from >= 0 ==> 0 <= minutes && 60 * minutes <= to - from < 60 * minutes + 60
    ensures to - from < 0 ==> minutes <= 0 && 60 * minutes - 60 < to - from <= 60 * minutes
  {
    TruncDiv(to - from, 60)
  }

  /**
   * A client counts as online when flagged so and seen less than five whole
   * minutes ago; that is exactly "less than 300 seconds ago", and a last-seen
   * time in the future always counts as recent.
   */
  predicate IsOnline(c: ClientStatus, now: Timestamp): (online: bool)
    ensures online <==> c.isOnline && now - c.lastSeen < 300
  {
    c.isOnline && WholeMinutes(c.lastSeen, now) < 5
  }

  // ---------------------------------------------------------------------------
  // Ordering of listed messages
  // ---------------------------------------------------------------------------

  /** Sort rank of a priority: the most urgent first. */
  function Rank(p: Priority): (r: int)
    ensures 1 <= r <= 4
  {
    match p
    case Urgent => 1
    case High => 2
    case Normal => 3
    case Low => 4
  }

  /** Ranks order the priorities Urgent, High, Normal, Low and tell them apart. */
  lemma RankOrdersPriorities(p: Priority, q: Priority)
    ensures Rank(Urgent) < Rank(High) < Rank(Normal) < Rank(Low)
    ensures Rank(p) == Rank(q) <==> p == q
  {
  }

  /** `a` may be listed before `b`: a smaller rank, or the same rank and not older. */
  predicate Precedes(a: Message, b: Message) {
    Rank(a.priority) < Rank(b.priority)
    || (Rank(a.priority) == Rank(b.priority) && a.createdAt >= b.createdAt)
  }

  predicate Sorted(s: seq<Message>) {
    forall i, j :: 0 <= i < j < |s| ==> Precedes(s[i], s[j])
  }

  /** `s` is sorted with `m` placed at the position the listing order gives it. */
  function Insert(m: Message, s: seq<Message>): (r: seq<Message>)
    requires Sorted(s)
    ensures Sorted(r)
    ensures multiset(r) == multiset(s) + multiset{m}
    ensures forall x :: x in r <==> x == m || x in s
    decreases |s|
  {
    if s == [] || Precedes(m, s[0]) then
      [m] + s
    else
      var rest := Insert(m, s[1..]);
      assert s == [s[0]] + s[1..];
      assert forall x :: x in rest ==> Precedes(s[0], x);
      PrependSorted(s[0], rest);
      [s[0]] + rest
  }

  /** Putting in front of a sorted list an element that precedes all of it keeps it sorted. */
  lemma PrependSorted(x: Message, s: seq<Message>)
    requires Sorted(s)
    requires forall y :: y in s ==> Precedes(x, y)
    ensures Sorted([x] + s)
  {
    var t := [x] + s;
    forall i, j | 0 <= i < j < |t|
      ensures Precedes(t[i], t[j])
    {
      if i > 0 {
        assert t[i] == s[i - 1] && t[j] == s[j - 1];
      } else {
        assert t[j] == s[j - 1];
      }
    }
  }

  /** Orders messages by rank and, within a rank, newest first. */
  method SortForListing(xs: seq<Message>) returns (r: seq<Message>)
    ensures Sorted(r)
    ensures multiset(r) == multiset(xs)
  {
    r := [];
    var i := 0;
    while i < |xs|
      invariant 0 <= i <= |xs|
      invariant Sorted(r)
      invariant multiset(r) == multiset(xs[..i])
    {
      assert xs[..i + 1] == xs[..i] + [xs[i]];
      r := Insert(xs[i], r);
      i := i + 1;
    }
    assert xs[..|xs|] == xs;
  }

  // ---------------------------------------------------------------------------
  // Building and updating a message
  // ---------------------------------------------------------------------------

  /**
   * The message stored for a creation request: the request's fields, the given
   * id, and both timestamps at `now`. The request has no `enabled` field and the
   * store does not set one, so it takes bool's default.
   */
  function NewMessage(req: CreateMessage, id: Uuid, now: Timestamp): (m: Message)
    ensures m.id == id && m.createdAt == now && m.updatedAt == now
    ensures (m.title, m.content, m.author) == (req.title, req.content, req.author)
    ensures m.priority == req.priority && m.expiresAt == req.expiresAt
    ensures !m.enabled
  {
    Message(id, req.title, req.content, req.author, now, now, req.priority, req.expiresAt, false)
  }

  /**
   * The result of a partial update: every field supplied as Some replaces the
   * stored one; an absent expiry keeps the stored one; the id, the creation time
   * and the enabled flag are kept; the update time becomes `now`.
   */
  function ApplyUpdate(m: Message, u: UpdateMessage, now: Timestamp): (r: Message)
    ensures r.id == m.id && r.createdAt == m.createdAt && r.enabled == m.enabled
    ensures r.updatedAt == now
    ensures r.title == (if u.title.Some? then u.title.value else m.title)
    ensures r.content == (if u.content.Some? then u.content.value else m.content)
    ensures r.author == (if u.author.Some? then u.author.value else m.author)
    ensures r.priority == (if u.priority.Some? then u.priority.value else m.priority)
    ensures u.expiresAt.Some? ==> r.expiresAt == u.expiresAt
    ensures u.expiresAt.None? ==> r.expiresAt == m.expiresAt
  {
    var title := if u.title.Some? then u.title.value else m.title;
    var content := if u.content.Some? then u.content.value else m.content;
    var author := if u.author.Some? then u.author.value else m.author;
    var priority := if u.priority.Some? then u.priority.value else m.priority;
    var expiresAt := if u.expiresAt.Some? then u.expiresAt else m.expiresAt;
    m.(title := title, content := content, author := author, priority := priority,
       expiresAt := expiresAt, updatedAt := now)
  }

  /** An update never clears an expiry: once a message has one, it keeps one. */
  lemma UpdateKeepsExpiry(m: Message, u: UpdateMessage, now: Timestamp)
    requires m.expiresAt.Some?
    ensures ApplyUpdate(m, u, now).expiresAt.Some?
  {
  }

  /** An update that names no field only moves the update time. */
  lemma EmptyUpdateOnlyTouches(m: Message, now: Timestamp)
    ensures ApplyUpdate(m, EmptyUpdate, now) == m.(updatedAt := now)
  {
  }

  /** Applying the same update twice at the same time is the same as applying it once. */
  lemma UpdateIdempotent(m: Message, u: UpdateMessage, now: Timestamp)
    ensures ApplyUpdate(ApplyUpdate(m, u, now), u, now) == ApplyUpdate(m, u, now)
  {
  }

  /** The `enabled` field of an update has no effect on the stored message. */
  lemma UpdateIgnoresEnabled(m: Message, u: UpdateMessage, now: Timestamp)
    ensures ApplyUpdate(m, u, now) == ApplyUpdate(m, u.(enabled := None), now)
  {
  }

  // ---------------------------------------------------------------------------
  // The store
  // ---------------------------------------------------------------------------

  class FileStorage {
    var messages: map<Uuid, Message>
    var clients: map<string, ClientStatus>
    var lastUpdated: Timestamp

    /** Every entry is filed under its own id. */
    ghost predicate Valid()
      reads this
    {
      && (forall k :: k in messages ==> messages[k].id == k)
      && (forall k :: k in clients ==> clients[k].id == k)
    }

    /** The ids of the messages that have not expired at `now`. */
    function LiveIds(now: Timestamp): set<Uuid>
      reads this
    {
      set k | k in messages && IsLive(messages[k], now)
    }

    /** The ids of the clients that count as online at `now`. */
    function OnlineIds(now: Timestamp): set<string>
      reads this
    {
      set k | k in clients && IsOnline(clients[k], now)
    }

    /** The default, empty store (no data file read). */
    constructor ()
      ensures Valid()
      ensures messages == map[] && clients == map[] && lastUpdated == 0
    {
      messages := map[];
      clients := map[];
      lastUpdated := 0;
    }

    method CreateMessage(msg: CreateMessage, id: Uuid, now: Timestamp, writeOk: bool)
      returns (r: StoreResult<Message>)
      requires Valid()
      modifies this
      ensures Valid()
      ensures messages == old(messages)[id := NewMessage(msg, id, now)]
      ensures id !in old(messages) ==> |messages| == |old(messages)| + 1
      ensures clients == old(clients) && lastUpdated == now
      ensures r == if writeOk then Ok(NewMessage(msg, id, now)) else Err(WriteFailed)
    {
      var message := Message(id, msg.title, msg.content, msg.author, now, now,
                             msg.priority, msg.expiresAt, false);
      messages := messages[id := message];
      lastUpdated := now;
      if !writeOk {
        return Err(WriteFailed);
      }
      r := Ok(message);
    }

    /**
     * The messages not expired at `now`, each stored entry exactly once, listed
     * by rank and then newest first. Entries that tie on both keys may come in
     * any order, as iterating a hash map gives no order.
     */
    method GetMessages(now: Timestamp) returns (r: seq<Message>)
      requires Valid()
      ensures Sorted(r)
      ensures forall m :: m in r <==> m.id in LiveIds(now) && messages[m.id] == m
      ensures |r| == |LiveIds(now)|
    {
      var live: seq<Message> := [];
      var todo := messages.Keys;
      ghost var seen: set<Uuid> := {};
      ghost var liveSeen: set<Uuid> := {};
      while todo != {}
        invariant todo + seen == messages.Keys && todo !! seen && liveSeen <= seen
        invariant forall k :: k in seen ==> (k in liveSeen <==> IsLive(messages[k], now))
        invariant forall m :: m in live <==> m.id in liveSeen && messages[m.id] == m
        invariant |live| == |liveSeen|
        decreases |todo|
      {
        var k :| k in todo;
        if IsLive(messages[k], now) {
          live := live + [messages[k]];
          liveSeen := liveSeen + {k};
        }
        todo := todo - {k};
        seen := seen + {k};
      }
      assert liveSeen == LiveIds(now);
      r := SortForListing(live);
      assert forall m :: m in r <==> m in multiset(live);
    }

    function GetMessage(id: Uuid): (r: Option<Message>)
      reads this
      ensures r.Some? <==> id in messages
      ensures r.Some? ==> r.value == messages[id]
    {
      if id in messages then Some(messages[id]) else None
    }

    /**
     * A partial update of the message filed under `id`. An absent id changes
     * nothing and writes nothing; a present one is updated in place, stamped
     * with `now`, and returned as read back after the write.
     */
    method UpdateMessage(id: Uuid, update: UpdateMessage, now: Timestamp, writeOk: bool)
      returns (r: StoreResult<Option<Message>>)
      requires Valid()
      modifies this
      ensures Valid()
      ensures clients == old(clients)
      ensures id !in old(messages) ==>
        r == Ok(None) && messages == old(messages) && lastUpdated == old(lastUpdated)
      ensures id in old(messages) ==>
        && messages == old(messages)[id := ApplyUpdate(old(messages)[id], update, now)]
        && lastUpdated == now
        && r == (if writeOk then Ok(Some(messages[id])) else Err(WriteFailed))
    {
      if id !in messages {
        return Ok(None);
      }
      var message := messages[id];
      if update.title.Some? {
        message := message.(title := update.title.value);
      }
      if update.content.Some? {
        message := message.(content := update.content.value);
      }
      if update.author.Some? {
        message := message.(author := update.author.value);
      }
      if update.priority.Some? {
        message := message.(priority := update.priority.value);
      }
      if update.expiresAt.Some? {
        message := message.(expiresAt := Some(update.expiresAt.value));
      }
      message := message.(updatedAt := now);
      messages := messages[id := message];
      lastUpdated := now;
      if !writeOk {
        return Err(WriteFailed);
      }
      r := Ok(GetMessage(id));
    }

    /**
     * Removes the message filed under `id`. The result says whether one was
     * there; only a removal stamps `lastUpdated` and writes the file.
     */
    method DeleteMessage(id: Uuid, now: Timestamp, writeOk: bool) returns (r: StoreResult<bool>)
      requires Valid()
      modifies this
      ensures Valid()
      ensures messages == old(messages) - {id} && id !in messages
      ensures clients == old(clients)
      ensures lastUpdated == if id in old(messages) then now else old(lastUpdated)
      ensures r == if id in old(messages) && !writeOk then Err(WriteFailed) else Ok(id in old(messages))
    {
      var removed := id in messages;
      messages := messages - {id};
      if removed {
        lastUpdated := now;
        if !writeOk {
          return Err(WriteFailed);
        }
      }
      r := Ok(removed);
    }

    /** Registers a client or replaces its status, filed under the client's own id. */
    method UpdateClientStatus(client: ClientStatus, now: Timestamp, writeOk: bool)
      returns (r: StoreResult<()>)
      requires Valid()
      modifies this
      ensures Valid()
      ensures clients == old(clients)[client.id := client]
      ensures messages == old(messages) && lastUpdated == now
      ensures r == if writeOk then Ok(()) else Err(WriteFailed)
    {
      clients := clients[client.id := client];
      lastUpdated := now;
      if !writeOk {
        return Err(WriteFailed);
      }
      r := Ok(());
    }

    /** Every stored client status, each exactly once, in no particular order. */
    method GetClients() returns (r: seq<ClientStatus>)
      requires Valid()
      ensures forall c :: c in r <==> c.id in clients && clients[c.id] == c
      ensures |r| == |clients|
    {
      r := [];
      var todo := clients.Keys;
      ghost var seen: set<string> := {};
      while todo != {}
        invariant todo + seen == clients.Keys && todo !! seen
        invariant forall c :: c in r <==> c.id in seen && clients[c.id] == c
        invariant |r| == |seen|
        decreases |todo|
      {
        var k :| k in todo;
        r := r + [clients[k]];
        todo := todo - {k};
        seen := seen + {k};
      }
    }

    /** The clients that count as online at `now`, each exactly once, in no particular order. */
    method GetOnlineClients(now: Timestamp) returns (r: seq<ClientStatus>)
      requires Valid()
      ensures forall c :: c in r <==> c.id in OnlineIds(now) && clients[c.id] == c
      ensures |r| == |OnlineIds(now)|
    {
      r := [];
      var todo := clients.Keys;
      ghost var seen: set<string> := {};
      ghost var onlineSeen: set<string> := {};
      while todo != {}
        invariant todo + seen == clients.Keys && todo !! seen && onlineSeen <= seen
        invariant forall k :: k in seen ==> (k in onlineSeen <==> IsOnline(clients[k], now))
        invariant forall c :: c in r <==> c.id in onlineSeen && clients[c.id] == c
        invariant |r| == |onlineSeen|
        decreases |todo|
      {
        var k :| k in todo;
        if IsOnline(clients[k], now) {
          r := r + [clients[k]];
          onlineSeen := onlineSeen + {k};
        }
        todo := todo - {k};
        seen := seen + {k};
      }
      assert onlineSeen == OnlineIds(now);
    }

    /**
     * Marks a known client offline as of `now`. An unknown id changes nothing,
     * but the file is written in both cases.
     */
    method MarkClientOffline(clientId: string, now: Timestamp, writeOk: bool)
      returns (r: StoreResult<()>)
      requires Valid()
      modifies this
      ensures Valid()
      ensures messages == old(messages)
      ensures clientId in old(clients) ==>
        && clients == old(clients)[clientId := old(clients)[clientId].(isOnline := false, lastSeen := now)]
        && lastUpdated == now
      ensures clientId !in old(clients) ==> clients == old(clients) && lastUpdated == old(lastUpdated)
      ensures r == if writeOk then Ok(()) else Err(WriteFailed)
    {
      if clientId in clients {
        var client := clients[clientId];
        client := client.(isOnline := false);
        client := client.(lastSeen := now);
        clients := clients[clientId := client];
        lastUpdated := now;
      }
      if !writeOk {
        return Err(WriteFailed);
      }
      r := Ok(());
    }

    /**
     * Counts over both tables at `now`. The active count is the number of
     * messages `GetMessages(now)` lists, and the online count uses the same
     * window as `GetOnlineClients(now)`.
     */
    function GetStats(now: Timestamp): (s: DataStats)
      reads this
      ensures s.totalMessages == |messages| && s.totalClients == |clients|
      ensures s.activeMessages == |LiveIds(now)| <= s.totalMessages
      ensures s.onlineClients == |OnlineIds(now)| <= s.totalClients
      ensures s.lastUpdated == lastUpdated
    {
      SubsetCard(LiveIds(now), messages.Keys);
      SubsetCard(OnlineIds(now), clients.Keys);
      DataStats(|messages|, |LiveIds(now)|, |clients|, |OnlineIds(now)|, lastUpdated)
    }
  }

  /** A subset is no larger than its superset. */
  lemma {:induction false} SubsetCard<T>(a: set<T>, b: set<T>)
    requires a <= b
    ensures |a| <= |b|
    decreases |b|
  {
    if a != {} {
      var x :| x in a;
      SubsetCard(a - {x}, b - {x});
    }
  }
}
