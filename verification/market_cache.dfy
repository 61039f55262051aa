/** The bounded LRU and TTL cache of public market responses (aura/api/app.py). */
module MarketCache {
  import opened Wrappers

  type Key = string
  type Response = string

  const MAX_ENTRIES := 256

  datatype Entry = Entry(key: Key, expires: real, response: Response)

  /** The ordered dictionary, least recently used first. */
  type Entries = seq<Entry>

  /** The position of a key, or -1. */
  function IndexOf(c: Entries, key: Key): (i: int)
    ensures -1 <= i < |c|
    ensures i >= 0 ==> c[i].key == key
    ensures i < 0 <==> forall j :: 0 <= j < |c| ==> c[j].key != key
  {
    if c == [] then -1
    else if c[|c| - 1].key == key then |c| - 1
    else IndexOf(c[..|c| - 1], key)
  }

  function Removed(c: Entries, i: int): Entries
    requires 0 <= i < |c|
  {
    c[..i] + c[i + 1..]
  }

  /** The entries that have not expired, in order. */
  function Alive(c: Entries, now: real): Entries {
    if c == [] then []
    else
      var front, last := Alive(c[..|c| - 1], now), c[|c| - 1];
      if last.expires <= now then front else front + [last]
  }

  function Evicted(c: Entries, now: real): Entries {
    var alive := Alive(c, now);
    if |alive| >= MAX_ENTRIES then alive[|alive| - MAX_ENTRIES + 1..] else alive
  }

  function Lookup(c: Entries, key: Key, now: real): Option<Response> {
    var i := IndexOf(c, key);
    if i >= 0 && now < c[i].expires then Some(c[i].response) else None
  }

  function AfterGet(c: Entries, key: Key, now: real): Entries {
    var i := IndexOf(c, key);
    if i < 0 then c
    else if now < c[i].expires then Removed(c, i) + [c[i]]
    else Removed(c, i)
  }

  function AfterSet(c: Entries, key: Key, response: Response, ttl: real, now: real): Entries {
    var i := IndexOf(c, key);
    var room := if i >= 0 then Removed(c, i) else if |c| >= MAX_ENTRIES then Evicted(c, now) else c;
    room + [Entry(key, now + ttl, response)]
  }

  class PublicMarketCache {
    var entries: Entries

    constructor ()
      ensures entries == []
    {
      entries := [];
    }

    method Get(key: Key, now: real) returns (response: Option<Response>)
      modifies this
      ensures response == Lookup(old(entries), key, now)
      ensures entries == AfterGet(old(entries), key, now)
    {
      var i := IndexOf(entries, key);
      if i < 0 {
        return None;
      }
      var item := entries[i];
      entries := Removed(entries, i);
      if now < item.expires {
        entries := entries + [item];
        return Some(item.response);
      }
      response := None;
    }

    method Set(key: Key, response: Response, ttl: real, now: real)
      modifies this
      ensures entries == AfterSet(old(entries), key, response, ttl, now)
    {
      var i := IndexOf(entries, key);
      if i >= 0 {
        entries := Removed(entries, i);
      } else if |entries| >= MAX_ENTRIES {
        Evict(now);
      }
      entries := entries + [Entry(key, now + ttl, response)];
    }

    /** First the expired entries, then the oldest ones until there is room. */
    method Evict(now: real)
      modifies this
      ensures entries == Evicted(old(entries), now)
    {
      hide Alive;
      DropExpired(now);
      ghost var alive, popped := entries, 0;
      while |entries| >= MAX_ENTRIES
        invariant popped <= |alive| && entries == alive[popped..]
        invariant popped > 0 ==> |entries| >= MAX_ENTRIES - 1
      {
        popped := popped + 1;
        entries := entries[1..];
      }
    }

    method DropExpired(now: real)
      modifies this
      ensures entries == Alive(old(entries), now)
    {
      var kept: Entries := [];
      for i := 0 to |entries|
        invariant entries == old(entries)
        invariant kept == Alive(entries[..i], now)
      {
        assert entries[..i + 1][..i] == entries[..i];
        if entries[i].expires > now {
          kept := kept + [entries[i]];
        }
      }
      assert entries[..|entries|] == entries;
      entries := kept;
    }
  }

  // ---------- histories ----------

  datatype Op = GetOp(key: Key, now: real) | SetOp(key: Key, response: Response, ttl: real, now: real)

  function Apply(c: Entries, op: Op): Entries {
    match op
    case GetOp(key, now) => AfterGet(c, key, now)
    case SetOp(key, response, ttl, now) => AfterSet(c, key, response, ttl, now)
  }

  function After(h: seq<Op>): Entries {
    if h == [] then [] else Apply(After(h[..|h| - 1]), h[|h| - 1])
  }

  /** Response and expiry of the latest set of a key: what a plain map would hold. */
  function LatestSet(h: seq<Op>, key: Key): Option<(Response, real)> {
    if h == [] then None
    else
      var last := h[|h| - 1];
      if last.SetOp? && last.key == key then Some((last.response, last.now + last.ttl))
      else LatestSet(h[..|h| - 1], key)
  }

  /** The key an operation uses: the one it sets, or the one it finds alive. */
  function Used(c: Entries, op: Op): Option<Key> {
    if op.SetOp? || Lookup(c, op.key, op.now).Some? then Some(op.key) else None
  }

  /** The other keys used since a key was last used; `None` for a key that never was. */
  function UsedSince(h: seq<Op>, key: Key): Option<set<Key>> {
    if h == [] then None
    else
      var before := h[..|h| - 1];
      var used, since := Used(After(before), h[|h| - 1]), UsedSince(before, key);
      if used == Some(key) then Some({})
      else if used.Some? && since.Some? then Some(since.value + {used.value})
      else since
  }

  predicate MonotoneClock(h: seq<Op>) {
    forall i, j :: 0 <= i < j < |h| ==> h[i].now <= h[j].now
  }

  // ---------- the order of the entries ----------

  ghost predicate Before(c: Entries, x: Entry, y: Entry) {
    exists i, j :: 0 <= i < j < |c| && c[i] == x && c[j] == y
  }

  /** The entries of `a` are entries of `c`, in the same order. */
  ghost predicate Within(a: Entries, c: Entries) {
    && (forall x :: x in a ==> x in c)
    && forall x, y :: Before(a, x, y) ==> Before(c, x, y)
  }

  lemma PartWithin(c: Entries, lo: nat)
    requires lo <= |c|
    ensures Within(c[lo..], c)
  {
    forall x, y | Before(c[lo..], x, y)
      ensures Before(c, x, y)
    {
      var i, j :| 0 <= i < j < |c| - lo && c[lo..][i] == x && c[lo..][j] == y;
      assert c[lo + i] == x && c[lo + j] == y;
    }
  }

  lemma RemovedWithin(c: Entries, i: nat)
    requires i < |c|
    ensures Within(Removed(c, i), c)
  {
    var r := Removed(c, i);
    forall x, y | Before(r, x, y)
      ensures Before(c, x, y)
    {
      var k, l :| 0 <= k < l < |r| && r[k] == x && r[l] == y;
      assert c[if k < i then k else k + 1] == x && c[if l < i then l else l + 1] == y;
    }
  }

  lemma AppendedBefore(c: Entries, e: Entry, x: Entry, y: Entry)
    ensures Before(c + [e], x, y) <==> Before(c, x, y) || (y == e && x in c)
  {
    var all := c + [e];
    if Before(all, x, y) {
      var i, j :| 0 <= i < j < |all| && all[i] == x && all[j] == y;
      assert c[i] == x;
      if j < |c| { assert c[j] == y; }
    }
    if Before(c, x, y) {
      var i, j :| 0 <= i < j < |c| && c[i] == x && c[j] == y;
      assert all[i] == x && all[j] == y;
    }
    if y == e && x in c {
      var i :| 0 <= i < |c| && c[i] == x;
      assert all[i] == x && all[|c|] == e;
    }
  }

  lemma {:induction false} AliveWithin(c: Entries, now: real)
    ensures Within(Alive(c, now), c)
    ensures forall x :: x in Alive(c, now) <==> x in c && x.expires > now
    ensures |Alive(c, now)| <= |c|
  {
    if c != [] {
      var front, last := c[..|c| - 1], c[|c| - 1];
      AliveWithin(front, now);
      assert c == front + [last];
      forall x, y | Before(Alive(c, now), x, y)
        ensures Before(c, x, y)
      {
        AppendedBefore(Alive(front, now), last, x, y);
        AppendedBefore(front, last, x, y);
      }
    }
  }

  lemma WithinAgain(a: Entries, b: Entries, c: Entries)
    requires Within(a, b) && Within(b, c)
    ensures Within(a, c)
  {
  }

  lemma EvictedWithin(c: Entries, now: real)
    ensures Within(Evicted(c, now), c) && |Evicted(c, now)| < MAX_ENTRIES
  {
    hide Within;
    var alive := Alive(c, now);
    AliveWithin(c, now);
    if |alive| >= MAX_ENTRIES {
      PartWithin(alive, |alive| - MAX_ENTRIES + 1);
      WithinAgain(Evicted(c, now), alive, c);
    }
  }

  // ---------- the invariant ----------

  /** Every entry is the latest set of its key, and every entry behind it is of another key used since. */
  ghost predicate Good(h: seq<Op>, c: Entries) {
    && (forall x :: x in c ==> LatestSet(h, x.key) == Some((x.response, x.expires)) && UsedSince(h, x.key).Some?)
    && forall x, y :: Before(c, x, y) ==> x.key != y.key && y.key in Since(h, x.key)
  }

  function Since(h: seq<Op>, key: Key): set<Key> {
    var since := UsedSince(h, key);
    if since.Some? then since.value else {}
  }

  predicate Without(c: Entries, key: Key) {
    forall x :: x in c ==> x.key != key
  }

  lemma GoodWithin(h: seq<Op>, a: Entries, c: Entries)
    requires Good(h, c) && Within(a, c)
    ensures Good(h, a)
  {
    hide LatestSet, UsedSince, Before;
  }

  /** What one operation does to the history functions. */
  lemma HistoryStep(h: seq<Op>, op: Op, key: Key)
    ensures After(h + [op]) == Apply(After(h), op)
    ensures LatestSet(h + [op], key) ==
            if op.SetOp? && op.key == key then Some((op.response, op.now + op.ttl)) else LatestSet(h, key)
    ensures var used, since := Used(After(h), op), UsedSince(h, key);
            UsedSince(h + [op], key) ==
            if used == Some(key) then Some({})
            else if used.Some? && since.Some? then Some(since.value + {used.value})
            else since
  {
    assert (h + [op])[..|h|] == h;
  }

  /** Entries of other keys stay good; if the operation uses its key, they have it behind them. */
  lemma CarriedOver(h: seq<Op>, op: Op, c: Entries)
    requires Good(h, c) && Without(c, op.key)
    ensures Good(h + [op], c)
    ensures Used(After(h), op).Some? ==> forall x :: x in c ==> op.key in Since(h + [op], x.key)
  {
    hide LatestSet, UsedSince, After, Lookup, Before;
    forall x | x in c
      ensures LatestSet(h + [op], x.key) == Some((x.response, x.expires)) && UsedSince(h + [op], x.key).Some?
      ensures Since(h, x.key) <= Since(h + [op], x.key)
      ensures Used(After(h), op).Some? ==> op.key in Since(h + [op], x.key)
    {
      HistoryStep(h, op, x.key);
    }
    forall x, y | Before(c, x, y)
      ensures y.key in Since(h + [op], x.key)
    {
      assert x in c by { BothIn(c, x, y); }
    }
  }

  lemma BothIn(c: Entries, x: Entry, y: Entry)
    requires Before(c, x, y)
    ensures x in c && y in c
  {
  }

  lemma GoodAppended(h: seq<Op>, c: Entries, e: Entry)
    requires Good(h, c) && Without(c, e.key)
    requires forall x :: x in c ==> e.key in Since(h, x.key)
    requires LatestSet(h, e.key) == Some((e.response, e.expires)) && UsedSince(h, e.key).Some?
    ensures Good(h, c + [e])
  {
    hide LatestSet, UsedSince, Before;
    forall x, y | Before(c + [e], x, y)
      ensures x.key != y.key && y.key in Since(h, x.key)
    {
      AppendedBefore(c, e, x, y);
    }
  }

  lemma KeysDiffer(h: seq<Op>, c: Entries, i: nat, j: nat)
    requires Good(h, c) && i < j < |c|
    ensures c[i].key != c[j].key
  {
    hide LatestSet, UsedSince;
    assert Before(c, c[i], c[j]);
  }

  lemma RemovedWithout(h: seq<Op>, c: Entries, i: nat)
    requires i < |c| && Good(h, c)
    ensures Without(Removed(c, i), c[i].key)
  {
    hide Good;
    var r := Removed(c, i);
    forall x | x in r
      ensures x.key != c[i].key
    {
      var k :| 0 <= k < |r| && r[k] == x;
      if k < i { KeysDiffer(h, c, k, i); } else { KeysDiffer(h, c, i, k + 1); }
    }
  }

  lemma AbsentWithout(c: Entries, key: Key)
    ensures IndexOf(c, key) < 0 <==> Without(c, key)
  {
  }

  lemma GetKeeps(h: seq<Op>, key: Key, now: real)
    requires Good(h, After(h)) && |After(h)| <= MAX_ENTRIES
    ensures var op := GetOp(key, now); Good(h + [op], After(h + [op])) && |After(h + [op])| <= MAX_ENTRIES
  {
    hide LatestSet, UsedSince, After, Good;
    var c, op := After(h), GetOp(key, now);
    HistoryStep(h, op, key);
    var i := IndexOf(c, key);
    if i < 0 {
      AbsentWithout(c, key);
      CarriedOver(h, op, c);
    } else {
      RemovedWithin(c, i);
      GoodWithin(h, Removed(c, i), c);
      RemovedWithout(h, c, i);
      CarriedOver(h, op, Removed(c, i));
      if now < c[i].expires {
        LatestOf(h, c, c[i]);
        GoodAppended(h + [op], Removed(c, i), c[i]);
      }
    }
  }

  lemma LatestOf(h: seq<Op>, c: Entries, x: Entry)
    requires Good(h, c) && x in c
    ensures LatestSet(h, x.key) == Some((x.response, x.expires)) && UsedSince(h, x.key).Some?
  {
  }

  lemma SetKeeps(h: seq<Op>, op: Op)
    requires op.SetOp? && Good(h, After(h)) && |After(h)| <= MAX_ENTRIES
    ensures Good(h + [op], After(h + [op])) && |After(h + [op])| <= MAX_ENTRIES
  {
    hide LatestSet, UsedSince, After, Good;
    var c := After(h);
    HistoryStep(h, op, op.key);
    var room := RoomFor(h, c, op);
    CarriedOver(h, op, room);
    GoodAppended(h + [op], room, Entry(op.key, op.now + op.ttl, op.response));
  }

  lemma RoomFor(h: seq<Op>, c: Entries, op: Op) returns (room: Entries)
    requires op.SetOp? && Good(h, c) && |c| <= MAX_ENTRIES
    ensures AfterSet(c, op.key, op.response, op.ttl, op.now) == room + [Entry(op.key, op.now + op.ttl, op.response)]
    ensures Good(h, room) && Without(room, op.key) && |room| < MAX_ENTRIES
  {
    hide LatestSet, UsedSince, Good, Evicted, Within;
    var i := IndexOf(c, op.key);
    if i >= 0 {
      room := Removed(c, i);
      RemovedWithin(c, i);
      GoodWithin(h, room, c);
      RemovedWithout(h, c, i);
    } else {
      AbsentWithout(c, op.key);
      if |c| >= MAX_ENTRIES {
        room := Evicted(c, op.now);
        EvictedWithin(c, op.now);
        GoodWithin(h, room, c);
        assert Without(room, op.key) by { WithoutPart(room, c, op.key); }
      } else {
        room := c;
      }
    }
  }

  lemma WithoutPart(a: Entries, c: Entries, key: Key)
    requires Within(a, c) && Without(c, key)
    ensures Without(a, key)
  {
  }

  lemma {:induction false} RunKeeps(h: seq<Op>)
    ensures Good(h, After(h)) && |After(h)| <= MAX_ENTRIES
  {
    if h != [] {
      var front, op := h[..|h| - 1], h[|h| - 1];
      RunKeeps(front);
      hide Good, After;
      assert front + [op] == h;
      if op.GetOp? { GetKeeps(front, op.key, op.now); } else { SetKeeps(front, op); }
    }
  }

  // ---------- the guarantees ----------

  lemma {:induction false} SetMeansUsed(h: seq<Op>, key: Key)
    ensures LatestSet(h, key).Some? ==> UsedSince(h, key).Some?
  {
    if h != [] {
      SetMeansUsed(h[..|h| - 1], key);
    }
  }

  /** The keys of entries in which no key stands before itself are as many as the entries. */
  lemma {:induction false} KeyCount(c: Entries) returns (keys: set<Key>)
    requires forall x, y :: Before(c, x, y) ==> x.key != y.key
    ensures |keys| == |c| && forall key :: key in keys <==> !Without(c, key)
  {
    if c == [] {
      keys := {};
    } else {
      var front, last := c[..|c| - 1], c[|c| - 1];
      assert c == front + [last];
      forall x, y | Before(front, x, y)
        ensures x.key != y.key
      {
        AppendedBefore(front, last, x, y);
      }
      var before := KeyCount(front);
      forall x | x in front
        ensures x.key != last.key
      {
        AppendedBefore(front, last, x, last);
      }
      keys := before + {last.key};
      forall key
        ensures key in keys <==> !Without(c, key)
      {
        assert Without(c, key) <==> Without(front, key) && last.key != key;
      }
    }
  }

  /** The first of 256 entries has 255 other keys used since, none of them a key that is not there. */
  lemma FrontIsOld(h: seq<Op>, c: Entries, key: Key)
    requires Good(h, c) && |c| == MAX_ENTRIES && Without(c, key)
    ensures |Since(h, c[0].key) + {key}| >= MAX_ENTRIES
  {
    hide LatestSet, UsedSince, Since;
    var rest := c[1..];
    PartWithin(c, 1);
    BehindFirst(c);
    var keys := KeyCount(rest);
    forall k | k in keys
      ensures k in Since(h, c[0].key) && k != key
    {
      var y :| y in rest && y.key == k;
      assert Before(c, c[0], y);
    }
    SubsetSize(keys + {key}, Since(h, c[0].key) + {key});
    assert |keys + {key}| == MAX_ENTRIES;
  }

  /** An unexpired entry survives an eviction while fewer than the capacity of other keys, the new one included, have
      been used since its last use. */
  lemma EvictionSpares(h: seq<Op>, c: Entries, x: Entry, key: Key, now: real)
    requires Good(h, c) && |c| <= MAX_ENTRIES && x in c && now < x.expires && Without(c, key)
    requires |Since(h, x.key) + {key}| < MAX_ENTRIES
    ensures x in Evicted(c, now)
  {
    hide LatestSet, UsedSince, Since, Good, Within;
    var alive := Alive(c, now);
    AliveWithin(c, now);
    if |alive| == MAX_ENTRIES {
      GoodWithin(h, alive, c);
      WithoutPart(alive, c, key);
      FrontIsOld(h, alive, key);
      assert alive == [alive[0]] + alive[1..];
    }
  }

  lemma BehindFirst(c: Entries)
    requires c != []
    ensures forall y :: y in c[1..] ==> y in c && Before(c, c[0], y)
  {
    forall y | y in c[1..]
      ensures y in c && Before(c, c[0], y)
    {
      var j :| 0 <= j < |c| - 1 && c[1..][j] == y;
      assert c[j + 1] == y;
    }
  }

  lemma {:induction false} SubsetSize(a: set<Key>, b: set<Key>)
    requires a <= b
    ensures |a| <= |b|
  {
    if a != {} {
      var k :| k in a;
      SubsetSize(a - {k}, b - {k});
    }
  }

  lemma OtherSurvives(h: seq<Op>, op: Op, x: Entry)
    requires Good(h, After(h)) && |After(h)| <= MAX_ENTRIES && x in After(h) && op.key != x.key && op.now < x.expires
    requires |Since(h + [op], x.key)| < MAX_ENTRIES
    ensures x in After(h + [op])
  {
    hide LatestSet, UsedSince, After, Evicted, Good;
    var c := After(h);
    HistoryStep(h, op, x.key);
    LatestOf(h, c, x);
    var i := IndexOf(c, op.key);
    AbsentWithout(c, op.key);
    if i >= 0 {
      assert c == c[..i] + [c[i]] + c[i + 1..];
    } else if op.SetOp? && |c| >= MAX_ENTRIES {
      EvictionSpares(h, c, x, op.key, op.now);
    }
  }

  /** A get returns only the response of the latest set of its key, and only before that one's expiry; and the cache
      never holds more than its capacity. */
  lemma GetIsLatest(h: seq<Op>, key: Key, now: real)
    ensures |After(h)| <= MAX_ENTRIES
    ensures var found, latest := Lookup(After(h), key, now), LatestSet(h, key);
            found.Some? ==> latest.Some? && latest.value.0 == found.value && now < latest.value.1
  {
    hide LatestSet, After, UsedSince;
    RunKeeps(h);
  }

  lemma FoundEntry(h: seq<Op>, x: Entry, now: real)
    requires LatestSet(h, x.key) == Some((x.response, x.expires)) && now < x.expires
    ensures x in After(h) <==> Lookup(After(h), x.key, now) == Some(x.response)
    ensures x in After(h) <==> Lookup(After(h), x.key, now).Some?
  {
    hide LatestSet, After, UsedSince;
    RunKeeps(h);
  }

  /** The LRU guarantee: under a monotone clock the latest set of a key is still in the cache, and a get returns it,
      while it has not expired and fewer than 256 other keys have been used since the key was. */
  lemma {:induction false} UnexpiredIsKept(h: seq<Op>, key: Key, now: real)
    requires MonotoneClock(h) && (h != [] ==> h[|h| - 1].now <= now)
    requires LatestSet(h, key).Some? && now < LatestSet(h, key).value.1
    requires |Since(h, key)| < MAX_ENTRIES
    ensures Lookup(After(h), key, now) == Some(LatestSet(h, key).value.0)
  {
    hide Lookup, Apply;
    var front, op := h[..|h| - 1], h[|h| - 1];
    assert front + [op] == h;
    var latest := LatestSet(h, key).value;
    var x := Entry(key, latest.1, latest.0);
    HistoryStep(front, op, key);
    if op.SetOp? && op.key == key {
      LastIsSet(front, op);
    } else {
      ClockOfFront(h);
      FoundEntry(front, x, op.now);
      SetMeansUsed(front, key);
      if op.key == key {
        if Lookup(After(front), key, op.now).None? {
          UnexpiredIsKept(front, key, op.now);
          assert false;
        }
        HitStays(front, op, x);
      } else {
        SubsetSize(Since(front, key), Since(h, key));
        UnexpiredIsKept(front, key, op.now);
        RunKeeps(front);
        OtherSurvives(front, op, x);
      }
    }
    FoundEntry(h, x, now);
  }

  lemma ClockOfFront(h: seq<Op>)
    requires MonotoneClock(h) && h != []
    ensures MonotoneClock(h[..|h| - 1]) && (|h| > 1 ==> h[|h| - 2].now <= h[|h| - 1].now)
  {
  }

  lemma LastIsSet(h: seq<Op>, op: Op)
    requires op.SetOp?
    ensures Entry(op.key, op.now + op.ttl, op.response) in After(h + [op])
  {
    HistoryStep(h, op, op.key);
    hide After, Evicted;
  }

  lemma HitStays(h: seq<Op>, op: Op, x: Entry)
    requires op.GetOp? && op.key == x.key && op.now < x.expires && x in After(h)
    requires LatestSet(h, x.key) == Some((x.response, x.expires))
    ensures x in After(h + [op])
  {
    RunKeeps(h);
    HistoryStep(h, op, op.key);
    hide After, LatestSet, UsedSince;
  }
}
