/** The list of fair value gap zones that the analysis keeps (aura/core/scoring.py): newest first, aged and filled bar
    by bar, with all but eight of the filled ones removed. */
module Zones {
  import opened Wrappers
  import opened Indicators
  import opened Scoring

  datatype Zone = Zone(
    dir: int, top: real, bot: real, age: int, mitigated: bool, start: int, end: Option<int>, time: int)

  const KEPT := 8

  // ---------- one bar ----------

  /** The zone that the last bar of a prefix opens. */
  function OpenedBy(p: seq<Candle>): Option<Zone> {
    if |p| < 3 then None
    else
      var now, base := Last(p), p[|p| - 3];
      if now.low > base.high then Some(Zone(1, now.low, base.high, 0, false, |p| - 1, None, now.time))
      else if now.high < base.low then Some(Zone(-1, base.low, now.high, 0, false, |p| - 1, None, now.time))
      else None
  }

  /** The zone that bar k opens. */
  function OpenedIn(p: seq<Candle>, k: int): Option<Zone> {
    if 0 <= k < |p| then OpenedBy(p[..k + 1]) else None
  }

  predicate Fills(z: Zone, bar: Candle) {
    if z.dir == 1 then bar.low <= z.bot else bar.high >= z.top
  }

  function Stepped(z: Zone, i: int, bar: Candle): Zone {
    if z.mitigated || z.start >= i then z
    else if Fills(z, bar) then z.(age := z.age + 1, mitigated := true, end := Some(i))
    else z.(age := z.age + 1)
  }

  function Completed(zones: seq<Zone>): seq<Zone> {
    if zones == [] then []
    else (if zones[0].mitigated then [zones[0]] else []) + Completed(zones[1..])
  }

  /** Without the first n completed zones. */
  function Dropped(zones: seq<Zone>, n: nat): seq<Zone> {
    if n == 0 || zones == [] then zones
    else if zones[0].mitigated then Dropped(zones[1..], n - 1)
    else [zones[0]] + Dropped(zones[1..], n)
  }

  function Trimmed(zones: seq<Zone>): seq<Zone> {
    var c := |Completed(zones)|;
    if c > KEPT then Dropped(zones, c - KEPT) else zones
  }

  function WithNew(zones: seq<Zone>, added: Option<Zone>): seq<Zone> {
    if added.Some? then [added.value] + zones else zones
  }

  function AllStepped(zones: seq<Zone>, i: int, bar: Candle): seq<Zone> {
    seq(|zones|, k requires 0 <= k < |zones| => Stepped(zones[k], i, bar))
  }

  function NextZones(zones: seq<Zone>, p: seq<Candle>): seq<Zone>
    requires p != []
  {
    AllStepped(Trimmed(WithNew(zones, OpenedBy(p))), |p| - 1, Last(p))
  }

  function ZonesOf(p: seq<Candle>): seq<Zone> {
    if p == [] then [] else NextZones(ZonesOf(Front(p)), p)
  }

  // ---------- the loops ----------

  /** Remove the first element that equals z. */
  method RemoveFirst(zones: seq<Zone>, z: Zone) returns (rest: seq<Zone>)
    ensures rest == Without(zones, z)
  {
    for k := 0 to |zones|
      invariant Without(zones, z) == zones[..k] + Without(zones[k..], z)
    {
      if zones[k] == z {
        return zones[..k] + zones[k + 1..];
      }
      WithoutStep(zones, z, k);
    }
    assert zones[|zones|..] == [] && zones[..|zones|] == zones;
    rest := zones;
  }

  lemma WithoutStep(zones: seq<Zone>, z: Zone, k: nat)
    requires k < |zones| && zones[k] != z
    ensures zones[..k] + Without(zones[k..], z) == zones[..k + 1] + Without(zones[k + 1..], z)
  {
    assert zones[k..][1..] == zones[k + 1..] && zones[..k + 1] == zones[..k] + [zones[k]];
  }

  function Without(zones: seq<Zone>, z: Zone): seq<Zone> {
    if zones == [] then []
    else if zones[0] == z then zones[1..]
    else [zones[0]] + Without(zones[1..], z)
  }

  /** Removing the first completed zone by equality removes just that one. */
  lemma {:induction false} WithoutIsDropped(zones: seq<Zone>)
    requires Completed(zones) != []
    ensures Completed(zones)[0].mitigated
    ensures Without(zones, Completed(zones)[0]) == Dropped(zones, 1)
    ensures Completed(Dropped(zones, 1)) == Completed(zones)[1..]
  {
    if !zones[0].mitigated {
      WithoutIsDropped(zones[1..]);
      var d := Dropped(zones, 1);
      assert d[0] == zones[0] && d[1..] == Dropped(zones[1..], 1);
      assert Completed(zones) == Completed(zones[1..]) && Completed(d) == Completed(d[1..]);
    } else {
      assert Completed(zones) == [zones[0]] + Completed(zones[1..]);
      assert Dropped(zones[1..], 0) == zones[1..];
    }
  }

  lemma DropNone(zones: seq<Zone>)
    ensures Dropped(zones, 0) == zones
  {
  }

  lemma {:induction false} DropAgain(zones: seq<Zone>, n: nat)
    ensures Dropped(Dropped(zones, 1), n) == Dropped(zones, n + 1)
  {
    if zones != [] && !zones[0].mitigated {
      DropAgain(zones[1..], n);
      var d := Dropped(zones, 1);
      assert d[0] == zones[0] && d[1..] == Dropped(zones[1..], 1);
    }
  }

  method CompletedZones(zones: seq<Zone>) returns (completed: seq<Zone>)
    ensures completed == Completed(zones)
  {
    completed := [];
    for k := 0 to |zones|
      invariant Completed(zones) == completed + Completed(zones[k..])
    {
      assert zones[k..][1..] == zones[k + 1..];
      if zones[k].mitigated {
        completed := completed + [zones[k]];
      }
    }
    assert zones[|zones|..] == [];
  }

  method TrimZones(zones: seq<Zone>) returns (rest: seq<Zone>)
    ensures rest == Trimmed(zones)
  {
    hide Completed, Dropped, Without;
    rest := zones;
    var completed := CompletedZones(zones);
    if |completed| > KEPT {
      var removable := completed[..|completed| - KEPT];
      for k := 0 to |removable|
        invariant Dropped(zones, |removable|) == Dropped(rest, |removable| - k)
        invariant Completed(rest) == completed[k..]
      {
        WithoutIsDropped(rest);
        DropAgain(rest, |removable| - k - 1);
        rest := RemoveFirst(rest, removable[k]);
      }
      DropNone(rest);
    }
  }

  method AdvanceZones(zones: seq<Zone>, bars: seq<Candle>, i: nat) returns (next: seq<Zone>)
    requires i < |bars|
    ensures next == NextZones(zones, bars[..i + 1])
  {
    hide Completed, Dropped;
    ghost var p := bars[..i + 1];
    next := zones;
    if i >= 2 {
      if bars[i].low > bars[i - 2].high {
        next := [Zone(1, bars[i].low, bars[i - 2].high, 0, false, i, None, bars[i].time)] + next;
      } else if bars[i].high < bars[i - 2].low {
        next := [Zone(-1, bars[i - 2].low, bars[i].high, 0, false, i, None, bars[i].time)] + next;
      }
    }
    assert next == WithNew(zones, OpenedBy(p));
    next := TrimZones(next);
    ghost var trimmed := next;
    for k := 0 to |next|
      invariant |next| == |trimmed|
      invariant forall m :: 0 <= m < k ==> next[m] == Stepped(trimmed[m], i, bars[i])
      invariant forall m :: k <= m < |next| ==> next[m] == trimmed[m]
    {
      if !next[k].mitigated && next[k].start < i {
        var z := next[k].(age := next[k].age + 1);
        if Fills(z, bars[i]) {
          z := z.(mitigated := true, end := Some(i));
        }
        next := next[k := z];
      }
    }
    assert next == AllStepped(trimmed, i, bars[i]);
  }

  // ---------- what the list holds ----------

  predicate UnfilledIn(z: Zone, p: seq<Candle>, end: int) {
    forall m :: z.start < m < end && 0 <= m < |p| ==> !Fills(z, p[m])
  }

  /** A zone is what its own bars say: the bar that opened it, and the first later bar that reached through it. */
  predicate ZoneTrue(z: Zone, p: seq<Candle>) {
    && 2 <= z.start < |p|
    && OpenedIn(p, z.start) == Some(z.(age := 0, mitigated := false, end := None))
    && (if z.mitigated then
          && z.end.Some? && z.start < z.end.value < |p|
          && Fills(z, p[z.end.value]) && UnfilledIn(z, p, z.end.value) && z.age == z.end.value - z.start
        else z.end.None? && UnfilledIn(z, p, |p|) && z.age == |p| - 1 - z.start)
  }

  predicate NewestFirst(zones: seq<Zone>) {
    forall i, j :: 0 <= i < j < |zones| ==> zones[i].start > zones[j].start
  }

  predicate AllTrue(zones: seq<Zone>, p: seq<Candle>) {
    forall z :: z in zones ==> ZoneTrue(z, p)
  }

  /** What a bar adds to a zone of the bars before, and the zone it opens itself. */
  lemma SteppedIsTrue(z: Zone, p: seq<Candle>)
    requires p != [] && (ZoneTrue(z, Front(p)) || OpenedBy(p) == Some(z))
    ensures ZoneTrue(Stepped(z, |p| - 1, Last(p)), p)
  {
    if OpenedBy(p) == Some(z) {
      assert p[..z.start + 1] == p;
    } else {
      assert Front(p)[..z.start + 1] == p[..z.start + 1];
      hide OpenedBy;
      assert forall m :: 0 <= m < |p| - 1 ==> Front(p)[m] == p[m];
    }
  }

  /** Dropping completed zones leaves a part of the list with every other zone in it. */
  lemma {:induction false} DroppedHas(zones: seq<Zone>, n: nat, z: Zone)
    ensures z in Dropped(zones, n) ==> z in zones
    ensures z in zones && !z.mitigated ==> z in Dropped(zones, n)
  {
    if zones != [] && n > 0 {
      DroppedHas(zones[1..], if zones[0].mitigated then n - 1 else n, z);
      assert z in zones <==> z == zones[0] || z in zones[1..];
    }
  }

  lemma {:induction false} DroppedInOrder(zones: seq<Zone>, n: nat)
    requires NewestFirst(zones)
    ensures NewestFirst(Dropped(zones, n))
  {
    if zones != [] && n > 0 {
      var rest := zones[1..];
      DroppedInOrder(rest, if zones[0].mitigated then n - 1 else n);
      var kept := Dropped(rest, n);
      forall k | 0 <= k < |kept|
        ensures zones[0].start > kept[k].start
      {
        DroppedHas(rest, n, kept[k]);
        var j :| 0 <= j < |rest| && rest[j] == kept[k];
        assert zones[j + 1] == kept[k];
      }
    }
  }

  lemma TrimmedHas(zones: seq<Zone>, z: Zone)
    ensures z in Trimmed(zones) ==> z in zones
    ensures z in zones && !z.mitigated ==> z in Trimmed(zones)
  {
    hide Dropped, Completed;
    var c := |Completed(zones)|;
    if c > KEPT { DroppedHas(zones, c - KEPT, z); }
  }

  lemma TrimmedInOrder(zones: seq<Zone>)
    requires NewestFirst(zones)
    ensures NewestFirst(Trimmed(zones))
  {
    hide Dropped, Completed, NewestFirst;
    var c := |Completed(zones)|;
    if c > KEPT { DroppedInOrder(zones, c - KEPT); }
  }

  /** The zones are true to the bars and in the order of their opening, newest first. */
  lemma {:induction false} ZonesAreTrue(p: seq<Candle>)
    ensures AllTrue(ZonesOf(p), p) && NewestFirst(ZonesOf(p))
  {
    if p != [] {
      var zones := ZonesOf(Front(p));
      ZonesAreTrue(Front(p));
      var grown := WithNew(zones, OpenedBy(p));
      NewIsNewest(zones, p);
      TrimmedInOrder(grown);
      hide OpenedBy, ZoneTrue, Trimmed, Stepped;
      var trimmed := Trimmed(grown);
      var next := AllStepped(trimmed, |p| - 1, Last(p));
      forall k | 0 <= k < |next|
        ensures ZoneTrue(next[k], p) && next[k].start == trimmed[k].start
      {
        TrimmedHas(grown, trimmed[k]);
        SteppedIsTrue(trimmed[k], p);
        SteppedKeeps(trimmed[k], |p| - 1, Last(p));
      }
    }
  }

  lemma SteppedKeeps(z: Zone, i: int, bar: Candle)
    ensures var s := Stepped(z, i, bar); s.(age := z.age, mitigated := z.mitigated, end := z.end) == z
  {
  }

  lemma NewIsNewest(zones: seq<Zone>, p: seq<Candle>)
    requires p != [] && AllTrue(zones, Front(p)) && NewestFirst(zones)
    ensures NewestFirst(WithNew(zones, OpenedBy(p)))
  {
    forall k | 0 <= k < |zones|
      ensures zones[k].start < |p| - 1
    {
      assert zones[k] in zones;
    }
  }

  lemma InFront(p: seq<Candle>, m: int)
    requires p != []
    ensures OpenedIn(p, m) == if m == |p| - 1 then OpenedBy(p) else OpenedIn(Front(p), m)
  {
    if m == |p| - 1 { assert p[..m + 1] == p; }
    if 0 <= m < |p| - 1 { assert Front(p)[..m + 1] == p[..m + 1]; }
  }

  /** Every gap that no later bar has filled is in the list, with its age. */
  lemma {:induction false} UnfilledIsListed(p: seq<Candle>, k: int)
    requires OpenedIn(p, k).Some? && UnfilledIn(OpenedIn(p, k).value, p, |p|)
    ensures OpenedIn(p, k).value.(age := |p| - 1 - k) in ZonesOf(p)
    decreases |p|
  {
    hide *;
    OpenedThere(p, k);
    var z := OpenedIn(p, k).value;
    if k == |p| - 1 {
      NewIsListed(p, z);
    } else {
      UnfilledInFront(z, p);
      InFront(p, k);
      UnfilledIsListed(Front(p), k);
      OldIsListed(p, z);
    }
  }

  lemma NewIsListed(p: seq<Candle>, z: Zone)
    requires OpenedIn(p, |p| - 1) == Some(z) && !z.mitigated && z.start == |p| - 1 && z.age == 0
    ensures z in ZonesOf(p) && z.(age := 0) == z
  {
    assert p[..|p|] == p && OpenedBy(p) == Some(z);
    hide *;
    NextIs(p);
    StaysListed(ZonesOf(Front(p)), p, z);
    SteppedUnfilled(z, z.age, p);
  }

  lemma OldIsListed(p: seq<Candle>, z: Zone)
    requires p != [] && !z.mitigated && 0 <= z.start < |p| - 1 && !Fills(z, Last(p))
    requires z.(age := |p| - 2 - z.start) in ZonesOf(Front(p))
    ensures z.(age := |p| - 1 - z.start) in ZonesOf(p)
  {
    hide *;
    NextIs(p);
    StaysListed(ZonesOf(Front(p)), p, z.(age := |p| - 2 - z.start));
    SteppedUnfilled(z, |p| - 2 - z.start, p);
  }

  lemma OpenedThere(p: seq<Candle>, k: int)
    requires OpenedIn(p, k).Some?
    ensures var z := OpenedIn(p, k).value; !z.mitigated && z.start == k && z.age == 0 && 0 <= k < |p|
    ensures OpenedIn(p, k).value == OpenedIn(p, k).value.(age := 0)
  {
    OpensUnfilled(p[..k + 1]);
    hide OpenedBy;
  }

  lemma UnfilledInFront(z: Zone, p: seq<Candle>)
    requires p != [] && UnfilledIn(z, p, |p|)
    ensures |Front(p)| == |p| - 1
    ensures UnfilledIn(z, Front(p), |Front(p)|) && (0 <= z.start < |p| - 1 ==> !Fills(z, Last(p)))
  {
    hide Fills;
  }

  lemma SteppedUnfilled(z: Zone, age: int, p: seq<Candle>)
    requires p != [] && !z.mitigated && (z.start >= |p| - 1 || !Fills(z, Last(p)))
    ensures Stepped(z.(age := age), |p| - 1, Last(p)) == z.(age := if z.start >= |p| - 1 then age else age + 1)
  {
  }

  lemma OpensUnfilled(p: seq<Candle>)
    ensures var z := OpenedBy(p); z.Some? ==> !z.value.mitigated && z.value.start == |p| - 1 && z.value.age == 0
  {
  }

  lemma NextIs(p: seq<Candle>)
    requires p != []
    ensures ZonesOf(p) == NextZones(ZonesOf(Front(p)), p)
  {
    hide NextZones;
  }

  lemma StaysListed(zones: seq<Zone>, p: seq<Candle>, z: Zone)
    requires p != [] && !z.mitigated && (z in zones || OpenedBy(p) == Some(z))
    ensures Stepped(z, |p| - 1, Last(p)) in NextZones(zones, p)
  {
    hide OpenedBy, Trimmed, Stepped;
    var grown := WithNew(zones, OpenedBy(p));
    assert z in grown;
    TrimmedHas(grown, z);
    var j :| 0 <= j < |Trimmed(grown)| && Trimmed(grown)[j] == z;
    assert AllStepped(Trimmed(grown), |p| - 1, Last(p))[j] == Stepped(z, |p| - 1, Last(p));
  }

  /** The unfilled zones of the list are exactly the gaps that no later bar has filled. */
  lemma UnfilledExactly(p: seq<Candle>, z: Zone)
    requires !z.mitigated
    ensures z in ZonesOf(p) <==> ZoneTrue(z, p)
  {
    ZonesAreTrue(p);
    if ZoneTrue(z, p) { UnfilledIsListed(p, z.start); }
    hide ZonesOf, OpenedIn;
  }

  // ---------- which filled zones are kept ----------

  /** Dropping takes the completed zones from the front, where the newest are. */
  lemma {:induction false} DroppedKeepsOldest(zones: seq<Zone>, n: nat)
    requires n <= |Completed(zones)|
    ensures Completed(Dropped(zones, n)) == Completed(zones)[n..]
  {
    if zones != [] && n > 0 {
      if zones[0].mitigated {
        DroppedKeepsOldest(zones[1..], n - 1);
        assert Completed(zones) == [zones[0]] + Completed(zones[1..]);
      } else {
        DroppedKeepsOldest(zones[1..], n);
        var d := Dropped(zones, n);
        assert d[0] == zones[0] && d[1..] == Dropped(zones[1..], n);
        assert Completed(zones) == Completed(zones[1..]);
      }
    }
  }

  /** Of more than eight filled zones the trim keeps the eight oldest and removes the newest. */
  lemma TrimKeepsOldest(zones: seq<Zone>)
    ensures var c := Completed(zones);
            Completed(Trimmed(zones)) == if |c| > KEPT then c[|c| - KEPT..] else c
  {
    hide Dropped, Completed;
    var c := |Completed(zones)|;
    if c > KEPT { DroppedKeepsOldest(zones, c - KEPT); }
  }

  /** The zones filled before bar i. */
  function FilledBefore(zones: seq<Zone>, i: int): nat {
    if zones == [] then 0
    else FilledBefore(zones[1..], i) + if EndedBefore(zones[0], i) then 1 else 0
  }

  predicate EndedBefore(z: Zone, i: int) {
    z.mitigated && z.end.Some? && z.end.value < i
  }

  lemma {:induction false} SteppedFills(zones: seq<Zone>, i: int, bar: Candle)
    ensures FilledBefore(AllStepped(zones, i, bar), i) <= |Completed(zones)|
  {
    if zones != [] {
      var next := AllStepped(zones, i, bar);
      SteppedFills(zones[1..], i, bar);
      assert next[1..] == AllStepped(zones[1..], i, bar);
      assert next[0] == Stepped(zones[0], i, bar);
    }
  }

  /** At most eight zones that were filled before the last bar are in the list. */
  lemma FewAreKept(p: seq<Candle>)
    requires p != []
    ensures FilledBefore(ZonesOf(p), |p| - 1) <= KEPT
  {
    hide OpenedBy, Dropped;
    var grown := WithNew(ZonesOf(Front(p)), OpenedBy(p));
    TrimKeepsOldest(grown);
    SteppedFills(Trimmed(grown), |p| - 1, Last(p));
  }

  // ---------- the tracked gap ----------

  /** The list is headed by an unfilled zone, and no later bar has opened another one. */
  ghost predicate LatestIsUnfilled(p: seq<Candle>) {
    var zones := ZonesOf(p);
    && zones != [] && !zones[0].mitigated
    && NoneSince(p, zones[0].start)
  }

  /** No bar after the given one opens a gap. */
  ghost predicate NoneSince(p: seq<Candle>, start: int) {
    forall m :: start < m ==> OpenedIn(p, m).None?
  }

  predicate SameGap(g: Gap, z: Zone) {
    g.dir == z.dir && g.top == Some(z.top) && g.bot == Some(z.bot)
  }

  /** The gap that the score looks at is active exactly while the latest zone to open is unfilled, and it is that
      zone. */
  lemma {:induction false} TrackedGapHeads(p: seq<Candle>)
    ensures GapOf(p).active <==> LatestIsUnfilled(p)
    ensures GapOf(p).active ==> SameGap(GapOf(p), ZonesOf(p)[0])
  {
    if p != [] {
      TrackedGapHeads(Front(p));
      if OpenedBy(p).Some? {
        NewZoneHeads(p);
      } else {
        hide GapOf, ZonesOf;
        OldZoneHeads(p);
      }
    }
  }

  lemma HeadOf(zones: seq<Zone>, i: int, bar: Candle)
    requires zones != [] && !zones[0].mitigated
    ensures var next := AllStepped(Trimmed(zones), i, bar);
            next != [] && next[0] == Stepped(zones[0], i, bar)
  {
  }

  lemma NewZoneHeads(p: seq<Candle>)
    requires p != [] && OpenedBy(p).Some?
    ensures GapOf(p).active && LatestIsUnfilled(p) && SameGap(GapOf(p), ZonesOf(p)[0])
  {
    HeadOf(WithNew(ZonesOf(Front(p)), OpenedBy(p)), |p| - 1, Last(p));
    hide Trimmed, AllStepped;
  }

  lemma OldZoneHeads(p: seq<Candle>)
    requires p != [] && OpenedBy(p).None?
    requires GapOf(Front(p)).active <==> LatestIsUnfilled(Front(p))
    requires GapOf(Front(p)).active ==> SameGap(GapOf(Front(p)), ZonesOf(Front(p))[0])
    ensures GapOf(p).active <==> LatestIsUnfilled(p)
    ensures GapOf(p).active ==> SameGap(GapOf(p), ZonesOf(p)[0])
  {
    var before, after := ZonesOf(Front(p)), ZonesOf(p);
    NextIs(p);
    OldGap(p);
    hide GapOf, ZonesOf, OpenedBy, OpenedIn, NextZones, Filled;
    if before != [] && !before[0].mitigated {
      SameHead(p);
    } else if after != [] && !after[0].mitigated {
      if before == [] {
        NothingListed(p);
      } else {
        OlderHead(p);
      }
    }
  }

  lemma NothingListed(p: seq<Candle>)
    requires p != [] && OpenedBy(p).None? && ZonesOf(Front(p)) == []
    ensures ZonesOf(p) == []
  {
  }

  lemma NoneSinceFront(p: seq<Candle>, start: int)
    requires p != [] && OpenedBy(p).None?
    ensures NoneSince(p, start) <==> NoneSince(Front(p), start)
  {
    forall m
      ensures OpenedIn(p, m).None? <==> OpenedIn(Front(p), m).None?
    {
      InFront(p, m);
      assert m == |p| - 1 ==> OpenedIn(Front(p), m).None?;
    }
    hide OpenedIn, OpenedBy;
  }

  lemma HeadIsTrue(p: seq<Candle>)
    requires ZonesOf(p) != []
    ensures var z := ZonesOf(p)[0]; (z.dir == 1 || z.dir == -1) && 2 <= z.start < |p|
  {
    ZonesAreTrue(p);
    hide ZonesOf;
    assert ZonesOf(p)[0] in ZonesOf(p);
  }

  /** Without a new gap an unfilled head stays, and stays unfilled unless the bar reaches through it. */
  lemma SameHead(p: seq<Candle>)
    requires p != [] && OpenedBy(p).None? && ZonesOf(Front(p)) != [] && !ZonesOf(Front(p))[0].mitigated
    ensures var z := ZonesOf(Front(p))[0];
            && ZonesOf(p) != [] && ZonesOf(p)[0].(age := z.age, mitigated := z.mitigated, end := z.end) == z
            && (LatestIsUnfilled(p) <==> LatestIsUnfilled(Front(p)) && !Fills(z, Last(p)))
            && |p| >= 3 && (z.dir == 1 || z.dir == -1)
  {
    var z := ZonesOf(Front(p))[0];
    NextIs(p);
    HeadIsTrue(Front(p));
    HeadOf(ZonesOf(Front(p)), |p| - 1, Last(p));
    SteppedKeeps(z, |p| - 1, Last(p));
    NoneSinceFront(p, z.start);
    hide ZonesOf, OpenedBy, NoneSince, Trimmed, AllStepped, Fills;
  }

  lemma OldGap(p: seq<Candle>)
    requires p != [] && OpenedBy(p).None?
    ensures var g, h := GapOf(Front(p)), GapOf(p);
            && h.(age := g.age, active := g.active) == g
            && (h.active <==> g.active && (|p| >= 3 ==> !Filled(g, Last(p))))
  {
    hide Filled;
  }

  /** Once the newest zone is filled, a later head of the list is not the latest zone to open. */
  lemma OlderHead(p: seq<Candle>)
    requires p != [] && OpenedBy(p).None? && ZonesOf(Front(p)) != [] && ZonesOf(Front(p))[0].mitigated
    requires ZonesOf(p) != [] && !ZonesOf(p)[0].mitigated
    ensures !LatestIsUnfilled(p)
  {
    var before, after := ZonesOf(Front(p)), ZonesOf(p);
    var trimmed := Trimmed(before);
    NextIs(p);
    assert after == AllStepped(trimmed, |p| - 1, Last(p));
    ZonesAreTrue(Front(p));
    hide ZonesOf, NextZones, Trimmed;
    TrimmedHas(before, trimmed[0]);
    HeadWasOlder(before, trimmed, |p| - 1, Last(p));
    var m := before[0].start;
    hide AllStepped, Fills, NewestFirst, OpenedBy, OpenedIn;
    assert before[0] in before;
    InFront(p, m);
    assert OpenedIn(p, m).Some?;
  }

  lemma HeadWasOlder(before: seq<Zone>, trimmed: seq<Zone>, i: int, bar: Candle)
    requires before != [] && before[0].mitigated && NewestFirst(before)
    requires trimmed != [] && trimmed[0] in before
    requires !AllStepped(trimmed, i, bar)[0].mitigated
    ensures AllStepped(trimmed, i, bar)[0].start < before[0].start
  {
    var k :| 0 <= k < |before| && before[k] == trimmed[0];
    assert k != 0;
  }
}
