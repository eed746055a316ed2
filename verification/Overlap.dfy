/** Two calls of one machine type at once. Listing holds only a read lock, so nothing keeps them apart; each ends
    by writing its list and then its number (pkg/providers/instancetype/offering/offering.go). */
module Overlap {
  import opened Options
  import opened Availability
  import opened Offerings
  import opened OfferingLaws
  import ZoneNames

  /** The writes of an earlier and a later call. */
  datatype Write = List1 | Number1 | List2 | Number2

  datatype Order = Order(w1: Write, w2: Write, w3: Write, w4: Write)

  function At(o: Order, n: nat): Write
    requires 1 <= n <= 4
  {
    if n == 1 then o.w1 else if n == 2 then o.w2 else if n == 3 then o.w3 else o.w4
  }

  /** When a write comes, from 1 to 4. */
  function Position(o: Order, w: Write): nat {
    if o.w1 == w then 1 else if o.w2 == w then 2 else if o.w3 == w then 3 else 4
  }

  /** Every write once, and each call's list before its number. */
  predicate Possible(o: Order) {
    && (forall m: nat, n: nat :: 1 <= m < n <= 4 ==> At(o, m) != At(o, n))
    && Position(o, List1) < Position(o, Number1) && Position(o, List2) < Position(o, Number2)
  }

  datatype Built = Built(list: seq<Offering>, seqNum: nat)

  function Put(p: Lists, now: Time, key: Key, one: Built, two: Built, w: Write): Lists {
    match w
    case List1 => PutList(p, now, key, one.list)
    case Number1 => PutNumber(p, key.machineType, one.seqNum)
    case List2 => PutList(p, now, key, two.list)
    case Number2 => PutNumber(p, key.machineType, two.seqNum)
  }

  /** The store after the first `n` writes. */
  function Written(p: Lists, now: Time, key: Key, one: Built, two: Built, o: Order, n: nat): Lists
    requires n <= 4
  {
    if n == 0 then p else Put(Written(p, now, key, one, two, o, n - 1), now, key, one, two, At(o, n))
  }

  function OfList(w: Write, before: nat): nat {
    if w == List1 then 1 else if w == List2 then 2 else before
  }

  function OfNumber(w: Write, before: nat): nat {
    if w == Number1 then 1 else if w == Number2 then 2 else before
  }

  /** Which call's list the store holds after `n` writes, and which call's number; 0 is neither. */
  function ListAt(o: Order, n: nat): nat
    requires n <= 4
  {
    if n == 0 then 0 else OfList(At(o, n), ListAt(o, n - 1))
  }

  function NumberAt(o: Order, n: nat): nat
    requires n <= 4
  {
    if n == 0 then 0 else OfNumber(At(o, n), NumberAt(o, n - 1))
  }

  lemma {:induction false} WrittenMeaning(p: Lists, now: Time, key: Key, one: Built, two: Built, o: Order, n: nat)
    requires n <= 4 && key !in p.cache
    ensures var p' := Written(p, now, key, one, two, o, n);
      && (key in p'.cache <==> ListAt(o, n) != 0)
      && (ListAt(o, n) == 1 ==> p'.cache[key] == Entry(one.list, now + OFFERINGS_TTL))
      && (ListAt(o, n) == 2 ==> p'.cache[key] == Entry(two.list, now + OFFERINGS_TTL))
      && LastSeen(p', key.machineType)
         == (if NumberAt(o, n) == 1 then one.seqNum
             else if NumberAt(o, n) == 2 then two.seqNum
             else LastSeen(p, key.machineType))
    decreases n
  {
    if n > 0 {
      WrittenMeaning(p, now, key, one, two, o, n - 1);
    }
  }

  const MIXED := Order(List2, List1, Number1, Number2)
  const LATE := Order(List2, Number2, List1, Number1)
  const CROSSED := Order(List2, List1, Number2, Number1)

  /** The moments at which the earlier call's list lies under the later call's number. */
  predicate Mixes(o: Order, n: nat) {
    (o == MIXED && n == 4) || ((o == LATE || o == CROSSED) && n == 3)
  }

  lemma PossibleOrders(o: Order)
    requires Possible(o)
    ensures || o == Order(List1, Number1, List2, Number2) || o == Order(List1, List2, Number1, Number2)
            || o == Order(List1, List2, Number2, Number1) || o == MIXED || o == LATE || o == CROSSED
  {
    assert At(o, 1) != At(o, 2) && At(o, 1) != At(o, 3) && At(o, 1) != At(o, 4);
    assert At(o, 2) != At(o, 3) && At(o, 2) != At(o, 4) && At(o, 3) != At(o, 4);
  }

  /** Of the six orders three mix at some moment: one for good, two only until their last write. */
  lemma MixesIff(o: Order, n: nat)
    requires Possible(o) && n <= 4
    ensures ListAt(o, n) == 1 && NumberAt(o, n) == 2 <==> Mixes(o, n)
  {
    PossibleOrders(o);
    Unrolled(o);
  }

  lemma Unrolled(o: Order)
    ensures ListAt(o, 0) == 0 && NumberAt(o, 0) == 0
    ensures ListAt(o, 1) == OfList(o.w1, 0) && NumberAt(o, 1) == OfNumber(o.w1, 0)
    ensures ListAt(o, 2) == OfList(o.w2, ListAt(o, 1)) && NumberAt(o, 2) == OfNumber(o.w2, NumberAt(o, 1))
    ensures ListAt(o, 3) == OfList(o.w3, ListAt(o, 2)) && NumberAt(o, 3) == OfNumber(o.w3, NumberAt(o, 2))
    ensures ListAt(o, 4) == OfList(o.w4, ListAt(o, 3)) && NumberAt(o, 4) == OfNumber(o.w4, NumberAt(o, 3))
  {
  }

  // ---------------------------------------------------------------- what the next call shows

  lemma MarkShows(m: Marks, now: Time, t: string, region: string, zones: seq<string>, price: real, i: nat)
    requires i < |zones| && !IsUnavailable(m, now, t, ZoneNames.SanitizeZone(zones[i]))
    ensures Fresh(m, now, t, region, zones, Some(price))[i].available
    ensures var m' := MarkUnavailable(m, now, t, ZoneNames.SanitizeZone(zones[i]));
      !Fresh(m', now, t, region, zones, Some(price))[i].available
  {
  }

  /** What a call builds under these marks. */
  function BuiltUnder(m: Marks, now: Time, t: string, region: string, zones: seq<string>, price: real): Built {
    Built(Fresh(m, now, t, region, zones, Some(price)), SeqNum(m, t))
  }

  /** After a mark of zone `i`. */
  function Marked(m: Marks, now: Time, t: string, zones: seq<string>, i: nat): Marks
    requires i < |zones|
  {
    MarkUnavailable(m, now, t, ZoneNames.SanitizeZone(zones[i]))
  }

  /** A mark and its increment fall between two overlapping calls, so that the earlier call built its list
      before and the later one after. The cache has no list under the key and its number is not the new one. After
      any number of the four writes, the next call offers the marked zone if and only if the writes came in MIXED
      order and are complete, or came in one of the two other orders and the last one is still missing. */
  lemma NextCallOffersIff(p: Lists, m: Marks, now: Time, t: string, region: string, zones: seq<string>, price: real,
                          i: nat, o: Order, n: nat)
    requires i < |zones| && Possible(o) && n <= 4
    requires !IsUnavailable(m, now, t, ZoneNames.SanitizeZone(zones[i]))
    requires KeyOf(t, region, zones) !in p.cache && LastSeen(p, t) != SeqNum(Marked(m, now, t, zones, i), t)
    ensures var m' := Marked(m, now, t, zones, i);
      var p' := Written(p, now, KeyOf(t, region, zones), BuiltUnder(m, now, t, region, zones, price),
                        BuiltUnder(m', now, t, region, zones, price), o, n);
      var list := Create(p', m', now, t, region, zones, Some(price)).1;
      |list| == |zones| && (list[i].available <==> Mixes(o, n))
  {
    var m' := Marked(m, now, t, zones, i);
    var one, two := BuiltUnder(m, now, t, region, zones, price), BuiltUnder(m', now, t, region, zones, price);
    WrittenMeaning(p, now, KeyOf(t, region, zones), one, two, o, n);
    assert one.seqNum != two.seqNum by {
      NextDiffers(Bumps(m, t));
    }
    MarkShows(m, now, t, region, zones, price, i);
    MixesIff(o, n);
    var p' := Written(p, now, KeyOf(t, region, zones), one, two, o, n);
    NextFromStore(p', m', now, t, region, zones, price, one, ListAt(o, n));
  }

  /** The next call under the marks of the later one: the earlier call's list exactly when it is the one stored and
      the number is the later call's. */
  lemma NextFromStore(p: Lists, m: Marks, now: Time, t: string, region: string, zones: seq<string>, price: real,
                      one: Built, stored: nat)
    requires var key, two := KeyOf(t, region, zones), BuiltUnder(m, now, t, region, zones, price);
      && (key in p.cache <==> stored != 0)
      && (stored == 1 ==> p.cache[key] == Entry(one.list, now + OFFERINGS_TTL))
      && (stored > 1 ==> p.cache[key] == Entry(two.list, now + OFFERINGS_TTL))
    ensures Create(p, m, now, t, region, zones, Some(price)).1
         == if stored == 1 && LastSeen(p, t) == SeqNum(m, t) then one.list
            else Fresh(m, now, t, region, zones, Some(price))
  {
  }

  // ---------------------------------------------------------------- it is reached

  /** A call that has built `b`, and has written its list or its number or not. */
  predicate Stage(s: Sys, id: nat, t: string, region: string, zones: seq<string>, price: real, b: Built,
                  listed: bool, numbered: bool)
  {
    if numbered then id !in s.calls
    else
      && id in s.calls
      && s.calls[id] == if listed then Stored(t, region, zones, b.seqNum, b.list)
                        else Building(t, region, zones, b.seqNum, Some(price), b.list, None)
  }

  /** What the scenario is about. */
  datatype Scene = Scene(t: string, region: string, zones: seq<string>, price: real, i: nat)

  predicate ValidScene(c: Scene) {
    c.i < |c.zones|
  }

  function SceneKey(c: Scene): Key {
    KeyOf(c.t, c.region, c.zones)
  }

  function MarksOf(c: Scene): Marks
    requires ValidScene(c)
  {
    Marked(NO_MARKS, 0, c.t, c.zones, c.i)
  }

  function One(c: Scene): Built {
    BuiltUnder(NO_MARKS, 0, c.t, c.region, c.zones, c.price)
  }

  function Two(c: Scene): Built
    requires ValidScene(c)
  {
    BuiltUnder(MarksOf(c), 0, c.t, c.region, c.zones, c.price)
  }

  /** Both calls have built, and the first `n` writes of the order have happened. */
  predicate Scenario(s: Sys, c: Scene, o: Order, n: nat)
    requires ValidScene(c) && n <= 4
  {
    && s.now == 0 && s.marks == MarksOf(c) && s.pendingTypes == multiset{} && s.pendingZones == 0
    && s.lists == Written(NO_LISTS, 0, SceneKey(c), One(c), Two(c), o, n)
    && Stage(s, 1, c.t, c.region, c.zones, c.price, One(c), Position(o, List1) <= n, Position(o, Number1) <= n)
    && Stage(s, 2, c.t, c.region, c.zones, c.price, Two(c), Position(o, List2) <= n, Position(o, Number2) <= n)
  }

  /** After the earlier call has built, the mark and its increment. */
  function AfterTheMark(c: Scene): Sys
    requires ValidScene(c)
  {
    AllRead(INIT, 1, c.t, c.region, c.zones, Some(c.price)).(marks := MarksOf(c))
  }

  lemma ReachMark(c: Scene) returns (es: seq<Event>)
    requires ValidScene(c)
    ensures Run(INIT, es) && After(INIT, es) == AfterTheMark(c)
  {
    var z := ZoneNames.SanitizeZone(c.zones[c.i]);
    Builds(INIT, 1, c.t, c.region, c.zones, Some(c.price));
    var build := BuildEvents(1, c.t, c.region, c.zones, Some(c.price));
    var s := AllRead(INIT, 1, c.t, c.region, c.zones, Some(c.price));
    RunTwo(s, SetMark(c.t, z), BumpMark(c.t));
    RunSplit(INIT, build, [SetMark(c.t, z), BumpMark(c.t)]);
    assert Next(Next(s, SetMark(c.t, z)), BumpMark(c.t)) == AfterTheMark(c);
    es := build + [SetMark(c.t, z), BumpMark(c.t)];
  }

  lemma ReachBoth(c: Scene, o: Order) returns (es: seq<Event>)
    requires ValidScene(c) && Possible(o)
    ensures Run(INIT, es) && Scenario(After(INIT, es), c, o, 0)
  {
    var head := ReachMark(c);
    var s := AfterTheMark(c);
    var build := BuildEvents(2, c.t, c.region, c.zones, Some(c.price));
    Builds(s, 2, c.t, c.region, c.zones, Some(c.price));
    RunSplit(INIT, head, build);
    BothBuilt(c, o);
    es := head + build;
  }

  lemma BothBuilt(c: Scene, o: Order)
    requires ValidScene(c) && Possible(o)
    ensures Scenario(AllRead(AfterTheMark(c), 2, c.t, c.region, c.zones, Some(c.price)), c, o, 0)
  {
  }

  function EventOf(w: Write): Event {
    match w
    case List1 => WriteList(1)
    case Number1 => WriteNumber(1)
    case List2 => WriteList(2)
    case Number2 => WriteNumber(2)
  }

  lemma WriteStep(s: Sys, c: Scene, o: Order, n: nat)
    requires ValidScene(c) && Possible(o) && n < 4 && Scenario(s, c, o, n)
    ensures Enabled(s, EventOf(At(o, n + 1))) && Scenario(Next(s, EventOf(At(o, n + 1))), c, o, n + 1)
  {
    var w := At(o, n + 1);
    Positions(o, n);
    if w.List1? || w.List2? {
      var id := if w.List1? then 1 else 2;
      assert Next(s, WriteList(id)).lists == Written(NO_LISTS, 0, SceneKey(c), One(c), Two(c), o, n + 1);
    } else {
      var id := if w.Number1? then 1 else 2;
      assert Next(s, WriteNumber(id)).lists == Written(NO_LISTS, 0, SceneKey(c), One(c), Two(c), o, n + 1);
    }
  }

  /** The next write is the only one whose turn has come. */
  lemma Positions(o: Order, n: nat)
    requires Possible(o) && n < 4
    ensures Position(o, At(o, n + 1)) == n + 1
    ensures forall w: Write :: w != At(o, n + 1) ==> (Position(o, w) <= n <==> Position(o, w) <= n + 1)
    ensures At(o, n + 1) == Number1 ==> Position(o, List1) <= n
    ensures At(o, n + 1) == Number2 ==> Position(o, List2) <= n
    ensures At(o, n + 1) == List1 ==> Position(o, Number1) > n + 1
    ensures At(o, n + 1) == List2 ==> Position(o, Number2) > n + 1
  {
    PossibleOrders(o);
  }

  lemma {:induction false} ReachWrites(c: Scene, o: Order, n: nat) returns (es: seq<Event>)
    requires ValidScene(c) && Possible(o) && n <= 4
    ensures Run(INIT, es) && Scenario(After(INIT, es), c, o, n)
    decreases n
  {
    if n == 0 {
      es := ReachBoth(c, o);
    } else {
      var before := ReachWrites(c, o, n - 1);
      var e := EventOf(At(o, n));
      WriteStep(After(INIT, before), c, o, n - 1);
      RunOne(After(INIT, before), e);
      RunSplit(INIT, before, [e]);
      es := before + [e];
    }
  }

  /** For every type, region, zone list, price, order and number of writes there is a run from the start, of two
      calls cut into their steps and one mark, to that moment; nothing is owed there, the zone's mark lives, and
      the next call offers the zone if and only if the order mixes at that moment. */
  lemma OverlapOffersMarkedZoneIff(t: string, region: string, zones: seq<string>, price: real, i: nat, o: Order, n: nat)
    returns (es: seq<Event>)
    requires i < |zones| && Possible(o) && n <= 4
    ensures Run(INIT, es)
    ensures var s := After(INIT, es);
      var list := Create(s.lists, s.marks, s.now, t, region, zones, Some(price)).1;
      && !Owed(s, t) && Live(s.marks.offers, OfferKey(t, ZoneNames.SanitizeZone(zones[i])), s.now)
      && |list| == |zones| && (list[i].available <==> Mixes(o, n))
  {
    var c := Scene(t, region, zones, price, i);
    es := ReachWrites(c, o, n);
    NextDiffers(0);
    NextCallOffersIff(NO_LISTS, NO_MARKS, 0, t, region, zones, price, i, o, n);
  }
}
