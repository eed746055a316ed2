/** The memoised offering lists and the sequence numbers that guard them
    (pkg/providers/instancetype/offering/offering.go).

    The first half is the provider as one call sees it; the second is the same call cut into its
    reads and writes, with marks, evictions and the clock moving between any two of them. */
module Offerings {
  import opened Options
  import opened Availability
  import ZoneNames

  /** One zone's offering of a machine type. */
  datatype Offering = Offering(zone: string, region: string, price: real, available: bool)

  /** The source hashes the zone list as a set. */
  datatype Key = Key(machineType: string, region: string, zones: set<string>)

  datatype Entry = Entry(list: seq<Offering>, expiry: Time)

  /** `last` has one number per machine type, whatever the region and the zone set. */
  datatype Lists = Lists(cache: map<Key, Entry>, last: map<string, nat>)

  const NO_LISTS := Lists(map[], map[])

  function KeyOf(t: string, region: string, zones: seq<string>): Key {
    Key(t, region, set z | z in zones)
  }

  function LastSeen(p: Lists, t: string): nat {
    if t in p.last then p.last[t] else 0
  }

  predicate Serves(p: Lists, now: Time, key: Key, seqNum: nat) {
    key in p.cache && now <= p.cache[key].expiry && LastSeen(p, key.machineType) == seqNum
  }

  function FreshOffering(m: Marks, now: Time, t: string, region: string, zone: string, price: real): Offering {
    var z := ZoneNames.SanitizeZone(zone);
    Offering(z, region, price, !IsUnavailable(m, now, t, z))
  }

  /** The recomputation the cache stands in for. A type without a price gets no offering. */
  function Fresh(m: Marks, now: Time, t: string, region: string, zones: seq<string>,
                 price: Option<real>): seq<Offering>
  {
    if price.None? then []
    else seq(|zones|, i requires 0 <= i < |zones| => FreshOffering(m, now, t, region, zones[i], price.value))
  }

  function PutList(p: Lists, now: Time, key: Key, list: seq<Offering>): Lists {
    p.(cache := p.cache[key := Entry(list, now + OFFERINGS_TTL)])
  }

  function PutNumber(p: Lists, t: string, seqNum: nat): Lists {
    p.(last := p.last[t := seqNum])
  }

  /** The two writes at the end of a call. */
  function Store(p: Lists, now: Time, key: Key, seqNum: nat, list: seq<Offering>): Lists {
    PutNumber(PutList(p, now, key, list), key.machineType, seqNum)
  }

  /** createOfferings when nothing else moves. */
  function Create(p: Lists, m: Marks, now: Time, t: string, region: string, zones: seq<string>,
                  price: Option<real>): (Lists, seq<Offering>)
  {
    var key := KeyOf(t, region, zones);
    var seqNum := SeqNum(m, t);
    if Serves(p, now, key, seqNum) then (p, p.cache[key].list)
    else
      var list := Fresh(m, now, t, region, zones, price);
      (Store(p, now, key, seqNum, list), list)
  }

  /** InjectOfferings when nothing else moves: one call for each type, in order. */
  function Inject(p: Lists, m: Marks, now: Time, types: seq<string>, region: string, zones: seq<string>,
                  prices: string -> Option<real>): (r: (Lists, seq<seq<Offering>>))
    ensures |r.1| == |types|
    decreases |types|
  {
    if types == [] then (p, [])
    else
      var (p', list) := Create(p, m, now, types[0], region, zones, prices(types[0]));
      var (p'', lists) := Inject(p', m, now, types[1..], region, zones, prices);
      (p'', [list] + lists)
  }

  /** With nothing cached for the types, each gets the recomputed list for its own price. */
  lemma {:induction false} InjectRecomputes(p: Lists, m: Marks, now: Time, types: seq<string>, region: string,
                                            zones: seq<string>, prices: string -> Option<real>)
    requires forall i, j :: 0 <= i < j < |types| ==> types[i] != types[j]
    requires forall k :: k in p.cache ==> k.machineType !in types
    ensures var lists := Inject(p, m, now, types, region, zones, prices).1;
      forall n :: 0 <= n < |types| ==> lists[n] == Fresh(m, now, types[n], region, zones, prices(types[n]))
    decreases |types|
  {
    if types != [] {
      var p' := Create(p, m, now, types[0], region, zones, prices(types[0])).0;
      assert types[0] !in types[1..];
      assert forall k :: k in p'.cache ==> k in p.cache || k.machineType == types[0];
      InjectRecomputes(p', m, now, types[1..], region, zones, prices);
    }
  }

  /** Whatever is cached, each type is handled as its own call would be after those before it. */
  lemma {:induction false} InjectOneMore(p: Lists, m: Marks, now: Time, types: seq<string>, t: string, region: string,
                                         zones: seq<string>, prices: string -> Option<real>)
    ensures Inject(p, m, now, [], region, zones, prices) == (p, [])
    ensures var (p', lists) := Inject(p, m, now, types, region, zones, prices);
      var (p'', list) := Create(p', m, now, t, region, zones, prices(t));
      Inject(p, m, now, types + [t], region, zones, prices) == (p'', lists + [list])
    decreases |types|
  {
    if types == [] {
      var (p', list) := Create(p, m, now, t, region, zones, prices(t));
      assert types + [t] == [t] && [t][1..] == [];
      assert Inject(p', m, now, [], region, zones, prices) == (p', []);
      assert [list] + [] == [list] == [] + [list];
    } else {
      var (p1, first) := Create(p, m, now, types[0], region, zones, prices(types[0]));
      assert (types + [t])[1..] == types[1..] + [t];
      InjectOneMore(p1, m, now, types[1..], t, region, zones, prices);
      var (p2, rest) := Inject(p1, m, now, types[1..], region, zones, prices);
      var last := Create(p2, m, now, t, region, zones, prices(t)).1;
      assert [first] + (rest + [last]) == ([first] + rest) + [last];
    }
  }

  class OfferingProvider {
    var cache: map<Key, Entry>
    var lastUnavailableOfferingsSeqNum: map<string, nat>
    const unavailableOfferings: UnavailableOfferings

    function View(): Lists
      reads this
    {
      Lists(cache, lastUnavailableOfferingsSeqNum)
    }

    constructor (marks: UnavailableOfferings)
      ensures View() == NO_LISTS && unavailableOfferings == marks
    {
      cache := map[];
      lastUnavailableOfferingsSeqNum := map[];
      unavailableOfferings := marks;
    }

    /** The price and the time of the call are parameters; the price list is another component. */
    method CreateOfferings(t: string, region: string, zones: seq<string>, price: Option<real>, now: Time)
      returns (offerings: seq<Offering>)
      modifies this
      ensures (View(), offerings) == Create(old(View()), unavailableOfferings.View(), now, t, region, zones, price)
      ensures var key := Key(t, region, set z | z in zones);
        var marks, seqNum := unavailableOfferings.View(), SeqNum(unavailableOfferings.View(), t);
        var lastSeqNum :=
          if t in old(lastUnavailableOfferingsSeqNum) then old(lastUnavailableOfferingsSeqNum)[t] else 0;
        if key in old(cache) && now <= old(cache)[key].expiry && lastSeqNum == seqNum then
          offerings == old(cache)[key].list && unchanged(this)
        else
          && |offerings| == (if price.Some? then |zones| else 0)
          && (forall i :: 0 <= i < |offerings| ==>
                var zone := ZoneNames.SanitizeZone(zones[i]);
                offerings[i] == Offering(zone, region, price.value, !IsUnavailable(marks, now, t, zone)))
          && cache == old(cache)[key := Entry(offerings, now + 300_000_000_000)]
          && lastUnavailableOfferingsSeqNum == old(lastUnavailableOfferingsSeqNum)[t := seqNum]
    {
      var key := KeyOf(t, region, zones);
      var seqNum := unavailableOfferings.ReadSeqNum(t);
      var lastSeqNum := if t in lastUnavailableOfferingsSeqNum then lastUnavailableOfferingsSeqNum[t] else 0;
      if key in cache && now <= cache[key].expiry && lastSeqNum == seqNum {
        return cache[key].list;
      }
      offerings := [];
      if price.Some? {
        for i := 0 to |zones|
          invariant unchanged(this)
          invariant |offerings| == i
          invariant forall j :: 0 <= j < i ==>
            offerings[j] == FreshOffering(unavailableOfferings.View(), now, t, region, zones[j], price.value)
        {
          var sanitized := ZoneNames.SanitizeZone(zones[i]);
          var gone := unavailableOfferings.Unavailable(t, sanitized, now);
          offerings := offerings + [Offering(sanitized, region, price.value, !gone)];
        }
      }
      assert offerings == Fresh(unavailableOfferings.View(), now, t, region, zones, price);
      cache := cache[key := Entry(offerings, now + OFFERINGS_TTL)];
      lastUnavailableOfferingsSeqNum := lastUnavailableOfferingsSeqNum[t := seqNum];
    }

    method InjectOfferings(types: seq<string>, region: string, zones: seq<string>, prices: string -> Option<real>,
                           now: Time)
      returns (lists: seq<seq<Offering>>)
      modifies this
      ensures (View(), lists) == Inject(old(View()), unavailableOfferings.View(), now, types, region, zones, prices)
    {
      lists := [];
      ghost var m := unavailableOfferings.View();
      assert types[0..] == types;
      ghost var whole := Inject(View(), m, now, types, region, zones, prices);
      for i := 0 to |types|
        invariant unavailableOfferings.View() == m
        invariant whole.0 == Inject(View(), m, now, types[i..], region, zones, prices).0
        invariant whole.1 == lists + Inject(View(), m, now, types[i..], region, zones, prices).1
      {
        assert types[i..][1..] == types[i + 1..];
        var offerings := CreateOfferings(types[i], region, zones, prices(types[i]), now);
        lists := lists + [offerings];
      }
      assert Inject(View(), m, now, types[|types|..], region, zones, prices) == (View(), []);
      assert whole.0 == View() && whole.1 == lists;
    }
  }

  // ---------------------------------------------------------------- the call in steps

  /** Where a call in flight stands. `half` is the answer of the first of IsUnavailable's two reads for the zone
      at |acc|. A stored call has written its list and not yet its number. */
  datatype Call =
    | Started(t: string, region: string, zones: seq<string>, seqNum: nat)
    | Building(t: string, region: string, zones: seq<string>, seqNum: nat,
               price: Option<real>, acc: seq<Offering>, half: Option<bool>)
    | Stored(t: string, region: string, zones: seq<string>, seqNum: nat, list: seq<Offering>)

  datatype Returned = Returned(t: string, region: string, zones: seq<string>, seqNum: nat, list: seq<Offering>)

  /** `pendingTypes` and `pendingZones` are the increments that marks and evictions still owe. Calls go by a
      number that is not used again. */
  datatype Sys = Sys(
    now: Time,
    marks: Marks,
    pendingTypes: multiset<string>,
    pendingZones: nat,
    lists: Lists,
    calls: map<nat, Call>,
    returned: map<nat, Returned>)

  const INIT := Sys(0, NO_MARKS, multiset{}, 0, NO_LISTS, map[], map[])

  datatype Event =
    | Tick(d: nat)
    | SetMark(t: string, zone: string) | BumpMark(t: string)
    | SetZoneMark(zone: string) | BumpZoneMark
    | Evict(k: string) | Delete(t: string, zone: string) | EvictMarkedZone(zone: string)
    | FlushMarks
    | Begin(id: nat, t: string, region: string, zones: seq<string>)
    | Lookup(id: nat, price: Option<real>)
    | ReadOffer(id: nat) | ReadZone(id: nat)
    | WriteList(id: nat) | WriteNumber(id: nat)

  predicate OfACall(e: Event) {
    e.Begin? || e.Lookup? || e.ReadOffer? || e.ReadZone? || e.WriteList? || e.WriteNumber?
  }

  predicate Ready(c: Call) {
    c.Building? && (c.price.None? || |c.acc| >= |c.zones|)
  }

  predicate Enabled(s: Sys, e: Event) {
    match e
    case BumpMark(t) => t in s.pendingTypes
    case BumpZoneMark => s.pendingZones > 0
    case Evict(k) => Expired(s.marks.offers, k, s.now)
    case EvictMarkedZone(z) => Expired(s.marks.zones, z, s.now)
    case Begin(id, _, _, _) => id !in s.calls && id !in s.returned
    case Lookup(id, _) => id in s.calls && s.calls[id].Started?
    case ReadOffer(id) => id in s.calls && s.calls[id].Building? && !Ready(s.calls[id]) && s.calls[id].half.None?
    case ReadZone(id) => id in s.calls && s.calls[id].Building? && !Ready(s.calls[id]) && s.calls[id].half.Some?
    case WriteList(id) => id in s.calls && Ready(s.calls[id])
    case WriteNumber(id) => id in s.calls && s.calls[id].Stored?
    case _ => true
  }

  function CallKey(c: Call): Key {
    KeyOf(c.t, c.region, c.zones)
  }

  function NextZone(c: Call): string
    requires c.Building? && !Ready(c)
  {
    ZoneNames.SanitizeZone(c.zones[|c.acc|])
  }

  function SetCall(s: Sys, id: nat, c: Call): Sys {
    s.(calls := s.calls[id := c])
  }

  function EndCall(s: Sys, id: nat, list: seq<Offering>): Sys
    requires id in s.calls
  {
    var c := s.calls[id];
    s.(calls := s.calls - {id}, returned := s.returned[id := Returned(c.t, c.region, c.zones, c.seqNum, list)])
  }

  /** One atomic step. Lookup reads the last-seen number, the cache and, on a miss, the price. As long as no other
      call of the type is in flight nothing else writes the first two, so no interleaving is lost by taking
      them together. */
  function Next(s: Sys, e: Event): Sys
    requires Enabled(s, e)
  {
    match e
    case Tick(d) => s.(now := s.now + d)
    case SetMark(t, z) => s.(marks := SetOffer(s.marks, s.now, t, z), pendingTypes := s.pendingTypes + multiset{t})
    case BumpMark(t) => s.(marks := BumpType(s.marks, t), pendingTypes := s.pendingTypes - multiset{t})
    case SetZoneMark(z) => s.(marks := SetZone(s.marks, s.now, z), pendingZones := s.pendingZones + 1)
    case BumpZoneMark => s.(marks := BumpZones(s.marks), pendingZones := s.pendingZones - 1)
    case Evict(k) => s.(marks := RemoveOffer(s.marks, k), pendingTypes := s.pendingTypes + multiset{TypeOfKey(k)})
    case Delete(t, z) =>
      var k := OfferKey(t, z);
      if k in s.marks.offers then
        s.(marks := RemoveOffer(s.marks, k), pendingTypes := s.pendingTypes + multiset{TypeOfKey(k)})
      else s
    case EvictMarkedZone(z) => s.(marks := RemoveZone(s.marks, z), pendingZones := s.pendingZones + 1)
    case FlushMarks => s.(marks := Flush(s.marks))
    case Begin(id, t, region, zones) => SetCall(s, id, Started(t, region, zones, SeqNum(s.marks, t)))
    case Lookup(id, price) =>
      var c := s.calls[id];
      if Serves(s.lists, s.now, CallKey(c), c.seqNum) then EndCall(s, id, s.lists.cache[CallKey(c)].list)
      else SetCall(s, id, Building(c.t, c.region, c.zones, c.seqNum, price, [], None))
    case ReadOffer(id) =>
      var c := s.calls[id];
      SetCall(s, id, c.(half := Some(Live(s.marks.offers, OfferKey(c.t, NextZone(c)), s.now))))
    case ReadZone(id) =>
      var c := s.calls[id];
      var z := NextZone(c);
      var gone := c.half.value || Live(s.marks.zones, z, s.now);
      SetCall(s, id, c.(acc := c.acc + [Offering(z, c.region, c.price.value, !gone)], half := None))
    case WriteList(id) =>
      var c := s.calls[id];
      SetCall(s.(lists := PutList(s.lists, s.now, CallKey(c), c.acc)), id,
              Stored(c.t, c.region, c.zones, c.seqNum, c.acc))
    case WriteNumber(id) =>
      var c := s.calls[id];
      EndCall(s.(lists := PutNumber(s.lists, c.t, c.seqNum)), id, c.list)
  }

  /** A mark is what UnavailableOfferings does when its two half-steps follow one another directly. */
  lemma MarkInHalves(s: Sys, t: string, zone: string)
    ensures Next(Next(s, SetMark(t, zone)), BumpMark(t)) == s.(marks := MarkUnavailable(s.marks, s.now, t, zone))
    ensures Next(Next(s, SetZoneMark(zone)), BumpZoneMark) == s.(marks := MarkZoneUnavailable(s.marks, s.now, zone))
  {
    assert s.pendingTypes + multiset{t} - multiset{t} == s.pendingTypes;
  }

  /** So is a removal, by the janitor or by Delete. */
  lemma EvictionInHalves(s: Sys, k: string, t: string, zone: string)
    requires k in s.marks.offers
    ensures Expired(s.marks.offers, k, s.now) ==>
      Next(Next(s, Evict(k)), BumpMark(TypeOfKey(k))) == s.(marks := EvictOffer(s.marks, k))
    ensures k == OfferKey(t, zone) ==>
      Next(Next(s, Delete(t, zone)), BumpMark(TypeOfKey(k))) == s.(marks := EvictOffer(s.marks, k))
  {
    var owed := multiset{TypeOfKey(k)};
    assert s.pendingTypes + owed - owed == s.pendingTypes;
  }

  lemma ZoneEvictionInHalves(s: Sys, zone: string)
    requires Expired(s.marks.zones, zone, s.now)
    ensures Next(Next(s, EvictMarkedZone(zone)), BumpZoneMark) == s.(marks := EvictZone(s.marks, zone))
  {
  }

  /** A flush is one step, and a Delete that finds nothing is none. */
  lemma WholeSteps(s: Sys, t: string, zone: string)
    ensures Next(s, FlushMarks) == s.(marks := Flush(s.marks))
    ensures OfferKey(t, zone) !in s.marks.offers ==> Next(s, Delete(t, zone)) == s
    ensures OfferKey(t, zone) !in s.marks.offers ==> EvictOffer(s.marks, OfferKey(t, zone)) == s.marks
  {
  }

  /** The janitor may take a mark exactly when its three minutes are over. */
  lemma MarkEnds(s: Sys, t: string, zone: string, d: nat)
    ensures var marked := Next(Next(s, SetMark(t, zone)), BumpMark(t));
      Enabled(Next(marked, Tick(d)), Evict(OfferKey(t, zone))) <==> d > 180_000_000_000
    ensures var marked := Next(Next(s, SetZoneMark(zone)), BumpZoneMark);
      Enabled(Next(marked, Tick(d)), EvictMarkedZone(zone)) <==> d > 180_000_000_000
  {
  }

  predicate Run(s: Sys, es: seq<Event>)
    decreases |es|
  {
    es == [] || (Enabled(s, es[0]) && Run(Next(s, es[0]), es[1..]))
  }

  function After(s: Sys, es: seq<Event>): Sys
    requires Run(s, es)
    decreases |es|
  {
    if es == [] then s else After(Next(s, es[0]), es[1..])
  }

  lemma {:induction false} RunSplit(s: Sys, a: seq<Event>, b: seq<Event>)
    ensures Run(s, a + b) <==> Run(s, a) && Run(After(s, a), b)
    ensures Run(s, a + b) ==> After(s, a + b) == After(After(s, a), b)
    decreases |a|
  {
    if a == [] {
      assert a + b == b;
    } else {
      assert (a + b)[1..] == a[1..] + b;
      if Enabled(s, a[0]) {
        RunSplit(Next(s, a[0]), a[1..], b);
      }
    }
  }

  /** Calls for the key's machine type all use the key: one region and one zone set. */
  predicate OneKey(es: seq<Event>, key: Key) {
    forall e :: e in es && e.Begin? && e.t == key.machineType ==> KeyOf(e.t, e.region, e.zones) == key
  }

  predicate NoFlush(es: seq<Event>) {
    FlushMarks !in es
  }

  predicate Free(s: Sys, t: string) {
    forall id :: id in s.calls ==> s.calls[id].t != t
  }

  /** No call of the type begins while another of the type is in flight. Calls of other types may overlap. */
  predicate Alone(s: Sys, es: seq<Event>, t: string)
    requires Run(s, es)
    decreases |es|
  {
    es == [] || ((es[0].Begin? && es[0].t == t ==> Free(s, t)) && Alone(Next(s, es[0]), es[1..], t))
  }

  lemma {:induction false} AloneSplit(s: Sys, a: seq<Event>, b: seq<Event>, t: string)
    requires Run(s, a + b) && Run(s, a) && Run(After(s, a), b)
    ensures Alone(s, a + b, t) <==> Alone(s, a, t) && Alone(After(s, a), b, t)
    decreases |a|
  {
    if a == [] {
      assert a + b == b;
    } else {
      assert (a + b)[1..] == a[1..] + b;
      AloneSplit(Next(s, a[0]), a[1..], b, t);
    }
  }

  lemma BumpsStep(s: Sys, e: Event, t: string)
    requires Enabled(s, e)
    ensures Bumps(s.marks, t) <= Bumps(Next(s, e).marks, t) && s.now <= Next(s, e).now
  {
  }

  lemma {:induction false} BumpsGrow(s: Sys, es: seq<Event>, t: string)
    requires Run(s, es)
    ensures Bumps(s.marks, t) <= Bumps(After(s, es).marks, t)
    ensures s.now <= After(s, es).now
    decreases |es|
  {
    if es != [] {
      BumpsStep(s, es[0], t);
      BumpsGrow(Next(s, es[0]), es[1..], t);
    }
  }

  // ---------------------------------------------------------------- numbers never run ahead

  /** A call of the type is under the one key, its number lies between the remembered one and the counters', and
      a list it has stored is still there. Past 2^64 increments the number says nothing. */
  predicate Sane(s: Sys, key: Key, c: Call) {
    && CallKey(c) == key && c.seqNum <= Bumps(s.marks, key.machineType) && c.seqNum < WIDTH
    && (Bumps(s.marks, key.machineType) < WIDTH ==> LastSeen(s.lists, key.machineType) <= c.seqNum)
    && (c.Stored? ==> key in s.lists.cache && s.lists.cache[key].list == c.list)
  }

  /** Every number remembered for the type is one the counters have reached, the type's lists are all under the
      one key, and at most one call of the type is in flight. */
  ghost predicate Tidy(s: Sys, key: Key) {
    var t := key.machineType;
    && (forall k :: k in s.lists.cache && k.machineType == t ==> k == key)
    && LastSeen(s.lists, t) <= Bumps(s.marks, t) && LastSeen(s.lists, t) < WIDTH
    && (forall id :: id in s.calls && s.calls[id].t == t ==> Sane(s, key, s.calls[id]))
    && (forall id, other :: id in s.calls && other in s.calls && s.calls[id].t == t && s.calls[other].t == t ==>
          id == other)
    && (forall id :: id in s.returned && s.returned[id].t == t ==> s.returned[id].seqNum <= Bumps(s.marks, t))
  }

  lemma TidySetCall(s: Sys, key: Key, id: nat, c: Call)
    requires Tidy(s, key)
    requires if id in s.calls then c.t == s.calls[id].t else c.t == key.machineType ==> Free(s, key.machineType)
    requires c.t == key.machineType ==> Sane(s, key, c)
    ensures Tidy(SetCall(s, id, c), key)
  {
  }

  lemma TidyEndCall(s: Sys, key: Key, id: nat, list: seq<Offering>)
    requires Tidy(s, key) && id in s.calls
    ensures Tidy(EndCall(s, id, list), key)
  {
  }

  lemma TidyPutList(s: Sys, key: Key, id: nat)
    requires Tidy(s, key) && id in s.calls && s.calls[id].Building?
    ensures var c := s.calls[id];
      Tidy(s.(lists := PutList(s.lists, s.now, CallKey(c), c.acc)), key)
  {
    var c := s.calls[id];
    var s' := s.(lists := PutList(s.lists, s.now, CallKey(c), c.acc));
    forall other | other in s'.calls && s'.calls[other].t == key.machineType
      ensures Sane(s', key, s'.calls[other])
    {
      assert Sane(s, key, s.calls[other]);
    }
  }

  lemma TidyPutNumber(s: Sys, key: Key, id: nat)
    requires Tidy(s, key) && id in s.calls
    ensures var c := s.calls[id];
      Tidy(s.(lists := PutNumber(s.lists, c.t, c.seqNum)), key)
  {
    var c := s.calls[id];
    var s' := s.(lists := PutNumber(s.lists, c.t, c.seqNum));
    forall other | other in s'.calls && s'.calls[other].t == key.machineType
      ensures Sane(s', key, s'.calls[other])
    {
      assert Sane(s, key, s.calls[other]);
    }
  }

  lemma TidyOtherStep(s: Sys, e: Event, key: Key)
    requires Tidy(s, key) && Enabled(s, e) && !OfACall(e)
    ensures Tidy(Next(s, e), key)
  {
    var s' := Next(s, e);
    OthersLeaveCalls(s, e, key.machineType);
    forall id | id in s'.calls && s'.calls[id].t == key.machineType
      ensures Sane(s', key, s'.calls[id])
    {
      assert Sane(s, key, s.calls[id]);
    }
  }

  lemma OthersLeaveCalls(s: Sys, e: Event, t: string)
    requires Enabled(s, e) && !OfACall(e)
    ensures var s' := Next(s, e);
      s'.calls == s.calls && s'.lists == s.lists && s'.returned == s.returned && Bumps(s.marks, t) <= Bumps(s'.marks, t)
  {
    BumpsStep(s, e, t);
    OthersKeepCalls(s, e);
  }

  lemma OthersKeepCalls(s: Sys, e: Event)
    requires Enabled(s, e) && !OfACall(e)
    ensures Next(s, e).calls == s.calls && Next(s, e).lists == s.lists && Next(s, e).returned == s.returned
  {
    match e
    case Evict(_) =>
    case Delete(_, _) =>
    case EvictMarkedZone(_) =>
    case _ =>
  }

  lemma TidyStep(s: Sys, e: Event, key: Key)
    requires Tidy(s, key) && Enabled(s, e) && OneKey([e], key)
    requires e.Begin? && e.t == key.machineType ==> Free(s, key.machineType)
    ensures Tidy(Next(s, e), key)
  {
    if !OfACall(e) {
      TidyOtherStep(s, e, key);
    } else if e.Begin? {
      assert e in [e];
      TidySetCall(s, key, e.id, Started(e.t, e.region, e.zones, SeqNum(s.marks, e.t)));
    } else {
      TidyCallStep(s, e, key);
    }
  }

  lemma TidyCallStep(s: Sys, e: Event, key: Key)
    requires Tidy(s, key) && Enabled(s, e) && OfACall(e) && !e.Begin?
    ensures Tidy(Next(s, e), key)
  {
    var c := s.calls[e.id];
    assert c.t == key.machineType ==> Sane(s, key, c);
    if e.WriteList? {
      TidyPutList(s, key, e.id);
      TidySetCall(s.(lists := PutList(s.lists, s.now, CallKey(c), c.acc)), key, e.id,
                  Stored(c.t, c.region, c.zones, c.seqNum, c.acc));
    } else if e.WriteNumber? {
      TidyPutNumber(s, key, e.id);
      TidyEndCall(s.(lists := PutNumber(s.lists, c.t, c.seqNum)), key, e.id, c.list);
    } else if e.id in Next(s, e).calls {
      TidySetCall(s, key, e.id, Next(s, e).calls[e.id]);
    } else {
      TidyEndCall(s, key, e.id, s.lists.cache[CallKey(c)].list);
    }
  }

  lemma {:induction false} TidyRun(s: Sys, es: seq<Event>, key: Key)
    requires Tidy(s, key) && Run(s, es) && OneKey(es, key) && Alone(s, es, key.machineType)
    ensures Tidy(After(s, es), key)
    decreases |es|
  {
    if es != [] {
      TidyStep(s, es[0], key);
      TidyRun(Next(s, es[0]), es[1..], key);
    }
  }

  // ---------------------------------------------------------------- what a list covers

  predicate Offers(list: seq<Offering>, z: string) {
    exists i :: 0 <= i < |list| && list[i].zone == z
  }

  predicate Names(zones: set<string>, z: string) {
    exists raw :: raw in zones && ZoneNames.SanitizeZone(raw) == z
  }

  /** An offering for each named zone and for no other. */
  ghost predicate CoversAll(list: seq<Offering>, zones: set<string>) {
    forall z :: Offers(list, z) <==> Names(zones, z)
  }

  lemma ZoneByZone(list: seq<Offering>, zones: seq<string>)
    requires |list| == |zones|
    requires forall i :: 0 <= i < |list| ==> list[i].zone == ZoneNames.SanitizeZone(zones[i])
    ensures CoversAll(list, set z | z in zones)
  {
    var names := set z | z in zones;
    forall z ensures Offers(list, z) <==> Names(names, z) {
      if Offers(list, z) {
        var i :| 0 <= i < |list| && list[i].zone == z;
        assert zones[i] in names;
      }
      if Names(names, z) {
        var raw :| raw in names && ZoneNames.SanitizeZone(raw) == z;
        var i :| 0 <= i < |zones| && zones[i] == raw;
        assert list[i].zone == z;
      }
    }
  }

  /** Every lookup the run makes for the type finds a price. */
  predicate Priced(s: Sys, es: seq<Event>, t: string)
    requires Run(s, es)
    decreases |es|
  {
    || es == []
    || ((es[0].Lookup? && s.calls[es[0].id].t == t ==> es[0].price.Some?) && Priced(Next(s, es[0]), es[1..], t))
  }

  /** The call has, or is on the way to, an offering for each of its zones. */
  ghost predicate CoversSoFar(c: Call) {
    match c
    case Started(_, _, _, _) => true
    case Building(_, _, zones, _, price, acc, _) =>
      && price.Some? && |acc| <= |zones|
      && forall i :: 0 <= i < |acc| ==> acc[i].zone == ZoneNames.SanitizeZone(zones[i])
    case Stored(_, _, _, _, list) => CoversAll(list, CallKey(c).zones)
  }

  /** No list of the type, cached, being built or returned, misses a zone of its key. */
  ghost predicate Stocked(s: Sys, t: string) {
    && (forall k :: k in s.lists.cache && k.machineType == t ==> CoversAll(s.lists.cache[k].list, k.zones))
    && (forall id :: id in s.calls && s.calls[id].t == t ==> CoversSoFar(s.calls[id]))
    && (forall id :: id in s.returned && s.returned[id].t == t ==>
          CoversAll(s.returned[id].list, set z | z in s.returned[id].zones))
  }

  lemma StockedSetCall(s: Sys, id: nat, c: Call, t: string)
    requires Stocked(s, t) && (c.t == t ==> CoversSoFar(c))
    ensures Stocked(SetCall(s, id, c), t)
  {
  }

  lemma StockedWrites(s: Sys, e: Event, t: string)
    requires Stocked(s, t) && Enabled(s, e) && (e.WriteList? || e.WriteNumber?)
    ensures Stocked(Next(s, e), t)
  {
    if e.WriteList? && s.calls[e.id].t == t {
      ZoneByZone(s.calls[e.id].acc, s.calls[e.id].zones);
    }
  }

  lemma StockedStep(s: Sys, e: Event, t: string)
    requires Stocked(s, t) && Enabled(s, e)
    requires e.Lookup? && s.calls[e.id].t == t ==> e.price.Some?
    ensures Stocked(Next(s, e), t)
  {
    if !OfACall(e) {
      OthersKeepCalls(s, e);
    } else if e.WriteList? || e.WriteNumber? {
      StockedWrites(s, e, t);
    } else if e.Lookup? {
      StockedLookup(s, e.id, e.price, t);
    } else {
      StockedSetCall(s, e.id, Next(s, e).calls[e.id], t);
    }
  }

  lemma StockedLookup(s: Sys, id: nat, price: Option<real>, t: string)
    requires Stocked(s, t) && Enabled(s, Lookup(id, price))
    requires s.calls[id].t == t ==> price.Some?
    ensures Stocked(Next(s, Lookup(id, price)), t)
  {
    var c := s.calls[id];
    assert CallKey(c).machineType == c.t && CallKey(c).zones == set z | z in c.zones;
  }

  lemma {:induction false} StockedRun(s: Sys, es: seq<Event>, t: string)
    requires Stocked(s, t) && Run(s, es) && Priced(s, es, t)
    ensures Stocked(After(s, es), t)
    decreases |es|
  {
    if es != [] {
      StockedStep(s, es[0], t);
      StockedRun(Next(s, es[0]), es[1..], t);
    }
  }

  // ---------------------------------------------------------------- a fact about one zone

  /** What can stay true of a (type, zone) while calls go on: its own entry lives, the zone's entry
      lives, or neither does. */
  datatype Fact = OfferLives | ZoneLives | BothGone

  predicate Holds(s: Sys, t: string, z: string, f: Fact) {
    match f
    case OfferLives => Live(s.marks.offers, OfferKey(t, z), s.now)
    case ZoneLives => Live(s.marks.zones, z, s.now)
    case BothGone => !IsUnavailable(s.marks, s.now, t, z)
  }

  predicate Throughout(s: Sys, es: seq<Event>, t: string, z: string, f: Fact)
    requires Run(s, es)
    decreases |es|
  {
    Holds(s, t, z, f) && (es != [] ==> Throughout(Next(s, es[0]), es[1..], t, z, f))
  }

  predicate ListShows(list: seq<Offering>, z: string, available: bool) {
    forall i :: 0 <= i < |list| && list[i].zone == z ==> list[i].available == available
  }

  /** What the call has read so far shows the fact. */
  predicate ShowsSoFar(c: Call, z: string, f: Fact) {
    match c
    case Started(_, _, _, _) => true
    case Building(_, _, _, _, _, acc, half) =>
      && ListShows(acc, z, f.BothGone?)
      && (!Ready(c) && NextZone(c) == z && half.Some? ==>
           (f.OfferLives? ==> half.value) && (f.BothGone? ==> !half.value))
    case Stored(_, _, _, _, list) => ListShows(list, z, f.BothGone?)
  }

  /** Everything that was read under a number past `n` shows the fact. */
  ghost predicate Agree(s: Sys, key: Key, z: string, f: Fact, n: nat) {
    var t := key.machineType;
    && (key in s.lists.cache && LastSeen(s.lists, t) > n ==> ListShows(s.lists.cache[key].list, z, f.BothGone?))
    && (forall id :: id in s.calls && s.calls[id].t == t && s.calls[id].seqNum > n ==> ShowsSoFar(s.calls[id], z, f))
    && (forall id :: id in s.returned && s.returned[id].t == t && s.returned[id].seqNum > n ==>
          ListShows(s.returned[id].list, z, f.BothGone?))
  }

  lemma AgreeSetCall(s: Sys, key: Key, z: string, f: Fact, n: nat, id: nat, c: Call)
    requires Agree(s, key, z, f, n)
    requires c.t == key.machineType && c.seqNum > n ==> ShowsSoFar(c, z, f)
    ensures Agree(SetCall(s, id, c), key, z, f, n)
  {
  }

  lemma AgreeEndCall(s: Sys, key: Key, z: string, f: Fact, n: nat, id: nat, list: seq<Offering>)
    requires Agree(s, key, z, f, n) && id in s.calls
    requires s.calls[id].t == key.machineType && s.calls[id].seqNum > n ==> ListShows(list, z, f.BothGone?)
    ensures Agree(EndCall(s, id, list), key, z, f, n)
  {
  }

  /** The reads. */
  lemma AgreeReadStep(s: Sys, e: Event, key: Key, z: string, f: Fact, n: nat)
    requires (e.ReadOffer? || e.ReadZone?) && Enabled(s, e)
    requires Agree(s, key, z, f, n) && Holds(s, key.machineType, z, f)
    ensures Agree(Next(s, e), key, z, f, n)
  {
    AgreeSetCall(s, key, z, f, n, e.id, Next(s, e).calls[e.id]);
  }

  lemma AgreeLookup(s: Sys, id: nat, price: Option<real>, key: Key, z: string, f: Fact, n: nat)
    requires Enabled(s, Lookup(id, price))
    requires Tidy(s, key) && Agree(s, key, z, f, n)
    ensures Agree(Next(s, Lookup(id, price)), key, z, f, n)
  {
    var c := s.calls[id];
    assert c.t == key.machineType ==> Sane(s, key, c);
    if Serves(s.lists, s.now, CallKey(c), c.seqNum) {
      AgreeEndCall(s, key, z, f, n, id, s.lists.cache[CallKey(c)].list);
    } else {
      AgreeSetCall(s, key, z, f, n, id, Building(c.t, c.region, c.zones, c.seqNum, price, [], None));
    }
  }

  lemma AgreeWriteList(s: Sys, id: nat, key: Key, z: string, f: Fact, n: nat)
    requires Enabled(s, WriteList(id))
    requires Tidy(s, key) && Agree(s, key, z, f, n) && Bumps(s.marks, key.machineType) < WIDTH
    ensures Agree(Next(s, WriteList(id)), key, z, f, n)
  {
    var c := s.calls[id];
    assert c.t == key.machineType ==> Sane(s, key, c);
    var s' := s.(lists := PutList(s.lists, s.now, CallKey(c), c.acc));
    assert Agree(s', key, z, f, n);
    AgreeSetCall(s', key, z, f, n, id, Stored(c.t, c.region, c.zones, c.seqNum, c.acc));
  }

  lemma AgreeWriteNumber(s: Sys, id: nat, key: Key, z: string, f: Fact, n: nat)
    requires Enabled(s, WriteNumber(id))
    requires Tidy(s, key) && Agree(s, key, z, f, n)
    ensures Agree(Next(s, WriteNumber(id)), key, z, f, n)
  {
    var c := s.calls[id];
    assert c.t == key.machineType ==> Sane(s, key, c);
    var s' := s.(lists := PutNumber(s.lists, c.t, c.seqNum));
    assert Agree(s', key, z, f, n);
    AgreeEndCall(s', key, z, f, n, id, c.list);
  }

  lemma AgreeCallStep(s: Sys, e: Event, key: Key, z: string, f: Fact, n: nat)
    requires OfACall(e) && Enabled(s, e)
    requires Tidy(s, key) && Agree(s, key, z, f, n) && Bumps(s.marks, key.machineType) < WIDTH
    requires Holds(s, key.machineType, z, f)
    ensures Agree(Next(s, e), key, z, f, n)
  {
    match e
    case Begin(id, t, region, zones) =>
      AgreeSetCall(s, key, z, f, n, id, Started(t, region, zones, SeqNum(s.marks, t)));
    case Lookup(id, price) => AgreeLookup(s, id, price, key, z, f, n);
    case WriteList(id) => AgreeWriteList(s, id, key, z, f, n);
    case WriteNumber(id) => AgreeWriteNumber(s, id, key, z, f, n);
    case _ => AgreeReadStep(s, e, key, z, f, n);
  }

  lemma AgreeOtherStep(s: Sys, e: Event, key: Key, z: string, f: Fact, n: nat)
    requires !OfACall(e) && Enabled(s, e)
    requires Agree(s, key, z, f, n)
    ensures Agree(Next(s, e), key, z, f, n)
  {
    OthersLeaveCalls(s, e, key.machineType);
  }

  lemma {:induction false} AgreeRun(s: Sys, es: seq<Event>, key: Key, z: string, f: Fact, n: nat)
    requires Run(s, es) && OneKey(es, key) && Alone(s, es, key.machineType)
    requires Tidy(s, key) && Agree(s, key, z, f, n)
    requires Throughout(s, es, key.machineType, z, f) && Bumps(After(s, es).marks, key.machineType) < WIDTH
    ensures Agree(After(s, es), key, z, f, n)
    decreases |es|
  {
    if es != [] {
      BumpsGrow(s, es, key.machineType);
      TidyStep(s, es[0], key);
      if OfACall(es[0]) {
        AgreeCallStep(s, es[0], key, z, f, n);
      } else {
        AgreeOtherStep(s, es[0], key, z, f, n);
      }
      AgreeRun(Next(s, es[0]), es[1..], key, z, f, n);
    }
  }

  /** A call that has begun is in flight or has returned. */
  predicate InFlightOrReturned(s: Sys, id: nat, key: Key, seqNum: nat) {
    if id in s.calls then id !in s.returned && CallKey(s.calls[id]) == key && s.calls[id].seqNum == seqNum
    else
      && id in s.returned && s.returned[id].seqNum == seqNum
      && KeyOf(s.returned[id].t, s.returned[id].region, s.returned[id].zones) == key
  }

  lemma {:induction false} FollowCall(s: Sys, es: seq<Event>, id: nat, key: Key, seqNum: nat)
    requires Run(s, es) && InFlightOrReturned(s, id, key, seqNum)
    ensures InFlightOrReturned(After(s, es), id, key, seqNum)
    decreases |es|
  {
    if es != [] {
      FollowCall(Next(s, es[0]), es[1..], id, key, seqNum);
    }
  }

  /** The numbers of a call that begins once `announced` has happened. */
  lemma LateCall(s: Sys, announced: seq<Event>, id: nat, region: string, zones: seq<string>, rest: seq<Event>, key: Key)
    requires key == KeyOf(key.machineType, region, zones)
    requires var es := announced + [Begin(id, key.machineType, region, zones)] + rest;
             && Run(s, es) && Run(s, announced)
             && Bumps(After(s, announced).marks, key.machineType) > Bumps(s.marks, key.machineType)
             && Bumps(After(s, es).marks, key.machineType) < WIDTH
    ensures var end := After(s, announced + [Begin(id, key.machineType, region, zones)] + rest);
            exists seqNum: nat :: seqNum > Bumps(s.marks, key.machineType) && InFlightOrReturned(end, id, key, seqNum)
  {
    var t := key.machineType;
    var begin := [Begin(id, t, region, zones)];
    assert announced + begin + rest == announced + (begin + rest);
    RunSplit(s, announced, begin + rest);
    var mid := After(s, announced);
    assert (begin + rest)[1..] == rest;
    BumpsGrow(mid, begin + rest, t);
    FollowCall(Next(mid, begin[0]), rest, id, key, SeqNum(mid.marks, t));
  }

  /** The refinement. From any reachable state, let a fact about one zone hold from now on, let the
      number move at least once after it began to hold, and let a call begin after that. However the
      other steps fall between the call's own, the list it returns shows the fact; and if the type was
      priced all along, the list offers exactly the zones that were asked for. No two calls of the type
      overlap. */
  lemma LaterCallsShowTheFact(past: seq<Event>, announced: seq<Event>, id: nat, region: string, zones: seq<string>,
                              rest: seq<Event>, key: Key, z: string, f: Fact)
    requires key == KeyOf(key.machineType, region, zones)
    requires Run(INIT, past) && OneKey(past, key) && Alone(INIT, past, key.machineType)
    requires var s := After(INIT, past);
             var es := announced + [Begin(id, key.machineType, region, zones)] + rest;
             && Run(s, es) && Throughout(s, es, key.machineType, z, f)
             && OneKey(es, key) && Alone(s, es, key.machineType)
             && Run(s, announced)
             && Bumps(After(s, announced).marks, key.machineType) > Bumps(s.marks, key.machineType)
             && Bumps(After(s, es).marks, key.machineType) < WIDTH
    ensures var s := After(INIT, past);
            var es := announced + [Begin(id, key.machineType, region, zones)] + rest;
            var end := After(s, es);
            && (id in end.calls || id in end.returned)
            && (id in end.returned ==>
                 && end.returned[id].t == key.machineType && ListShows(end.returned[id].list, z, f.BothGone?)
                 && (Priced(INIT, past, key.machineType) && Priced(s, es, key.machineType) ==>
                      CoversAll(end.returned[id].list, key.zones)))
  {
    var t := key.machineType;
    var s := After(INIT, past);
    var es := announced + [Begin(id, t, region, zones)] + rest;
    TidyRun(INIT, past, key);
    TidyNumbers(s, key);
    AgreeRun(s, es, key, z, f, Bumps(s.marks, t));
    LateCall(s, announced, id, region, zones, rest, key);
    if Priced(INIT, past, t) && Priced(s, es, t) {
      StockedRun(INIT, past, t);
      StockedRun(s, es, t);
    }
  }

  /** Nothing has been read under a number past the counters yet. */
  lemma TidyNumbers(s: Sys, key: Key)
    requires Tidy(s, key)
    ensures forall z, f :: Agree(s, key, z, f, Bumps(s.marks, key.machineType))
  {
  }

  // ---------------------------------------------------------------- marks and evictions

  predicate Removes(e: Event, t: string, z: string) {
    e.FlushMarks? || (e.Delete? && OfferKey(e.t, e.zone) == OfferKey(t, z))
  }

  lemma EntryStays(s: Sys, e: Event, t: string, z: string, until: Time)
    requires Enabled(s, e) && OfferKey(t, z) in s.marks.offers && !Removes(e, t, z)
    requires s.now <= until <= s.marks.offers[OfferKey(t, z)]
    requires until <= s.now + UNAVAILABLE_OFFERINGS_TTL
    ensures OfferKey(t, z) in Next(s, e).marks.offers && until <= Next(s, e).marks.offers[OfferKey(t, z)]
    ensures s.now <= Next(s, e).now
  {
  }

  lemma {:induction false} EntryLivesOn(s: Sys, es: seq<Event>, t: string, z: string, until: Time)
    requires Run(s, es) && OfferKey(t, z) in s.marks.offers
    requires After(s, es).now <= until <= s.marks.offers[OfferKey(t, z)]
    requires until <= s.now + UNAVAILABLE_OFFERINGS_TTL
    requires forall e :: e in es ==> !Removes(e, t, z)
    ensures Throughout(s, es, t, z, OfferLives)
    decreases |es|
  {
    BumpsGrow(s, es, t);
    if es != [] {
      assert es[0] in es;
      EntryStays(s, es[0], t, z, until);
      EntryLivesOn(Next(s, es[0]), es[1..], t, z, until);
    }
  }

  /** Once a mark's increment has happened, and while the mark lives, no call that begins later
      returns the zone as available. */
  lemma MarkReachesLaterCalls(past: seq<Event>, t: string, z: string, gap: seq<Event>, more: seq<Event>,
                              id: nat, region: string, zones: seq<string>, rest: seq<Event>)
    requires var head := past + [SetMark(t, z)];
             var es := gap + [BumpMark(t)] + more + [Begin(id, t, region, zones)] + rest;
             && Run(INIT, head) && Run(After(INIT, head), es)
             && OneKey(head, KeyOf(t, region, zones)) && OneKey(es, KeyOf(t, region, zones))
             && Alone(INIT, head, t) && Alone(After(INIT, head), es, t)
             && (forall e :: e in es ==> !Removes(e, t, z))
             && After(After(INIT, head), es).now <= After(INIT, head).now + UNAVAILABLE_OFFERINGS_TTL
             && Bumps(After(After(INIT, head), es).marks, t) < WIDTH
    ensures var es := gap + [BumpMark(t)] + more + [Begin(id, t, region, zones)] + rest;
            var end := After(After(INIT, past + [SetMark(t, z)]), es);
            && (id in end.calls || id in end.returned)
            && (id in end.returned ==>
                 && end.returned[id].t == t
                 && forall i :: 0 <= i < |end.returned[id].list| && end.returned[id].list[i].zone == z ==>
                      !end.returned[id].list[i].available)
  {
    var head := past + [SetMark(t, z)];
    RunSplit(INIT, past, [SetMark(t, z)]);
    var s := After(INIT, head);
    var announced := gap + [BumpMark(t)] + more;
    var es := announced + [Begin(id, t, region, zones)] + rest;
    assert announced + ([Begin(id, t, region, zones)] + rest) == es;
    EntryLivesOn(s, es, t, z, s.now + UNAVAILABLE_OFFERINGS_TTL);
    RunSplit(s, announced, [Begin(id, t, region, zones)] + rest);
    BumpHappens(s, gap, t, more);
    LaterCallsShowTheFact(head, announced, id, region, zones, rest, KeyOf(t, region, zones), z, OfferLives);
  }

  lemma BumpHappens(s: Sys, gap: seq<Event>, t: string, more: seq<Event>)
    requires Run(s, gap + [BumpMark(t)] + more)
    ensures Bumps(After(s, gap + [BumpMark(t)] + more).marks, t) > Bumps(s.marks, t)
  {
    var tail := [BumpMark(t)] + more;
    assert gap + [BumpMark(t)] + more == gap + tail;
    RunSplit(s, gap, tail);
    BumpsGrow(s, gap, t);
    var mid := After(s, gap);
    assert tail[1..] == more;
    BumpsGrow(Next(mid, tail[0]), more, t);
  }

  lemma ZoneEntryStays(s: Sys, e: Event, z: string, until: Time)
    requires Enabled(s, e) && z in s.marks.zones && !e.FlushMarks?
    requires s.now <= until <= s.marks.zones[z]
    requires until <= s.now + UNAVAILABLE_OFFERINGS_TTL
    ensures z in Next(s, e).marks.zones && until <= Next(s, e).marks.zones[z]
    ensures s.now <= Next(s, e).now
  {
  }

  lemma {:induction false} ZoneEntryLivesOn(s: Sys, es: seq<Event>, t: string, z: string, until: Time)
    requires Run(s, es) && z in s.marks.zones
    requires After(s, es).now <= until <= s.marks.zones[z]
    requires until <= s.now + UNAVAILABLE_OFFERINGS_TTL
    requires NoFlush(es)
    ensures Throughout(s, es, t, z, ZoneLives)
    decreases |es|
  {
    BumpsGrow(s, es, t);
    if es != [] {
      assert es[0] in es;
      ZoneEntryStays(s, es[0], z, until);
      ZoneEntryLivesOn(Next(s, es[0]), es[1..], t, z, until);
    }
  }

  /** The same for a whole zone: once the zone mark's increment has happened, and while the mark lives, no
      call of any type that begins later returns the zone as available. */
  lemma ZoneMarkReachesLaterCalls(past: seq<Event>, t: string, z: string, gap: seq<Event>, more: seq<Event>,
                              id: nat, region: string, zones: seq<string>, rest: seq<Event>)
    requires var head := past + [SetZoneMark(z)];
             var es := gap + [BumpZoneMark] + more + [Begin(id, t, region, zones)] + rest;
             && Run(INIT, head) && Run(After(INIT, head), es)
             && OneKey(head, KeyOf(t, region, zones)) && OneKey(es, KeyOf(t, region, zones))
             && Alone(INIT, head, t) && Alone(After(INIT, head), es, t)
             && NoFlush(es)
             && After(After(INIT, head), es).now <= After(INIT, head).now + UNAVAILABLE_OFFERINGS_TTL
             && Bumps(After(After(INIT, head), es).marks, t) < WIDTH
    ensures var es := gap + [BumpZoneMark] + more + [Begin(id, t, region, zones)] + rest;
            var end := After(After(INIT, past + [SetZoneMark(z)]), es);
            && (id in end.calls || id in end.returned)
            && (id in end.returned ==>
                 && end.returned[id].t == t
                 && forall i :: 0 <= i < |end.returned[id].list| && end.returned[id].list[i].zone == z ==>
                      !end.returned[id].list[i].available)
  {
    var head := past + [SetZoneMark(z)];
    RunSplit(INIT, past, [SetZoneMark(z)]);
    var s := After(INIT, head);
    var announced := gap + [BumpZoneMark] + more;
    var es := announced + [Begin(id, t, region, zones)] + rest;
    assert announced + ([Begin(id, t, region, zones)] + rest) == es;
    ZoneEntryLivesOn(s, es, t, z, s.now + UNAVAILABLE_OFFERINGS_TTL);
    RunSplit(s, announced, [Begin(id, t, region, zones)] + rest);
    ZoneBumpHappens(s, gap, t, more);
    LaterCallsShowTheFact(head, announced, id, region, zones, rest, KeyOf(t, region, zones), z, ZoneLives);
  }

  lemma ZoneBumpHappens(s: Sys, gap: seq<Event>, t: string, more: seq<Event>)
    requires Run(s, gap + [BumpZoneMark] + more)
    ensures Bumps(After(s, gap + [BumpZoneMark] + more).marks, t) > Bumps(s.marks, t)
  {
    var tail := [BumpZoneMark] + more;
    assert gap + [BumpZoneMark] + more == gap + tail;
    RunSplit(s, gap, tail);
    BumpsGrow(s, gap, t);
    var mid := After(s, gap);
    assert tail[1..] == more;
    BumpsGrow(Next(mid, tail[0]), more, t);
  }

  predicate MarksPair(e: Event, t: string, z: string) {
    (e.SetMark? && OfferKey(e.t, e.zone) == OfferKey(t, z)) || (e.SetZoneMark? && e.zone == z)
  }

  lemma {:induction false} StaysGone(s: Sys, es: seq<Event>, t: string, z: string)
    requires Run(s, es) && Holds(s, t, z, BothGone)
    requires forall e :: e in es ==> !MarksPair(e, t, z)
    ensures Throughout(s, es, t, z, BothGone)
    decreases |es|
  {
    if es != [] {
      assert es[0] in es;
      StaysGone(Next(s, es[0]), es[1..], t, z);
    }
  }

  /** Once an entry has been removed, its callback has run and nothing marks the zone again, every
      call that begins later returns the zone as available, and does return it when the zone was asked for
      and the type was priced all along. It takes a type with no ':' in its name: otherwise the callback
      counts for another type. */
  lemma EvictionReachesLaterCalls(past: seq<Event>, t: string, z: string, gap: seq<Event>, more: seq<Event>,
                                  id: nat, region: string, zones: seq<string>, rest: seq<Event>)
    requires ':' !in t
    requires var k := OfferKey(t, z);
             var head := past + [Evict(k)];
             var es := gap + [BumpMark(TypeOfKey(k))] + more + [Begin(id, t, region, zones)] + rest;
             && Run(INIT, head) && Run(After(INIT, head), es)
             && Holds(After(INIT, head), t, z, BothGone)
             && OneKey(head, KeyOf(t, region, zones)) && OneKey(es, KeyOf(t, region, zones))
             && Alone(INIT, head, t) && Alone(After(INIT, head), es, t)
             && (forall e :: e in es ==> !MarksPair(e, t, z))
             && Bumps(After(After(INIT, head), es).marks, t) < WIDTH
    ensures var k := OfferKey(t, z);
            var head := past + [Evict(k)];
            var es := gap + [BumpMark(TypeOfKey(k))] + more + [Begin(id, t, region, zones)] + rest;
            var end := After(After(INIT, head), es);
            && (id in end.calls || id in end.returned)
            && (id in end.returned ==>
                 && end.returned[id].t == t
                 && (forall i :: 0 <= i < |end.returned[id].list| && end.returned[id].list[i].zone == z ==>
                       end.returned[id].list[i].available)
                 && (Priced(INIT, head, t) && Priced(After(INIT, head), es, t) ==>
                      (Offers(end.returned[id].list, z) <==> Names(KeyOf(t, region, zones).zones, z))))
  {
    var k := OfferKey(t, z);
    TypeOfKeyIff(t, z);
    var head := past + [Evict(k)];
    var s := After(INIT, head);
    var announced := gap + [BumpMark(t)] + more;
    var es := announced + [Begin(id, t, region, zones)] + rest;
    assert announced + ([Begin(id, t, region, zones)] + rest) == es;
    StaysGone(s, es, t, z);
    RunSplit(s, announced, [Begin(id, t, region, zones)] + rest);
    BumpHappens(s, gap, t, more);
    LaterCallsShowTheFact(head, announced, id, region, zones, rest, KeyOf(t, region, zones), z, BothGone);
  }
}
