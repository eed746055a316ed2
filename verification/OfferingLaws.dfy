/** What the stepped offering cache agrees with when nothing is outstanding. */
module OfferingLaws {
  import opened Options
  import opened Availability
  import opened Offerings
  import ZoneNames

  // ---------------------------------------------------------------- whole calls

  /** A number no call has had. */
  predicate Unused(s: Sys, id: nat) {
    id !in s.calls && id !in s.returned
  }

  function Reads(id: nat, n: nat): seq<Event> {
    if n == 0 then [] else [ReadOffer(id), ReadZone(id)] + Reads(id, n - 1)
  }

  /** The steps of a call that recomputes, up to its writes. */
  function BuildEvents(id: nat, t: string, region: string, zones: seq<string>, price: Option<real>): seq<Event> {
    [Begin(id, t, region, zones), Lookup(id, price)] + (if price.Some? then Reads(id, |zones|) else [])
  }

  /** The steps of one call with nothing between them. */
  function CallEvents(s: Sys, id: nat, t: string, region: string, zones: seq<string>, price: Option<real>): seq<Event> {
    if Serves(s.lists, s.now, KeyOf(t, region, zones), SeqNum(s.marks, t)) then
      [Begin(id, t, region, zones), Lookup(id, price)]
    else BuildEvents(id, t, region, zones, price) + [WriteList(id), WriteNumber(id)]
  }

  function Called(s: Sys, id: nat, t: string, region: string, zones: seq<string>, price: Option<real>): Sys {
    var (lists, list) := Create(s.lists, s.marks, s.now, t, region, zones, price);
    s.(lists := lists, returned := s.returned[id := Returned(t, region, zones, SeqNum(s.marks, t), list)])
  }

  lemma RunOne(s: Sys, e: Event)
    requires Enabled(s, e)
    ensures Run(s, [e]) && After(s, [e]) == Next(s, e)
  {
    assert [e][1..] == [];
  }

  lemma RunTwo(s: Sys, e1: Event, e2: Event)
    requires Enabled(s, e1) && Enabled(Next(s, e1), e2)
    ensures Run(s, [e1, e2]) && After(s, [e1, e2]) == Next(Next(s, e1), e2)
  {
    assert [e1, e2][1..] == [e2];
    RunOne(Next(s, e1), e2);
  }

  /** The call with its first `k` zones read. */
  function Upto(s: Sys, id: nat, t: string, region: string, zones: seq<string>, price: Option<real>, k: nat): Sys
    requires k <= |Fresh(s.marks, s.now, t, region, zones, price)|
  {
    var list := Fresh(s.marks, s.now, t, region, zones, price);
    SetCall(s, id, Building(t, region, zones, SeqNum(s.marks, t), price, list[..k], None))
  }

  lemma ReadOneMore(s: Sys, id: nat, t: string, region: string, zones: seq<string>, price: real, k: nat)
    requires k < |zones|
    ensures Run(Upto(s, id, t, region, zones, Some(price), k), [ReadOffer(id), ReadZone(id)])
    ensures After(Upto(s, id, t, region, zones, Some(price), k), [ReadOffer(id), ReadZone(id)])
         == Upto(s, id, t, region, zones, Some(price), k + 1)
  {
    var list := Fresh(s.marks, s.now, t, region, zones, Some(price));
    ReadBoth(s, id, Building(t, region, zones, SeqNum(s.marks, t), Some(price), list[..k], None));
    assert list[..k] + [list[k]] == list[..k + 1];
  }

  lemma SetTwice(s: Sys, id: nat, a: Call, b: Call)
    ensures SetCall(SetCall(s, id, a), id, b) == SetCall(s, id, b)
  {
  }

  /** The two reads for the next zone, with nothing between them. */
  lemma ReadBoth(s: Sys, id: nat, c: Call)
    requires c.Building? && !Ready(c) && c.half.None?
    ensures var o := FreshOffering(s.marks, s.now, c.t, c.region, c.zones[|c.acc|], c.price.value);
      && Run(SetCall(s, id, c), [ReadOffer(id), ReadZone(id)])
      && After(SetCall(s, id, c), [ReadOffer(id), ReadZone(id)]) == SetCall(s, id, c.(acc := c.acc + [o]))
  {
    var o := FreshOffering(s.marks, s.now, c.t, c.region, c.zones[|c.acc|], c.price.value);
    var read := c.(half := Some(Live(s.marks.offers, OfferKey(c.t, NextZone(c)), s.now)));
    SetTwice(s, id, c, read);
    SetTwice(s, id, read, c.(acc := c.acc + [o]));
    RunTwo(SetCall(s, id, c), ReadOffer(id), ReadZone(id));
  }

  lemma ReadsJoin(s: Sys, s': Sys, id: nat, n: nat)
    requires n > 0 && Run(s, [ReadOffer(id), ReadZone(id)]) && After(s, [ReadOffer(id), ReadZone(id)]) == s'
    requires Run(s', Reads(id, n - 1))
    ensures Run(s, Reads(id, n)) && After(s, Reads(id, n)) == After(s', Reads(id, n - 1))
  {
    RunSplit(s, [ReadOffer(id), ReadZone(id)], Reads(id, n - 1));
  }

  lemma {:induction false} ReadsBuild(s: Sys, id: nat, t: string, region: string, zones: seq<string>, price: real,
                                      k: nat, n: nat)
    requires k + n == |zones|
    ensures Run(Upto(s, id, t, region, zones, Some(price), k), Reads(id, n))
    ensures After(Upto(s, id, t, region, zones, Some(price), k), Reads(id, n))
         == Upto(s, id, t, region, zones, Some(price), |zones|)
    decreases n
  {
    if n > 0 {
      ReadOneMore(s, id, t, region, zones, price, k);
      ReadsBuild(s, id, t, region, zones, price, k + 1, n - 1);
      ReadsJoin(Upto(s, id, t, region, zones, Some(price), k), Upto(s, id, t, region, zones, Some(price), k + 1),
                id, n);
    }
  }

  /** A call with every zone read. */
  function AllRead(s: Sys, id: nat, t: string, region: string, zones: seq<string>, price: Option<real>): Sys {
    var list := Fresh(s.marks, s.now, t, region, zones, price);
    SetCall(s, id, Building(t, region, zones, SeqNum(s.marks, t), price, list, None))
  }

  lemma BeginBuild(s: Sys, id: nat, t: string, region: string, zones: seq<string>, price: Option<real>)
    requires Unused(s, id) && !Serves(s.lists, s.now, KeyOf(t, region, zones), SeqNum(s.marks, t))
    ensures Run(s, [Begin(id, t, region, zones), Lookup(id, price)])
    ensures After(s, [Begin(id, t, region, zones), Lookup(id, price)]) == Upto(s, id, t, region, zones, price, 0)
  {
    RunTwo(s, Begin(id, t, region, zones), Lookup(id, price));
  }

  /** A call that recomputes gets that far with nothing between its steps. */
  lemma Builds(s: Sys, id: nat, t: string, region: string, zones: seq<string>, price: Option<real>)
    requires Unused(s, id) && !Serves(s.lists, s.now, KeyOf(t, region, zones), SeqNum(s.marks, t))
    ensures Run(s, BuildEvents(id, t, region, zones, price))
    ensures After(s, BuildEvents(id, t, region, zones, price)) == AllRead(s, id, t, region, zones, price)
  {
    var list := Fresh(s.marks, s.now, t, region, zones, price);
    BeginBuild(s, id, t, region, zones, price);
    assert list[..|list|] == list && list[..0] == [];
    if price.Some? {
      ReadsBuild(s, id, t, region, zones, price.value, 0, |zones|);
    }
    RunSplit(s, [Begin(id, t, region, zones), Lookup(id, price)], if price.Some? then Reads(id, |zones|) else []);
  }

  lemma WritesEnd(s: Sys, id: nat, t: string, region: string, zones: seq<string>, price: Option<real>)
    requires Unused(s, id) && !Serves(s.lists, s.now, KeyOf(t, region, zones), SeqNum(s.marks, t))
    ensures Run(AllRead(s, id, t, region, zones, price), [WriteList(id), WriteNumber(id)])
    ensures After(AllRead(s, id, t, region, zones, price), [WriteList(id), WriteNumber(id)])
         == Called(s, id, t, region, zones, price)
  {
    var s' := AllRead(s, id, t, region, zones, price);
    RunTwo(s', WriteList(id), WriteNumber(id));
    var end := Next(Next(s', WriteList(id)), WriteNumber(id));
    assert end.calls == s.calls;
  }

  lemma AtomicHit(s: Sys, id: nat, t: string, region: string, zones: seq<string>, price: Option<real>)
    requires Unused(s, id) && Serves(s.lists, s.now, KeyOf(t, region, zones), SeqNum(s.marks, t))
    ensures Run(s, [Begin(id, t, region, zones), Lookup(id, price)])
    ensures After(s, [Begin(id, t, region, zones), Lookup(id, price)]) == Called(s, id, t, region, zones, price)
  {
    RunTwo(s, Begin(id, t, region, zones), Lookup(id, price));
    var end := Next(Next(s, Begin(id, t, region, zones)), Lookup(id, price));
    assert end.calls == s.calls;
  }

  /** With nothing between its steps, the stepped call is the method's specification. */
  lemma AtomicCall(s: Sys, id: nat, t: string, region: string, zones: seq<string>, price: Option<real>)
    requires Unused(s, id)
    ensures Run(s, CallEvents(s, id, t, region, zones, price))
    ensures After(s, CallEvents(s, id, t, region, zones, price)) == Called(s, id, t, region, zones, price)
  {
    if Serves(s.lists, s.now, KeyOf(t, region, zones), SeqNum(s.marks, t)) {
      AtomicHit(s, id, t, region, zones, price);
    } else {
      Builds(s, id, t, region, zones, price);
      WritesEnd(s, id, t, region, zones, price);
      RunSplit(s, BuildEvents(id, t, region, zones, price), [WriteList(id), WriteNumber(id)]);
    }
  }

  // ---------------------------------------------------------------- nothing outstanding

  predicate Owed(s: Sys, t: string) {
    t in s.pendingTypes || s.pendingZones > 0
  }

  /** A removal the clock has made due and the janitor has not made yet. */
  predicate Unswept(s: Sys, t: string, z: string) {
    Expired(s.marks.offers, OfferKey(t, z), s.now) || Expired(s.marks.zones, z, s.now)
  }

  /** An offering differs from the marks only while an increment is owed or a removal is due, and a
      removal that is due can only make it look unavailable. */
  predicate Excused(s: Sys, t: string, o: Offering) {
    && ':' !in o.zone
    && (o.available && IsUnavailable(s.marks, s.now, t, o.zone) ==> Owed(s, t))
    && (!o.available && !IsUnavailable(s.marks, s.now, t, o.zone) ==> Owed(s, t) || Unswept(s, t, o.zone))
  }

  predicate AllExcused(s: Sys, t: string, list: seq<Offering>) {
    forall i :: 0 <= i < |list| ==> Excused(s, t, list[i])
  }

  /** What the call has read so far is excused. */
  predicate ExcusedSoFar(s: Sys, t: string, c: Call) {
    match c
    case Started(_, _, _, _) => true
    case Building(_, _, _, _, _, acc, half) =>
      && AllExcused(s, t, acc)
      && (!Ready(c) && half.Some? ==> HalfExcused(s, t, NextZone(c), half.value))
    case Stored(_, _, _, _, list) => AllExcused(s, t, list)
  }

  predicate HalfExcused(s: Sys, t: string, z: string, half: bool) {
    var k := OfferKey(t, z);
    && (half && !Live(s.marks.offers, k, s.now) ==> Owed(s, t) || Expired(s.marks.offers, k, s.now))
    && (!half && Live(s.marks.offers, k, s.now) ==> Owed(s, t))
  }

  ghost predicate Settled(s: Sys, key: Key) {
    var t := key.machineType;
    && (key in s.lists.cache && LastSeen(s.lists, t) == Bumps(s.marks, t) ==> AllExcused(s, t, s.lists.cache[key].list))
    && (forall id :: id in s.calls && s.calls[id].t == t && s.calls[id].seqNum == Bumps(s.marks, t) ==>
          ExcusedSoFar(s, t, s.calls[id]))
  }

  /** A list is empty, or offers exactly the zones of its key. */
  ghost predicate Covers(list: seq<Offering>, zones: set<string>) {
    list == [] || CoversAll(list, zones)
  }

  ghost predicate ShapedSoFar(c: Call) {
    match c
    case Started(_, _, _, _) => true
    case Building(_, _, zones, _, price, acc, _) =>
      && |acc| <= |zones| && (price.None? ==> acc == [])
      && forall i :: 0 <= i < |acc| ==> acc[i].zone == ZoneNames.SanitizeZone(zones[i])
    case Stored(_, _, _, _, list) => Covers(list, CallKey(c).zones)
  }

  ghost predicate Shaped(s: Sys, key: Key) {
    && (key in s.lists.cache ==> Covers(s.lists.cache[key].list, key.zones))
    && (forall id :: id in s.calls ==> ShapedSoFar(s.calls[id]))
  }

  lemma ShapedSetCall(s: Sys, key: Key, id: nat, c: Call)
    requires Shaped(s, key) && ShapedSoFar(c)
    ensures Shaped(SetCall(s, id, c), key)
  {
  }

  lemma ShapedStep(s: Sys, e: Event, key: Key)
    requires Enabled(s, e) && Shaped(s, key)
    ensures Shaped(Next(s, e), key)
  {
    if !OfACall(e) {
      OthersKeepCalls(s, e);
    } else if e.WriteList? {
      ShapedWrite(s, e.id, key);
    } else if e.id in Next(s, e).calls {
      ShapedSetCall(s, key, e.id, Next(s, e).calls[e.id]);
    }
  }

  lemma ShapedWrite(s: Sys, id: nat, key: Key)
    requires Enabled(s, WriteList(id)) && Shaped(s, key)
    ensures Shaped(Next(s, WriteList(id)), key)
  {
    var c := s.calls[id];
    assert ShapedSoFar(c);
    if c.price.Some? {
      ZoneByZone(c.acc, c.zones);
    }
    assert Covers(c.acc, CallKey(c).zones);
  }

  lemma ExcusedStep(s: Sys, e: Event, t: string, o: Offering)
    requires Enabled(s, e) && !e.FlushMarks? && ':' !in t
    requires Bumps(Next(s, e).marks, t) == Bumps(s.marks, t)
    requires Excused(s, t, o)
    ensures Excused(Next(s, e), t, o)
  {
    TypeOfKeyIff(t, o.zone);
    if (e.SetMark? || e.Delete?) && OfferKey(e.t, e.zone) == OfferKey(t, o.zone) {
      OfferKeyInjective(t, o.zone, e.t, e.zone);
    }
    match e
    case Evict(_) =>
    case Delete(_, _) =>
    case SetMark(_, _) =>
    case EvictMarkedZone(_) =>
    case _ =>
  }

  lemma HalfStep(s: Sys, e: Event, t: string, z: string, half: bool)
    requires Enabled(s, e) && !e.FlushMarks? && ':' !in t && ':' !in z
    requires Bumps(Next(s, e).marks, t) == Bumps(s.marks, t)
    requires HalfExcused(s, t, z, half)
    ensures HalfExcused(Next(s, e), t, z, half)
  {
    TypeOfKeyIff(t, z);
    if (e.SetMark? || e.Delete?) && OfferKey(e.t, e.zone) == OfferKey(t, z) {
      OfferKeyInjective(t, z, e.t, e.zone);
    }
  }

  /** A step of another component leaves excused what was, as long as it announces nothing. */
  lemma SoFarStep(s: Sys, e: Event, t: string, c: Call)
    requires Enabled(s, e) && !OfACall(e) && !e.FlushMarks? && ':' !in t
    requires Bumps(Next(s, e).marks, t) == Bumps(s.marks, t)
    requires ExcusedSoFar(s, t, c)
    ensures ExcusedSoFar(Next(s, e), t, c)
  {
    forall o: Offering | Excused(s, t, o) ensures Excused(Next(s, e), t, o) {
      ExcusedStep(s, e, t, o);
    }
    if c.Building? && !Ready(c) && c.half.Some? {
      ZoneNames.SanitizedShape(c.zones[|c.acc|]);
      HalfStep(s, e, t, NextZone(c), c.half.value);
    }
  }

  /** The steps of everything else. */
  lemma SettledOtherStep(s: Sys, e: Event, key: Key)
    requires !OfACall(e) && !e.FlushMarks?
    requires Enabled(s, e) && ':' !in key.machineType
    requires Tidy(s, key) && Settled(s, key)
    ensures Settled(Next(s, e), key)
  {
    var t := key.machineType;
    var s' := Next(s, e);
    OthersLeaveCalls(s, e, t);
    if Bumps(s'.marks, t) == Bumps(s.marks, t) {
      forall id | id in s.calls && s.calls[id].t == t && s.calls[id].seqNum == Bumps(s.marks, t)
        ensures ExcusedSoFar(s', t, s.calls[id])
      {
        SoFarStep(s, e, t, s.calls[id]);
      }
      forall o: Offering | Excused(s, t, o) ensures Excused(s', t, o) {
        ExcusedStep(s, e, t, o);
      }
    } else {
      forall id | id in s.calls && s.calls[id].t == t ensures s.calls[id].seqNum < Bumps(s'.marks, t) {
        assert Sane(s, key, s.calls[id]);
      }
    }
  }

  lemma SettledSetCall(s: Sys, key: Key, id: nat, c: Call)
    requires Settled(s, key)
    requires c.t == key.machineType && c.seqNum == Bumps(s.marks, key.machineType) ==>
      ExcusedSoFar(s, key.machineType, c)
    ensures Settled(SetCall(s, id, c), key)
  {
    var s' := SetCall(s, id, c);
    var t := key.machineType;
    forall o: Offering | Excused(s, t, o) ensures Excused(s', t, o) {}
    forall other | other in s'.calls && s'.calls[other].t == t && s'.calls[other].seqNum == Bumps(s'.marks, t)
      ensures ExcusedSoFar(s', t, s'.calls[other])
    {
      SameMarks(s, s', t, s'.calls[other]);
    }
  }

  /** Being excused is about the marks, the clock and what is owed. */
  lemma SameMarks(s: Sys, s': Sys, t: string, c: Call)
    requires s'.marks == s.marks && s'.now == s.now
    requires s'.pendingTypes == s.pendingTypes && s'.pendingZones == s.pendingZones
    ensures ExcusedSoFar(s, t, c) <==> ExcusedSoFar(s', t, c)
    ensures forall list :: AllExcused(s, t, list) <==> AllExcused(s', t, list)
  {
    forall o: Offering ensures Excused(s, t, o) <==> Excused(s', t, o) {}
  }

  lemma SettledLists(s: Sys, key: Key, lists: Lists)
    requires Settled(s, key)
    requires key in lists.cache && LastSeen(lists, key.machineType) == Bumps(s.marks, key.machineType) ==>
      AllExcused(s, key.machineType, lists.cache[key].list)
    ensures Settled(s.(lists := lists), key)
  {
    var s' := s.(lists := lists);
    var t := key.machineType;
    forall id | id in s'.calls && s'.calls[id].t == t && s'.calls[id].seqNum == Bumps(s'.marks, t)
      ensures ExcusedSoFar(s', t, s'.calls[id])
    {
      SameMarks(s, s', t, s'.calls[id]);
    }
    if key in lists.cache {
      SameMarks(s, s', t, Started(t, "", [], 0));
    }
  }

  lemma SettledEndCall(s: Sys, key: Key, id: nat, list: seq<Offering>)
    requires Settled(s, key) && id in s.calls
    ensures Settled(EndCall(s, id, list), key)
  {
    var s' := EndCall(s, id, list);
    var t := key.machineType;
    forall other | other in s'.calls && s'.calls[other].t == t && s'.calls[other].seqNum == Bumps(s'.marks, t)
      ensures ExcusedSoFar(s', t, s'.calls[other])
    {
      SameMarks(s, s', t, s'.calls[other]);
    }
    if key in s.lists.cache {
      SameMarks(s, s', t, Started(t, "", [], 0));
    }
  }

  lemma SettledRead(s: Sys, e: Event, key: Key)
    requires (e.ReadOffer? || e.ReadZone?) && Enabled(s, e) && Settled(s, key)
    ensures Settled(Next(s, e), key)
  {
    var c := s.calls[e.id];
    ZoneNames.SanitizedShape(c.zones[|c.acc|]);
    SettledSetCall(s, key, e.id, Next(s, e).calls[e.id]);
  }

  lemma SettledWrite(s: Sys, e: Event, key: Key)
    requires (e.WriteList? || e.WriteNumber?) && Enabled(s, e) && Tidy(s, key) && Settled(s, key)
    ensures Settled(Next(s, e), key)
  {
    var c := s.calls[e.id];
    assert c.t == key.machineType ==> Sane(s, key, c);
    if e.WriteList? {
      var lists := PutList(s.lists, s.now, CallKey(c), c.acc);
      SettledLists(s, key, lists);
      var stored := Stored(c.t, c.region, c.zones, c.seqNum, c.acc);
      SameMarks(s, s.(lists := lists), key.machineType, stored);
      SettledSetCall(s.(lists := lists), key, e.id, stored);
    } else {
      var lists := PutNumber(s.lists, c.t, c.seqNum);
      SettledLists(s, key, lists);
      SettledEndCall(s.(lists := lists), key, e.id, c.list);
    }
  }

  /** The steps of the calls. */
  lemma SettledCallStep(s: Sys, e: Event, key: Key)
    requires OfACall(e) && Enabled(s, e)
    requires Tidy(s, key) && Settled(s, key)
    ensures Settled(Next(s, e), key)
  {
    match e
    case Begin(id, t, region, zones) => SettledSetCall(s, key, id, Started(t, region, zones, SeqNum(s.marks, t)));
    case Lookup(id, price) =>
      var c := s.calls[id];
      if Serves(s.lists, s.now, CallKey(c), c.seqNum) {
        SettledEndCall(s, key, id, s.lists.cache[CallKey(c)].list);
      } else {
        SettledSetCall(s, key, id, Building(c.t, c.region, c.zones, c.seqNum, price, [], None));
      }
    case WriteList(_) => SettledWrite(s, e, key);
    case WriteNumber(_) => SettledWrite(s, e, key);
    case _ => SettledRead(s, e, key);
  }

  lemma {:induction false} SettledRun(s: Sys, es: seq<Event>, key: Key)
    requires Run(s, es) && OneKey(es, key) && Alone(s, es, key.machineType) && NoFlush(es) && ':' !in key.machineType
    requires Tidy(s, key) && Settled(s, key) && Shaped(s, key)
    ensures Tidy(After(s, es), key) && Settled(After(s, es), key) && Shaped(After(s, es), key)
    decreases |es|
  {
    if es != [] {
      var e := es[0];
      assert e in es;
      TidyStep(s, e, key);
      ShapedStep(s, e, key);
      if OfACall(e) {
        SettledCallStep(s, e, key);
      } else {
        SettledOtherStep(s, e, key);
      }
      SettledRun(Next(s, e), es[1..], key);
    }
  }

  /** In every reachable state in which no increment is owed and no removal is due, an undisturbed
      call returns what the recomputation would, zone by zone, whether or not it came from the cache; and
      if every lookup of the type finds a price it returns every zone that was asked for and no other.
      The type's name has no ':', its calls use one key and do not overlap, and nothing was flushed. */
  lemma QuietCallIsFresh(es: seq<Event>, region: string, zones: seq<string>, price: Option<real>, key: Key)
    requires key == KeyOf(key.machineType, region, zones) && ':' !in key.machineType
    requires Run(INIT, es) && OneKey(es, key) && Alone(INIT, es, key.machineType) && NoFlush(es)
    requires var s := After(INIT, es);
             && !Owed(s, key.machineType)
             && (forall z :: Names(key.zones, z) ==> !Unswept(s, key.machineType, z))
             && Bumps(s.marks, key.machineType) < WIDTH
    ensures var s := After(INIT, es);
            var list := Create(s.lists, s.marks, s.now, key.machineType, region, zones, price).1;
            && Covers(list, key.zones)
            && (Priced(INIT, es, key.machineType) && price.Some? ==> CoversAll(list, key.zones))
            && forall i :: 0 <= i < |list| ==>
                 (list[i].available <==> !IsUnavailable(s.marks, s.now, key.machineType, list[i].zone))
  {
    SettledRun(INIT, es, key);
    var s := After(INIT, es);
    QuietState(s, region, zones, price, key);
    var list := Create(s.lists, s.marks, s.now, key.machineType, region, zones, price).1;
    forall i | 0 <= i < |list|
      ensures list[i].available <==> !IsUnavailable(s.marks, s.now, key.machineType, list[i].zone)
    {
      assert Offers(list, list[i].zone);
    }
    if Priced(INIT, es, key.machineType) && price.Some? {
      StockedRun(INIT, es, key.machineType);
      ZoneByZone(Fresh(s.marks, s.now, key.machineType, region, zones, price), zones);
    }
  }

  lemma QuietState(s: Sys, region: string, zones: seq<string>, price: Option<real>, key: Key)
    requires key == KeyOf(key.machineType, region, zones)
    requires Tidy(s, key) && Settled(s, key) && Shaped(s, key) && !Owed(s, key.machineType)
    requires Bumps(s.marks, key.machineType) < WIDTH
    ensures var list := Create(s.lists, s.marks, s.now, key.machineType, region, zones, price).1;
            && Covers(list, key.zones)
            && forall i :: 0 <= i < |list| ==>
                 && (list[i].available ==> !IsUnavailable(s.marks, s.now, key.machineType, list[i].zone))
                 && (!list[i].available ==> IsUnavailable(s.marks, s.now, key.machineType, list[i].zone)
                                            || Unswept(s, key.machineType, list[i].zone))
  {
    var t := key.machineType;
    if Serves(s.lists, s.now, key, SeqNum(s.marks, t)) {
      assert AllExcused(s, t, s.lists.cache[key].list);
    } else if price.Some? {
      ZoneByZone(Fresh(s.marks, s.now, t, region, zones, price), zones);
    }
  }

  /** Even when removals are due, no undisturbed call offers a zone that is out of rotation: what a
      launch is steered by errs on one side only. */
  lemma QuietCallIsSound(es: seq<Event>, region: string, zones: seq<string>, price: Option<real>, key: Key)
    requires key == KeyOf(key.machineType, region, zones) && ':' !in key.machineType
    requires Run(INIT, es) && OneKey(es, key) && Alone(INIT, es, key.machineType) && NoFlush(es)
    requires !Owed(After(INIT, es), key.machineType) && Bumps(After(INIT, es).marks, key.machineType) < WIDTH
    ensures var s := After(INIT, es);
            var list := Create(s.lists, s.marks, s.now, key.machineType, region, zones, price).1;
            forall i :: 0 <= i < |list| && list[i].available ==>
              !IsUnavailable(s.marks, s.now, key.machineType, list[i].zone)
  {
    SettledRun(INIT, es, key);
    QuietState(After(INIT, es), region, zones, price, key);
  }

  lemma CallEventsOnly(s: Sys, id: nat, t: string, region: string, zones: seq<string>, price: Option<real>)
    ensures forall e :: e in CallEvents(s, id, t, region, zones, price) ==>
      !e.FlushMarks? && (e.Begin? ==> e == Begin(id, t, region, zones))
  {
    ReadsOnly(id, |zones|);
  }

  lemma {:induction false} ReadsOnly(id: nat, n: nat)
    ensures forall e :: e in Reads(id, n) ==> e.ReadOffer? || e.ReadZone?
    decreases n
  {
    if n > 0 {
      ReadsOnly(id, n - 1);
    }
  }

  lemma {:induction false} AloneWithoutBegin(s: Sys, es: seq<Event>, t: string)
    requires Run(s, es) && forall e :: e in es ==> !e.Begin?
    ensures Alone(s, es, t)
    decreases |es|
  {
    if es != [] {
      assert es[0] in es;
      AloneWithoutBegin(Next(s, es[0]), es[1..], t);
    }
  }

  /** An undisturbed call overlaps nothing that is not in flight. */
  lemma CallIsAlone(s: Sys, id: nat, t: string, region: string, zones: seq<string>, price: Option<real>, u: string)
    requires Unused(s, id) && Free(s, t)
    ensures Run(s, CallEvents(s, id, t, region, zones, price))
    ensures Alone(s, CallEvents(s, id, t, region, zones, price), u)
  {
    AtomicCall(s, id, t, region, zones, price);
    BeginsOnce(s, id, t, region, zones, price);
    AloneAfterBegin(s, CallEvents(s, id, t, region, zones, price), t, u);
  }

  lemma AloneAfterBegin(s: Sys, es: seq<Event>, t: string, u: string)
    requires Run(s, es) && Free(s, t) && es != [] && es[0].Begin? && es[0].t == t
    requires forall e :: e in es[1..] ==> !e.Begin?
    ensures Alone(s, es, u)
  {
    AloneWithoutBegin(Next(s, es[0]), es[1..], u);
  }

  lemma BeginsOnce(s: Sys, id: nat, t: string, region: string, zones: seq<string>, price: Option<real>)
    ensures var es := CallEvents(s, id, t, region, zones, price);
      es != [] && es[0] == Begin(id, t, region, zones) && forall e :: e in es[1..] ==> !e.Begin?
  {
    var es := CallEvents(s, id, t, region, zones, price);
    ReadsOnly(id, |zones|);
    var readSteps := if price.Some? then Reads(id, |zones|) else [];
    assert forall e :: e in readSteps ==> !e.Begin?;
    if !Serves(s.lists, s.now, KeyOf(t, region, zones), SeqNum(s.marks, t)) {
      assert es[1..] == [Lookup(id, price)] + readSteps + [WriteList(id), WriteNumber(id)];
    }
  }

  lemma {:induction false} NewNumber(used: set<nat>) returns (id: nat)
    ensures forall n :: n in used ==> n < id
    decreases |used|
  {
    if used == {} {
      id := 0;
    } else {
      var n :| n in used;
      var rest := NewNumber(used - {n});
      id := if rest <= n then n + 1 else rest;
      forall m | m in used ensures m < id {
        assert m == n || m in used - {n};
      }
    }
  }

  /** So the lists that one undisturbed InjectOfferings hands to the scheduler and to Create offer nothing
      that is out of rotation, for all types at once. */
  lemma {:induction false} InjectedListsAreSound(es: seq<Event>, types: seq<string>, region: string, zones: seq<string>,
                                                 prices: string -> Option<real>, n: nat, i: nat)
    requires Run(INIT, es) && NoFlush(es) && n < |types|
    requires forall t :: t in types ==>
      && ':' !in t && OneKey(es, KeyOf(t, region, zones)) && Alone(INIT, es, t) && Free(After(INIT, es), t)
      && !Owed(After(INIT, es), t) && Bumps(After(INIT, es).marks, t) < WIDTH
    requires var s := After(INIT, es);
      i < |Inject(s.lists, s.marks, s.now, types, region, zones, prices).1[n]|
    ensures var s := After(INIT, es);
      var o := Inject(s.lists, s.marks, s.now, types, region, zones, prices).1[n][i];
      o.available ==> !IsUnavailable(s.marks, s.now, types[n], o.zone)
    decreases |types|
  {
    var s, t := After(INIT, es), types[0];
    var price := prices(t);
    if n == 0 {
      QuietCallIsSound(es, region, zones, price, KeyOf(t, region, zones));
    } else {
      var id := NewNumber(s.calls.Keys + s.returned.Keys);
      var call := CallEvents(s, id, t, region, zones, price);
      AtomicCall(s, id, t, region, zones, price);
      RunSplit(INIT, es, call);
      CallEventsOnly(s, id, t, region, zones, price);
      forall u | u in types[1..]
        ensures u in types && OneKey(es + call, KeyOf(u, region, zones)) && Alone(INIT, es + call, u)
      {
        CallIsAlone(s, id, t, region, zones, price, u);
        AloneSplit(INIT, es, call, u);
      }
      InjectedListsAreSound(es + call, types[1..], region, zones, prices, n - 1, i);
    }
  }

  // ---------------------------------------------------------------- published prices

  predicate Positive(list: seq<Offering>) {
    forall i :: 0 <= i < |list| ==> list[i].price > 0.0
  }

  predicate PositiveSoFar(c: Call) {
    match c
    case Started(_, _, _, _) => true
    case Building(_, _, _, _, price, acc, _) => Positive(acc) && (price.Some? ==> price.value > 0.0)
    case Stored(_, _, _, _, list) => Positive(list)
  }

  ghost predicate PricesPositive(s: Sys) {
    && (forall k :: k in s.lists.cache ==> Positive(s.lists.cache[k].list))
    && (forall id :: id in s.calls ==> PositiveSoFar(s.calls[id]))
    && (forall id :: id in s.returned ==> Positive(s.returned[id].list))
  }

  lemma PositiveStep(s: Sys, e: Event)
    requires PricesPositive(s) && Enabled(s, e)
    requires e.Lookup? && e.price.Some? ==> e.price.value > 0.0
    ensures PricesPositive(Next(s, e))
  {
    if !OfACall(e) {
      OthersKeepCalls(s, e);
    } else if !e.Begin? {
      assert PositiveSoFar(s.calls[e.id]);
    }
  }

  /** A price list that only ever gives positive prices makes every offering ever returned, cached
      or not, positive. */
  lemma {:induction false} PublishedPricesPositive(s: Sys, es: seq<Event>)
    requires Run(s, es) && PricesPositive(s)
    requires forall e :: e in es && e.Lookup? && e.price.Some? ==> e.price.value > 0.0
    ensures PricesPositive(After(s, es))
    decreases |es|
  {
    if es != [] {
      assert es[0] in es;
      PositiveStep(s, es[0]);
      PublishedPricesPositive(Next(s, es[0]), es[1..]);
    }
  }
}
