/** The inputs and the runs on which the offering cache does not agree with the marks, and exactly when. */
module OfferingLimits {
  import opened Options
  import opened Availability
  import opened Offerings
  import opened OfferingLaws
  import ZoneNames

  /** A call that begins now, with nothing between its steps. */
  function NextList(s: Sys, t: string, region: string, zones: seq<string>): seq<Offering> {
    Create(s.lists, s.marks, s.now, t, region, zones, Some(1.0)).1
  }

  /** The next call shows a zone available although the zone's mark lives, nothing is owed and no call of the type
      is in flight. */
  ghost predicate OffersMarkedZone(s: Sys, t: string, region: string, zones: seq<string>, z: string) {
    && !Owed(s, t) && Free(s, t)
    && Live(s.marks.offers, OfferKey(t, z), s.now)
    && var list := NextList(s, t, region, zones);
       exists i :: 0 <= i < |list| && list[i].zone == z && list[i].available
  }

  /** The next call shows a zone unavailable although no mark for it is left, nothing is owed and no call of the
      type is in flight. */
  ghost predicate WithholdsFreeZone(s: Sys, t: string, region: string, zones: seq<string>, z: string) {
    && !Owed(s, t) && Free(s, t)
    && OfferKey(t, z) !in s.marks.offers && z !in s.marks.zones
    && var list := NextList(s, t, region, zones);
       exists i :: 0 <= i < |list| && list[i].zone == z && !list[i].available
  }

  // ---------------------------------------------------------------- building a run

  /** A region and the zones asked for in it. */
  type Place = (string, seq<string>)

  predicate CallsOnly(es: seq<Event>, t: string, places: set<Place>) {
    forall e :: e in es && e.Begin? ==> e.t == t && (e.region, e.zones) in places
  }

  /** `es` leads from the start to `s` by calls for these places that do not overlap and by other steps, without
      a flush. */
  ghost predicate Reaches(es: seq<Event>, s: Sys, t: string, places: set<Place>) {
    Run(INIT, es) && After(INIT, es) == s && NoFlush(es) && CallsOnly(es, t, places) && Alone(INIT, es, t)
  }

  lemma StepOn(es: seq<Event>, s: Sys, e: Event, t: string, places: set<Place>) returns (es': seq<Event>)
    requires Reaches(es, s, t, places) && Enabled(s, e) && !e.Begin? && !e.FlushMarks?
    ensures Reaches(es', Next(s, e), t, places)
  {
    RunOne(s, e);
    RunSplit(INIT, es, [e]);
    AloneWithoutBegin(s, [e], t);
    AloneSplit(INIT, es, [e], t);
    es' := es + [e];
  }

  lemma CallOn(es: seq<Event>, s: Sys, id: nat, t: string, region: string, zones: seq<string>, places: set<Place>)
    returns (es': seq<Event>)
    requires Reaches(es, s, t, places) && Unused(s, id) && Free(s, t) && (region, zones) in places
    ensures Reaches(es', Called(s, id, t, region, zones, Some(1.0)), t, places)
  {
    var call := CallEvents(s, id, t, region, zones, Some(1.0));
    AtomicCall(s, id, t, region, zones, Some(1.0));
    CallEventsOnly(s, id, t, region, zones, Some(1.0));
    CallIsAlone(s, id, t, region, zones, Some(1.0), t);
    RunSplit(INIT, es, call);
    AloneSplit(INIT, es, call, t);
    es' := es + call;
  }

  // ---------------------------------------------------------------- a second key

  /** After one call and then a mark of its first zone. */
  function MarkedLater(t: string, region: string, zones: seq<string>): Sys
    requires zones != []
  {
    var list := Fresh(NO_MARKS, 0, t, region, zones, Some(1.0));
    var k := OfferKey(t, ZoneNames.SanitizeZone(zones[0]));
    Sys(0, Marks(map[k := UNAVAILABLE_OFFERINGS_TTL], map[], map[t := 1], 0), multiset{}, 0,
        Lists(map[KeyOf(t, region, zones) := Entry(list, OFFERINGS_TTL)], map[t := 0]), map[],
        map[1 := Returned(t, region, zones, 0, list)])
  }

  lemma ReachMarkedLater(t: string, region: string, zones: seq<string>, places: set<Place>) returns (es: seq<Event>)
    requires zones != [] && (region, zones) in places
    ensures Reaches(es, MarkedLater(t, region, zones), t, places)
  {
    var z := ZoneNames.SanitizeZone(zones[0]);
    es := CallOn([], INIT, 1, t, region, zones, places);
    var s1 := Called(INIT, 1, t, region, zones, Some(1.0));
    es := StepOn(es, s1, SetMark(t, z), t, places);
    var s2 := Next(s1, SetMark(t, z));
    es := StepOn(es, s2, BumpMark(t), t, places);
    assert s2.pendingTypes == multiset{t};
    assert Next(s2, BumpMark(t)) == MarkedLater(t, region, zones);
  }

  lemma SecondKeyHidesTheMark(t: string, region1: string, zones1: seq<string>, region2: string, zones2: seq<string>)
    requires KeyOf(t, region1, zones1) != KeyOf(t, region2, zones2) && zones1 != []
    ensures var s := MarkedLater(t, region1, zones1);
      OffersMarkedZone(Called(s, 2, t, region2, zones2, Some(1.0)), t, region1, zones1,
                       ZoneNames.SanitizeZone(zones1[0]))
  {
    var s := MarkedLater(t, region1, zones1);
    assert SeqNum(s.marks, t) == 1;
    assert !Serves(s.lists, s.now, KeyOf(t, region2, zones2), 1);
    var s1 := Called(s, 2, t, region2, zones2, Some(1.0));
    assert s1.marks == s.marks && Serves(s1.lists, s1.now, KeyOf(t, region1, zones1), 1);
    var list := Fresh(NO_MARKS, 0, t, region1, zones1, Some(1.0));
    assert NextList(s1, t, region1, zones1) == list && list[0].available;
  }

  /** The last-seen number is kept per type and the lists per region and zone set. With any two different keys of
      one type, the first with a zone in it, some run of whole calls leads to a call that offers a marked zone. So
      one key per type is exactly what the refinement needs. */
  lemma TwoKeysBreak(t: string, region1: string, zones1: seq<string>, region2: string, zones2: seq<string>)
    requires KeyOf(t, region1, zones1) != KeyOf(t, region2, zones2) && zones1 != []
    ensures exists es: seq<Event>, z: string ::
      && Run(INIT, es) && NoFlush(es) && Alone(INIT, es, t) && CallsOnly(es, t, {(region1, zones1), (region2, zones2)})
      && OffersMarkedZone(After(INIT, es), t, region1, zones1, z)
  {
    var places := {(region1, zones1), (region2, zones2)};
    var es := ReachMarkedLater(t, region1, zones1, places);
    es := CallOn(es, MarkedLater(t, region1, zones1), 2, t, region2, zones2, places);
    SecondKeyHidesTheMark(t, region1, zones1, region2, zones2);
    assert OffersMarkedZone(After(INIT, es), t, region1, zones1, ZoneNames.SanitizeZone(zones1[0]));
  }

  // ---------------------------------------------------------------- a ':' in the name

  /** The state after `t` was marked and `zone` was listed: the list withholds the zone. */
  function Withheld(t: string, region: string, zone: string): Sys {
    var z := ZoneNames.SanitizeZone(zone);
    var list := [Offering(z, region, 1.0, false)];
    Sys(0, Marks(map[OfferKey(t, z) := UNAVAILABLE_OFFERINGS_TTL], map[], map[t := 1], 0), multiset{}, 0,
        Lists(map[KeyOf(t, region, [zone]) := Entry(list, OFFERINGS_TTL)], map[t := 1]), map[],
        map[1 := Returned(t, region, [zone], 1, list)])
  }

  lemma ReachWithheld(t: string, region: string, zone: string) returns (es: seq<Event>)
    ensures Reaches(es, Withheld(t, region, zone), t, {(region, [zone])})
  {
    var z, places := ZoneNames.SanitizeZone(zone), {(region, [zone])};
    es := StepOn([], INIT, SetMark(t, z), t, places);
    var s1 := Next(INIT, SetMark(t, z));
    es := StepOn(es, s1, BumpMark(t), t, places);
    var s2 := Next(s1, BumpMark(t));
    es := CallOn(es, s2, 1, t, region, [zone], places);
    assert SeqNum(s2.marks, t) == 1 && s2.pendingTypes == multiset{};
    assert Fresh(s2.marks, 0, t, region, [zone], Some(1.0)) == [Offering(z, region, 1.0, false)];
    assert Called(s2, 1, t, region, [zone], Some(1.0)) == Withheld(t, region, zone);
  }

  /** The mark has expired and is evicted, and its callback counts for another type. */
  function Evicted(t: string, region: string, zone: string): Sys {
    var other := TypeOfKey(OfferKey(t, ZoneNames.SanitizeZone(zone)));
    Withheld(t, region, zone).(
      now := UNAVAILABLE_OFFERINGS_TTL + 1, marks := Marks(map[], map[], map[t := 1][other := 1], 0))
  }

  lemma ReachEvicted(t: string, region: string, zone: string) returns (es: seq<Event>)
    requires ':' in t
    ensures Reaches(es, Evicted(t, region, zone), t, {(region, [zone])})
  {
    var k, places := OfferKey(t, ZoneNames.SanitizeZone(zone)), {(region, [zone])};
    TypeOfKeyIff(t, ZoneNames.SanitizeZone(zone));
    var wait := Tick(UNAVAILABLE_OFFERINGS_TTL + 1);
    var s := Withheld(t, region, zone);
    es := ReachWithheld(t, region, zone);
    es := StepOn(es, s, wait, t, places);
    var s1 := Next(s, wait);
    es := StepOn(es, s1, Evict(k), t, places);
    var s2 := Next(s1, Evict(k));
    assert s2.marks.offers == map[] && s2.pendingTypes == multiset{TypeOfKey(k)};
    es := StepOn(es, s2, BumpMark(TypeOfKey(k)), t, places);
    assert Next(s2, BumpMark(TypeOfKey(k))) == Evicted(t, region, zone);
  }

  lemma EvictedStillWithholds(t: string, region: string, zone: string)
    requires ':' in t
    ensures WithholdsFreeZone(Evicted(t, region, zone), t, region, [zone], ZoneNames.SanitizeZone(zone))
  {
    TypeOfKeyIff(t, ZoneNames.SanitizeZone(zone));
    var s := Evicted(t, region, zone);
    assert SeqNum(s.marks, t) == 1 && Serves(s.lists, s.now, KeyOf(t, region, [zone]), 1);
    assert NextList(s, t, region, [zone])[0] == Offering(ZoneNames.SanitizeZone(zone), region, 1.0, false);
  }

  /** A ':' in the type's name sends the eviction's increment to another type, and the zone stays
      withheld after its mark is gone. */
  lemma ColonBreaksEviction(t: string, region: string, zone: string)
    requires ':' in t
    ensures exists es: seq<Event> ::
      && Run(INIT, es) && NoFlush(es) && Alone(INIT, es, t) && CallsOnly(es, t, {(region, [zone])})
      && WithholdsFreeZone(After(INIT, es), t, region, [zone], ZoneNames.SanitizeZone(zone))
  {
    var es := ReachEvicted(t, region, zone);
    EvictedStillWithholds(t, region, zone);
  }

  // ---------------------------------------------------------------- a flush

  /** Flush tells no counter. A list the provider would have served before a flush is served after
      it, and agrees with the flushed marks exactly when it withheld nothing. */
  lemma FlushIsUnnoticed(s: Sys, t: string, region: string, zones: seq<string>, price: Option<real>)
    requires Serves(s.lists, s.now, KeyOf(t, region, zones), SeqNum(s.marks, t))
    ensures var before := Create(s.lists, s.marks, s.now, t, region, zones, price).1;
            var s' := Next(s, FlushMarks);
            var after := Create(s'.lists, s'.marks, s'.now, t, region, zones, price).1;
            && after == before
            && ((forall i :: 0 <= i < |after| ==>
                   after[i].available == !IsUnavailable(s'.marks, s'.now, t, after[i].zone))
                <==> forall i :: 0 <= i < |before| ==> before[i].available)
  {
  }

  // ---------------------------------------------------------------- the two reads of IsUnavailable

  /** Steps of everything but the one call; other calls may be among them. */
  predicate Others(es: seq<Event>, id: nat) {
    forall e :: e in es ==> !(OfACall(e) && e.id == id)
  }

  lemma {:induction false} OthersLeaveTheCall(s: Sys, es: seq<Event>, id: nat)
    requires Run(s, es) && Others(es, id) && id in s.calls
    ensures id in After(s, es).calls && After(s, es).calls[id] == s.calls[id]
    decreases |es|
  {
    if es != [] {
      assert es[0] in es;
      OtherStep(s, es[0], id);
      OthersLeaveTheCall(Next(s, es[0]), es[1..], id);
    }
  }

  lemma OtherStep(s: Sys, e: Event, id: nat)
    requires Enabled(s, e) && !(OfACall(e) && e.id == id) && id in s.calls
    ensures id in Next(s, e).calls && Next(s, e).calls[id] == s.calls[id]
  {
    if !OfACall(e) {
      OthersKeepCalls(s, e);
    }
  }

  /** The call has `o` at position `i`, in flight or returned. */
  predicate HasBuilt(s: Sys, id: nat, i: nat, o: Offering) {
    if id in s.calls then id !in s.returned && BuiltIn(s.calls[id], i, o)
    else id in s.returned && i < |s.returned[id].list| && s.returned[id].list[i] == o
  }

  predicate BuiltIn(c: Call, i: nat, o: Offering) {
    match c
    case Started(_, _, _, _) => false
    case Building(_, _, _, _, _, acc, _) => i < |acc| && acc[i] == o
    case Stored(_, _, _, _, list) => i < |list| && list[i] == o
  }

  lemma BuiltStep(s: Sys, e: Event, id: nat, i: nat, o: Offering)
    requires Enabled(s, e) && HasBuilt(s, id, i, o)
    ensures HasBuilt(Next(s, e), id, i, o)
  {
    if !OfACall(e) {
      OthersKeepCalls(s, e);
    }
  }

  lemma {:induction false} BuiltStays(s: Sys, es: seq<Event>, id: nat, i: nat, o: Offering)
    requires Run(s, es) && HasBuilt(s, id, i, o)
    ensures HasBuilt(After(s, es), id, i, o)
    decreases |es|
  {
    if es != [] {
      BuiltStep(s, es[0], id, i, o);
      BuiltStays(Next(s, es[0]), es[1..], id, i, o);
    }
  }

  predicate OfferLives(s: Sys, t: string, z: string) {
    Live(s.marks.offers, OfferKey(t, z), s.now)
  }

  predicate ZoneLives(s: Sys, z: string) {
    Live(s.marks.zones, z, s.now)
  }

  /** One zone's part of a call that recomputes: any steps of others, the first read, any steps of others, the
      second read, and any steps up to the call's return and beyond. */
  ghost predicate ZoneIsRead(s: Sys, id: nat, before: seq<Event>, between: seq<Event>, rest: seq<Event>) {
    && id in s.calls && id !in s.returned
    && s.calls[id].Building? && !Ready(s.calls[id]) && s.calls[id].half.None?
    && Others(before, id) && Others(between, id)
    && Run(s, before) && Enabled(AtFirst(s, before), ReadOffer(id))
    && Run(Next(AtFirst(s, before), ReadOffer(id)), between)
    && Enabled(AtSecond(s, id, before, between), ReadZone(id))
    && Run(Next(AtSecond(s, id, before, between), ReadZone(id)), rest)
    && id !in AtReturn(s, id, before, between, rest).calls
  }

  function AtFirst(s: Sys, before: seq<Event>): Sys
    requires Run(s, before)
  {
    After(s, before)
  }

  function AtSecond(s: Sys, id: nat, before: seq<Event>, between: seq<Event>): Sys
    requires Run(s, before) && Enabled(After(s, before), ReadOffer(id))
    requires Run(Next(After(s, before), ReadOffer(id)), between)
  {
    After(Next(After(s, before), ReadOffer(id)), between)
  }

  function AtReturn(s: Sys, id: nat, before: seq<Event>, between: seq<Event>, rest: seq<Event>): Sys
    requires Run(s, before) && Enabled(After(s, before), ReadOffer(id))
    requires Run(Next(After(s, before), ReadOffer(id)), between)
    requires Enabled(AtSecond(s, id, before, between), ReadZone(id))
    requires Run(Next(AtSecond(s, id, before, between), ReadZone(id)), rest)
  {
    After(Next(AtSecond(s, id, before, between), ReadZone(id)), rest)
  }

  lemma {:induction false} NotReturnedYet(s: Sys, es: seq<Event>, id: nat)
    requires Run(s, es) && Others(es, id) && id in s.calls && id !in s.returned
    ensures id !in After(s, es).returned
    decreases |es|
  {
    if es != [] {
      assert es[0] in es;
      OtherStep(s, es[0], id);
      OtherReturns(s, es[0], id);
      NotReturnedYet(Next(s, es[0]), es[1..], id);
    }
  }

  lemma OtherReturns(s: Sys, e: Event, id: nat)
    requires Enabled(s, e) && !(OfACall(e) && e.id == id) && id !in s.returned
    ensures id !in Next(s, e).returned
  {
    if !OfACall(e) {
      OthersKeepCalls(s, e);
    }
  }

  /** The zone comes back available if and only if its own entry is not live at the first read and the zone-wide
      entry is not live at the second. */
  lemma TwoReadsDecide(s: Sys, id: nat, before: seq<Event>, between: seq<Event>, rest: seq<Event>)
    requires ZoneIsRead(s, id, before, between, rest)
    ensures var c, i, z := s.calls[id], |s.calls[id].acc|, NextZone(s.calls[id]);
      var first, second := AtFirst(s, before), AtSecond(s, id, before, between);
      var end := AtReturn(s, id, before, between, rest);
      && id in end.returned && i < |end.returned[id].list|
      && end.returned[id].list[i]
         == Offering(z, c.region, c.price.value, !OfferLives(first, c.t, z) && !ZoneLives(second, z))
  {
    var c := s.calls[id];
    var first := AtFirst(s, before);
    OthersLeaveTheCall(s, before, id);
    NotReturnedYet(s, before, id);
    var half := Next(first, ReadOffer(id));
    OthersLeaveTheCall(half, between, id);
    NotReturnedYet(half, between, id);
    var second := AtSecond(s, id, before, between);
    var o := Offering(NextZone(c), c.region, c.price.value,
                      !OfferLives(first, c.t, NextZone(c)) && !ZoneLives(second, NextZone(c)));
    BuiltStays(Next(second, ReadZone(id)), rest, id, |c.acc|, o);
  }

  lemma {:induction false} EntryComesFromAMark(s: Sys, es: seq<Event>, t: string, z: string)
    requires Run(s, es) && !OfferLives(s, t, z) && OfferLives(After(s, es), t, z)
    ensures exists e :: e in es && e.SetMark? && OfferKey(e.t, e.zone) == OfferKey(t, z)
    decreases |es|
  {
    if OfferLives(Next(s, es[0]), t, z) {
      assert es[0] in es;
    } else {
      EntryComesFromAMark(Next(s, es[0]), es[1..], t, z);
      var e :| e in es[1..] && e.SetMark? && OfferKey(e.t, e.zone) == OfferKey(t, z);
      assert e in es;
    }
  }

  /** A zone that is out of rotation at both reads is returned as available if and only if its own entry
      replaced the zone-wide one between them: the zone-wide entry alone lives at the first read, the zone's
      own alone at the second. Then a mark of the pair was set in between. */
  lemma TornExactlyIfReplaced(s: Sys, id: nat, before: seq<Event>, between: seq<Event>, rest: seq<Event>)
    requires ZoneIsRead(s, id, before, between, rest)
    requires var first, second := AtFirst(s, before), AtSecond(s, id, before, between);
      && IsUnavailable(first.marks, first.now, s.calls[id].t, NextZone(s.calls[id]))
      && IsUnavailable(second.marks, second.now, s.calls[id].t, NextZone(s.calls[id]))
    ensures var t, z, i := s.calls[id].t, NextZone(s.calls[id]), |s.calls[id].acc|;
      var first, second := AtFirst(s, before), AtSecond(s, id, before, between);
      var end := AtReturn(s, id, before, between, rest);
      && id in end.returned && i < |end.returned[id].list|
      && (end.returned[id].list[i].available
          <==> && ZoneLives(first, z) && !OfferLives(first, t, z)
               && OfferLives(second, t, z) && !ZoneLives(second, z))
      && (end.returned[id].list[i].available ==>
            exists e :: e in between && e.SetMark? && OfferKey(e.t, e.zone) == OfferKey(t, z))
  {
    TwoReadsDecide(s, id, before, between, rest);
    var t, z := s.calls[id].t, NextZone(s.calls[id]);
    var half := Next(AtFirst(s, before), ReadOffer(id));
    if !OfferLives(half, t, z) && OfferLives(After(half, between), t, z) {
      EntryComesFromAMark(half, between, t, z);
    }
  }

  predicate OutThroughout(s: Sys, es: seq<Event>, t: string, z: string)
    requires Run(s, es)
    decreases |es|
  {
    IsUnavailable(s.marks, s.now, t, z) && (es != [] ==> OutThroughout(Next(s, es[0]), es[1..], t, z))
  }

  /** The torn call begins here. */
  function ZoneMarked(z: string): Sys {
    INIT.(now := UNAVAILABLE_OFFERINGS_TTL, marks := Marks(map[], map[z := UNAVAILABLE_OFFERINGS_TTL], map[], 1))
  }

  /** It is between its two reads here. */
  function HalfRead(t: string, region: string, zone: string): Sys {
    SetCall(ZoneMarked(ZoneNames.SanitizeZone(zone)), 1, Building(t, region, [zone], 1, Some(1.0), [], Some(false)))
  }

  ghost predicate OutUpTo(s: Sys, es: seq<Event>, end: Sys, t: string, z: string) {
    Run(s, es) && After(s, es) == end && OutThroughout(s, es, t, z)
  }

  lemma OutFirst(s: Sys, e: Event, es: seq<Event>, end: Sys, t: string, z: string)
    requires Enabled(s, e) && IsUnavailable(s.marks, s.now, t, z) && OutUpTo(Next(s, e), es, end, t, z)
    ensures OutUpTo(s, [e] + es, end, t, z)
  {
    assert ([e] + es)[1..] == es;
  }

  /** It happens: a reachable state and a run from it through one call, in which a zone is out of rotation at
      every moment and still comes back available. */
  lemma TornRead(t: string, region: string, zone: string) returns (past: seq<Event>, steps: seq<Event>)
    ensures Run(INIT, past) && Run(After(INIT, past), steps) && Begin(1, t, region, [zone]) in steps
    ensures OutThroughout(After(INIT, past), steps, t, ZoneNames.SanitizeZone(zone))
    ensures var end := After(After(INIT, past), steps);
      && 1 in end.returned
      && end.returned[1] == Returned(t, region, [zone], 1, [Offering(ZoneNames.SanitizeZone(zone), region, 1.0, true)])
  {
    past := ReachZoneMarked(t, ZoneNames.SanitizeZone(zone));
    var tail, end := TornTail(t, region, zone);
    steps := TornHead(t, region, zone, tail, end);
  }

  lemma ReachZoneMarked(t: string, z: string) returns (es: seq<Event>)
    ensures Run(INIT, es) && After(INIT, es) == ZoneMarked(z)
  {
    var s1 := Next(INIT, SetZoneMark(z));
    var s2 := Next(s1, BumpZoneMark);
    es := StepOn([], INIT, SetZoneMark(z), t, {});
    es := StepOn(es, s1, BumpZoneMark, t, {});
    es := StepOn(es, s2, Tick(UNAVAILABLE_OFFERINGS_TTL), t, {});
  }

  lemma TornHead(t: string, region: string, zone: string, tail: seq<Event>, end: Sys) returns (es: seq<Event>)
    requires OutUpTo(HalfRead(t, region, zone), tail, end, t, ZoneNames.SanitizeZone(zone))
    ensures Begin(1, t, region, [zone]) in es
    ensures OutUpTo(ZoneMarked(ZoneNames.SanitizeZone(zone)), es, end, t, ZoneNames.SanitizeZone(zone))
  {
    var z := ZoneNames.SanitizeZone(zone);
    var s0 := ZoneMarked(z);
    assert SeqNum(s0.marks, t) == 1;
    var rest := TornReadOffer(t, region, zone, tail, end);
    OutFirst(s0, Begin(1, t, region, [zone]), rest, end, t, z);
    es := [Begin(1, t, region, [zone])] + rest;
  }

  lemma TornReadOffer(t: string, region: string, zone: string, tail: seq<Event>, end: Sys) returns (es: seq<Event>)
    requires OutUpTo(HalfRead(t, region, zone), tail, end, t, ZoneNames.SanitizeZone(zone))
    ensures var s0 := ZoneMarked(ZoneNames.SanitizeZone(zone));
      OutUpTo(SetCall(s0, 1, Started(t, region, [zone], 1)), es, end, t, ZoneNames.SanitizeZone(zone))
  {
    var z := ZoneNames.SanitizeZone(zone);
    var s0 := ZoneMarked(z);
    var building := Building(t, region, [zone], 1, Some(1.0), [], None);
    SetTwice(s0, 1, Started(t, region, [zone], 1), building);
    SetTwice(s0, 1, building, building.(half := Some(false)));
    OutFirst(SetCall(s0, 1, building), ReadOffer(1), tail, end, t, z);
    OutFirst(SetCall(s0, 1, Started(t, region, [zone], 1)), Lookup(1, Some(1.0)), [ReadOffer(1)] + tail, end, t, z);
    es := [Lookup(1, Some(1.0))] + ([ReadOffer(1)] + tail);
  }

  lemma TornTail(t: string, region: string, zone: string) returns (es: seq<Event>, end: Sys)
    ensures OutUpTo(HalfRead(t, region, zone), es, end, t, ZoneNames.SanitizeZone(zone))
    ensures 1 in end.returned
    ensures end.returned[1]
      == Returned(t, region, [zone], 1, [Offering(ZoneNames.SanitizeZone(zone), region, 1.0, true)])
  {
    var z := ZoneNames.SanitizeZone(zone);
    var s3 := HalfRead(t, region, zone);
    var s4 := Next(s3, SetMark(t, z));
    var s5 := Next(s4, Tick(1));
    assert NextZone(s5.calls[1]) == z;
    var s6 := Next(s5, ReadZone(1));
    assert s6.calls[1].acc == [Offering(z, region, 1.0, true)];
    var s7 := Next(s6, WriteList(1));
    end := Next(s7, WriteNumber(1));
    es := [];
    OutFirst(s7, WriteNumber(1), es, end, t, z);
    es := [WriteNumber(1)] + es;
    OutFirst(s6, WriteList(1), es, end, t, z);
    es := [WriteList(1)] + es;
    OutFirst(s5, ReadZone(1), es, end, t, z);
    es := [ReadZone(1)] + es;
    OutFirst(s4, Tick(1), es, end, t, z);
    es := [Tick(1)] + es;
    OutFirst(s3, SetMark(t, z), es, end, t, z);
    es := [SetMark(t, z)] + es;
  }
}
