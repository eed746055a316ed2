/** The cache of machine-type and zone combinations that are out of capacity
    (pkg/cache/unavailableofferings.go, pkg/cache/cache.go).

    A TTL cache of the go-cache library is a map from key to expiry time. An entry past its expiry is
    not found, but it stays in the map until the janitor removes it; a removal by the janitor or by
    Delete runs the eviction callback afterwards, a Flush runs none, and setting a key again
    overwrites the entry without a callback. */
module Availability {

  /** Times and durations are nanoseconds, as in Go's time package. */
  type Time = nat

  const SECOND: nat := 1_000_000_000
  const MINUTE: nat := 60 * SECOND
  const UNAVAILABLE_OFFERINGS_TTL: nat := 3 * MINUTE
  const OFFERINGS_TTL: nat := 5 * MINUTE

  /** The counters are uint64. */
  const WIDTH: nat := 0x1_0000_0000_0000_0000

  predicate Live(c: map<string, Time>, k: string, now: Time) {
    k in c && now <= c[k]
  }

  /** Past its expiry, not removed yet. */
  predicate Expired(c: map<string, Time>, k: string, now: Time) {
    k in c && c[k] < now
  }

  /** `typeBumps` and `zoneBumps` count the increments; the source stores them modulo 2^64, and
      SeqNum shows their sum modulo 2^64, which is the same number. */
  datatype Marks = Marks(
    offers: map<string, Time>,
    zones: map<string, Time>,
    typeBumps: map<string, nat>,
    zoneBumps: nat)

  const NO_MARKS := Marks(map[], map[], map[], 0)

  // ---------------------------------------------------------------- keys

  function OfferKey(machineType: string, zone: string): string {
    machineType + ":" + zone
  }

  /** The part of a key before its first ':', which the eviction callback takes for the type. */
  function TypeOfKey(k: string): string {
    if k == [] || k[0] == ':' then [] else [k[0]] + TypeOfKey(k[1..])
  }

  /** The callback recovers the type a key was built from exactly when the type has no ':'. */
  lemma {:induction false} TypeOfKeyIff(machineType: string, zone: string)
    ensures TypeOfKey(OfferKey(machineType, zone)) == machineType <==> ':' !in machineType
  {
    var k := OfferKey(machineType, zone);
    if machineType != [] && machineType[0] != ':' {
      assert k[1..] == OfferKey(machineType[1..], zone);
      TypeOfKeyIff(machineType[1..], zone);
      assert machineType == [machineType[0]] + machineType[1..];
      if TypeOfKey(k) == machineType {
        assert TypeOfKey(k[1..]) == TypeOfKey(k)[1..];
      }
    }
  }

  /** With no ':' in one type and its zone, no other pair shares its key. */
  lemma {:induction false} OfferKeyInjective(t: string, z: string, t': string, z': string)
    requires ':' !in t && ':' !in z
    requires OfferKey(t, z) == OfferKey(t', z')
    ensures t == t' && z == z'
  {
    var k := OfferKey(t, z);
    assert k[|t|] == ':';
    assert k[|t'|] == ':';
    assert forall i :: 0 <= i < |k| && k[i] == ':' ==> i == |t| by {
      assert forall i :: 0 <= i < |t| ==> k[i] == t[i] && t[i] in t;
      assert forall i :: 0 <= i < |z| ==> k[|t| + 1 + i] == z[i] && z[i] in z;
      assert forall i :: |t| < i < |k| ==> k[i] == z[i - |t| - 1];
    }
    assert k[..|t|] == t && k[..|t'|] == t';
    assert k[|t| + 1..] == z && k[|t'| + 1..] == z';
  }

  // ---------------------------------------------------------------- the half-steps

  function TypeBumps(m: Marks, machineType: string): nat {
    if machineType in m.typeBumps then m.typeBumps[machineType] else 0
  }

  /** How often the availability of the type's offerings has been announced to change. */
  function Bumps(m: Marks, machineType: string): nat {
    TypeBumps(m, machineType) + m.zoneBumps
  }

  function SeqNum(m: Marks, machineType: string): nat {
    Bumps(m, machineType) % WIDTH
  }

  predicate IsUnavailable(m: Marks, now: Time, machineType: string, zone: string) {
    Live(m.offers, OfferKey(machineType, zone), now) || Live(m.zones, zone, now)
  }

  function SetOffer(m: Marks, now: Time, machineType: string, zone: string): Marks {
    m.(offers := m.offers[OfferKey(machineType, zone) := now + UNAVAILABLE_OFFERINGS_TTL])
  }

  function SetZone(m: Marks, now: Time, zone: string): Marks {
    m.(zones := m.zones[zone := now + UNAVAILABLE_OFFERINGS_TTL])
  }

  function BumpType(m: Marks, machineType: string): Marks {
    m.(typeBumps := m.typeBumps[machineType := TypeBumps(m, machineType) + 1])
  }

  function BumpZones(m: Marks): Marks {
    m.(zoneBumps := m.zoneBumps + 1)
  }

  function RemoveOffer(m: Marks, k: string): Marks {
    m.(offers := m.offers - {k})
  }

  function RemoveZone(m: Marks, zone: string): Marks {
    m.(zones := m.zones - {zone})
  }

  // ---------------------------------------------------------------- whole operations

  function MarkUnavailable(m: Marks, now: Time, machineType: string, zone: string): Marks {
    BumpType(SetOffer(m, now, machineType, zone), machineType)
  }

  function MarkZoneUnavailable(m: Marks, now: Time, zone: string): Marks {
    BumpZones(SetZone(m, now, zone))
  }

  /** Removal followed by the callback. */
  function EvictOffer(m: Marks, k: string): Marks {
    if k in m.offers then BumpType(RemoveOffer(m, k), TypeOfKey(k)) else m
  }

  function EvictZone(m: Marks, zone: string): Marks {
    if zone in m.zones then BumpZones(RemoveZone(m, zone)) else m
  }

  function Flush(m: Marks): Marks {
    m.(offers := map[], zones := map[])
  }

  /** A mark takes the offering out of rotation until its TTL is over and no longer, leaves every
      other offering as it was, and moves the number its readers watch. */
  lemma MarkMeaning(m: Marks, now: Time, t: string, z: string, later: Time, t': string, z': string)
    requires now <= later
    requires ':' !in t && ':' !in z
    ensures var m' := MarkUnavailable(m, now, t, z);
            && (later <= now + UNAVAILABLE_OFFERINGS_TTL ==> IsUnavailable(m', later, t, z))
            && (now + UNAVAILABLE_OFFERINGS_TTL < later ==>
                 (IsUnavailable(m', later, t, z) <==> Live(m.zones, z, later)))
            && ((t', z') != (t, z) ==>
                 (IsUnavailable(m', later, t', z') <==> IsUnavailable(m, later, t', z')))
            && SeqNum(m', t) != SeqNum(m, t)
            && (t' != t ==> SeqNum(m', t') == SeqNum(m, t'))
  {
    if OfferKey(t, z) == OfferKey(t', z') {
      OfferKeyInjective(t, z, t', z');
    }
    NextDiffers(Bumps(m, t));
  }

  lemma ZoneMarkMeaning(m: Marks, now: Time, z: string, later: Time, t: string, z': string)
    requires now <= later
    ensures var m' := MarkZoneUnavailable(m, now, z);
            && (later <= now + UNAVAILABLE_OFFERINGS_TTL ==> IsUnavailable(m', later, t, z))
            && (z' != z ==> (IsUnavailable(m', later, t, z') <==> IsUnavailable(m, later, t, z')))
            && SeqNum(m', t) != SeqNum(m, t)
  {
    NextDiffers(Bumps(m, t));
  }

  lemma NextDiffers(n: nat)
    ensures (n + 1) % WIDTH != n % WIDTH
  {
    if n % WIDTH + 1 < WIDTH {
      assert (n + 1) % WIDTH == n % WIDTH + 1 by { assert n + 1 == WIDTH * (n / WIDTH) + (n % WIDTH + 1); }
    } else {
      assert n + 1 == WIDTH * (n / WIDTH + 1);
    }
  }

  /** Equality of the two readings means neither counter moved, as long as fewer than 2^64 steps lie
      between them; a full 2^64 steps cannot be told from none. */
  lemma EqualReadings(before: Marks, after: Marks, t: string)
    requires TypeBumps(before, t) <= TypeBumps(after, t) && before.zoneBumps <= after.zoneBumps
    requires Bumps(after, t) - Bumps(before, t) <= WIDTH
    ensures SeqNum(before, t) == SeqNum(after, t)
       <==> (TypeBumps(before, t) == TypeBumps(after, t) && before.zoneBumps == after.zoneBumps)
            || Bumps(after, t) - Bumps(before, t) == WIDTH
  {
    var a, b := Bumps(before, t), Bumps(after, t);
    assert a == WIDTH * (a / WIDTH) + a % WIDTH && b == WIDTH * (b / WIDTH) + b % WIDTH;
    if a % WIDTH == b % WIDTH {
      assert b - a == WIDTH * (b / WIDTH - a / WIDTH);
    }
  }

  // ---------------------------------------------------------------- the object

  /** One counter is one more, every other is as it was; a counter that is not there is zero. */
  predicate OneMore(before: map<string, nat>, after: map<string, nat>, t: string) {
    && t in after && after[t] == (if t in before then before[t] else 0) + 1
    && after - {t} == before - {t}
  }

  /** `n` is where the first ':' stands. */
  predicate FirstColon(k: string, n: nat) {
    n < |k| && k[n] == ':' && ':' !in k[..n]
  }

  lemma {:induction false} TypeIsBeforeTheColon(k: string)
    requires ':' in k
    ensures FirstColon(k, |TypeOfKey(k)|) && TypeOfKey(k) == k[..|TypeOfKey(k)|]
  {
    if k[0] != ':' {
      TypeIsBeforeTheColon(k[1..]);
      assert k == [k[0]] + k[1..];
    }
  }

  class UnavailableOfferings {
    var offeringCache: map<string, Time>
    var offeringCacheSeqNum: map<string, nat>
    var zoneCache: map<string, Time>
    var zoneCacheSeqNum: nat

    function View(): Marks
      reads this
    {
      Marks(offeringCache, zoneCache, offeringCacheSeqNum, zoneCacheSeqNum)
    }

    /** Every key has its ':', so the callback's panic is never reached. */
    ghost predicate Valid()
      reads this
    {
      forall k :: k in offeringCache ==> ':' in k
    }

    constructor ()
      ensures Valid() && View() == NO_MARKS
    {
      offeringCache := map[];
      offeringCacheSeqNum := map[];
      zoneCache := map[];
      zoneCacheSeqNum := 0;
    }

    method ReadSeqNum(machineType: string) returns (n: nat)
      ensures n == SeqNum(View(), machineType)
      ensures n == ((if machineType in offeringCacheSeqNum then offeringCacheSeqNum[machineType] else 0)
                    + zoneCacheSeqNum) % 0x1_0000_0000_0000_0000
    {
      var a := if machineType in offeringCacheSeqNum then offeringCacheSeqNum[machineType] else 0;
      n := (a + zoneCacheSeqNum) % WIDTH;
    }

    method Unavailable(machineType: string, zone: string, now: Time) returns (b: bool)
      ensures b == IsUnavailable(View(), now, machineType, zone)
      ensures b <==>
        || (machineType + ":" + zone in offeringCache && now <= offeringCache[machineType + ":" + zone])
        || (zone in zoneCache && now <= zoneCache[zone])
    {
      var k := OfferKey(machineType, zone);
      var offeringFound := k in offeringCache && now <= offeringCache[k];
      var zoneFound := zone in zoneCache && now <= zoneCache[zone];
      b := offeringFound || zoneFound;
    }

    method IncrementType(machineType: string)
      modifies this`offeringCacheSeqNum
      ensures View() == BumpType(old(View()), machineType)
      ensures OneMore(old(offeringCacheSeqNum), offeringCacheSeqNum, machineType)
    {
      var n := if machineType in offeringCacheSeqNum then offeringCacheSeqNum[machineType] else 0;
      offeringCacheSeqNum := offeringCacheSeqNum[machineType := n + 1];
    }

    method Mark(machineType: string, zone: string, now: Time)
      requires Valid()
      modifies this
      ensures Valid() && View() == MarkUnavailable(old(View()), now, machineType, zone)
      ensures offeringCache == old(offeringCache)[machineType + ":" + zone := now + 180_000_000_000]
      ensures OneMore(old(offeringCacheSeqNum), offeringCacheSeqNum, machineType)
      ensures unchanged(this`zoneCache, this`zoneCacheSeqNum)
    {
      var k := OfferKey(machineType, zone);
      assert k[|machineType|] == ':';
      offeringCache := offeringCache[k := now + UNAVAILABLE_OFFERINGS_TTL];
      IncrementType(machineType);
    }

    method MarkZone(zone: string, now: Time)
      requires Valid()
      modifies this
      ensures Valid() && View() == MarkZoneUnavailable(old(View()), now, zone)
      ensures zoneCache == old(zoneCache)[zone := now + 180_000_000_000]
      ensures zoneCacheSeqNum == old(zoneCacheSeqNum) + 1
      ensures unchanged(this`offeringCache, this`offeringCacheSeqNum)
    {
      zoneCache := zoneCache[zone := now + UNAVAILABLE_OFFERINGS_TTL];
      zoneCacheSeqNum := zoneCacheSeqNum + 1;
    }

    /** A removal with its callback, which counts for the text before the key's first ':'; the callback is only
        ever given keys that have one. */
    method RemoveAndNotify(k: string)
      requires Valid() && k in offeringCache
      modifies this
      ensures Valid() && View() == EvictOffer(old(View()), k)
      ensures k !in offeringCache && offeringCache == old(offeringCache) - {k}
      ensures exists n: nat :: FirstColon(k, n) && OneMore(old(offeringCacheSeqNum), offeringCacheSeqNum, k[..n])
      ensures unchanged(this`zoneCache, this`zoneCacheSeqNum)
    {
      assert ':' in k;
      TypeIsBeforeTheColon(k);
      offeringCache := offeringCache - {k};
      IncrementType(TypeOfKey(k));
    }

    method RemoveZoneAndNotify(zone: string)
      requires Valid() && zone in zoneCache
      modifies this
      ensures Valid() && View() == EvictZone(old(View()), zone)
      ensures zone !in zoneCache && zoneCache == old(zoneCache) - {zone}
      ensures zoneCacheSeqNum == old(zoneCacheSeqNum) + 1
      ensures unchanged(this`offeringCache, this`offeringCacheSeqNum)
    {
      zoneCache := zoneCache - {zone};
      zoneCacheSeqNum := zoneCacheSeqNum + 1;
    }

    method Delete(machineType: string, zone: string)
      requires Valid()
      modifies this
      ensures Valid() && View() == EvictOffer(old(View()), OfferKey(machineType, zone))
      ensures var k := machineType + ":" + zone;
        if k in old(offeringCache) then
          && offeringCache == old(offeringCache) - {k}
          && exists n: nat :: FirstColon(k, n) && OneMore(old(offeringCacheSeqNum), offeringCacheSeqNum, k[..n])
        else unchanged(this)
      ensures unchanged(this`zoneCache, this`zoneCacheSeqNum)
    {
      var k := OfferKey(machineType, zone);
      if k in offeringCache {
        RemoveAndNotify(k);
      }
    }

    /** The library's Flush empties the maps and calls nothing back. */
    method FlushAll()
      requires Valid()
      modifies this
      ensures Valid() && View() == Flush(old(View()))
      ensures offeringCache == map[] && zoneCache == map[]
      ensures unchanged(this`offeringCacheSeqNum, this`zoneCacheSeqNum)
    {
      offeringCache := map[];
      zoneCache := map[];
    }
  }
}
