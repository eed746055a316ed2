/** What makes a NodeClaim drifted (pkg/cloudprovider/drift.go), and the NodeClass hash it is compared by
    (pkg/apis/v1alpha1/stackitnodeclass.go). */
module Drift {
  import opened Options
  import ZoneNames
  import Labels

  type LabelMap = Labels.LabelMap
  type Annotations = map<string, string>

  const HASH := "karpenter.k8s.stackit/stackitnodeclass-hash"
  const HASH_VERSION := "karpenter.k8s.stackit/stackitnodeclass-hash-version"
  const CURRENT_VERSION := "v1"

  datatype Reason = NoDrift | NodeClassDrift | AvailabilityZoneDrift

  // ---------------------------------------------------------------- the hash

  datatype BootVolume = BootVolume(
    size: int, sourceID: string, sourceType: Option<string>, performanceClass: Option<string>,
    deleteOnTermination: Option<bool>)

  /** `kubelet` stands for the kubelet settings, of which only equality matters here. */
  datatype Spec = Spec(
    availabilityZones: seq<string>, bootVolume: BootVolume, userData: Option<string>,
    networkID: Option<string>, nicIDs: seq<string>, securityGroups: seq<string>, keypairName: Option<string>,
    affinityGroup: Option<string>, serviceAccountMails: seq<string>, serverNamePrefix: Option<string>,
    kubelet: Option<map<string, string>>, labels: LabelMap)

  /** What the hash function tells apart: lists are sets, a field that is not set counts as its zero value, and
      there are no labels. */
  datatype Hashable = Hashable(
    size: int, sourceID: string, sourceType: string, performanceClass: string, deleteOnTermination: bool,
    availabilityZones: set<string>, userData: string, networkID: string, nicIDs: set<string>,
    securityGroups: set<string>, keypairName: string, affinityGroup: string, serviceAccountMails: set<string>,
    serverNamePrefix: string, kubelet: map<string, string>)

  function Elements(s: seq<string>): set<string> {
    set x | x in s
  }

  function OrElse<T>(field: Option<T>, default: T): T {
    if field.Some? then field.value else default
  }

  function HashInput(spec: Spec): Hashable {
    var v := spec.bootVolume;
    Hashable(v.size, v.sourceID, OrElse(v.sourceType, ""), OrElse(v.performanceClass, ""),
             OrElse(v.deleteOnTermination, false), Elements(spec.availabilityZones), OrElse(spec.userData, ""),
             OrElse(spec.networkID, ""), Elements(spec.nicIDs), Elements(spec.securityGroups),
             OrElse(spec.keypairName, ""), OrElse(spec.affinityGroup, ""), Elements(spec.serviceAccountMails),
             OrElse(spec.serverNamePrefix, ""), OrElse(spec.kubelet, map[]))
  }

  /** The hash library, taken to be free of collisions. */
  ghost predicate Injective(digest: Hashable -> string) {
    forall a, b :: digest(a) == digest(b) ==> a == b
  }

  function Stamp(digest: Hashable -> string, spec: Spec): Annotations {
    map[HASH := digest(HashInput(spec)), HASH_VERSION := CURRENT_VERSION]
  }

  lemma KeysDiffer()
    ensures HASH != HASH_VERSION
  {
    assert |HASH| != |HASH_VERSION|;
  }

  // ---------------------------------------------------------------- static drift

  /** Both sides carry both annotations, under one algorithm version, and the hashes differ. */
  predicate StaticDrift(claim: Annotations, class_: Annotations) {
    && HASH in class_ && HASH in claim && HASH_VERSION in class_ && HASH_VERSION in claim
    && class_[HASH_VERSION] == claim[HASH_VERSION]
    && class_[HASH] != claim[HASH]
  }

  /** A claim launched from one spec drifts against a NodeClass stamped from another unless the specs agree in
      everything a running server cannot take over: every field but the labels, up to the order and repetition of
      a list and up to whether a field is not set or set to its zero value. */
  lemma DriftsIffHashedFieldsDiffer(digest: Hashable -> string, launched: Spec, now: Spec)
    requires Injective(digest)
    ensures !StaticDrift(Stamp(digest, launched), Stamp(digest, now)) <==>
      && SameElements(launched.availabilityZones, now.availabilityZones)
      && SameElements(launched.nicIDs, now.nicIDs)
      && SameElements(launched.securityGroups, now.securityGroups)
      && SameElements(launched.serviceAccountMails, now.serviceAccountMails)
      && SameVolume(launched.bootVolume, now.bootVolume)
      && OrElse(launched.userData, "") == OrElse(now.userData, "")
      && OrElse(launched.networkID, "") == OrElse(now.networkID, "")
      && OrElse(launched.keypairName, "") == OrElse(now.keypairName, "")
      && OrElse(launched.affinityGroup, "") == OrElse(now.affinityGroup, "")
      && OrElse(launched.serverNamePrefix, "") == OrElse(now.serverNamePrefix, "")
      && OrElse(launched.kubelet, map[]) == OrElse(now.kubelet, map[])
  {
    KeysDiffer();
    ElementsAgree(launched.availabilityZones, now.availabilityZones);
    ElementsAgree(launched.nicIDs, now.nicIDs);
    ElementsAgree(launched.securityGroups, now.securityGroups);
    ElementsAgree(launched.serviceAccountMails, now.serviceAccountMails);
  }

  predicate SameVolume(a: BootVolume, b: BootVolume) {
    && a.size == b.size && a.sourceID == b.sourceID
    && OrElse(a.sourceType, "") == OrElse(b.sourceType, "")
    && OrElse(a.performanceClass, "") == OrElse(b.performanceClass, "")
    && (a.deleteOnTermination == Some(true) <==> b.deleteOnTermination == Some(true))
  }

  predicate SameElements(a: seq<string>, b: seq<string>) {
    (forall x :: x in a ==> x in b) && (forall x :: x in b ==> x in a)
  }

  lemma ElementsAgree(a: seq<string>, b: seq<string>)
    ensures Elements(a) == Elements(b) <==> SameElements(a, b)
  {
    assert forall x :: x in a <==> x in Elements(a);
    assert forall x :: x in b <==> x in Elements(b);
  }

  /** What a launch makes of the field: a server's volume goes with it unless that is switched off. */
  function DeletesVolume(spec: Spec): bool {
    OrElse(spec.bootVolume.deleteOnTermination, true)
  }

  /** The hash and the launch read a field that is not set differently. Of the edits that change only what becomes
      of the volume, exactly those that take the setting from nothing to `false`, or back, are never drift. */
  lemma UnsetVolumeDeletionIsBlind(digest: Hashable -> string, launched: Spec, delete: Option<bool>)
    requires Injective(digest)
    requires var now := launched.(bootVolume := launched.bootVolume.(deleteOnTermination := delete));
             DeletesVolume(now) != DeletesVolume(launched)
    ensures var now := launched.(bootVolume := launched.bootVolume.(deleteOnTermination := delete));
      !StaticDrift(Stamp(digest, launched), Stamp(digest, now)) <==>
        delete.None? || launched.bootVolume.deleteOnTermination.None?
  {
    var now := launched.(bootVolume := launched.bootVolume.(deleteOnTermination := delete));
    DriftsIffHashedFieldsDiffer(digest, launched, now);
  }

  /** An edit of the labels alone is never drift, whatever the claim was launched from. */
  lemma LabelEditsNeverDrift(digest: Hashable -> string, claim: Annotations, spec: Spec, labels: LabelMap)
    ensures Stamp(digest, spec.(labels := labels)) == Stamp(digest, spec)
    ensures StaticDrift(claim, Stamp(digest, spec.(labels := labels))) <==> StaticDrift(claim, Stamp(digest, spec))
  {
    assert HashInput(spec.(labels := labels)) == HashInput(spec);
  }

  // ---------------------------------------------------------------- zone drift

  /** `serverZone` is None when the server could not be read, which is never drift. */
  predicate ZoneDrift(zones: seq<string>, serverZone: Option<string>) {
    && serverZone.Some? && zones != []
    && forall i :: 0 <= i < |zones| ==> ZoneNames.SanitizeZone(zones[i]) != ZoneNames.SanitizeZone(serverZone.value)
  }

  function NodeClassDrifted(claim: Annotations, class_: Annotations, zones: seq<string>,
                           serverZone: Option<string>): Reason
  {
    if StaticDrift(claim, class_) then NodeClassDrift
    else if ZoneDrift(zones, serverZone) then AvailabilityZoneDrift
    else NoDrift
  }

  /** When the verdict is which. Static drift comes first; a server drifts for its zone exactly when zones are listed
      and none of them sanitizes to the server's. */
  lemma WhichDrift(claim: Annotations, class_: Annotations, zones: seq<string>, serverZone: Option<string>)
    ensures var verdict := NodeClassDrifted(claim, class_, zones, serverZone);
      var hashed :=
        && HASH in claim && HASH_VERSION in claim && HASH in class_ && HASH_VERSION in class_
        && claim[HASH_VERSION] == class_[HASH_VERSION] && claim[HASH] != class_[HASH];
      var moved := serverZone.Some? && zones != []
        && forall zone :: zone in zones ==> ZoneNames.SanitizeZone(zone) != ZoneNames.SanitizeZone(serverZone.value);
      && (verdict == NodeClassDrift <==> hashed)
      && (verdict == AvailabilityZoneDrift <==> !hashed && moved)
      && (verdict == NoDrift <==> !hashed && !moved)
  {
    assert forall i :: 0 <= i < |zones| ==> zones[i] in zones;
  }

  /** A server is launched into a zone's sanitized id. While that zone stays listed the server drifts
      exactly when sanitizing its id once more changes it into the name of no listed zone. */
  lemma LaunchedZoneDriftsIff(zones: seq<string>, zone: string)
    requires zone in zones
    ensures ZoneDrift(zones, Some(ZoneNames.SanitizeZone(zone)))
       <==> (var t := ZoneNames.Trim(ZoneNames.Collapse(zone));
             |t| > ZoneNames.MAX_ZONE_LENGTH && ZoneNames.Separator(t[ZoneNames.MAX_ZONE_LENGTH - 1]))
            && forall i :: 0 <= i < |zones| ==>
                 ZoneNames.SanitizeZone(zones[i]) != ZoneNames.SanitizeZone(ZoneNames.SanitizeZone(zone))
  {
    ZoneNames.IdempotentIff(zone);
    var i :| 0 <= i < |zones| && zones[i] == zone;
  }

  /** In particular a zone whose trimmed form fits in 63 characters never drifts its own servers. */
  lemma ShortZonesNeverDrift(zones: seq<string>, zone: string, claim: Annotations, class_: Annotations)
    requires zone in zones && |ZoneNames.Trim(ZoneNames.Collapse(zone))| <= ZoneNames.MAX_ZONE_LENGTH
    ensures NodeClassDrifted(claim, class_, zones, Some(ZoneNames.SanitizeZone(zone)))
         == if StaticDrift(claim, class_) then NodeClassDrift else NoDrift
  {
    LaunchedZoneDriftsIff(zones, zone);
  }
}
