# karpenter-provider-stackit, verified model

A Dafny model of the stateful core of the STACKIT node autoscaler provider: what it promises when its
caches, its controllers and the cloud move at the same time, and the arithmetic and string transforms those
promises rest on. `dafny verify dfyconfig.toml` checks everything.

How the model is built:

- Objects that the program updates are classes with the same fields; their methods are proved equal to
  functions on values, and say on the fields, with the source's numbers and texts, what they leave behind. Properties
  of runs are stated on those functions; lemmas tie the steps of the runs to the methods.
- Protocols are state machines: an event per atomic step, `Run`/`After` over a list of events, and theorems
  over every list. Marks, evictions and calls are cut into the half-steps other goroutines can see.
- A go-cache cache is a map from key to value and expiry; a separate step removes what has expired. Times are
  nanoseconds and the clock is a parameter or an event. Hashes are injective functions of their abstract input,
  with lists as sets and, for drift, what is not set as zero. Prices and percentages are exact reals.
- The counters behind `SeqNum` are unbounded and read modulo 2^64, which is what the sum of two wrapping
  `uint64` shows; theorems that compare readings say how many increments may lie between them. The source reads
  both counters under the mutex that orders type increments, so one reading is one moment.

| file | component |
|---|---|
| `Availability.dfy`, `Offerings.dfy`, `OfferingLaws.dfy`, `OfferingLimits.dfy`, `Overlap.dfy` | out-of-capacity marks, the memoised offering lists, their agreement, the runs on which they do not agree, and two calls of one type at once |
| `Launch.dfy`, `Provisioning.dfy`, `Retry.dfy` | choosing the cheapest offering, classifying a failure, marking, and choosing again from what the stepped offering provider then lists |
| `Instances.dfy`, `Teardown.dfy` | servers, the instance cache, the retried delete |
| `GarbageCollection.dfy` | reaping servers without a NodeClaim, timed |
| `Termination.dfy`, `Drift.dfy`, `HashMigration.dfy`, `Labeling.dfy` | NodeClass finalizer, drift, hash-version migration, label convergence |
| `Catalog.dfy`, `Pricing.dfy`, `Resources.dfy` | machine type catalog, prices, capacity arithmetic |
| `Labels.dfy`, `ZoneNames.dfy`, `Options.dfy` | label selector and validator, zone sanitizer, providerID, optional values |

Where the proofs found the code to differ from its documentation or to need a condition:

- The offering cache needs one region and zone set per machine type: lists are cached per region and zone set, the last
  seen number per type. Any second key, in the region or in the zones, lets a marked zone be offered
  (`OfferingLimits.TwoKeysBreak`).
- A ':' in a machine type's name sends an eviction's increment to another type (`OfferingLimits.ColonBreaksEviction`);
  a flush increments nothing (`OfferingLimits.FlushIsUnnoticed`).
- `IsUnavailable` reads two caches in turn. A zone that is out of rotation at both reads is offered exactly when its
  own mark replaced the zone-wide one between them (`OfferingLimits.TornExactlyIfReplaced`), and a run from the start
  in which it is out of rotation at every moment does so (`OfferingLimits.TornRead`).
- Calls of different types may overlap. Two calls of one type, which nothing keeps apart because listing holds only a
  read lock, end in four writes. With a mark between them the next call offers the marked zone at exactly three moments:
  in one of the six orders from the fourth write on, in two others between the third write and the fourth
  (`Overlap.OverlapOffersMarkedZoneIff`, with a run from the start to each moment).
- Two overlapping memory observations leave what they would leave one after the other, except when the later write is
  the larger of two values that were both due to be stored (`Catalog.OverlapIsSequentialIff`).
- A 403 that speaks of a quota is classified as exhausted capacity, and a comment says so, but the credentials test
  comes first and nothing is marked; 403 is the only status for which that is so (`Launch.CapacityRotatesIff`,
  `Launch.ForbiddenQuotaMarksNothing`).
- Garbage collection is safe exactly while recording delay plus check delay stay strictly below the grace period;
  a sum equal to it is not enough (`GarbageCollection.SafeExactlyWithinGrace`).
- The termination controller's comment promises no window without the finalizer. Create does not look at it, so a
  NodeClass that is ready first can be lost under a server; with the finalizer attached it cannot
  (`Termination.FinalizerDecides`).
- The hash migration forgives drift that no Drifted condition records yet, also when the condition arrives between
  the list and the patch; a flagged claim keeps its hash exactly when no reconcile under way listed it before the flag
  (`HashMigration.UnflaggedDriftIsForgiven`, `HashMigration.LateFlagIsForgiven`, `HashMigration.FlaggedHashKeptIff`).
- The drift hash takes a field that is not set for its zero value, the launch takes an unset `deleteOnTermination` for
  true: an edit between not set and `false` changes what becomes of the volume and is never drift
  (`Drift.UnsetVolumeDeletionIsBlind`). Only the default that the API server fills in hides this.
- The label controller means to ignore a server that vanished before the update, but wraps the ignored error, which is
  nil, and so returns an error. When it does is `Labeling.VanishedIff`; because the 404 drops no cache entry, every
  retry fails the same way until the cached copy expires, and none after (`Labeling.RetriesFailUntilExpiry`,
  `Labeling.VanishedFailsForTheTTL`).
- A ',' in the cluster name, which nothing rejects, hides every server of the cluster from its own listing
  (`Labeling.NoServerIsLost`).
- `SanitizeZone` is not idempotent when the cut at 63 leaves a separator (`ZoneNames.IdempotentIff`).
- A catalog refresh compares listings as sets but builds the catalog in order, so a name listed with two specs can
  change unnoticed and stale specs are then listed (`Catalog.SetDecidesCatalogIff`, `Catalog.CurrentSpecsIff`).

## Model

| member | source | states |
|---|---|---|
| Availability.TypeOfKeyIff | pkg/cache/unavailableofferings.go:49-57 | the eviction callback recovers the machine type of a key exactly when its name has no ':' |
| Availability.OfferKeyInjective | pkg/cache/unavailableofferings.go:113-115 | with no ':' in type and zone, no other pair shares the key |
| Availability.MarkMeaning | pkg/cache/unavailableofferings.go:81-92 | a mark keeps its offering out for the TTL and no longer, touches no other offering, and changes the number of its type only |
| Availability.ZoneMarkMeaning | pkg/cache/unavailableofferings.go:95-102 | a zone mark keeps every type out of the zone for the TTL, touches no other zone, and changes every type's number |
| Availability.EqualReadings | pkg/cache/unavailableofferings.go:66-71 | two readings are equal exactly when neither counter moved or 2^64 increments lie between them |
| Availability.UnavailableOfferings.ReadSeqNum | pkg/cache/unavailableofferings.go:66-71 | the type's counter plus the zone counter, modulo 2^64; a type without a counter has 0 |
| Availability.UnavailableOfferings.Unavailable | pkg/cache/unavailableofferings.go:74-78 | true exactly when the entry under type, ':' and zone or the entry of the zone has not expired |
| Availability.UnavailableOfferings.Mark | pkg/cache/unavailableofferings.go:81-92 | the pair's entry lives three minutes from now, the type's counter is one more, everything else is as it was; every key keeps its ':', so the callback's panic is unreachable |
| Availability.UnavailableOfferings.MarkZone | pkg/cache/unavailableofferings.go:95-102 | the zone's entry lives three minutes from now, the zone counter is one more, everything else is as it was |
| Availability.UnavailableOfferings.RemoveAndNotify | pkg/cache/unavailableofferings.go:49-57 | the key is gone, the counter of the text before its first ':' is one more, every other entry and counter is as it was |
| Availability.UnavailableOfferings.RemoveZoneAndNotify | pkg/cache/unavailableofferings.go:58-60 | the zone is gone, the zone counter is one more, everything else is as it was |
| Availability.UnavailableOfferings.Delete | pkg/cache/unavailableofferings.go:104-106 | the same as a removal if the entry is there, and nothing at all otherwise |
| Availability.UnavailableOfferings.FlushAll | pkg/cache/unavailableofferings.go:108-111 | empties both maps and increments nothing |
| Offerings.OfferingProvider.CreateOfferings | pkg/providers/instancetype/offering/offering.go:80-118 | field by field: the cached list under type, region and zone set exactly when it is live and the number is the last seen one; otherwise one offering for each zone, sanitized, at the given price and available exactly when not marked, none for an unpriced type, stored for five minutes together with the number; nothing else changes |
| Offerings.OfferingProvider.InjectOfferings | pkg/providers/instancetype/offering/offering.go:64-78 | one call for each type in order, each list with its type |
| Offerings.InjectOneMore | pkg/providers/instancetype/offering/offering.go:64-78 | each type is handled as its own call would be after those before it, and its list comes at its own place |
| Offerings.InjectRecomputes | pkg/providers/instancetype/offering/offering.go:64-78 | with nothing cached for distinct types, each gets the recomputed list for its own price |
| Offerings.MarkInHalves | pkg/cache/unavailableofferings.go:81-102 | in the stepped provider the two half-steps of a mark, or of a zone mark, are the object's operation |
| Offerings.EvictionInHalves | pkg/cache/unavailableofferings.go:49-57 | a removal by the janitor or by Delete followed by its increment is the object's operation |
| Offerings.ZoneEvictionInHalves | pkg/cache/unavailableofferings.go:58-60 | so is a zone's removal |
| Offerings.MarkEnds | pkg/cache/unavailableofferings.go:40-62 | a mark may be removed by the janitor exactly when more than three minutes have passed |
| Offerings.LaterCallsShowTheFact | pkg/providers/instancetype/offering/offering.go:80-118 | from any reachable state, calls of one type not overlapping: a zone fact that holds from now on and was announced by an increment is shown by every call that begins later, however other steps and calls of other types fall between the call's own; and if the type's lookups all found a price, the list offers exactly the zones asked for |
| Offerings.MarkReachesLaterCalls | pkg/cache/unavailableofferings.go:81-92 | once a mark's increment has happened and while it lives, no later call returns the zone as available |
| Offerings.ZoneMarkReachesLaterCalls | pkg/cache/unavailableofferings.go:95-102 | once a zone mark's increment has happened and while it lives, no later call of any type returns the zone as available |
| Offerings.EvictionReachesLaterCalls | pkg/cache/unavailableofferings.go:49-57 | once an entry is removed and its callback has run, every later call returns the unmarked zone as available, and returns it exactly when it was asked for and the type was priced |
| Offerings.TidyRun | pkg/providers/instancetype/offering/offering.go:80-118 | over every run with one key per type and no two calls of it at once, no remembered number is ahead of the counters or of a call in flight, and a list stored by a call is still there when its number is |
| Offerings.StockedRun | pkg/providers/instancetype/offering/offering.go:93-115 | over every run whose lookups of a type find a price, no cached, built or returned list of the type misses a zone of its key |
| Offerings.RunSplit | pkg/providers/instancetype/offering/offering.go:80-118 | a run of the stepped provider is two runs, one after the other |
| OfferingLaws.AtomicCall | pkg/providers/instancetype/offering/offering.go:80-118 | the call cut into its reads and writes, with nothing between them, is the method's specification |
| OfferingLaws.Builds | pkg/providers/instancetype/offering/offering.go:80-113 | a call that recomputes, up to its two writes |
| OfferingLaws.SettledRun | pkg/providers/instancetype/offering/offering.go:80-118 | invariant: a list under the current number differs from the marks only while an increment is owed or a removal is due |
| OfferingLaws.QuietCallIsFresh | pkg/providers/instancetype/offering/offering.go:80-118 | in every reachable state with nothing outstanding, a call from the cache or not agrees zone by zone with recomputation, and offers exactly the zones asked for when lookups find a price |
| OfferingLaws.QuietCallIsSound | pkg/providers/instancetype/offering/offering.go:80-118 | with removals still due, no zone out of rotation is offered |
| OfferingLaws.InjectedListsAreSound | pkg/providers/instancetype/offering/offering.go:64-78 | in a reachable state with nothing owed, no list that InjectOfferings returns, for any of its types, offers a zone out of rotation |
| OfferingLaws.PublishedPricesPositive | pkg/providers/instancetype/offering/offering.go:93-113 | positive lookups make every returned or cached price positive |
| OfferingLimits.TwoKeysBreak | pkg/providers/instancetype/offering/offering.go:115-122 | any two different keys of one type, in region or zones, admit a run of whole calls after which a call offers a marked zone |
| OfferingLimits.ColonBreaksEviction | pkg/cache/unavailableofferings.go:49-57 | any type with a ':' admits a run after which a call withholds an unmarked zone with nothing owed |
| OfferingLimits.FlushIsUnnoticed | pkg/cache/unavailableofferings.go:108-111 | a servable list is served unchanged after a flush, and is right exactly when it withheld nothing |
| OfferingLimits.TwoReadsDecide | pkg/cache/unavailableofferings.go:74-78 | with any steps of others, other calls among them, before and between its two reads, a zone comes back available if and only if its own entry is not live at the first and the zone-wide entry is not live at the second |
| OfferingLimits.TornExactlyIfReplaced | pkg/cache/unavailableofferings.go:74-78 | a zone out of rotation at both reads comes back available if and only if its own entry replaced the zone-wide one between them, and then a mark was set in between |
| OfferingLimits.TornRead | pkg/cache/unavailableofferings.go:74-78 | a run from the start through one call in which a zone is out of rotation at every moment of the call and is returned as available |
| Overlap.WrittenMeaning | pkg/providers/instancetype/offering/offering.go:115-116 | after any number of the four writes, which call's list and which call's number the store holds |
| Overlap.MixesIff | pkg/providers/instancetype/offering/offering.go:115-116 | the moments of all possible orders at which the earlier call's list lies under the later call's number |
| Overlap.NextCallOffersIff | pkg/providers/instancetype/offering/offering.go:80-118 | for all marks, times, types, prices and zones, with a mark between the two calls: after any number of writes the next call offers the marked zone if and only if it is such a moment |
| Overlap.OverlapOffersMarkedZoneIff | pkg/providers/instancetype/offering/offering.go:80-118 | for every order and number of writes a run from the start of two calls cut into their steps and one mark reaches that moment, and the next call there offers the zone if and only if the order mixes |
| Launch.CheapestOf | pkg/providers/instance/instance.go:345-348 | the first cheapest fitting offering of one type, nothing exactly when none fits |
| Launch.CheapestOffering | pkg/providers/instance/instance.go:333-358 | the choice is available and matches, its type matches and has what is requested, no such offering of any type is cheaper, and an earlier one is dearer; the error exactly when there is none |
| Launch.ChoiceUnique | pkg/providers/instance/instance.go:333-358 | the choice is determined |
| Launch.SpeaksOfCapacityIff | pkg/stackit/sdk.go:199-237 | an error speaks of capacity exactly when one of the five phrases stands in its body, a space and its message, in any letter case |
| Launch.FailureMarks | pkg/providers/instance/instance.go:312-328 | by status and text alone: with such a phrase 409, 422 and 503 mark the type in the zone; 429 and every other status from 500 up mark the zone; every other error, 401 and 403 among them, marks nothing |
| Launch.RecordLaunchFailure | pkg/providers/instance/instance.go:312-328 | the marks change as the switch says, in its order, and by status: which errors mark the type in the zone, which the zone, which nothing |
| Launch.RecordMeaning | pkg/providers/instance/instance.go:312-328 | the failed offering leaves rotation exactly for capacity or retryable errors that are not 401 or 403; otherwise nothing changes |
| Launch.CapacityRotatesIff | pkg/providers/instance/instance.go:312-328 | an error classified as exhausted capacity marks its offering unless its status is 403, and then changes nothing |
| Launch.ForbiddenQuotaMarksNothing | pkg/stackit/sdk.go:187-237 | every 403 with a capacity phrase is capacity to the classifier and marks nothing, and there is one |
| Launch.StuckWithoutRotation | pkg/providers/instance/instance.go:312-328 | after any other error the same offerings give the same choice again |
| Provisioning.Create | pkg/providers/instance/instance.go:80-111 | each outcome exactly when: no candidate, a payload that cannot be built, a refused launch, an accepted one; a server appears only in the cheapest candidate's type and zone, with exactly the given labels, status CREATING and the launch time, and is cached for a minute; a refused launch marks exactly that pair; nothing else changes |
| Retry.HalfStepsRecord | pkg/providers/instance/instance.go:312-328 | the two half-steps by which an attempt is recorded in the run are the switch's marking |
| Retry.FailureIsSeen | pkg/providers/instance/instance.go:87-100 | a list that the stepped provider was asked for after a failure was recorded does not offer what failed, however other components move |
| Retry.NeverTwice | pkg/providers/instance/instance.go:87-100 | in every run with rotating failures within the marks' lifetime, each Create choosing from the lists the provider returned to it, no machine type is tried twice in one zone |
| Retry.RetryTerminates | pkg/providers/instance/instance.go:87-100 | such a run has at most types times zones attempts, and after that many the next Create finds no candidate and reports insufficient capacity |
| Retry.AttemptHappens | pkg/providers/instance/instance.go:87-100 | for every type, zone, price and rotating error there is such a run with one attempt, which for one type and one zone is as many as the bound allows |
| Instances.InstanceProvider.GetInstance | pkg/providers/instance/instance.go:113-132 | a live cache entry or one fresh read, field by field; a 404 drops the entry, a success stores it for a minute, another failure changes nothing |
| Instances.InstanceProvider.DeleteInstance | pkg/providers/instance/instance.go:169-196 | never succeeds; the answer and the servers in every case: a failed read, a server that is gone, DELETING or DELETED, one that disappears between the two calls, a refused delete, an accepted one; the cached copy is gone after an accepted delete and after NotFound, and no other entry changes |
| Instances.InstanceProvider.UpdateLabels | pkg/providers/instance/instance.go:200-209 | replaces the server's whole label set, changes no other server and drops the cached copy, or changes nothing |
| Instances.InstanceProvider.List | pkg/providers/instance/instance.go:140-155 | exactly the servers whose managed-by label is the cluster name, each once and as the cloud has it, all cached |
| Instances.ListingRefreshes | pkg/providers/instance/instance.go:148-154 | a listing refreshes the entry of every returned server and no other |
| Instances.ManagedSelector | pkg/providers/instance/instance.go:141-143 | with no ',' in the cluster name the selector sent matches exactly the managed servers |
| Instances.CommaHidesEveryServer | pkg/providers/instance/instance.go:141-143 | with a ',' it matches none of them |
| Teardown.UndisturbedDelete | pkg/providers/instance/instance.go:169-196 | the delete cut at its two cloud calls is the method's specification |
| Teardown.StepsAreCalls | pkg/providers/instance/instance.go:80-209 | the other steps of the runs are Get, List, UpdateLabels and an accepted launch; what the cloud does by itself touches no cached copy, an expiry no server |
| Teardown.AtMostOneFromStart | pkg/providers/instance/instance.go:157-196 | over every run the cloud accepts at most one delete of a server |
| Teardown.NotFoundIsSeen | pkg/providers/instance/instance.go:113-131 | a delete answers NotFound exactly when the cloud answered 404 within it, whatever the cache held, and then no entry is left |
| Teardown.NotFoundIsFinal | pkg/providers/instance/instance.go:157-163 | after NotFound a launched server is gone in every later state |
| Teardown.DeleteProgress | pkg/providers/instance/instance.go:169-196 | a delete whose calls are answered leaves the server terminating or gone, and says NotFound exactly when it is gone |
| Teardown.RetriesEnd | pkg/providers/instance/instance.go:157-163 | once the cloud has finished, the next answered delete says NotFound, however long the run between |
| Teardown.CacheMayLie | pkg/providers/instance/instance.go:113-118 | a cached read reports a gone server, a delete of it never does |
| Teardown.AcceptedDeleteShows | pkg/providers/instance/instance.go:113-196 | once the cloud accepted a server's delete, over any run, every answered read, from the cache or not, shows it DELETING or DELETED or says NotFound |
| GarbageCollection.ReapAll | pkg/controllers/nodeclaim/garbagecollection/controller.go:96-118 | reaped are exactly the unclaimed servers with a creation time at least two minutes ago, whatever the order; a server has an error exactly when it was reaped and Delete did not answer NotFound, and it is that answer |
| GarbageCollection.Controller.Finish | pkg/controllers/nodeclaim/garbagecollection/controller.go:116-121 | a pass succeeds and counts exactly when no server left an error; requeued after ten seconds for the first twenty passes and two minutes from then on |
| GarbageCollection.Controller.Reconcile | pkg/controllers/nodeclaim/garbagecollection/controller.go:71-128 | a whole pass: nothing is reaped unless all three listings worked, ids of claims that have none claim nothing, and the pass succeeds, is counted and requeued after ten seconds or two minutes exactly when every reaped server answered NotFound |
| GarbageCollection.InvRun | pkg/controllers/nodeclaim/garbagecollection/controller.go:75-115 | invariant of the timed protocol over every interleaving of launches, recordings, snapshots and checks |
| GarbageCollection.LateBoundsReapALiveClaim | pkg/controllers/nodeclaim/garbagecollection/controller.go:99-114 | bounds that reach the grace period admit a run that reaps a live recorded claim's server |
| GarbageCollection.SafeExactlyWithinGrace | pkg/controllers/nodeclaim/garbagecollection/controller.go:75-115 | no run reaps a server whose claim is live and recorded if and only if the two delays sum to less than the grace period |
| GarbageCollection.OrphanIsReaped | pkg/controllers/nodeclaim/garbagecollection/controller.go:75-115 | the next pass that checks in time a server whose claim is gone reaps it if and only if it has a creation time at least two minutes old |
| Termination.Reconcile | pkg/controllers/nodeclass/termination/controller.go:52-87 | adds the finalizer to a live object, removes it only from a deleted one whose list of claims is empty, touches no other finalizer; the errors, and a requeue after ten seconds exactly while a deleted one has claims |
| Termination.ProtectedRun | pkg/controllers/nodeclass/termination/controller.go:55-86 | invariant over every interleaving once the finalizer is attached |
| Termination.LaunchBeforeFinalizer | pkg/cloudprovider/cloudprovider.go:258-270 | without the finalizer a run leaves a server without its NodeClass |
| Termination.FinalizerDecides | pkg/controllers/nodeclass/termination/controller.go:55-86 | every run from an unused NodeClass keeps it under every server if and only if the finalizer was attached |
| Termination.NoLaunchAfterDeletion | pkg/cloudprovider/cloudprovider.go:258-270 | once deletion has begun no Create gets past its check; servers and pending launches only shrink |
| Termination.ResolveIff | pkg/cloudprovider/cloudprovider.go:258-270 | a Create gets past its check exactly while the NodeClass is there, ready and not being deleted, whatever its finalizers |
| Termination.ReleaseHappens | pkg/controllers/nodeclass/termination/controller.go:68-86 | with no claims a list and an answered patch remove the object, and an unanswered one leaves everything; with claims it waits |
| Termination.LastClaimReleases | pkg/controllers/nodeclass/termination/controller.go:68-86 | when the last claim's Create is over and its server gone, removing the claim, one list and one answered patch remove the NodeClass |
| Drift.DriftsIffHashedFieldsDiffer | pkg/apis/v1alpha1/stackitnodeclass.go:240-252 | static drift exactly when the specs differ in a field other than the labels, up to the order and repetition of a list and to not set against zero |
| Drift.UnsetVolumeDeletionIsBlind | pkg/apis/v1alpha1/stackitnodeclass.go:240-275 | of the edits that change only whether a server's volume goes with it, exactly those between not set and `false` are never drift |
| Drift.LabelEditsNeverDrift | pkg/apis/v1alpha1/stackitnodeclass.go:240-252 | a label-only edit leaves the stamp and every drift verdict as they were |
| Drift.WhichDrift | pkg/cloudprovider/drift.go:37-85 | which verdict when: NodeClassDrift exactly when both sides carry both annotations with equal versions and different hashes; otherwise AvailabilityZoneDrift exactly when zones are listed and none sanitizes to the server's |
| Drift.LaunchedZoneDriftsIff | pkg/cloudprovider/drift.go:67-84 | the exact condition for a server launched into a listed zone to report zone drift |
| Drift.ShortZonesNeverDrift | pkg/cloudprovider/drift.go:67-84 | a zone whose trimmed form fits in 63 never drifts its servers while listed: the verdict is static drift or none |
| HashMigration.UpdateNodeClaimHash | pkg/controllers/nodeclass/hash/controller.go:71-101 | a listed claim whose patch arrives and whose version is not v1 gets v1, and the hash unless it is flagged, and keeps every other annotation; every other claim is untouched; failure exactly when the listing or a needed patch failed |
| HashMigration.Reconcile | pkg/controllers/nodeclass/hash/controller.go:46-66 | claims first; the NodeClass is stamped with the hash and v1 exactly when the listing and every claim's patch worked and its own patch arrived; every other annotation of it stays |
| HashMigration.UnflaggedAfterMigration | pkg/controllers/nodeclass/hash/controller.go:83-93 | when a migrated unflagged claim drifts |
| HashMigration.FlaggedAfterMigration | pkg/controllers/nodeclass/hash/controller.go:87-93 | a flagged claim keeps its hash, and when it drifts |
| HashMigration.UnflaggedDriftIsForgiven | pkg/controllers/nodeclass/hash/controller.go:87-93 | drift without a Drifted condition is gone after migration |
| HashMigration.NoDriftAtAnyPoint | pkg/controllers/nodeclass/hash/controller.go:49-100 | no state of any interrupted, failing or retried run reports drift for a clean claim |
| HashMigration.DriftFreeIff | pkg/controllers/nodeclass/hash/controller.go:49-100 | an undrifted unflagged claim stays undrifted over every run if and only if neither it nor the NodeClass carries an outdated hash under the current version |
| HashMigration.FlaggedHashIsKept | pkg/controllers/nodeclass/hash/controller.go:87-93 | no run rewrites the hash of a claim that is and stays flagged |
| HashMigration.FlaggedHashKeptIff | pkg/controllers/nodeclass/hash/controller.go:72-93 | a flagged claim with another hash keeps it over every run that does not unflag or remove it, if and only if no reconcile under way listed it before it was flagged |
| HashMigration.LateFlagIsForgiven | pkg/controllers/nodeclass/hash/controller.go:72-93 | the witness from an idle reconcile: a flag set between list and patch does not protect the hash |
| HashMigration.RetriesConverge | pkg/controllers/nodeclass/hash/controller.go:49-100 | interrupted and retried runs stamp the NodeClass only over the claims one uninterrupted run produces |
| HashMigration.Finishes | pkg/controllers/nodeclass/hash/controller.go:77-100 | from any such point, patches that arrive complete the migration |
| HashMigration.RestartListsAfresh | pkg/controllers/nodeclass/hash/controller.go:49-82 | a restart changes no object, and the next reconcile lists exactly the claims that are behind then |
| Labeling.Reconcile | pkg/controllers/nodeclaim/labeling/controller.go:54-91 | skips, reads, compares and replaces as specified, with every outcome, including a server that disappears between read and update; an updated server carries class, claim, pool and cluster under their keys |
| Labeling.DesiredKeyByKey | pkg/utils/utils.go:103-114 | what the desired labels say under each managed key, by its name, and under every other |
| Labeling.RelabelOutcome | pkg/controllers/nodeclaim/labeling/controller.go:75-90 | each outcome exactly when, from what a live cached copy or else the server shows |
| Labeling.RelabelEffect | pkg/controllers/nodeclaim/labeling/controller.go:75-90 | an update makes the server's labels the desired ones, drops its cached copy and changes nothing else |
| Labeling.RelabelKeeps | pkg/controllers/nodeclaim/labeling/controller.go:75-90 | any other outcome changes no server and no cached copy of another |
| Labeling.VanishedIff | pkg/controllers/nodeclaim/labeling/controller.go:84-89 | when a reconcile returns the error it means to ignore: the update meets no server after a read that showed other labels |
| Labeling.RetriesFailUntilExpiry | pkg/controllers/nodeclaim/labeling/controller.go:75-89 | for a server that is gone, every reconcile at a time up to the cached copy's expiry returns that error and every later one does not |
| Labeling.VanishedFailsForTheTTL | pkg/controllers/nodeclaim/labeling/controller.go:75-89 | a server that goes between a fresh read and its update makes reconciles fail for exactly the cache's TTL |
| Labeling.ConvergesIff | pkg/controllers/nodeclaim/labeling/controller.go:75-90 | one answered reconcile leaves exactly the desired labels unless it read a stale copy that already looked right; other servers untouched |
| Labeling.SecondReconcileIsIdle | pkg/controllers/nodeclaim/labeling/controller.go:80-90 | with current reads one reconcile converges and the second sends nothing |
| Labeling.EveryReconcileConverges | pkg/controllers/nodeclaim/labeling/controller.go:75-90 | after any run of launches, reads, listings, label writes through the provider, deletes and expiries, one answered reconcile of any server converges and the next is idle |
| Labeling.ProviderKeepsReadsCurrent | pkg/providers/instance/instance.go:80-209 | no step of the provider, Create and List included, makes a cached copy's labels wrong |
| Labeling.AllManagedRun | pkg/utils/utils.go:103-114 | over every run every server carries the cluster's managed-by label |
| Labeling.NoServerIsLost | pkg/providers/instance/instance.go:140-155 | over every run, whatever users write, the selector matches every server that is still there if and only if the cluster name has no ',' |
| Catalog.InstanceTypeProvider.UpdateMachineTypes | pkg/providers/instancetype/instancetype.go:160-184 | an error leaves everything; otherwise the catalog is replaced as `Catalog.UpdateMeaning` says and the lists are flushed exactly when the set listed is not the one remembered |
| Catalog.UpdateMeaning | pkg/providers/instancetype/instancetype.go:160-184 | after a refresh the catalog has exactly the listed names, each with its last spec, and the lists survive exactly when the set listed is the one remembered |
| Catalog.InstanceTypeProvider.ListInstanceTypes | pkg/providers/instancetype/instancetype.go:94-125 | errors without catalog or zones; otherwise names exactly the catalog, from the cache or rebuilt |
| Catalog.ListMeaning | pkg/providers/instancetype/instancetype.go:94-153 | a live list is returned; otherwise exactly the catalog's machines are listed, with the memory seen on a node of that volume size while it is remembered and the estimate otherwise, for five minutes and under zone set, volume size and kubelet settings |
| Catalog.StepsAreOperations | pkg/providers/instancetype/instancetype.go:94-252 | the steps of the runs are the provider's operations; what expires goes alone |
| Catalog.InstanceTypeProvider.UpdateInstanceTypeCapacityFromNode | pkg/providers/instancetype/instancetype.go:212-231 | a memory larger than a remembered one changes nothing; any other is stored for sixty days |
| Catalog.InstanceTypeProvider.Drop | pkg/providers/instancetype/instancetype.go:245-252 | empties catalog, lists and discovered capacity and leaves what the change monitor remembers |
| Catalog.ListedNamesAreTheCatalog | pkg/providers/instancetype/instancetype.go:94-125 | after any run a listed result names exactly the current catalog, and when listing is an error |
| Catalog.ListedMachinesAreTheCatalog | pkg/providers/instancetype/instancetype.go:160-184 | if no listing names a machine twice with different specs, listed results are built from the current specs |
| Catalog.SetDecidesCatalogIff | pkg/providers/instancetype/instancetype.go:175-182 | the set the change monitor compares determines the catalog if and only if no name has two specs |
| Catalog.CurrentSpecsIff | pkg/providers/instancetype/instancetype.go:160-184 | while refreshes keep finding the same machines, every run lists current specs at every time if and only if no name has two specs |
| Catalog.DiscoveredIsTheMinimum | pkg/providers/instancetype/instancetype.go:212-231 | after any run of whole observations an entry is the minimum of those since it was last gone, and expires the TTL after that minimum was last seen |
| Catalog.OverlapIsSequentialIff | pkg/providers/instancetype/instancetype.go:219-224 | two overlapping observations, each deciding at its own moment, leave the memory they would leave one after the other if and only if the later write is not the larger of two values both due to be stored |
| Catalog.OverlapKeepsTheLeastIff | pkg/providers/instancetype/instancetype.go:219-224 | when both decide at one moment, that is the least of both values and the entry |
| Pricing.PriceFollowsSize | pkg/providers/pricing/pricing.go:149-159 | the modelled price is positive, and scaling a machine scales it exactly when the modelled cost is positive |
| Pricing.OneMoreCosts | pkg/providers/pricing/pricing.go:149-159 | what one more vCPU, GiB of memory and GiB of disk adds to the modelled cost, from zero on, and the price when the cost is not positive |
| Pricing.TableMeaning | pkg/providers/pricing/pricing.go:123-130 | exactly the listed types are priced, overrides win, all prices are positive |
| Pricing.LastSpecDecides | pkg/providers/pricing/pricing.go:123-130 | a type's price is its override or else the model's for its last spec |
| Pricing.PricingProvider.Price | pkg/providers/pricing/pricing.go:105-111 | the table's entry, positive when there is one |
| Pricing.PricingProvider.UpdatePrices | pkg/providers/pricing/pricing.go:114-143 | a failed or empty listing leaves the table as it was; any other replaces it by exactly the listed types with their overrides or modelled prices |
| Pricing.ParseOverrides | pkg/providers/pricing/pricing.go:171-195 | accepted exactly when no part is malformed, result positive |
| Pricing.ListReads | pkg/providers/pricing/pricing.go:176-178 | parts joined by ',' are read one by one and in order |
| Pricing.PairReads | pkg/providers/pricing/pricing.go:177-193 | the text before the first '=' is the name and the text after it the price, without the blanks around them; an unparseable or non-positive price is malformed |
| Pricing.HalfPartReads | pkg/providers/pricing/pricing.go:177-185 | nothing before or nothing after the first '=' is malformed |
| Pricing.PlainPartReads | pkg/providers/pricing/pricing.go:177-185 | a blank part is skipped and a part with no '=' is malformed |
| Pricing.LastPartWins | pkg/providers/pricing/pricing.go:176-194 | a name has a price exactly when a part names it, and it is the price in the last part that does |
| Pricing.EveryOfferingHasAPrice | pkg/providers/instancetype/offering/offering.go:93-113 | over any run of refreshes, failed refreshes and calls every offering returned or cached has a positive price |
| Pricing.RefreshDecidesLookups | pkg/providers/pricing/pricing.go:105-143 | after a refresh a lookup finds a listed type's override or modelled price and no price for any other type; after a failed one what it found before |
| Resources.TruncatedIsFloor | pkg/providers/instancetype/types.go:244-265 | truncating tier by tier equals the floor of the exact piecewise-linear sum |
| Resources.ReserveSlope | pkg/providers/instancetype/types.go:244-265 | that sum by its slope: 6% up to one core, 1% up to two, 0.5% up to four, 0.25% up to 2^31 thousandths and nothing beyond |
| Resources.ReservedCPU | pkg/providers/instancetype/types.go:244-265 | the loop computes that floor; no entry exactly for negative amounts |
| Resources.ReserveMonotoneAndBounded | pkg/providers/instancetype/types.go:244-265 | more CPU never reserves less and never more than 6% |
| Resources.KubeReserved | pkg/providers/instancetype/types.go:239-269 | (11 pods + 255) MiB of memory, 1 GiB of storage and the computed CPU, under which the NodeClass's own win, and no other keys |
| Resources.MemoryBounds | pkg/providers/instancetype/types.go:194-203 | advertised memory is the floor of what is left, within [0, ram], monotone |
| Resources.PodBounds | pkg/providers/instancetype/types.go:219-242 | maxPods or 110, or podsPerCore times cores when set and fewer; monotone in cores, and so is the reserved memory |
| Resources.EvictionThreshold | pkg/providers/instancetype/types.go:271-293 | the maximum of the signals present, 100 MiB only when none is |
| Resources.SignalMeaning | pkg/providers/instancetype/types.go:298-317 | a percentage is a ceiling, monotone in capacity, and 100% is zero; an absolute amount is itself |
| Labels.InsertionSort | pkg/utils/utils.go:184-193 | in place, sorted and a permutation |
| Labels.LeqIff | pkg/utils/utils.go:184-193 | the order it sorts by: a prefix comes first, otherwise the first difference decides |
| Labels.SortedKeys | pkg/utils/utils.go:184-193 | the sorted enumeration of a map's keys, from any iteration order |
| Labels.LabelSelector | pkg/utils/utils.go:151-157 | renders the sorted keys with their values |
| Labels.SelectorUnique | pkg/utils/utils.go:149-157 | the rendering does not depend on map order |
| Labels.SelectorRoundTrip | pkg/utils/utils.go:118-157 | splitting at ',' and cutting at the first '=' gives the map back if and only if no delimiter stands where it is misread |
| Labels.SelectorInjective | pkg/utils/utils.go:118-157 | two such maps never share a selector |
| Labels.ValidateLabels | pkg/utils/utils.go:118-147 | exactly the pairs' problems in key order, and none exactly when every pair meets the declarative rule |
| Labels.ProblemMeaning | pkg/utils/utils.go:123-138 | which problem a pair has, exactly when, the first rule broken deciding |
| Labels.AcceptedIsSelectable | pkg/utils/utils.go:45-56 | accepted labels render to a readable selector and claim no managed key |
| Labels.ApiRoundTrip | pkg/utils/utils.go:160-182 | labels survive the API map; values that are not text do not; a missing map stays missing one way and is empty the other |
| Labels.ManagedKeysWin | pkg/utils/utils.go:103-114 | no user label changes a managed key, every other arrives |
| ZoneNames.CollapseRun | pkg/utils/utils.go:66-88 | each maximal foreign run, anywhere, becomes one '-' |
| ZoneNames.CollapseKeepsAllowed | pkg/utils/utils.go:66-88 | text of allowed characters is left as it is |
| ZoneNames.SanitizedShape | pkg/utils/utils.go:87-94 | at most 63 allowed characters, no leading separator |
| ZoneNames.SanitizedCharacters | pkg/utils/utils.go:66-94 | the result is at most 63 letters, digits, '-', '_' and '.', beginning with a letter or digit |
| ZoneNames.OneCharacterInside | pkg/utils/utils.go:66-88 | between letters and digits '-', '_' and '.' stay and every other character becomes one '-' |
| ZoneNames.OneCharacterOutside | pkg/utils/utils.go:87-94 | at the ends every character that is no letter or digit goes |
| ZoneNames.UnchangedIff | pkg/utils/utils.go:87-94 | unchanged exactly when short, allowed and without edge separators |
| ZoneNames.IdempotentIff | pkg/utils/utils.go:87-94 | when one application suffices |
| ZoneNames.TwiceIsFixed | pkg/utils/utils.go:87-94 | two applications reach a fixed point |
| ZoneNames.TruncationBreaksIdempotence | pkg/utils/utils.go:90-92 | one application does not always |
| ZoneNames.ProviderIDRoundTrip | pkg/utils/utils.go:70-81 | rendering and parsing are inverse, and what a parse accepts |

## Left out

- STACKIT SDK and Kubernetes client internals: a cloud or API call is an atomic step that may be made to fail; the cloud answers 404 only for a server that does not exist, keeps a terminating server terminating, and does not reuse ids.
- go-cache, hashstructure, lo and the change monitor are not part of this repository: a TTL map, injective hashes with lists as sets, and a monitor that compares listings as sets and may forget.
- Karpenter's scheduling library: requirement matching and `Cheapest` are two predicates and a first-minimum scan, `Allocatable` is a map; every offering is for one zone.
- Floating point: rounding and NaN in prices and percentages, including an override written as `nan`; the number parser is a parameter. `resource.MustParse` and its panics on malformed quantities.
- 64-bit overflow in capacity and price arithmetic, which needs machine types far beyond any that exist.
- Offerings.LaterCallsShowTheFact: two calls of one type do not overlap; what they can do when they do is `Overlap.OverlapOffersMarkedZoneIff`, for two calls and one mark. Prices inside a cached list may be as old as the list's TTL, by design.
- GarbageCollection.SafeExactlyWithinGrace: what Delete does to a reaped server is `Teardown.dfy`'s; the filter on deletion timestamps drops nothing, because no listed server is given one; removal of the Node object is unreachable, because Delete never succeeds.
- Termination.FinalizerDecides: reads are linearizable, stale informer caches are not modelled, other finalizers and re-creation of a NodeClass under its old name are not, and Create's readiness tests are one flag.
- Teardown.AtMostOneFromStart: two Deletes of one server at the same time are not modelled; karpenter works on one claim at a time.
- Teardown.AcceptedDeleteShows: a read is one step; one that overlaps the delete and stores its older answer afterwards is not modelled.
- Labeling.Reconcile: a failed read of the NodeClass, which is an error without effect; a label update and the drop of the cached copy are one step, so a read that overlaps them and stores an older copy for up to a minute is not modelled, nor are label writes from outside.
- Labels.ValidateLabels: lengths are in characters; a key or value that is longer only in bytes is rejected either way, for another reason.
- Catalog.DiscoveredIsTheMinimum: an observation is one step; for two that overlap see `Catalog.OverlapIsSequentialIff`.
- Catalog.ListedNamesAreTheCatalog: the resolver gives every machine type an instance type, as the default resolver does; memory inside a cached list may be as old as the list's TTL; `Get` and `MachineTypeSpecs`, which read the same catalog, are not modelled.
- Retry.RetryTerminates: the run lies within the marks' TTL, nothing deletes or flushes them (the program does neither), listed types keep to one region and zone set, and calls of one type do not overlap.
- Case folding of error bodies is ASCII.
- `createPayload` beyond type, zone and labels, `networking`, `serverName`, ephemeral storage, repair policies, zone resolution, validation controllers, instance-type resolution for listed servers: settled by reading one branch.
- Logging, metrics, events, registration, flags, wiring, generated code, charts.
