/** The loop that a failed launch starts: Create, fail, mark, list again, choose again. The lists come from the
    stepped offering provider of Offerings, in one run with everything else that moves
    (pkg/providers/instance/instance.go, pkg/providers/instancetype/offering/offering.go). */
module Retry {
  import opened Options
  import opened Availability
  import opened Offerings
  import opened Launch
  import OfferingLaws
  import ZoneNames

  // ---------------------------------------------------------------- attempts in a run

  function At(es: seq<Event>, i: nat): Sys
    requires Run(INIT, es) && i <= |es|
  {
    assert es[..i] + es[i..] == es;
    RunSplit(INIT, es[..i], es[i..]);
    After(INIT, es[..i])
  }

  /** The call that began at this position gave an instance type its offerings. Steps of others fall anywhere
      between its own. */
  predicate Gave(es: seq<Event>, it: InstanceType, begun: nat, region: string, zones: seq<string>)
    requires Run(INIT, es)
  {
    && begun < |es| && es[begun].Begin? && es[begun] == Begin(es[begun].id, it.name, region, zones)
    && es[begun].id in At(es, |es|).returned
    && At(es, |es|).returned[es[begun].id].list == it.offerings
  }

  /** What one Create sees, and where the calls that gave it began. */
  datatype View = View(its: seq<InstanceType>, calls: seq<nat>)

  predicate Listed(es: seq<Event>, v: View, region: string, zones: seq<string>)
    requires Run(INIT, es)
  {
    |v.calls| == |v.its| && forall n :: 0 <= n < |v.its| ==> Gave(es, v.its[n], v.calls[n], region, zones)
  }

  /** A failed Create: what it saw and chose, the error, and the positions of the two half-steps that the
      failure is recorded by. */
  datatype Attempt = Attempt(view: View, i: nat, j: nat, error: LaunchError, marked: nat, bumped: nat)

  predicate Chose(a: Attempt) {
    a.i < |a.view.its| && a.j < |a.view.its[a.i].offerings|
  }

  function Pair(a: Attempt): (string, string)
    requires Chose(a)
  {
    (a.view.its[a.i].name, a.view.its[a.i].offerings[a.j].zone)
  }

  /** recordLaunchFailure for an error that rotates, cut at the counter. */
  function SetStep(e: LaunchError, t: string, z: string): Event {
    if IsInsufficientCapacity(e) then SetMark(t, z) else SetZoneMark(z)
  }

  function BumpStep(e: LaunchError, t: string): Event {
    if IsInsufficientCapacity(e) then BumpMark(t) else BumpZoneMark
  }

  lemma HalfStepsRecord(s: Sys, e: LaunchError, t: string, z: string)
    requires Rotates(e)
    ensures Enabled(s, SetStep(e, t, z)) && Enabled(Next(s, SetStep(e, t, z)), BumpStep(e, t))
    ensures Next(Next(s, SetStep(e, t, z)), BumpStep(e, t)).marks == Record(s.marks, s.now, e, t, z)
  {
  }

  /** The attempt's failure is recorded at its two positions. */
  predicate Recorded(es: seq<Event>, a: Attempt) {
    && Chose(a) && a.marked < a.bumped < |es|
    && es[a.marked] == SetStep(a.error, Pair(a).0, Pair(a).1) && es[a.bumped] == BumpStep(a.error, Pair(a).0)
  }

  /** The run goes on within the lifetime of the attempt's mark, and nothing deletes or flushes the mark. The
      program itself does neither. */
  predicate MarkLasts(es: seq<Event>, a: Attempt)
    requires Run(INIT, es) && Recorded(es, a)
  {
    && At(es, |es|).now <= At(es, a.marked).now + UNAVAILABLE_OFFERINGS_TTL
    && forall k :: a.marked < k < |es| ==> !Removes(es[k], Pair(a).0, Pair(a).1)
  }

  /** The view's lists were all asked for after the attempt's failure was recorded. */
  predicate Follows(v: View, a: Attempt) {
    forall n :: 0 <= n < |v.calls| ==> a.bumped < v.calls[n]
  }

  /** What the offering cache needs of the calls for a type: one region and zone set, no two at once, and fewer
      than 2^64 increments. Calls for different types may overlap. */
  predicate Regular(es: seq<Event>, t: string, region: string, zones: seq<string>)
    requires Run(INIT, es)
  {
    && OneKey(es, KeyOf(t, region, zones)) && Alone(INIT, es, t)
    && Bumps(At(es, |es|).marks, t) < WIDTH
  }

  predicate AllRegular(es: seq<Event>, v: View, region: string, zones: seq<string>)
    requires Run(INIT, es)
  {
    forall n :: 0 <= n < |v.its| ==> Regular(es, v.its[n].name, region, zones)
  }

  /** A run with failed Creates for one claim in it. Each chooses from the lists the provider returned to it,
      fails with an error that rotates, records it, and only then is there a next one. Other components call,
      mark, evict and wait in between. */
  ghost predicate FailingRun(es: seq<Event>, tries: seq<Attempt>, claim: Claim, region: string, zones: seq<string>)
    requires Run(INIT, es)
  {
    && (forall k :: 0 <= k < |tries| ==>
          && Listed(es, tries[k].view, region, zones) && AllRegular(es, tries[k].view, region, zones)
          && IsChoice(tries[k].view.its, claim, tries[k].i, tries[k].j) && Rotates(tries[k].error)
          && Recorded(es, tries[k]) && MarkLasts(es, tries[k]))
    && (forall p, q :: 0 <= p < q < |tries| ==> Follows(tries[q].view, tries[p]))
  }

  // ---------------------------------------------------------------- a recorded failure is seen

  /** The run around the failure's half-steps and a call that began after them. */
  lemma Cuts(es: seq<Event>, a: Attempt, begun: nat)
    requires a.marked < a.bumped < begun < |es|
    ensures es[..a.marked] + [es[a.marked]] == es[..a.marked + 1]
    ensures es[a.marked + 1..a.bumped] + [es[a.bumped]] + es[a.bumped + 1..begun] + [es[begun]] + es[begun + 1..]
         == es[a.marked + 1..]
    ensures es[..a.marked + 1] + es[a.marked + 1..] == es
  {
  }

  lemma RunsTo(es: seq<Event>, i: nat, j: nat, t: string)
    requires Run(INIT, es) && i <= j <= |es|
    ensures Run(INIT, es[..i]) && Run(At(es, i), es[i..j]) && After(At(es, i), es[i..j]) == At(es, j)
    ensures At(es, i).now <= At(es, j).now && Bumps(At(es, i).marks, t) <= Bumps(At(es, j).marks, t)
  {
    assert es[..j] == es[..i] + es[i..j];
    assert es[..j] + es[j..] == es;
    RunSplit(INIT, es[..j], es[j..]);
    RunSplit(INIT, es[..i], es[i..j]);
    BumpsGrow(At(es, i), es[i..j], t);
  }

  lemma StepAt(es: seq<Event>, i: nat)
    requires Run(INIT, es) && i < |es|
    ensures Enabled(At(es, i), es[i]) && At(es, i + 1) == Next(At(es, i), es[i])
  {
    RunsTo(es, i, i + 1, "");
    var one := es[i..i + 1];
    assert one == [es[i]] && one[1..] == [];
  }

  lemma SetKeepsTime(es: seq<Event>, a: Attempt)
    requires Run(INIT, es) && Recorded(es, a)
    ensures At(es, a.marked + 1).now == At(es, a.marked).now
  {
    StepAt(es, a.marked);
  }

  lemma EventsAroundTheMark(es: seq<Event>, a: Attempt, key: Key)
    requires Run(INIT, es) && Recorded(es, a) && MarkLasts(es, a) && OneKey(es, key)
    ensures OneKey(es[..a.marked + 1], key) && OneKey(es[a.marked + 1..], key)
    ensures forall e :: e in es[a.marked + 1..] ==> !Removes(e, Pair(a).0, Pair(a).1)
  {
    var tail := es[a.marked + 1..];
    forall e | e in tail ensures !Removes(e, Pair(a).0, Pair(a).1) {
      var k :| 0 <= k < |tail| && tail[k] == e;
      assert es[a.marked + 1 + k] == e;
    }
  }

  /** What the mark's reaching later calls asks of the run after it. */
  lemma AfterTheMark(es: seq<Event>, a: Attempt, key: Key)
    requires Run(INIT, es) && Recorded(es, a) && MarkLasts(es, a)
    requires OneKey(es, key) && Alone(INIT, es, key.machineType)
    ensures var head, tail := es[..a.marked + 1], es[a.marked + 1..];
      && Run(INIT, head) && Run(After(INIT, head), tail) && After(After(INIT, head), tail) == At(es, |es|)
      && OneKey(head, key) && OneKey(tail, key)
      && Alone(INIT, head, key.machineType) && Alone(After(INIT, head), tail, key.machineType)
      && (forall e :: e in tail ==> !Removes(e, Pair(a).0, Pair(a).1))
      && At(es, |es|).now <= After(INIT, head).now + UNAVAILABLE_OFFERINGS_TTL
  {
    var head, tail := es[..a.marked + 1], es[a.marked + 1..];
    assert es[a.marked + 1..|es|] == tail && head + tail == es;
    RunsTo(es, a.marked + 1, |es|, key.machineType);
    AloneSplit(INIT, head, tail, key.machineType);
    EventsAroundTheMark(es, a, key);
    SetKeepsTime(es, a);
  }

  /** A list asked for after a failure was recorded does not offer what failed. */
  lemma FailureIsSeen(es: seq<Event>, a: Attempt, it: InstanceType, begun: nat, region: string, zones: seq<string>,
                j: nat)
    requires Run(INIT, es) && Recorded(es, a) && Rotates(a.error) && MarkLasts(es, a)
    requires Gave(es, it, begun, region, zones) && a.bumped < begun && it.name == Pair(a).0
    requires Regular(es, it.name, region, zones)
    requires j < |it.offerings| && it.offerings[j].zone == Pair(a).1
    ensures !it.offerings[j].available
  {
    if IsInsufficientCapacity(a.error) {
      MarkIsSeen(es, a, it, begun, region, zones, j);
    } else {
      ZoneMarkIsSeen(es, a, it, begun, region, zones, j);
    }
  }

  lemma MarkIsSeen(es: seq<Event>, a: Attempt, it: InstanceType, begun: nat, region: string, zones: seq<string>, j: nat)
    requires Run(INIT, es) && Recorded(es, a) && IsInsufficientCapacity(a.error) && MarkLasts(es, a)
    requires Gave(es, it, begun, region, zones) && a.bumped < begun && it.name == Pair(a).0
    requires Regular(es, it.name, region, zones)
    requires j < |it.offerings| && it.offerings[j].zone == Pair(a).1
    ensures !it.offerings[j].available
  {
    AfterTheMark(es, a, KeyOf(it.name, region, zones));
    Cuts(es, a, begun);
    MarkReachesLaterCalls(es[..a.marked], it.name, Pair(a).1, es[a.marked + 1..a.bumped], es[a.bumped + 1..begun],
       es[begun].id, region, zones, es[begun + 1..]);
  }

  lemma ZoneMarkIsSeen(es: seq<Event>, a: Attempt, it: InstanceType, begun: nat, region: string, zones: seq<string>,
                j: nat)
    requires Run(INIT, es) && Recorded(es, a) && !IsInsufficientCapacity(a.error) && MarkLasts(es, a)
    requires Gave(es, it, begun, region, zones) && a.bumped < begun && it.name == Pair(a).0
    requires Regular(es, it.name, region, zones)
    requires j < |it.offerings| && it.offerings[j].zone == Pair(a).1
    ensures !it.offerings[j].available
  {
    AfterTheMark(es, a, KeyOf(it.name, region, zones));
    Cuts(es, a, begun);
    ZoneMarkReachesLaterCalls(es[..a.marked], it.name, Pair(a).1, es[a.marked + 1..a.bumped], es[a.bumped + 1..begun],
       es[begun].id, region, zones, es[begun + 1..]);
  }

  lemma NotChosenAgain(es: seq<Event>, a: Attempt, v: View, claim: Claim, region: string, zones: seq<string>,
                       i: nat, j: nat)
    requires Run(INIT, es) && Recorded(es, a) && Rotates(a.error) && MarkLasts(es, a)
    requires Listed(es, v, region, zones) && AllRegular(es, v, region, zones) && Follows(v, a)
    requires Candidate(v.its, claim, i, j)
    ensures (v.its[i].name, v.its[i].offerings[j].zone) != Pair(a)
  {
    if (v.its[i].name, v.its[i].offerings[j].zone) == Pair(a) {
      FailureIsSeen(es, a, v.its[i], v.calls[i], region, zones, j);
    }
  }

  /** No machine type is tried twice in one zone. */
  lemma NeverTwice(es: seq<Event>, tries: seq<Attempt>, claim: Claim, region: string, zones: seq<string>,
                   p: nat, q: nat)
    requires Run(INIT, es) && FailingRun(es, tries, claim, region, zones) && p < q < |tries|
    ensures Pair(tries[p]) != Pair(tries[q])
  {
    NotChosenAgain(es, tries[p], tries[q].view, claim, region, zones, tries[q].i, tries[q].j);
  }

  // ---------------------------------------------------------------- the loop ends

  function Product(ts: set<string>, zs: set<string>): set<(string, string)> {
    set t, z | t in ts && z in zs :: (t, z)
  }

  lemma {:induction false} ProductSize(ts: set<string>, zs: set<string>)
    ensures |Product(ts, zs)| == |ts| * |zs|
    decreases |ts|
  {
    if ts == {} {
      assert Product(ts, zs) == {};
    } else {
      var t :| t in ts;
      var rest := ts - {t};
      ProductSize(rest, zs);
      RowSize(t, zs);
      SplitRow(rest, t, zs);
      assert ts == rest + {t};
      assert |ts| * |zs| == |rest| * |zs| + |zs|;
    }
  }

  lemma SplitRow(rest: set<string>, t: string, zs: set<string>)
    requires t !in rest
    ensures |Product(rest + {t}, zs)| == |Product(rest, zs)| + |Product({t}, zs)|
  {
    assert Product(rest + {t}, zs) == Product(rest, zs) + Product({t}, zs);
    assert Product(rest, zs) !! Product({t}, zs);
  }

  lemma {:induction false} RowSize(t: string, zs: set<string>)
    ensures |Product({t}, zs)| == |zs|
    decreases |zs|
  {
    if zs == {} {
      assert Product({t}, zs) == {};
    } else {
      var z :| z in zs;
      RowSize(t, zs - {z});
      assert Product({t}, zs) == Product({t}, zs - {z}) + {(t, z)};
    }
  }

  function Pairs(tries: seq<Attempt>): (r: seq<(string, string)>)
    requires forall k :: 0 <= k < |tries| ==> Chose(tries[k])
    ensures |r| == |tries| && forall k :: 0 <= k < |tries| ==> r[k] == Pair(tries[k])
  {
    seq(|tries|, k requires 0 <= k < |tries| => Pair(tries[k]))
  }

  lemma {:induction false} DistinctSize(pairs: seq<(string, string)>)
    requires forall p, q :: 0 <= p < q < |pairs| ==> pairs[p] != pairs[q]
    ensures |set x | x in pairs| == |pairs|
  {
    if pairs != [] {
      var init, last := pairs[..|pairs| - 1], pairs[|pairs| - 1];
      DistinctSize(init);
      assert pairs == init + [last];
      assert (set x | x in pairs) == (set x | x in init) + {last};
    }
  }

  lemma SubsetSize<T>(a: set<T>, b: set<T>)
    requires a <= b
    ensures |a| <= |b|
    ensures |a| == |b| ==> a == b
  {
    assert b == a + (b - a);
  }

  /** Every listed type is one of `ts` and every listed zone one of `zs`. */
  predicate Within(v: View, ts: set<string>, zs: set<string>) {
    forall i, j :: 0 <= i < |v.its| && 0 <= j < |v.its[i].offerings| ==>
      v.its[i].name in ts && v.its[i].offerings[j].zone in zs
  }

  lemma ChoicesAreWithin(es: seq<Event>, tries: seq<Attempt>, claim: Claim, region: string, zones: seq<string>,
                         ts: set<string>, zs: set<string>, k: nat)
    requires Run(INIT, es) && FailingRun(es, tries, claim, region, zones) && k < |tries|
    requires Within(tries[k].view, ts, zs)
    ensures Chose(tries[k]) && Pair(tries[k]) in Product(ts, zs)
  {
    assert Candidate(tries[k].view.its, claim, tries[k].i, tries[k].j);
  }

  /** The pairs that were tried, as many as there were attempts. */
  lemma TriedPairs(es: seq<Event>, tries: seq<Attempt>, claim: Claim, region: string, zones: seq<string>,
                   ts: set<string>, zs: set<string>) returns (tried: set<(string, string)>)
    requires Run(INIT, es) && FailingRun(es, tries, claim, region, zones)
    requires forall k :: 0 <= k < |tries| ==> Within(tries[k].view, ts, zs)
    ensures |tried| == |tries| && tried <= Product(ts, zs)
    ensures forall x :: x in tried ==> Tried(tries, x)
  {
    forall k | 0 <= k < |tries|
      ensures Chose(tries[k]) && Pair(tries[k]) in Product(ts, zs)
    {
      ChoicesAreWithin(es, tries, claim, region, zones, ts, zs, k);
    }
    forall p, q | 0 <= p < q < |tries|
      ensures Pair(tries[p]) != Pair(tries[q])
    {
      NeverTwice(es, tries, claim, region, zones, p, q);
    }
    tried := PairSet(tries, Product(ts, zs));
  }

  predicate Tried(tries: seq<Attempt>, x: (string, string)) {
    exists k :: 0 <= k < |tries| && Chose(tries[k]) && Pair(tries[k]) == x
  }

  lemma PairSet(tries: seq<Attempt>, all: set<(string, string)>) returns (tried: set<(string, string)>)
    requires forall k :: 0 <= k < |tries| ==> Chose(tries[k]) && Pair(tries[k]) in all
    requires forall p, q :: 0 <= p < q < |tries| ==> Pair(tries[p]) != Pair(tries[q])
    ensures |tried| == |tries| && tried <= all
    ensures forall x :: x in tried ==> Tried(tries, x)
  {
    var pairs := Pairs(tries);
    DistinctSize(pairs);
    tried := set x | x in pairs;
    forall x | x in tried
      ensures Tried(tries, x) && x in all
    {
      var k :| 0 <= k < |pairs| && pairs[k] == x;
      assert Pair(tries[k]) == x;
    }
  }

  /** A run of rotating failures has at most |types| x |zones| attempts, and once it has that many, the
      next Create finds no candidate at all: it reports InsufficientCapacity. */
  lemma RetryTerminates(es: seq<Event>, tries: seq<Attempt>, claim: Claim, region: string, zones: seq<string>,
                        ts: set<string>, zs: set<string>, next: View)
    requires Run(INIT, es) && FailingRun(es, tries, claim, region, zones)
    requires forall k :: 0 <= k < |tries| ==> Within(tries[k].view, ts, zs)
    requires Listed(es, next, region, zones) && AllRegular(es, next, region, zones) && Within(next, ts, zs)
    requires forall k :: 0 <= k < |tries| ==> Follows(next, tries[k])
    ensures |tries| <= |ts| * |zs|
    ensures |tries| == |ts| * |zs| ==> forall i, j :: !Candidate(next.its, claim, i, j)
  {
    var tried := TriedPairs(es, tries, claim, region, zones, ts, zs);
    ProductSize(ts, zs);
    SubsetSize(tried, Product(ts, zs));
    if |tries| == |ts| * |zs| {
      forall i, j
        ensures !Candidate(next.its, claim, i, j)
      {
        if Candidate(next.its, claim, i, j) {
          Exhausted(es, tries, tried, claim, region, zones, ts, zs, next, i, j);
        }
      }
    }
  }

  lemma Exhausted(es: seq<Event>, tries: seq<Attempt>, tried: set<(string, string)>, claim: Claim, region: string,
                  zones: seq<string>, ts: set<string>, zs: set<string>, next: View, i: nat, j: nat)
    requires Run(INIT, es) && FailingRun(es, tries, claim, region, zones)
    requires Listed(es, next, region, zones) && AllRegular(es, next, region, zones) && Within(next, ts, zs)
    requires forall k :: 0 <= k < |tries| ==> Follows(next, tries[k])
    requires tried == Product(ts, zs)
    requires forall x :: x in tried ==> Tried(tries, x)
    ensures !Candidate(next.its, claim, i, j)
  {
    if Candidate(next.its, claim, i, j) {
      var x := (next.its[i].name, next.its[i].offerings[j].zone);
      assert x in tried;
      var k :| 0 <= k < |tries| && Chose(tries[k]) && Pair(tries[k]) == x;
      NotChosenAgain(es, tries[k], next, claim, region, zones, i, j);
    }
  }

  // ---------------------------------------------------------------- there are such runs

  predicate Beginless(es: seq<Event>) {
    forall e :: e in es ==> !e.Begin?
  }

  lemma {:induction false} BeginlessAlone(s: Sys, es: seq<Event>, t: string)
    requires Run(s, es) && Beginless(es)
    ensures Alone(s, es, t)
    decreases |es|
  {
    if es != [] {
      BeginlessAlone(Next(s, es[0]), es[1..], t);
    }
  }

  /** A first call for one zone, and the record of a failure. */
  function FirstCall(t: string, region: string, zone: string, price: real): seq<Event> {
    [Begin(0, t, region, [zone]), Lookup(0, Some(price)), ReadOffer(0), ReadZone(0), WriteList(0), WriteNumber(0)]
  }

  function Recording(e: LaunchError, t: string, z: string): seq<Event> {
    [SetStep(e, t, z), BumpStep(e, t)]
  }

  /** An instance type with one offering. */
  function Lone(t: string, region: string, z: string, price: real): InstanceType {
    InstanceType(t, [Offering(z, region, price, true)], map[])
  }

  lemma FirstCallRuns(t: string, region: string, zone: string, price: real)
    ensures Run(INIT, FirstCall(t, region, zone, price))
    ensures After(INIT, FirstCall(t, region, zone, price))
         == OfferingLaws.Called(INIT, 0, t, region, [zone], Some(price))
  {
    OfferingLaws.AtomicCall(INIT, 0, t, region, [zone], Some(price));
    assert OfferingLaws.Reads(0, 1) == [ReadOffer(0), ReadZone(0)] + OfferingLaws.Reads(0, 0);
    assert OfferingLaws.CallEvents(INIT, 0, t, region, [zone], Some(price)) == FirstCall(t, region, zone, price);
  }

  lemma RecordingRuns(s: Sys, e: LaunchError, t: string, z: string)
    requires Rotates(e)
    ensures Run(s, Recording(e, t, z))
    ensures After(s, Recording(e, t, z)).marks == Record(s.marks, s.now, e, t, z)
    ensures After(s, Recording(e, t, z)).now == s.now && After(s, Recording(e, t, z)).returned == s.returned
  {
    HalfStepsRecord(s, e, t, z);
    OfferingLaws.RunTwo(s, SetStep(e, t, z), BumpStep(e, t));
  }

  lemma CallThenRecording(t: string, region: string, zone: string, price: real, e: LaunchError)
    requires Rotates(e)
    ensures var z := ZoneNames.SanitizeZone(zone);
      var es := FirstCall(t, region, zone, price) + Recording(e, t, z);
      && Run(INIT, es) && |es| == 8
      && At(es, 6) == OfferingLaws.Called(INIT, 0, t, region, [zone], Some(price))
      && At(es, 8).now == 0 && At(es, 8).returned == At(es, 6).returned
      && At(es, 8).marks == Record(NO_MARKS, 0, e, t, z)
  {
    var z := ZoneNames.SanitizeZone(zone);
    var call, record := FirstCall(t, region, zone, price), Recording(e, t, z);
    FirstCallRuns(t, region, zone, price);
    RecordingRuns(OfferingLaws.Called(INIT, 0, t, region, [zone], Some(price)), e, t, z);
    RunSplit(INIT, call, record);
    assert (call + record)[..6] == call && (call + record)[..8] == call + record;
  }

  lemma CallThenRecordingIsRegular(t: string, region: string, zone: string, price: real, e: LaunchError)
    requires Rotates(e)
    requires Run(INIT, FirstCall(t, region, zone, price) + Recording(e, t, ZoneNames.SanitizeZone(zone)))
    ensures Regular(FirstCall(t, region, zone, price) + Recording(e, t, ZoneNames.SanitizeZone(zone)), t, region,
                    [zone])
  {
    var es := FirstCall(t, region, zone, price) + Recording(e, t, ZoneNames.SanitizeZone(zone));
    CallThenRecording(t, region, zone, price, e);
    BeginlessAlone(Next(INIT, es[0]), es[1..], t);
    assert Bumps(Record(NO_MARKS, 0, e, t, ZoneNames.SanitizeZone(zone)), t) == 1 < WIDTH;
  }

  lemma FirstCallGave(t: string, region: string, zone: string, price: real, e: LaunchError)
    requires Rotates(e)
    requires Run(INIT, FirstCall(t, region, zone, price) + Recording(e, t, ZoneNames.SanitizeZone(zone)))
    ensures var z := ZoneNames.SanitizeZone(zone);
      Gave(FirstCall(t, region, zone, price) + Recording(e, t, z),
           Lone(t, region, z, price), 0, region, [zone])
  {
    CallThenRecording(t, region, zone, price, e);
    var es := FirstCall(t, region, zone, price) + Recording(e, t, ZoneNames.SanitizeZone(zone));
    assert es[0] == Begin(0, t, region, [zone]);
    assert At(es, 6).returned[0].list == [FreshOffering(NO_MARKS, 0, t, region, zone, price)];
  }

  /** A claim that anything will do for. */
  function AnyClaim(): Claim {
    Claim(_ => true, _ => true, map[])
  }

  lemma LoneIsChosen(t: string, region: string, z: string, price: real)
    ensures IsChoice([Lone(t, region, z, price)], AnyClaim(), 0, 0)
  {
    assert Candidate([Lone(t, region, z, price)], AnyClaim(), 0, 0);
  }

  /** For every type, zone and price and every error that rotates there is a run in which the provider lists the
      zone, the Create that chooses it fails and the failure is recorded: with one type and one zone as many
      attempts as the bound allows. */
  lemma AttemptHappens(t: string, region: string, zone: string, price: real, e: LaunchError)
    returns (es: seq<Event>, a: Attempt)
    requires Rotates(e)
    ensures Run(INIT, es) && FailingRun(es, [a], AnyClaim(), region, [zone])
    ensures Chose(a) && Pair(a) == (t, ZoneNames.SanitizeZone(zone)) && a.error == e
    ensures Within(a.view, {t}, {ZoneNames.SanitizeZone(zone)})
  {
    var z := ZoneNames.SanitizeZone(zone);
    es := FirstCall(t, region, zone, price) + Recording(e, t, z);
    a := Attempt(View([Lone(t, region, z, price)], [0]), 0, 0, e, 6, 7);
    CallThenRecording(t, region, zone, price, e);
    CallThenRecordingIsRegular(t, region, zone, price, e);
    FirstCallGave(t, region, zone, price, e);
    LoneIsChosen(t, region, z, price);
    LoneAttempt(es, a, region, [zone], t, z, price);
  }

  lemma LoneAttempt(es: seq<Event>, a: Attempt, region: string, zones: seq<string>, t: string, z: string, price: real)
    requires Run(INIT, es) && |es| == 8 && At(es, 8).now == At(es, 6).now && Rotates(a.error)
    requires a == Attempt(View([Lone(t, region, z, price)], [0]), 0, 0, a.error, 6, 7)
    requires Gave(es, Lone(t, region, z, price), 0, region, zones) && Regular(es, t, region, zones)
    requires es[6] == SetStep(a.error, t, z) && es[7] == BumpStep(a.error, t)
    requires IsChoice(a.view.its, AnyClaim(), 0, 0)
    ensures FailingRun(es, [a], AnyClaim(), region, zones)
  {
    OneAttempt(es, a, AnyClaim(), region, zones);
  }

  lemma OneAttempt(es: seq<Event>, a: Attempt, claim: Claim, region: string, zones: seq<string>)
    requires Run(INIT, es) && Listed(es, a.view, region, zones) && AllRegular(es, a.view, region, zones)
    requires IsChoice(a.view.its, claim, a.i, a.j) && Rotates(a.error) && Recorded(es, a)
    requires a.bumped == a.marked + 1 == |es| - 1 && At(es, |es|).now == At(es, a.marked).now
    ensures FailingRun(es, [a], claim, region, zones)
  {
    MarkLastsToItsBump(es, a);
    var tries := [a];
    assert forall k :: 0 <= k < |tries| ==> tries[k] == a;
  }

  lemma MarkLastsToItsBump(es: seq<Event>, a: Attempt)
    requires Run(INIT, es) && Recorded(es, a)
    requires a.bumped == a.marked + 1 == |es| - 1 && At(es, |es|).now == At(es, a.marked).now
    ensures MarkLasts(es, a)
  {
    forall k | a.marked < k < |es| ensures !Removes(es[k], Pair(a).0, Pair(a).1) {
      assert k == a.bumped;
    }
  }
}
