/** Choosing an offering, reading a failed launch, and trying again
    (pkg/providers/instance/instance.go, pkg/stackit/sdk.go). */
module Launch {
  import opened Options
  import opened Availability
  import opened Offerings

  // ---------------------------------------------------------------- the choice

  /** What the choice reads off an instance type. */
  datatype InstanceType = InstanceType(name: string, offerings: seq<Offering>, allocatable: map<string, int>)

  /** A NodeClaim as the choice sees it. Requirement matching belongs to the scheduling library and
      is two predicates here. */
  datatype Claim = Claim(
    typeMatches: InstanceType -> bool, offeringMatches: Offering -> bool, requests: map<string, int>)

  predicate ResourcesFit(it: InstanceType, claim: Claim) {
    forall r :: r in claim.requests ==> r in it.allocatable && claim.requests[r] <= it.allocatable[r]
  }

  predicate TypeFits(it: InstanceType, claim: Claim) {
    claim.typeMatches(it) && ResourcesFit(it, claim)
  }

  predicate OfferingFits(o: Offering, claim: Claim) {
    o.available && claim.offeringMatches(o)
  }

  predicate Candidate(its: seq<InstanceType>, claim: Claim, i: int, j: int) {
    && 0 <= i < |its| && 0 <= j < |its[i].offerings|
    && TypeFits(its[i], claim) && OfferingFits(its[i].offerings[j], claim)
  }

  function PriceAt(its: seq<InstanceType>, i: int, j: int): real
    requires 0 <= i < |its| && 0 <= j < |its[i].offerings|
  {
    its[i].offerings[j].price
  }

  predicate Earlier(i: int, j: int, i': int, j': int) {
    i < i' || (i == i' && j < j')
  }

  /** The cheapest candidate, and the first in type order and then offering order among the cheapest. */
  ghost predicate IsChoice(its: seq<InstanceType>, claim: Claim, i: int, j: int) {
    && Candidate(its, claim, i, j)
    && forall i', j' :: Candidate(its, claim, i', j') ==>
         && PriceAt(its, i, j) <= PriceAt(its, i', j')
         && (Earlier(i', j', i, j) ==> PriceAt(its, i, j) < PriceAt(its, i', j'))
  }

  lemma ChoiceUnique(its: seq<InstanceType>, claim: Claim, i: int, j: int, i': int, j': int)
    requires IsChoice(its, claim, i, j) && IsChoice(its, claim, i', j')
    ensures i == i' && j == j'
  {
    assert Candidate(its, claim, i, j) && Candidate(its, claim, i', j');
    assert Earlier(i, j, i', j') || Earlier(i', j', i, j) || (i == i' && j == j');
  }

  /** The library's Cheapest over the available, matching offerings of one type: the first minimum,
      or nothing. */
  method CheapestOf(offerings: seq<Offering>, claim: Claim) returns (best: Option<nat>)
    ensures best.None? ==> forall j :: 0 <= j < |offerings| ==> !OfferingFits(offerings[j], claim)
    ensures best.Some? ==> best.value < |offerings| && OfferingFits(offerings[best.value], claim)
    ensures best.Some? ==> forall j :: 0 <= j < |offerings| && OfferingFits(offerings[j], claim) ==>
              && offerings[best.value].price <= offerings[j].price
              && (j < best.value ==> offerings[best.value].price < offerings[j].price)
  {
    best := None;
    for k := 0 to |offerings|
      invariant best.None? ==> forall j :: 0 <= j < k ==> !OfferingFits(offerings[j], claim)
      invariant best.Some? ==> best.value < k && OfferingFits(offerings[best.value], claim)
      invariant best.Some? ==> forall j :: 0 <= j < k && OfferingFits(offerings[j], claim) ==>
                  && offerings[best.value].price <= offerings[j].price
                  && (j < best.value ==> offerings[best.value].price < offerings[j].price)
    {
      if OfferingFits(offerings[k], claim) && (best.None? || offerings[k].price < offerings[best.value].price) {
        best := Some(k);
      }
    }
  }

  /** None is the source's InsufficientCapacity error. */
  method CheapestOffering(its: seq<InstanceType>, claim: Claim) returns (best: Option<(nat, nat)>)
    ensures best.Some? ==> IsChoice(its, claim, best.value.0, best.value.1)
    ensures best.None? <==> forall i, j :: !Candidate(its, claim, i, j)
    ensures best.Some? ==>
      var it, o := its[best.value.0], its[best.value.0].offerings[best.value.1];
      && o.available && claim.offeringMatches(o) && claim.typeMatches(it)
      && forall r :: r in claim.requests ==> r in it.allocatable && claim.requests[r] <= it.allocatable[r]
    ensures forall i, j :: 0 <= i < |its| && 0 <= j < |its[i].offerings| ==>
      var it, o := its[i], its[i].offerings[j];
      && o.available && claim.offeringMatches(o) && claim.typeMatches(it)
      && (forall r :: r in claim.requests ==> r in it.allocatable && claim.requests[r] <= it.allocatable[r]) ==>
      && best.Some?
      && its[best.value.0].offerings[best.value.1].price <= o.price
      && (i < best.value.0 || (i == best.value.0 && j < best.value.1) ==>
            its[best.value.0].offerings[best.value.1].price < o.price)
  {
    best := None;
    for k := 0 to |its|
      invariant best.None? ==> forall i, j :: Candidate(its, claim, i, j) ==> i >= k
      invariant best.Some? ==> best.value.0 < k && Candidate(its, claim, best.value.0, best.value.1)
      invariant best.Some? ==> forall i, j :: Candidate(its, claim, i, j) && i < k ==>
                  && PriceAt(its, best.value.0, best.value.1) <= PriceAt(its, i, j)
                  && (Earlier(i, j, best.value.0, best.value.1) ==>
                        PriceAt(its, best.value.0, best.value.1) < PriceAt(its, i, j))
    {
      if TypeFits(its[k], claim) {
        var offering := CheapestOf(its[k].offerings, claim);
        if offering.Some? {
          var j := offering.value;
          if best.None? || its[k].offerings[j].price < its[best.value.0].offerings[best.value.1].price {
            best := Some((k, j));
          }
        }
      }
    }
    assert best.Some? ==> Candidate(its, claim, best.value.0, best.value.1);
    forall i, j | 0 <= i < |its| && 0 <= j < |its[i].offerings|
                  && OfferingFits(its[i].offerings[j], claim) && TypeFits(its[i], claim)
      ensures Candidate(its, claim, i, j)
    {
    }
  }

  // ---------------------------------------------------------------- reading a failure

  /** `Opaque` is an error that is not the API client's. */
  datatype LaunchError = Api(status: int, body: string, message: string) | Opaque

  predicate IsUnauthorized(e: LaunchError) { e.Api? && (e.status == 401 || e.status == 403) }

  predicate IsRetryable(e: LaunchError) { e.Api? && (e.status >= 500 || e.status == 429) }

  const CAPACITY_FRAGMENTS: seq<string> := [
    "no valid host",
    "not enough hosts available",
    "insufficient capacity",
    "resource quota exceeded",
    "quota exceeded"
  ]

  function LowerChar(c: char): char {
    if 'A' <= c <= 'Z' then c - 'A' + 'a' else c
  }

  function Lower(s: string): string {
    seq(|s|, i requires 0 <= i < |s| => LowerChar(s[i]))
  }

  predicate StandsAt(s: string, i: int, part: string) {
    0 <= i <= |s| - |part| && s[i..i + |part|] == part
  }

  predicate Contains(s: string, part: string) {
    exists i :: 0 <= i <= |s| && StandsAt(s, i, part)
  }

  predicate SpeaksOfCapacity(e: LaunchError)
    requires e.Api?
  {
    exists f :: f in CAPACITY_FRAGMENTS && Contains(Lower(e.body + " " + e.message), f)
  }

  predicate IsInsufficientCapacity(e: LaunchError) {
    e.Api? && e.status in {409, 403, 422, 503} && SpeaksOfCapacity(e)
  }

  /** The character is the letter, large or small, or the same character. */
  predicate ReadsAs(c: char, letter: char) {
    c == letter || ('a' <= letter <= 'z' && c as int + 32 == letter as int)
  }

  predicate SaysAt(text: string, i: int, phrase: string) {
    && 0 <= i <= |text| - |phrase|
    && var part := text[i..i + |phrase|];
       forall k :: 0 <= k < |phrase| ==> ReadsAs(part[k], phrase[k])
  }

  /** The phrase stands somewhere in the text, in any letter case. */
  predicate Says(text: string, phrase: string) {
    exists i :: 0 <= i <= |text| && SaysAt(text, i, phrase)
  }

  predicate NoCapital(phrase: string) {
    forall k :: 0 <= k < |phrase| ==> !('A' <= phrase[k] <= 'Z')
  }

  lemma LoweredSays(text: string, phrase: string)
    requires NoCapital(phrase)
    ensures Contains(Lower(text), phrase) <==> Says(text, phrase)
  {
    var lower := Lower(text);
    forall i ensures StandsAt(lower, i, phrase) <==> SaysAt(text, i, phrase) {
      if 0 <= i <= |text| - |phrase| {
        var part, low := text[i..i + |phrase|], lower[i..i + |phrase|];
        assert forall k :: 0 <= k < |phrase| ==> low[k] == LowerChar(part[k]);
        assert low == phrase <==> forall k :: 0 <= k < |phrase| ==> low[k] == phrase[k];
      }
    }
    if Says(text, phrase) {
      var i :| 0 <= i <= |text| && SaysAt(text, i, phrase);
      assert StandsAt(lower, i, phrase);
    }
  }

  lemma NoCapitals()
    ensures forall f :: f in CAPACITY_FRAGMENTS ==> NoCapital(f)
  {
  }

  lemma AnyOfFive(text: string)
    ensures (exists f :: f in CAPACITY_FRAGMENTS && Says(text, f)) <==>
      || Says(text, "no valid host") || Says(text, "not enough hosts available")
      || Says(text, "insufficient capacity") || Says(text, "resource quota exceeded")
      || Says(text, "quota exceeded")
  {
    assert CAPACITY_FRAGMENTS == ["no valid host", "not enough hosts available", "insufficient capacity",
                                  "resource quota exceeded", "quota exceeded"];
    forall f | f in CAPACITY_FRAGMENTS
      ensures f == CAPACITY_FRAGMENTS[0] || f == CAPACITY_FRAGMENTS[1] || f == CAPACITY_FRAGMENTS[2]
           || f == CAPACITY_FRAGMENTS[3] || f == CAPACITY_FRAGMENTS[4]
    {
    }
    assert forall n :: 0 <= n < 5 ==> CAPACITY_FRAGMENTS[n] in CAPACITY_FRAGMENTS;
  }

  /** The five phrases, in any letter case, anywhere in the body, a space and the message. */
  lemma SpeaksOfCapacityIff(e: LaunchError)
    requires e.Api?
    ensures var text := e.body + " " + e.message;
      SpeaksOfCapacity(e) <==>
        || Says(text, "no valid host") || Says(text, "not enough hosts available")
        || Says(text, "insufficient capacity") || Says(text, "resource quota exceeded")
        || Says(text, "quota exceeded")
  {
    var text := e.body + " " + e.message;
    AnyOfFive(text);
    NoCapitals();
    forall f | f in CAPACITY_FRAGMENTS ensures Contains(Lower(text), f) <==> Says(text, f) {
      LoweredSays(text, f);
    }
  }

  /** What either half says, the text of both says. */
  lemma EitherHalfSays(body: string, message: string, phrase: string)
    requires Says(body, phrase) || Says(message, phrase)
    ensures Says(body + " " + message, phrase)
  {
    var text := body + " " + message;
    if Says(body, phrase) {
      var i :| 0 <= i <= |body| && SaysAt(body, i, phrase);
      assert text[i..i + |phrase|] == body[i..i + |phrase|];
      assert SaysAt(text, i, phrase);
    } else {
      var i :| 0 <= i <= |message| && SaysAt(message, i, phrase);
      var j := |body| + 1 + i;
      assert text[j..j + |phrase|] == message[i..i + |phrase|];
      assert SaysAt(text, j, phrase);
    }
  }

  /** The switch of recordLaunchFailure, in its order. */
  function Record(m: Marks, now: Time, e: LaunchError, t: string, z: string): Marks {
    if IsUnauthorized(e) then m
    else if IsInsufficientCapacity(e) then MarkUnavailable(m, now, t, z)
    else if IsRetryable(e) then MarkZoneUnavailable(m, now, z)
    else m
  }

  /** Which errors mark what, by status and text: with a capacity phrase 409, 422 and 503 mark the type in the
      zone; 429 and every other status from 500 up mark the zone; nothing else marks anything. */
  lemma FailureMarks(m: Marks, now: Time, e: LaunchError, t: string, z: string)
    ensures e.Opaque? ==> Record(m, now, e, t, z) == m
    ensures e.Api? ==>
      var text := e.body + " " + e.message;
      var phrase :=
        || Says(text, "no valid host") || Says(text, "not enough hosts available")
        || Says(text, "insufficient capacity") || Says(text, "resource quota exceeded")
        || Says(text, "quota exceeded");
      Record(m, now, e, t, z) ==
        if phrase && (e.status == 409 || e.status == 422 || e.status == 503) then MarkUnavailable(m, now, t, z)
        else if e.status == 429 || e.status >= 500 then MarkZoneUnavailable(m, now, z)
        else m
  {
    if e.Api? {
      SpeaksOfCapacityIff(e);
    }
  }

  method RecordLaunchFailure(marks: UnavailableOfferings, e: LaunchError, t: string, z: string, now: Time)
    requires marks.Valid()
    modifies marks
    ensures marks.Valid() && marks.View() == Record(old(marks.View()), now, e, t, z)
    ensures e.Api? && (e.status == 409 || e.status == 422 || e.status == 503) && SpeaksOfCapacity(e) ==>
      marks.View() == MarkUnavailable(old(marks.View()), now, t, z)
    ensures e.Api? && (e.status == 429 || e.status >= 500) && !(e.status == 503 && SpeaksOfCapacity(e)) ==>
      marks.View() == MarkZoneUnavailable(old(marks.View()), now, z)
    ensures e.Opaque? || (e.status !in {409, 422, 429} && e.status < 500)
            || (e.status in {409, 422} && !SpeaksOfCapacity(e)) ==>
      marks.View() == old(marks.View())
  {
    if IsUnauthorized(e) {
    } else if IsInsufficientCapacity(e) {
      marks.Mark(t, z, now);
    } else if IsRetryable(e) {
      marks.MarkZone(z, now);
    }
  }

  /** Failures that take something out of rotation. */
  predicate Rotates(e: LaunchError) {
    !IsUnauthorized(e) && (IsInsufficientCapacity(e) || IsRetryable(e))
  }

  /** After a failed launch of an offering that was in rotation, the offering is out of rotation
      exactly when the error rotates; otherwise nothing at all has changed. */
  lemma RecordMeaning(m: Marks, now: Time, e: LaunchError, t: string, z: string)
    requires !IsUnavailable(m, now, t, z)
    ensures IsUnavailable(Record(m, now, e, t, z), now, t, z) <==> Rotates(e)
    ensures !Rotates(e) ==> Record(m, now, e, t, z) == m
  {
  }

  /** An error that the classifier takes for exhausted capacity takes the offering out of rotation unless it is
      a 403: the switch asks for rejected credentials first, and then nothing changes at all. */
  lemma CapacityRotatesIff(m: Marks, now: Time, e: LaunchError, t: string, z: string)
    requires IsInsufficientCapacity(e)
    ensures Rotates(e) <==> e.status != 403
    ensures e.status == 403 ==> Record(m, now, e, t, z) == m
    ensures e.status != 403 ==> Record(m, now, e, t, z) == MarkUnavailable(m, now, t, z)
  {
  }

  /** There are such errors: any 403 with a capacity phrase, and a quota message is one. */
  lemma ForbiddenQuotaMarksNothing(m: Marks, now: Time, body: string, message: string, t: string, z: string)
    ensures var e := Api(403, body, message);
      SpeaksOfCapacity(e) ==> IsInsufficientCapacity(e) && !Rotates(e) && Record(m, now, e, t, z) == m
    ensures SpeaksOfCapacity(Api(403, "Quota exceeded", ""))
  {
    var e := Api(403, "Quota exceeded", "");
    var s := Lower(e.body + " " + e.message);
    var f := "quota exceeded";
    assert CAPACITY_FRAGMENTS[4] == f && f in CAPACITY_FRAGMENTS;
    assert |s| == 15;
    assert s[0..0 + |f|] == f;
    assert StandsAt(s, 0, f);
    assert Contains(s, f);
  }

  /** The other side: an error that does not rotate leaves the marks alone, and a Create that sees the
      same offerings again makes the same choice again. */
  lemma StuckWithoutRotation(m: Marks, now: Time, e: LaunchError, its: seq<InstanceType>, claim: Claim,
                             i: nat, j: nat, i': nat, j': nat)
    requires IsChoice(its, claim, i, j) && !Rotates(e)
    ensures Record(m, now, e, its[i].name, its[i].offerings[j].zone) == m
    ensures IsChoice(its, claim, i', j') <==> i' == i && j' == j
  {
    if IsChoice(its, claim, i', j') {
      ChoiceUnique(its, claim, i, j, i', j');
    }
  }
}
