/** The availability-zone sanitizer and the providerID format (pkg/utils/utils.go).

    A zone name is sanitized the way the cloud-controller-manager sanitizes it before it writes the
    node's zone label. Characters are Unicode scalar values; everything that survives is ASCII, so a
    length in characters is a length in bytes. */
module ZoneNames {
  import opened Options

  const MAX_ZONE_LENGTH := 63
  const PROVIDER_ID_PREFIX := "stackit://"

  /** The characters the sanitizer keeps. */
  predicate Allowed(c: char) {
    'a' <= c <= 'z' || 'A' <= c <= 'Z' || '0' <= c <= '9' || c == '-' || c == '_' || c == '.'
  }

  predicate Separator(c: char) {
    c == '-' || c == '_' || c == '.'
  }

  predicate AllAllowed(s: string) {
    forall i :: 0 <= i < |s| ==> Allowed(s[i])
  }

  /** Drops the maximal prefix of characters that are not allowed. */
  function SkipRun(s: string): (r: string)
    ensures |r| <= |s|
    ensures s != [] && !Allowed(s[0]) ==> |r| < |s|
  {
    if s == [] || Allowed(s[0]) then s else SkipRun(s[1..])
  }

  /** Every maximal run of characters that are not allowed becomes one '-'. */
  function Collapse(s: string): (r: string)
    ensures AllAllowed(r)
    decreases |s|
  {
    if s == [] then []
    else if Allowed(s[0]) then [s[0]] + Collapse(s[1..])
    else ['-'] + Collapse(SkipRun(s))
  }

  function TrimLeft(s: string): (r: string)
    ensures r == [] || !Separator(r[0])
    ensures AllAllowed(s) ==> AllAllowed(r)
    ensures |r| <= |s|
  {
    if s == [] || !Separator(s[0]) then s else TrimLeft(s[1..])
  }

  function TrimRight(s: string): (r: string)
    ensures r <= s
    ensures r == [] || !Separator(r[|r| - 1])
  {
    if s == [] || !Separator(s[|s| - 1]) then s else TrimRight(s[..|s| - 1])
  }

  function Trim(s: string): string {
    TrimRight(TrimLeft(s))
  }

  function Truncate(s: string): string {
    if |s| > MAX_ZONE_LENGTH then s[..MAX_ZONE_LENGTH] else s
  }

  function SanitizeZone(zone: string): string {
    Truncate(Trim(Collapse(zone)))
  }

  /** A string that already has the shape of a node label: short, allowed, no separator at an end. */
  predicate WellFormed(s: string) {
    |s| <= MAX_ZONE_LENGTH && AllAllowed(s) && NoEdgeSeparator(s)
  }

  predicate NoEdgeSeparator(s: string) {
    s == [] || (!Separator(s[0]) && !Separator(s[|s| - 1]))
  }

  lemma {:induction false} CollapseKeepsAllowed(s: string)
    requires AllAllowed(s)
    ensures Collapse(s) == s
  {
    if s != [] {
      CollapseKeepsAllowed(s[1..]);
    }
  }

  lemma {:induction false} SkipWholeRun(run: string, rest: string)
    requires forall i :: 0 <= i < |run| ==> !Allowed(run[i])
    requires rest == [] || Allowed(rest[0])
    ensures SkipRun(run + rest) == rest
  {
    if run == [] {
      assert run + rest == rest;
    } else {
      SkipWholeRun(run[1..], rest);
      assert (run + rest)[1..] == run[1..] + rest;
    }
  }

  lemma RunFirst(run: string, after: string)
    requires run != [] && forall i :: 0 <= i < |run| ==> !Allowed(run[i])
    requires after == [] || Allowed(after[0])
    ensures Collapse(run + after) == ['-'] + Collapse(after)
  {
    SkipWholeRun(run, after);
    assert (run + after)[0] == run[0];
  }

  /** What one replacement means: a maximal run of foreign characters, anywhere in the text, becomes
      exactly one '-', and the text around it is collapsed on its own. */
  lemma {:induction false} CollapseRun(before: string, run: string, after: string)
    requires run != [] && forall i :: 0 <= i < |run| ==> !Allowed(run[i])
    requires before == [] || Allowed(before[|before| - 1])
    requires after == [] || Allowed(after[0])
    ensures Collapse(before + (run + after)) == Collapse(before) + (['-'] + Collapse(after))
    decreases |before|
  {
    var rest := run + after;
    if before == [] {
      assert before + rest == rest;
      RunFirst(run, after);
    } else {
      var first := [if Allowed(before[0]) then before[0] else '-'];
      CollapseRun(Step(before), run, after);
      StepPrefix(before, rest);
      Regroup(first, Collapse(Step(before)), ['-'] + Collapse(after));
    }
  }

  lemma Regroup(a: string, b: string, c: string)
    ensures a + (b + c) == (a + b) + c
  {
  }

  /** The text left after the first character, or the first run, has been replaced. */
  function Step(s: string): (r: string)
    requires s != []
    ensures |r| < |s|
    ensures Allowed(s[|s| - 1]) ==> r == [] || Allowed(r[|r| - 1])
    ensures Collapse(s) == [if Allowed(s[0]) then s[0] else '-'] + Collapse(r)
  {
    if Allowed(s[0]) then s[1..] else (if Allowed(s[|s| - 1]) then SkipRunKeepsEnd(s); SkipRun(s) else SkipRun(s))
  }

  lemma StepPrefix(before: string, rest: string)
    requires before != [] && Allowed(before[|before| - 1])
    ensures Collapse(before + rest) == [if Allowed(before[0]) then before[0] else '-'] + Collapse(Step(before) + rest)
  {
    var s := before + rest;
    if Allowed(before[0]) {
      assert s[1..] == before[1..] + rest;
    } else {
      SkipRunPrefix(before, rest);
    }
  }

  lemma {:induction false} SkipRunPrefix(s: string, rest: string)
    requires s != [] && Allowed(s[|s| - 1])
    ensures SkipRun(s + rest) == SkipRun(s) + rest
  {
    if !Allowed(s[0]) {
      SkipRunPrefix(s[1..], rest);
      assert (s + rest)[1..] == s[1..] + rest;
    }
  }

  lemma {:induction false} SkipRunKeepsEnd(s: string)
    requires s != [] && Allowed(s[|s| - 1])
    ensures SkipRun(s) != [] && Allowed(SkipRun(s)[|SkipRun(s)| - 1])
  {
    if !Allowed(s[0]) {
      SkipRunKeepsEnd(s[1..]);
    }
  }

  lemma TrimEdges(s: string)
    ensures NoEdgeSeparator(Trim(s))
    ensures NoEdgeSeparator(s) ==> Trim(s) == s
  {
    var l := TrimLeft(s);
    var r := TrimRight(l);
    if r != [] {
      assert r[0] == l[0];
    }
  }

  /** The output is at most 63 allowed characters and never starts with a separator. */
  lemma SanitizedShape(zone: string)
    ensures |SanitizeZone(zone)| <= 63
    ensures AllAllowed(SanitizeZone(zone))
    ensures SanitizeZone(zone) != [] ==> !Separator(SanitizeZone(zone)[0])
    ensures ':' !in SanitizeZone(zone)
  {
    var c := Collapse(zone);
    TrimEdges(c);
    var l := TrimLeft(c);
    assert Trim(c) <= l;
    assert AllAllowed(Trim(c));
  }

  /** Sanitizing leaves a name unchanged exactly when it is already well formed. */
  lemma UnchangedIff(zone: string)
    ensures SanitizeZone(zone) == zone <==> WellFormed(zone)
  {
    if WellFormed(zone) {
      CollapseKeepsAllowed(zone);
      TrimEdges(zone);
    }
    if SanitizeZone(zone) == zone {
      SanitizedShape(zone);
      CollapseKeepsAllowed(zone);
      TrimEdges(zone);
    }
  }

  /** A second application changes the result exactly when the 63-character cut left a separator at
      the end, which takes a trimmed form longer than 63 whose 63rd character is a separator. */
  lemma IdempotentIff(zone: string)
    ensures SanitizeZone(SanitizeZone(zone)) == SanitizeZone(zone)
       <==> var t := Trim(Collapse(zone)); |t| <= MAX_ZONE_LENGTH || !Separator(t[MAX_ZONE_LENGTH - 1])
  {
    var s := SanitizeZone(zone);
    SanitizedShape(zone);
    TrimEdges(Collapse(zone));
    UnchangedIff(s);
  }

  /** Two applications always reach a fixed point. */
  lemma TwiceIsFixed(zone: string)
    ensures SanitizeZone(SanitizeZone(SanitizeZone(zone))) == SanitizeZone(SanitizeZone(zone))
  {
    var s := SanitizeZone(zone);
    SanitizedShape(zone);
    CollapseKeepsAllowed(s);
    var t := Trim(s);
    TrimEdges(s);
    assert TrimLeft(s) == s;
    assert SanitizeZone(s) == t;
    UnchangedIff(t);
  }

  /** The truncating family is not empty: 62 letters, a dash and one more letter. */
  lemma TruncationBreaksIdempotence()
    ensures exists zone :: SanitizeZone(SanitizeZone(zone)) != SanitizeZone(zone)
  {
    var zone := seq(62, _ => 'a') + "-a";
    assert AllAllowed(zone);
    CollapseKeepsAllowed(zone);
    TrimEdges(zone);
    IdempotentIff(zone);
  }

  predicate Alphanumeric(c: char) {
    'a' <= c <= 'z' || 'A' <= c <= 'Z' || '0' <= c <= '9'
  }

  /** The characters by name: a result is letters, digits, '-', '_' and '.', at most 63 of them, and starts with a
      letter or a digit. */
  lemma SanitizedCharacters(zone: string)
    ensures var s := SanitizeZone(zone);
      && |s| <= 63
      && (forall i :: 0 <= i < |s| ==> Alphanumeric(s[i]) || s[i] == '-' || s[i] == '_' || s[i] == '.')
      && (s != [] ==> Alphanumeric(s[0]))
  {
    SanitizedShape(zone);
    var s := SanitizeZone(zone);
    assert forall i :: 0 <= i < |s| ==> Allowed(s[i]);
  }

  lemma {:induction false} CollapseOne(before: string, c: char, after: string)
    requires AllAllowed(before) && AllAllowed(after)
    ensures var kept := if Allowed(c) then c else '-';
      Collapse(before + ([c] + after)) == before + ([kept] + after)
  {
    var s := before + ([c] + after);
    if Allowed(c) {
      CollapseKeepsAllowed(s);
    } else {
      CollapseRun(before, [c], after);
      CollapseKeepsAllowed(before);
      CollapseKeepsAllowed(after);
    }
  }

  /** Between letters and digits, '-', '_' and '.' stay, and every other character becomes a '-'. */
  lemma OneCharacterInside(before: string, c: char, after: string)
    requires before != [] && after != [] && |before| + 1 + |after| <= 63
    requires forall i :: 0 <= i < |before| ==> Alphanumeric(before[i])
    requires forall i :: 0 <= i < |after| ==> Alphanumeric(after[i])
    ensures SanitizeZone(before + ([c] + after))
         == before + ([if Alphanumeric(c) || c == '_' || c == '.' then c else '-'] + after)
  {
    CollapseOne(before, c, after);
    var r := Collapse(before + ([c] + after));
    assert NoEdgeSeparator(r) by {
      assert r[0] == before[0] && r[|r| - 1] == after[|after| - 1];
    }
    TrimEdges(r);
  }

  lemma TrimAtEdge(d: char, s: string)
    requires s != [] && NoEdgeSeparator(s)
    ensures Trim([d] + s) == if Separator(d) then s else [d] + s
    ensures Trim(s + [d]) == if Separator(d) then s else s + [d]
  {
    var left, right := [d] + s, s + [d];
    assert left[1..] == s && right[..|s|] == s && right[0] == s[0] && left[|left| - 1] == s[|s| - 1];
    TrimEdges(s);
    TrimEdges(left);
    TrimEdges(right);
    assert TrimLeft(s) == s && TrimRight(s) == s;
  }

  lemma CollapseAtEdge(c: char, s: string)
    requires AllAllowed(s)
    ensures var kept := if Allowed(c) then c else '-';
      Collapse([c] + s) == [kept] + s && Collapse(s + [c]) == s + [kept]
  {
    var kept := if Allowed(c) then c else '-';
    CollapseOne([], c, s);
    assert [] + ([c] + s) == [c] + s && [] + ([kept] + s) == [kept] + s;
    CollapseOne(s, c, []);
    assert [c] + [] == [c] && [kept] + [] == [kept];
  }

  /** At the ends '-', '_' and '.' go, and so does every other character that is no letter or digit. */
  lemma OneCharacterOutside(c: char, s: string)
    requires s != [] && |s| <= 62 && forall i :: 0 <= i < |s| ==> Alphanumeric(s[i])
    ensures SanitizeZone([c] + s) == if Alphanumeric(c) then [c] + s else s
    ensures SanitizeZone(s + [c]) == if Alphanumeric(c) then s + [c] else s
  {
    var kept := if Allowed(c) then c else '-';
    assert AllAllowed(s) && NoEdgeSeparator(s);
    CollapseAtEdge(c, s);
    TrimAtEdge(kept, s);
    assert Separator(kept) <==> !Alphanumeric(c);
    assert Alphanumeric(c) ==> kept == c;
  }

  // ---------------------------------------------------------------- providerID

  function ProviderID(id: string): string {
    PROVIDER_ID_PREFIX + id
  }

  /** None is the source's error: wrong prefix, empty id, or an id with a '/' in it. */
  function ParseInstanceID(providerID: string): Option<string> {
    if PROVIDER_ID_PREFIX <= providerID then
      var id := providerID[|PROVIDER_ID_PREFIX|..];
      if id == "" || '/' in id then None else Some(id)
    else None
  }

  /** Rendering and parsing are inverse on every id a parse can return, and the parse accepts
      nothing else. */
  lemma ProviderIDRoundTrip(id: string, providerID: string)
    ensures ParseInstanceID(ProviderID(id)) == Some(id) <==> id != "" && '/' !in id
    ensures ParseInstanceID(providerID) == Some(id) <==> providerID == "stackit://" + id && id != "" && '/' !in id
  {
    assert ProviderID(id)[|PROVIDER_ID_PREFIX|..] == id;
  }
}
