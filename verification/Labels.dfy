/** Server labels: the managed set, the validator, the selector string and the API map
    (pkg/utils/utils.go, pkg/apis/v1alpha1/labels.go). */
module Labels {
  import opened Options

  type LabelMap = map<string, string>

  const MANAGED_BY := "karpenter.sh/managed-by"
  const NODE_POOL := "karpenter.sh/nodepool"
  const NODE_CLAIM := "karpenter.sh/nodeclaim"
  const NODE_CLASS := "karpenter.k8s.stackit/nodeclass"
  const MANAGED_KEYS: set<string> := {MANAGED_BY, NODE_POOL, NODE_CLAIM, NODE_CLASS}

  const MAX_KEY_LENGTH := 255
  const MAX_VALUE_LENGTH := 255

  // ---------------------------------------------------------------- the order on keys

  /** Go's `<=` on strings. Code-point order equals the byte order of the UTF-8 form. */
  predicate Leq(a: string, b: string) {
    a == [] || (b != [] && (a[0] < b[0] || (a[0] == b[0] && Leq(a[1..], b[1..]))))
  }

  /** One text is a prefix of the other, or the first characters in which they differ decide. */
  lemma {:induction false} LeqIff(a: string, b: string)
    ensures Leq(a, b) <==> a <= b || exists i :: FirstDifference(a, b, i) && a[i] < b[i]
  {
    if a != [] && b != [] && a[0] == b[0] {
      LeqIff(a[1..], b[1..]);
      assert a == [a[0]] + a[1..] && b == [b[0]] + b[1..];
      assert a <= b <==> a[1..] <= b[1..];
      if i :| FirstDifference(a[1..], b[1..], i) && a[1..][i] < b[1..][i] {
        assert a[..i + 1] == [a[0]] + a[1..][..i] && b[..i + 1] == [b[0]] + b[1..][..i];
        assert FirstDifference(a, b, i + 1);
      }
      if i :| FirstDifference(a, b, i) && a[i] < b[i] {
        assert a[1..][..i - 1] == a[..i][1..] && b[1..][..i - 1] == b[..i][1..];
        assert FirstDifference(a[1..], b[1..], i - 1);
      }
    } else if a != [] && b != [] {
      assert FirstDifference(a, b, 0);
      forall i | FirstDifference(a, b, i) ensures i == 0 {
        HeadsDiffer(a, b, i);
      }
    }
  }

  predicate FirstDifference(a: string, b: string, i: int) {
    0 <= i < |a| && i < |b| && a[..i] == b[..i] && a[i] != b[i]
  }

  lemma HeadsDiffer(a: string, b: string, i: int)
    requires FirstDifference(a, b, i)
    ensures i == 0 <==> a[0] != b[0]
  {
    if i > 0 {
      assert a[..i][0] == a[0];
    }
  }

  lemma {:induction false} LeqTotal(a: string, b: string)
    ensures Leq(a, b) || Leq(b, a)
    ensures Leq(a, b) && Leq(b, a) ==> a == b
    ensures Leq(a, a)
  {
    if a != [] {
      LeqTotal(a[1..], a[1..]);
    }
    if a != [] && b != [] && a[0] == b[0] {
      LeqTotal(a[1..], b[1..]);
      if Leq(a, b) && Leq(b, a) {
        assert a == [a[0]] + a[1..] && b == [b[0]] + b[1..];
      }
    }
  }

  lemma {:induction false} LeqTransitive(a: string, b: string, c: string)
    requires Leq(a, b) && Leq(b, c)
    ensures Leq(a, c)
  {
    if a != [] && a[0] == b[0] && b[0] == c[0] {
      LeqTransitive(a[1..], b[1..], c[1..]);
    }
  }

  ghost predicate Sorted(s: seq<string>) {
    forall p, q :: 0 <= p < q < |s| ==> Leq(s[p], s[q])
  }

  /** Sorted except that the element at `hole` may be too small for its place. */
  ghost predicate SortedExcept(s: seq<string>, hole: int) {
    forall p, q :: 0 <= p < q < |s| && q != hole ==> Leq(s[p], s[q])
  }

  lemma SwapStep(s: seq<string>, j: int)
    requires 0 < j < |s| && SortedExcept(s, j)
    requires s[j] != s[j - 1] && Leq(s[j], s[j - 1])
    ensures SortedExcept(s[j := s[j - 1]][j - 1 := s[j]], j - 1)
  {
    var t := s[j := s[j - 1]][j - 1 := s[j]];
    forall p, q | 0 <= p < q < |t| && q != j - 1 ensures Leq(t[p], t[q]) {
    }
  }

  lemma HoleFilled(s: seq<string>, j: int)
    requires 0 <= j < |s| && SortedExcept(s, j)
    requires j > 0 ==> Leq(s[j - 1], s[j])
    ensures Sorted(s)
  {
    forall p, q | 0 <= p < q < |s| ensures Leq(s[p], s[q]) {
      if q == j && p < j - 1 {
        LeqTransitive(s[p], s[j - 1], s[j]);
      }
    }
  }

  lemma SwapMultiset(s: seq<string>, i: int, j: int)
    requires 0 <= i < j < |s|
    ensures multiset(s[j := s[i]][i := s[j]]) == multiset(s)
  {
  }

  /** The source's insertion sort, in place. */
  method InsertionSort(keys: array<string>)
    modifies keys
    ensures Sorted(keys[..])
    ensures multiset(keys[..]) == multiset(old(keys[..]))
  {
    var i := 1;
    while i < keys.Length
      invariant 1 <= i && (i <= keys.Length || keys.Length == 0)
      invariant i <= keys.Length ==> Sorted(keys[..i])
      invariant multiset(keys[..]) == multiset(old(keys[..]))
    {
      i := InsertAt(keys, i);
    }
    assert keys.Length > 0 ==> keys[..i] == keys[..];
  }

  method SwapLeft(keys: array<string>, i: nat, j: nat)
    requires 0 < j <= i < keys.Length
    modifies keys
    ensures keys[..i + 1] == old(keys[..i + 1])[j := old(keys[j - 1])][j - 1 := old(keys[j])]
    ensures multiset(keys[..]) == multiset(old(keys[..]))
  {
    SwapMultiset(keys[..], j - 1, j);
    ghost var before := keys[..];
    keys[j], keys[j - 1] := keys[j - 1], keys[j];
    assert keys[..] == before[j := before[j - 1]][j - 1 := before[j]];
  }

  /** One pass of the outer loop: moves keys[i] left to its place in the sorted prefix. */
  method InsertAt(keys: array<string>, i: nat) returns (next: nat)
    requires 1 <= i < keys.Length && Sorted(keys[..i])
    modifies keys
    ensures next == i + 1 && Sorted(keys[..next])
    ensures multiset(keys[..]) == multiset(old(keys[..]))
  {
    var j := i;
    while j > 0 && keys[j] != keys[j - 1] && Leq(keys[j], keys[j - 1])
      invariant 0 <= j <= i
      invariant SortedExcept(keys[..i + 1], j)
      invariant multiset(keys[..]) == multiset(old(keys[..]))
    {
      SwapStep(keys[..i + 1], j);
      SwapLeft(keys, i, j);
      j := j - 1;
    }
    if j > 0 {
      LeqTotal(keys[j], keys[j - 1]);
    }
    HoleFilled(keys[..i + 1], j);
    next := i + 1;
  }

  // ---------------------------------------------------------------- sorted keys of a map

  /** The one sorted enumeration of a map's keys. */
  ghost predicate EnumeratesSorted(ks: seq<string>, m: LabelMap) {
    Sorted(ks) && Enumerates(ks, m)
  }

  ghost predicate Enumerates(ks: seq<string>, m: LabelMap) {
    && (forall k :: k in ks <==> k in m)
    && (forall i, j :: 0 <= i < j < |ks| ==> ks[i] != ks[j])
  }

  lemma {:induction false} SortedUnique(a: seq<string>, b: seq<string>)
    requires Sorted(a) && Sorted(b)
    requires forall k :: k in a <==> k in b
    requires forall i, j :: 0 <= i < j < |a| ==> a[i] != a[j]
    requires forall i, j :: 0 <= i < j < |b| ==> b[i] != b[j]
    ensures a == b
  {
    if a == [] {
      assert forall i :: 0 <= i < |b| ==> b[i] in b;
    } else {
      assert a[0] in b;
      assert b != [] && b[0] in a;
      LeqTotal(a[0], b[0]);
      var i :| 0 <= i < |b| && b[i] == a[0];
      var j :| 0 <= j < |a| && a[j] == b[0];
      assert a[0] == b[0];
      forall k ensures k in a[1..] <==> k in b[1..] {
        if k in a[1..] {
          var x :| 0 <= x < |a| - 1 && a[1..][x] == k;
          assert a[x + 1] == k && k in a && k != a[0];
        }
        if k in b[1..] {
          var x :| 0 <= x < |b| - 1 && b[1..][x] == k;
          assert b[x + 1] == k && k in b && k != b[0];
        }
      }
      SortedUnique(a[1..], b[1..]);
    }
  }

  /** Go's map iteration order is unspecified: any enumeration of the keys may come out. */
  method Keys(m: LabelMap) returns (keys: array<string>)
    ensures fresh(keys) && Enumerates(keys[..], m)
  {
    var rest := m.Keys;
    var out: seq<string> := [];
    while rest != {}
      invariant rest <= m.Keys
      invariant forall k :: k in out <==> k in m.Keys - rest
      invariant forall i, j :: 0 <= i < j < |out| ==> out[i] != out[j]
      decreases |rest|
    {
      var k :| k in rest;
      assert k !in out;
      ghost var before := out;
      rest := rest - {k};
      out := out + [k];
      assert forall i :: 0 <= i < |before| ==> out[i] == before[i] && out[i] in before;
    }
    keys := new string[|out|](i requires 0 <= i < |out| => out[i]);
    assert keys[..] == out;
  }

  lemma SamePermutation(a: seq<string>, b: seq<string>, m: LabelMap)
    requires multiset(a) == multiset(b) && Enumerates(a, m)
    ensures Enumerates(b, m)
  {
    forall k ensures k in b <==> k in m {
      assert k in b <==> k in multiset(b);
      assert k in a <==> k in multiset(a);
    }
    forall i, j | 0 <= i < j < |b| ensures b[i] != b[j] {
      if b[i] == b[j] {
        CountTwice(b, i, j);
        CountOnce(a, b[i]);
      }
    }
  }

  lemma CountTwice(s: seq<string>, i: nat, j: nat)
    requires i < j < |s| && s[i] == s[j]
    ensures multiset(s)[s[i]] >= 2
  {
    assert s == s[..j] + [s[j]] + s[j + 1..];
    assert s[i] in s[..j];
  }

  lemma {:induction false} CountOnce(s: seq<string>, k: string)
    requires forall i, j :: 0 <= i < j < |s| ==> s[i] != s[j]
    ensures multiset(s)[k] <= 1
  {
    if s != [] {
      var t := s[..|s| - 1];
      assert s == t + [s[|s| - 1]];
      CountOnce(t, k);
      if k == s[|s| - 1] { assert k !in t; }
    }
  }

  method SortedKeys(m: LabelMap) returns (ks: seq<string>)
    ensures EnumeratesSorted(ks, m)
  {
    var keys := Keys(m);
    ghost var before := keys[..];
    InsertionSort(keys);
    SamePermutation(before, keys[..], m);
    ks := keys[..];
  }

  // ---------------------------------------------------------------- the selector string

  function Part(k: string, m: LabelMap): string
    requires k in m
  {
    k + "=" + m[k]
  }

  function Parts(ks: seq<string>, m: LabelMap): (r: seq<string>)
    requires forall k :: k in ks ==> k in m
    ensures |r| == |ks|
  {
    if ks == [] then [] else [Part(ks[0], m)] + Parts(ks[1..], m)
  }

  function Join(parts: seq<string>): string {
    if parts == [] then ""
    else if |parts| == 1 then parts[0]
    else parts[0] + "," + Join(parts[1..])
  }

  ghost predicate IsSelector(s: string, m: LabelMap) {
    exists ks :: EnumeratesSorted(ks, m) && s == Join(Parts(ks, m))
  }

  method LabelSelector(m: LabelMap) returns (s: string)
    ensures IsSelector(s, m)
  {
    var ks := SortedKeys(m);
    var parts := [];
    for i := 0 to |ks|
      invariant parts + Parts(ks[i..], m) == Parts(ks, m)
    {
      parts := parts + [Part(ks[i], m)];
      assert ks[i..][1..] == ks[i + 1..];
    }
    assert parts == Parts(ks, m);
    s := Join(parts);
  }

  /** The rendering does not depend on the order the map was walked in: two calls agree. */
  lemma SelectorUnique(s: string, t: string, m: LabelMap)
    requires IsSelector(s, m) && IsSelector(t, m)
    ensures s == t
  {
    var a :| EnumeratesSorted(a, m) && s == Join(Parts(a, m));
    var b :| EnumeratesSorted(b, m) && t == Join(Parts(b, m));
    SortedUnique(a, b);
  }

  // ---------------------------------------------------------------- reading a selector back

  /** The text before the first `c`, and the text after it when there is one. */
  function Cut(s: string, c: char): (r: (string, Option<string>))
    ensures c !in r.0
    ensures r.1.Some? ==> s == r.0 + [c] + r.1.value && |r.1.value| < |s|
    ensures r.1.None? ==> s == r.0
  {
    if s == [] then ([], None)
    else if s[0] == c then ([], Some(s[1..]))
    else
      var (before, after) := Cut(s[1..], c);
      ([s[0]] + before, after)
  }

  function Split(s: string, c: char): seq<string>
    decreases |s|
  {
    var (head, tail) := Cut(s, c);
    match tail
    case None => [head]
    case Some(rest) => [head] + Split(rest, c)
  }

  /** The API's reading of a selector: parts between ',', each cut at its first '='. */
  function ParseParts(parts: seq<string>): LabelMap {
    if parts == [] then map[]
    else
      var (k, v) := Cut(parts[0], '=');
      var rest := ParseParts(parts[1..]);
      if v.None? then rest else map[k := v.value] + rest
  }

  function ParseSelector(s: string): LabelMap {
    if s == "" then map[] else ParseParts(Split(s, ','))
  }

  /** No delimiter where it would be misread. Every map ValidateLabels accepts is of this form. */
  predicate Selectable(m: LabelMap) {
    forall k :: k in m ==> ',' !in k && '=' !in k && ',' !in m[k]
  }

  lemma {:induction false} CutAt(a: string, c: char, b: string)
    requires c !in a
    ensures Cut(a + [c] + b, c) == (a, Some(b))
  {
    if a == [] {
      assert (a + [c] + b)[1..] == b;
    } else {
      var s := a + [c] + b;
      assert s[1..] == a[1..] + [c] + b;
      CutAt(a[1..], c, b);
      assert s[0] == a[0] && a[0] in a;
      assert a == [a[0]] + a[1..];
    }
  }

  lemma {:induction false} CutNone(a: string, c: char)
    requires c !in a
    ensures Cut(a, c) == (a, None)
  {
    if a != [] { CutNone(a[1..], c); }
  }

  lemma {:induction false} SplitJoin(parts: seq<string>)
    requires parts != [] && forall i :: 0 <= i < |parts| ==> ',' !in parts[i]
    ensures Split(Join(parts), ',') == parts
  {
    if |parts| == 1 {
      CutNone(parts[0], ',');
    } else {
      CutAt(parts[0], ',', Join(parts[1..]));
      SplitJoin(parts[1..]);
    }
  }

  lemma {:induction false} PartsArePlain(ks: seq<string>, m: LabelMap)
    requires forall k :: k in ks ==> k in m
    requires Selectable(m)
    ensures forall i :: 0 <= i < |ks| ==> ',' !in Parts(ks, m)[i]
  {
    if ks != [] {
      assert ks[0] in ks;
      PartReadsBack(ks[0], m);
      PartsArePlain(ks[1..], m);
    }
  }

  /** What the rendered parts say about one key. */
  lemma {:induction false} ParseRenderedParts(ks: seq<string>, m: LabelMap, k: string)
    requires forall k :: k in ks ==> k in m
    requires Selectable(m)
    ensures k in ParseParts(Parts(ks, m)) <==> k in ks
    ensures k in ks ==> ParseParts(Parts(ks, m))[k] == m[k]
  {
    if ks != [] {
      assert ks[0] in ks;
      PartReadsBack(ks[0], m);
      ParseRenderedParts(ks[1..], m, k);
      assert Parts(ks, m)[1..] == Parts(ks[1..], m);
    }
  }

  lemma PartReadsBack(k: string, m: LabelMap)
    requires k in m && Selectable(m)
    ensures ',' !in Part(k, m) && Cut(Part(k, m), '=') == (k, Some(m[k]))
  {
    CutAt(k, '=', m[k]);
  }

  lemma {:induction false} SplitParts(s: string, c: char)
    ensures forall i :: 0 <= i < |Split(s, c)| ==> c !in Split(s, c)[i]
    decreases |s|
  {
    var (head, tail) := Cut(s, c);
    if tail.Some? {
      SplitParts(tail.value, c);
    }
  }

  lemma {:induction false} ParsedIsSelectable(parts: seq<string>)
    requires forall i :: 0 <= i < |parts| ==> ',' !in parts[i]
    ensures Selectable(ParseParts(parts))
  {
    if parts != [] {
      ParsedIsSelectable(parts[1..]);
    }
  }

  /** Splitting at ',' and cutting each part at its first '=' gives the map back exactly when no delimiter is
      where it would be misread. */
  lemma SelectorRoundTrip(s: string, m: LabelMap)
    requires IsSelector(s, m)
    ensures ParseSelector(s) == m <==> Selectable(m)
  {
    if Selectable(m) {
      SelectableComesBack(s, m);
    }
    SplitParts(s, ',');
    ParsedIsSelectable(Split(s, ','));
  }

  lemma SelectableComesBack(s: string, m: LabelMap)
    requires IsSelector(s, m) && Selectable(m)
    ensures ParseSelector(s) == m
  {
    var ks :| EnumeratesSorted(ks, m) && s == Join(Parts(ks, m));
    if ks != [] {
      PartsArePlain(ks, m);
      SplitJoin(Parts(ks, m));
      NonEmptyJoin(ks, m);
      forall k ensures (k in ParseSelector(s) <==> k in m) && (k in m ==> ParseSelector(s)[k] == m[k]) {
        ParseRenderedParts(ks, m, k);
      }
    } else {
      assert m.Keys == {};
    }
  }

  lemma NonEmptyJoin(ks: seq<string>, m: LabelMap)
    requires ks != [] && forall k :: k in ks ==> k in m
    ensures Join(Parts(ks, m)) != ""
  {
    assert ks[0] in ks;
    assert |Part(ks[0], m)| > 0;
  }

  /** Two selectable maps never render to one selector. */
  lemma SelectorInjective(s: string, m1: LabelMap, m2: LabelMap)
    requires Selectable(m1) && Selectable(m2)
    requires IsSelector(s, m1) && IsSelector(s, m2)
    ensures m1 == m2
  {
    SelectorRoundTrip(s, m1);
    SelectorRoundTrip(s, m2);
  }

  // ---------------------------------------------------------------- the validator

  datatype Problem =
    | EmptyKey | KeyTooLong | KeyNotPrintable | KeyDelimiter
    | ValueTooLong | ValueNotPrintable | ValueDelimiter | Reserved

  predicate PrintableNoSpace(s: string) {
    s != "" && forall i :: 0 <= i < |s| ==> '!' <= s[i] <= '~'
  }

  predicate Printable(s: string) {
    forall i :: 0 <= i < |s| ==> ' ' <= s[i] <= '~'
  }

  /** The switch: the first rule a pair breaks, in the order the source tests them. */
  function FormatProblem(k: string, v: string): Option<Problem> {
    if k == "" then Some(EmptyKey)
    else if |k| > MAX_KEY_LENGTH then Some(KeyTooLong)
    else if !PrintableNoSpace(k) then Some(KeyNotPrintable)
    else if ',' in k || '=' in k then Some(KeyDelimiter)
    else if |v| > MAX_VALUE_LENGTH then Some(ValueTooLong)
    else if !Printable(v) then Some(ValueNotPrintable)
    else if ',' in v then Some(ValueDelimiter)
    else None
  }

  /** What the validator is for, with no order of rules in it. */
  predicate Acceptable(k: string, v: string) {
    && PrintableNoSpace(k) && |k| <= MAX_KEY_LENGTH && ',' !in k && '=' !in k
    && Printable(v) && |v| <= MAX_VALUE_LENGTH && ',' !in v
    && k !in MANAGED_KEYS
  }

  /** What one key contributes to the error. */
  function ProblemsOf(k: string, v: string): seq<(string, Problem)> {
    var format := FormatProblem(k, v);
    (if format.Some? then [(k, format.value)] else []) + (if k in MANAGED_KEYS then [(k, Reserved)] else [])
  }

  lemma NoProblemIff(k: string, v: string)
    ensures ProblemsOf(k, v) == [] <==> Acceptable(k, v)
  {
  }

  /** What each problem says of the pair; a pair with more than one fault is given the first. */
  lemma ProblemMeaning(k: string, v: string)
    ensures var p := FormatProblem(k, v);
      var plainKey := forall i :: 0 <= i < |k| ==> '!' <= k[i] <= '~';
      var plainValue := forall i :: 0 <= i < |v| ==> ' ' <= v[i] <= '~';
      var keyOk := 1 <= |k| <= 255 && plainKey && ',' !in k && '=' !in k;
      && (p == Some(EmptyKey) <==> |k| == 0)
      && (p == Some(KeyTooLong) <==> |k| > 255)
      && (p == Some(KeyNotPrintable) <==> 1 <= |k| <= 255 && !plainKey)
      && (p == Some(KeyDelimiter) <==> 1 <= |k| <= 255 && plainKey && (',' in k || '=' in k))
      && (p == Some(ValueTooLong) <==> keyOk && |v| > 255)
      && (p == Some(ValueNotPrintable) <==> keyOk && |v| <= 255 && !plainValue)
      && (p == Some(ValueDelimiter) <==> keyOk && |v| <= 255 && plainValue && ',' in v)
      && (p == None <==> keyOk && |v| <= 255 && plainValue && ',' !in v)
  {
  }

  function Problems(ks: seq<string>, m: LabelMap): seq<(string, Problem)>
    requires forall k :: k in ks ==> k in m
  {
    if ks == [] then [] else
      assert ks[|ks| - 1] in ks;
      Problems(ks[..|ks| - 1], m) + ProblemsOf(ks[|ks| - 1], m[ks[|ks| - 1]])
  }

  lemma {:induction false} NoProblemsIff(ks: seq<string>, m: LabelMap)
    requires forall k :: k in ks ==> k in m
    ensures Problems(ks, m) == [] <==> forall k :: k in ks ==> Acceptable(k, m[k])
  {
    if ks != [] {
      var last := ks[|ks| - 1];
      assert last in ks;
      NoProblemsIff(ks[..|ks| - 1], m);
      NoProblemIff(last, m[last]);
      assert ks == ks[..|ks| - 1] + [last];
    }
  }

  /** Every problem found, in key order. No problem is the source's nil error, and there is none
      exactly when every pair is acceptable. */
  method ValidateLabels(m: LabelMap) returns (problems: seq<(string, Problem)>)
    ensures problems == [] <==> forall k :: k in m ==> Acceptable(k, m[k])
    ensures exists ks :: EnumeratesSorted(ks, m) && problems == Problems(ks, m)
    ensures forall k, p :: (k, p) in problems <==>
      k in m && (FormatProblem(k, m[k]) == Some(p) || (p == Reserved && k in MANAGED_KEYS))
  {
    var ks := SortedKeys(m);
    problems := [];
    for i := 0 to |ks|
      invariant problems == Problems(ks[..i], m)
    {
      var key := ks[i];
      assert ks[..i + 1][..i] == ks[..i];
      var found := FormatProblem(key, m[key]);
      if found.Some? {
        problems := problems + [(key, found.value)];
      }
      if key in MANAGED_KEYS {
        problems := problems + [(key, Reserved)];
      }
    }
    assert ks[..|ks|] == ks;
    NoProblemsIff(ks, m);
    forall k, p
      ensures (k, p) in problems <==>
        k in m && (FormatProblem(k, m[k]) == Some(p) || (p == Reserved && k in MANAGED_KEYS))
    {
      ProblemsHave(ks, m, k, p);
    }
  }

  lemma {:induction false} ProblemsHave(ks: seq<string>, m: LabelMap, k: string, p: Problem)
    requires forall k :: k in ks ==> k in m
    ensures (k, p) in Problems(ks, m) <==>
      k in ks && (FormatProblem(k, m[k]) == Some(p) || (p == Reserved && k in MANAGED_KEYS))
  {
    if ks != [] {
      var init, last := ks[..|ks| - 1], ks[|ks| - 1];
      assert ks == init + [last] && last in ks;
      ProblemsHave(init, m, k, p);
    }
  }

  lemma AcceptedIsSelectable(m: LabelMap)
    requires forall k :: k in m ==> Acceptable(k, m[k])
    ensures Selectable(m)
    ensures m.Keys !! MANAGED_KEYS
  {
  }

  // ---------------------------------------------------------------- the API's map

  /** The generated SDK types a label value as interface{}. */
  datatype ApiValue = Text(text: string) | NotText

  function LabelsToAPI(m: Option<LabelMap>): Option<map<string, ApiValue>> {
    match m
    case None => None
    case Some(labels) => Some(map k | k in labels :: Text(labels[k]))
  }

  function LabelsFromAPI(api: Option<map<string, ApiValue>>): LabelMap {
    match api
    case None => map[]
    case Some(labels) => map k | k in labels && labels[k].Text? :: labels[k].text
  }

  /** Sending labels and reading them back changes nothing, and nothing that is not text survives a
      read. */
  lemma ApiRoundTrip(m: LabelMap, api: map<string, ApiValue>)
    ensures LabelsFromAPI(LabelsToAPI(Some(m))) == m
    ensures LabelsToAPI(None) == None && LabelsFromAPI(None) == map[]
    ensures forall k :: k in LabelsFromAPI(Some(api)) <==> k in api && api[k].Text?
    ensures forall k :: k in LabelsFromAPI(Some(api)) ==> LabelsFromAPI(Some(api))[k] == api[k].text
  {
    assert LabelsFromAPI(LabelsToAPI(Some(m))) == m;
  }

  // ---------------------------------------------------------------- managed labels

  /** User labels first, managed keys last, so that the managed keys win. */
  function ManagedLabels(user: LabelMap, className: string, claimName: string,
                         pool: Option<string>, clusterName: string): LabelMap
  {
    var base := map[MANAGED_BY := clusterName, NODE_CLASS := className, NODE_CLAIM := claimName];
    var managed := if pool.Some? then base[NODE_POOL := pool.value] else base;
    user + managed
  }

  /** No user label can change a managed key, every other user label arrives, and the pool key is
      the user's only when the claim has no pool. */
  lemma ManagedKeysWin(user: LabelMap, className: string, claimName: string,
                       pool: Option<string>, clusterName: string, k: string)
    ensures var m := ManagedLabels(user, className, claimName, pool, clusterName);
            && MANAGED_BY in m && m[MANAGED_BY] == clusterName
            && NODE_CLASS in m && m[NODE_CLASS] == className
            && NODE_CLAIM in m && m[NODE_CLAIM] == claimName
            && (pool.Some? ==> NODE_POOL in m && m[NODE_POOL] == pool.value)
            && (k !in MANAGED_KEYS ==> (k in m <==> k in user) && (k in user ==> m[k] == user[k]))
            && (pool.None? ==> (NODE_POOL in m <==> NODE_POOL in user))
  {
    assert MANAGED_BY[13] != NODE_CLAIM[13];
    assert MANAGED_BY[10] != NODE_CLASS[10];
    assert NODE_CLAIM[10] != NODE_CLASS[10];
    assert NODE_POOL[17] != NODE_CLAIM[17];
    assert MANAGED_BY[13] != NODE_POOL[13];
    assert NODE_POOL[10] != NODE_CLASS[10];
  }
}
