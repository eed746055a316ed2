/** The modelled price list (pkg/providers/pricing/pricing.go). Prices are exact reals. */
module Pricing {
  import opened Options
  import Labels
  import Offerings
  import OfferingLaws

  const EUR_PER_VCPU_HOUR := 0.0246
  const EUR_PER_GIB_HOUR := 0.0033
  const EUR_PER_GIB_DISK_HOUR := 0.00007

  datatype MachineTypeSpec = MachineTypeSpec(name: string, vcpus: int, ramMiB: int, diskGiB: int)

  function Modelled(s: MachineTypeSpec): real {
    s.vcpus as real * EUR_PER_VCPU_HOUR + s.ramMiB as real / 1024.0 * EUR_PER_GIB_HOUR
    + s.diskGiB as real * EUR_PER_GIB_DISK_HOUR
  }

  function ModelPrice(s: MachineTypeSpec): real {
    if Modelled(s) <= 0.0 then EUR_PER_VCPU_HOUR else Modelled(s)
  }

  /** What one more of each resource adds, from nothing on. */
  lemma OneMoreCosts(s: MachineTypeSpec)
    ensures Modelled(s.(vcpus := s.vcpus + 1)) == Modelled(s) + 0.0246
    ensures Modelled(s.(ramMiB := s.ramMiB + 1024)) == Modelled(s) + 0.0033
    ensures 1024.0 * (Modelled(s.(ramMiB := s.ramMiB + 1)) - Modelled(s)) == 0.0033
    ensures Modelled(s.(diskGiB := s.diskGiB + 1)) == Modelled(s) + 0.00007
    ensures Modelled(MachineTypeSpec(s.name, 0, 0, 0)) == 0.0
    ensures ModelPrice(s) == if Modelled(s) > 0.0 then Modelled(s) else 0.0246
  {
  }

  function Times(k: nat, s: MachineTypeSpec): MachineTypeSpec {
    s.(vcpus := k * s.vcpus, ramMiB := k * s.ramMiB, diskGiB := k * s.diskGiB)
  }

  lemma Regroup(x: real, y: real, c: real)
    ensures (x * y) * c == x * (y * c)
  {
  }

  lemma Distributes(x: real, a: real, b: real, c: real)
    ensures x * (a + b + c) == x * a + x * b + x * c
  {
  }

  lemma ScaledModel(k: nat, s: MachineTypeSpec)
    ensures Modelled(Times(k, s)) == k as real * Modelled(s)
  {
    var x, v, r, d := k as real, s.vcpus as real, s.ramMiB as real, s.diskGiB as real;
    assert (k * s.vcpus) as real == x * v;
    assert (k * s.ramMiB) as real == x * r;
    assert (k * s.diskGiB) as real == x * d;
    Regroup(x, v, EUR_PER_VCPU_HOUR);
    Regroup(x, r, EUR_PER_GIB_HOUR / 1024.0);
    Regroup(x, d, EUR_PER_GIB_DISK_HOUR);
    Distributes(x, v * EUR_PER_VCPU_HOUR, r / 1024.0 * EUR_PER_GIB_HOUR, d * EUR_PER_GIB_DISK_HOUR);
  }

  lemma SignKept(x: real, y: real)
    requires x >= 1.0
    ensures x * y > 0.0 <==> y > 0.0
  {
    if y <= 0.0 {
      assert x * -y >= 0.0;
    }
  }

  /** What ranking needs: never free, and k machines' worth of resources in one costs k times as much, so
      consolidation is neutral to the shape. It fails exactly for a machine with no modelled cost, whose
      fallback price is one vCPU at any scale. */
  lemma PriceFollowsSize(k: nat, s: MachineTypeSpec)
    requires k >= 1
    ensures ModelPrice(s) > 0.0
    ensures ModelPrice(Times(k, s)) == k as real * ModelPrice(s) <==> Modelled(s) > 0.0 || k == 1
  {
    ScaledModel(k, s);
    SignKept(k as real, Modelled(s));
  }

  type Prices = map<string, real>

  predicate AllPositive(p: Prices) {
    forall t :: t in p ==> p[t] > 0.0
  }

  function PriceOf(s: MachineTypeSpec, overrides: Prices): real {
    if s.name in overrides then overrides[s.name] else ModelPrice(s)
  }

  /** The last spec of the name. */
  predicate IsLast(specs: seq<MachineTypeSpec>, i: int, t: string) {
    && 0 <= i < |specs| && specs[i].name == t
    && forall j :: i < j < |specs| ==> specs[j].name != t
  }

  /** The table one refresh computes; a later spec of a name replaces an earlier one. */
  function Table(specs: seq<MachineTypeSpec>, overrides: Prices): Prices {
    if specs == [] then map[]
    else
      var last := specs[|specs| - 1];
      Table(specs[..|specs| - 1], overrides)[last.name := PriceOf(last, overrides)]
  }

  /** Exactly the listed types have a price, an override wins over the model, and with positive overrides
      every price is positive. */
  lemma {:induction false} TableMeaning(specs: seq<MachineTypeSpec>, overrides: Prices, t: string)
    requires AllPositive(overrides)
    ensures AllPositive(Table(specs, overrides))
    ensures t in Table(specs, overrides) <==> exists i :: 0 <= i < |specs| && specs[i].name == t
    ensures t in Table(specs, overrides) && t in overrides ==> Table(specs, overrides)[t] == overrides[t]
    ensures t in Table(specs, overrides) && t !in overrides ==>
      exists i :: 0 <= i < |specs| && specs[i].name == t && Table(specs, overrides)[t] == ModelPrice(specs[i])
  {
    if specs != [] {
      var init := specs[..|specs| - 1];
      TableMeaning(init, overrides, t);
      assert forall i :: 0 <= i < |init| ==> init[i] == specs[i];
      var last := specs[|specs| - 1];
      if last.name != t && t in Table(specs, overrides) {
        assert t in Table(init, overrides);
        var i :| 0 <= i < |init| && init[i].name == t
                 && (t !in overrides ==> Table(init, overrides)[t] == ModelPrice(init[i]));
        assert specs[i].name == t;
      }
    }
  }

  /** A type's price is that of its last spec. */
  lemma {:induction false} LastSpecDecides(specs: seq<MachineTypeSpec>, overrides: Prices, i: int, t: string)
    requires IsLast(specs, i, t)
    ensures t in Table(specs, overrides)
    ensures Table(specs, overrides)[t] == if t in overrides then overrides[t] else ModelPrice(specs[i])
  {
    if i < |specs| - 1 {
      LastSpecDecides(specs[..|specs| - 1], overrides, i, t);
    }
  }

  /** What an update does to a table; None is a failed listing. */
  function Refreshed(prices: Prices, specs: Option<seq<MachineTypeSpec>>, overrides: Prices): Prices {
    if specs.None? || specs.value == [] then prices else Table(specs.value, overrides)
  }

  class PricingProvider {
    const overrides: Prices
    var prices: Prices

    ghost predicate Valid()
      reads this
    {
      AllPositive(overrides) && AllPositive(prices)
    }

    constructor (overrides: Prices)
      requires AllPositive(overrides)
      ensures Valid() && prices == map[] && this.overrides == overrides
    {
      this.overrides := overrides;
      prices := map[];
    }

    method Price(machineType: string) returns (price: Option<real>)
      requires Valid()
      ensures price == if machineType in prices then Some(prices[machineType]) else None
      ensures price.Some? ==> price.value > 0.0
    {
      price := if machineType in prices then Some(prices[machineType]) else None;
    }

    /** A failed or empty listing is an error and leaves the table alone; any other replaces it whole. */
    method UpdatePrices(specs: Option<seq<MachineTypeSpec>>) returns (ok: bool)
      requires Valid()
      modifies this
      ensures Valid() && prices == Refreshed(old(prices), specs, overrides)
      ensures ok <==> specs.Some? && specs.value != []
      ensures !ok ==> prices == old(prices)
      ensures ok ==> forall t :: t in prices <==> exists i :: 0 <= i < |specs.value| && specs.value[i].name == t
      ensures ok ==> forall t, i :: IsLast(specs.value, i, t) ==>
        t in prices && prices[t] == if t in overrides then overrides[t] else ModelPrice(specs.value[i])
    {
      if specs.None? || specs.value == [] {
        return false;
      }
      var all := specs.value;
      var updated: Prices := map[];
      for i := 0 to |all|
        invariant updated == Table(all[..i], overrides)
      {
        assert all[..i + 1][..i] == all[..i];
        updated := updated[all[i].name := PriceOf(all[i], overrides)];
      }
      assert all[..|all|] == all;
      TableMeaning(all, overrides, "");
      forall t
        ensures t in updated <==> exists i :: 0 <= i < |all| && all[i].name == t
      {
        TableMeaning(all, overrides, t);
      }
      forall t, i | IsLast(all, i, t)
        ensures t in updated && updated[t] == if t in overrides then overrides[t] else ModelPrice(all[i])
      {
        LastSpecDecides(all, overrides, i, t);
      }
      prices := updated;
      ok := true;
    }
  }

  // ---------------------------------------------------------------- the override flag

  /** The Unicode White_Space property. */
  predicate Blank(c: char) {
    || '\U{09}' <= c <= '\U{0D}' || c == ' ' || c == '\U{85}' || c == '\U{A0}' || c == '\U{1680}'
    || '\U{2000}' <= c <= '\U{200A}' || c == '\U{2028}' || c == '\U{2029}'
    || c == '\U{202F}' || c == '\U{205F}' || c == '\U{3000}'
  }

  function TrimSpace(s: string): string {
    TrimSpaceRight(TrimSpaceLeft(s))
  }

  function TrimSpaceLeft(s: string): string {
    if s != [] && Blank(s[0]) then TrimSpaceLeft(s[1..]) else s
  }

  function TrimSpaceRight(s: string): string {
    if s != [] && Blank(s[|s| - 1]) then TrimSpaceRight(s[..|s| - 1]) else s
  }

  /** One part of the flag. `parse` is the library's number parser. */
  datatype Pair = Empty | Malformed | Override(name: string, price: real)

  function ReadPair(part: string, parse: string -> Option<real>): Pair {
    var pair := TrimSpace(part);
    if pair == "" then Empty
    else
      var (before, after) := Labels.Cut(pair, '=');
      var name := TrimSpace(before);
      if after.None? || name == "" || TrimSpace(after.value) == "" then Malformed
      else
        var price := parse(TrimSpace(after.value));
        if price.None? || price.value <= 0.0 then Malformed else Override(name, price.value)
  }

  predicate AllBlank(s: string) {
    forall i :: 0 <= i < |s| ==> Blank(s[i])
  }

  /** Not empty and no blank at either end. */
  predicate Solid(s: string) {
    s != "" && !Blank(s[0]) && !Blank(s[|s| - 1])
  }

  lemma {:induction false} SkipBlanks(blanks: string, rest: string)
    requires AllBlank(blanks)
    ensures TrimSpaceLeft(blanks + rest) == TrimSpaceLeft(rest)
    ensures TrimSpaceRight(rest + blanks) == TrimSpaceRight(rest)
    decreases |blanks|
  {
    if blanks == "" {
      assert blanks + rest == rest && rest + blanks == rest;
    } else {
      assert (blanks + rest)[1..] == blanks[1..] + rest;
      SkipBlanks(blanks[1..], rest);
      var all := rest + blanks;
      assert all[..|all| - 1] == rest + blanks[..|blanks| - 1];
      SkipBlanks(blanks[..|blanks| - 1], rest);
    }
  }

  /** Blanks around a text are dropped, and nothing else is. */
  lemma TrimMeaning(before: string, s: string, after: string)
    requires AllBlank(before) && AllBlank(after)
    ensures Solid(s) ==> TrimSpace(before + s + after) == s
    ensures TrimSpace(before) == ""
  {
    SkipBlanks(before, "");
    assert before + "" == before;
    if Solid(s) {
      assert before + s + after == before + (s + after);
      SkipBlanks(before, s + after);
      assert (s + after)[0] == s[0];
      SkipBlanks(after, s);
    }
  }

  /** What a part says when it has a name and a value: the text before the first '=' is the name, the text after it
      the price, both without the blanks around them. */
  lemma PairReads(b1: string, name: string, b2: string, b3: string, value: string, b4: string,
                  parse: string -> Option<real>)
    requires AllBlank(b1) && AllBlank(b2) && AllBlank(b3) && AllBlank(b4)
    requires Solid(name) && '=' !in name && Solid(value)
    ensures ReadPair(b1 + (name + b2 + "=" + b3 + value) + b4, parse)
         == var price := parse(value);
            if price.Some? && price.value > 0.0 then Override(name, price.value) else Malformed
  {
    var pair := name + b2 + "=" + b3 + value;
    assert Solid(pair) by {
      assert pair[0] == name[0] && pair[|pair| - 1] == value[|value| - 1];
    }
    BlanksAround(b1, pair, b4, parse);
    NameAndValue(name, b2, b3, value, parse);
  }

  lemma BlanksAround(b1: string, pair: string, b2: string, parse: string -> Option<real>)
    requires AllBlank(b1) && AllBlank(b2) && Solid(pair)
    ensures TrimSpace(b1 + pair + b2) == TrimSpace(pair) == pair
    ensures ReadPair(b1 + pair + b2, parse) == ReadPair(pair, parse)
  {
    TrimMeaning(b1, pair, b2);
    TrimMeaning("", pair, "");
    assert "" + pair + "" == pair;
  }

  lemma NameAndValue(name: string, b2: string, b3: string, value: string, parse: string -> Option<real>)
    requires AllBlank(b2) && AllBlank(b3) && Solid(name) && '=' !in name && Solid(value)
    requires TrimSpace(name + b2 + "=" + b3 + value) == name + b2 + "=" + b3 + value
    ensures ReadPair(name + b2 + "=" + b3 + value, parse)
         == var price := parse(value);
            if price.Some? && price.value > 0.0 then Override(name, price.value) else Malformed
  {
    var pair := name + b2 + "=" + b3 + value;
    assert pair == (name + b2) + ['='] + (b3 + value);
    assert !Blank('=');
    Labels.CutAt(name + b2, '=', b3 + value);
    TrimMeaning("", name, b2);
    assert "" + name + b2 == name + b2;
    TrimMeaning(b3, value, "");
    assert b3 + value + "" == b3 + value;
  }

  /** A blank part is skipped, and one with no '=' is malformed. */
  lemma PlainPartReads(b1: string, s: string, b2: string, parse: string -> Option<real>)
    requires AllBlank(b1) && AllBlank(b2)
    ensures ReadPair(b1, parse) == Empty
    ensures Solid(s) && '=' !in s ==> ReadPair(b1 + s + b2, parse) == Malformed
  {
    TrimMeaning(b1, s, b2);
    if Solid(s) && '=' !in s {
      Labels.CutNone(s, '=');
    }
  }

  /** A part with nothing before its first '=', or nothing after it, is malformed. */
  lemma HalfPartReads(b1: string, s: string, b2: string, b3: string, parse: string -> Option<real>)
    requires AllBlank(b1) && AllBlank(b2) && AllBlank(b3)
    ensures Solid(s) && '=' !in s ==> ReadPair(b1 + (s + b2 + "=") + b3, parse) == Malformed
    ensures s == "" || !Blank(s[|s| - 1]) ==> ReadPair(b1 + ("=" + s) + b3, parse) == Malformed
  {
    assert !Blank('=');
    if Solid(s) && '=' !in s {
      NoValue(b1, s + b2, b3, parse);
    }
    if s == "" || !Blank(s[|s| - 1]) {
      TrimMeaning(b1, "=" + s, b3);
      assert "=" + s == "" + ['='] + s;
      Labels.CutAt("", '=', s);
    }
  }

  lemma NoValue(b1: string, s: string, b2: string, parse: string -> Option<real>)
    requires AllBlank(b1) && AllBlank(b2) && s != "" && !Blank(s[0]) && '=' !in s
    ensures ReadPair(b1 + (s + "=") + b2, parse) == Malformed
  {
    assert !Blank('=');
    TrimMeaning(b1, s + "=", b2);
    assert s + "=" == s + ['='] + "";
    Labels.CutAt(s, '=', "");
  }

  /** What one more part adds. */
  function Applied(before: Prices, pair: Pair): Prices {
    if pair.Override? then before[pair.name := pair.price] else before
  }

  /** The last price given for each name. */
  function Collected(pairs: seq<Pair>): Prices {
    if pairs == [] then map[] else Applied(Collected(pairs[..|pairs| - 1]), pairs[|pairs| - 1])
  }

  lemma CollectedOneMore(pairs: seq<Pair>, pair: Pair)
    ensures Collected(pairs + [pair]) == Applied(Collected(pairs), pair)
  {
    assert (pairs + [pair])[..|pairs|] == pairs;
  }

  /** A name has an entry exactly when a part names it, and the entry is the price in the last part that does. */
  lemma {:induction false} LastPartWins(pairs: seq<Pair>, name: string)
    ensures name in Collected(pairs) <==> exists i :: NamesLast(pairs, i, name)
    ensures forall i :: NamesLast(pairs, i, name) ==>
      name in Collected(pairs) && Collected(pairs)[name] == pairs[i].price
  {
    if pairs != [] {
      var init, last := pairs[..|pairs| - 1], pairs[|pairs| - 1];
      assert pairs == init + [last];
      LastPartWins(init, name);
      LastOneMore(init, last, name);
      if last.Override? && last.name == name {
        assert NamesLast(pairs, |init|, name);
      } else if name in Collected(init) {
        var i :| NamesLast(init, i, name);
        assert NamesLast(pairs, i, name);
      }
    }
  }

  /** Position `i` is the last that gives the name a price. */
  predicate NamesLast(pairs: seq<Pair>, i: int, name: string) {
    && 0 <= i < |pairs| && pairs[i].Override? && pairs[i].name == name
    && forall k :: i < k < |pairs| && pairs[k].Override? ==> pairs[k].name != name
  }

  lemma LastOneMore(pairs: seq<Pair>, pair: Pair, name: string)
    ensures pair.Override? && pair.name == name ==> forall i :: NamesLast(pairs + [pair], i, name) <==> i == |pairs|
    ensures !(pair.Override? && pair.name == name) ==>
      forall i :: NamesLast(pairs + [pair], i, name) <==> NamesLast(pairs, i, name)
  {
    var all := pairs + [pair];
    assert forall k :: 0 <= k < |pairs| ==> all[k] == pairs[k];
    assert all[|pairs|] == pair;
  }

  function ReadAll(parts: seq<string>, read: string -> Pair): (r: seq<Pair>)
    ensures |r| == |parts| && forall i :: 0 <= i < |parts| ==> r[i] == read(parts[i])
  {
    seq(|parts|, i requires 0 <= i < |parts| => read(parts[i]))
  }

  predicate WellFormed(pairs: seq<Pair>) {
    Malformed !in pairs
  }

  lemma {:induction false} CollectedPositive(pairs: seq<Pair>)
    requires forall i :: 0 <= i < |pairs| && pairs[i].Override? ==> pairs[i].price > 0.0
    ensures AllPositive(Collected(pairs))
  {
    if pairs != [] {
      CollectedPositive(pairs[..|pairs| - 1]);
    }
  }

  method CollectOverrides(parts: seq<string>, read: string -> Pair) returns (r: Option<Prices>)
    ensures var pairs := ReadAll(parts, read);
      r == if WellFormed(pairs) then Some(Collected(pairs)) else None
  {
    var overrides: Prices := map[];
    ghost var pairs := ReadAll(parts, read);
    for i := 0 to |parts|
      invariant WellFormed(pairs[..i])
      invariant overrides == Collected(pairs[..i])
    {
      var pair := read(parts[i]);
      assert pairs[i] == pair && pairs[..i + 1] == pairs[..i] + [pair];
      CollectedOneMore(pairs[..i], pair);
      if pair.Malformed? {
        return None;
      }
      if pair.Override? {
        overrides := overrides[pair.name := pair.price];
      }
    }
    assert pairs[..|parts|] == pairs;
    r := Some(overrides);
  }

  function ReadFlag(raw: string, parse: string -> Option<real>): seq<Pair> {
    ReadAll(Labels.Split(raw, ','), part => ReadPair(part, parse))
  }

  /** Parts joined by ',' are read one by one and in order. */
  lemma ListReads(parts: seq<string>, parse: string -> Option<real>)
    requires parts != [] && forall i :: 0 <= i < |parts| ==> ',' !in parts[i]
    ensures var pairs := ReadFlag(Labels.Join(parts), parse);
      |pairs| == |parts| && forall i :: 0 <= i < |parts| ==> pairs[i] == ReadPair(parts[i], parse)
  {
    Labels.SplitJoin(parts);
  }

  /** A blank flag means no overrides. Any other flag is accepted exactly when no part is malformed, and then
      it gives each name the price in the last part that names it. None is the error. */
  method ParseOverrides(raw: string, parse: string -> Option<real>) returns (r: Option<Prices>)
    ensures TrimSpace(raw) == "" ==> r == Some(map[])
    ensures TrimSpace(raw) != "" ==> (r.Some? <==> WellFormed(ReadFlag(raw, parse)))
    ensures TrimSpace(raw) != "" && r.Some? ==> r.value == Collected(ReadFlag(raw, parse))
    ensures r.Some? ==> AllPositive(r.value)
  {
    if TrimSpace(raw) == "" {
      return Some(map[]);
    }
    r := CollectOverrides(Labels.Split(raw, ','), part => ReadPair(part, parse));
    CollectedPositive(ReadFlag(raw, parse));
  }

  // ---------------------------------------------------------------- every offering ever published

  /** A price refresh, or a step of the offering provider. */
  datatype Event = Refresh(specs: Option<seq<MachineTypeSpec>>) | Offer(step: Offerings.Event)

  datatype Market = Market(prices: Prices, offers: Offerings.Sys)

  /** A lookup's price is what the table says about the type at that moment. */
  predicate Enabled(m: Market, e: Event) {
    match e
    case Refresh(_) => true
    case Offer(step) =>
      && Offerings.Enabled(m.offers, step)
      && (step.Lookup? ==>
           var t := m.offers.calls[step.id].t;
           step.price == if t in m.prices then Some(m.prices[t]) else None)
  }

  function Next(m: Market, e: Event, overrides: Prices): Market
    requires Enabled(m, e)
  {
    match e
    case Refresh(specs) => m.(prices := Refreshed(m.prices, specs, overrides))
    case Offer(step) => m.(offers := Offerings.Next(m.offers, step))
  }

  /** After a refresh a lookup of a listed type finds its override or else what the model makes of its last spec,
      and a lookup of any other type finds no price; after a failed one lookups find what they found before. */
  lemma RefreshDecidesLookups(m: Market, specs: seq<MachineTypeSpec>, overrides: Prices, id: nat, i: nat,
                              price: Option<real>)
    requires id in m.offers.calls && m.offers.calls[id].Started? && AllPositive(overrides) && specs != []
    ensures var lookup, t := Offer(Offerings.Lookup(id, price)), m.offers.calls[id].t;
      && Enabled(m, Refresh(Some(specs))) && Enabled(m, Refresh(None))
      && (IsLast(specs, i, t) ==>
            (Enabled(Next(m, Refresh(Some(specs)), overrides), lookup) <==>
               price == Some(if t in overrides then overrides[t] else ModelPrice(specs[i]))))
      && ((forall k :: 0 <= k < |specs| ==> specs[k].name != t) ==>
            (Enabled(Next(m, Refresh(Some(specs)), overrides), lookup) <==> price == None))
      && (Enabled(Next(m, Refresh(None), overrides), lookup) <==> Enabled(m, lookup))
  {
    var t := m.offers.calls[id].t;
    TableMeaning(specs, overrides, t);
    if IsLast(specs, i, t) {
      LastSpecDecides(specs, overrides, i, t);
    }
  }

  predicate Run(m: Market, es: seq<Event>, overrides: Prices)
    decreases |es|
  {
    es == [] || (Enabled(m, es[0]) && Run(Next(m, es[0], overrides), es[1..], overrides))
  }

  function After(m: Market, es: seq<Event>, overrides: Prices): Market
    requires Run(m, es, overrides)
    decreases |es|
  {
    if es == [] then m else After(Next(m, es[0], overrides), es[1..], overrides)
  }

  /** Over any run of refreshes, failed refreshes and calls, with overrides as the flag allows them, no
      offering is ever returned or cached with a price that is not positive. */
  lemma {:induction false} EveryOfferingHasAPrice(m: Market, es: seq<Event>, overrides: Prices)
    requires Run(m, es, overrides) && AllPositive(overrides)
    requires AllPositive(m.prices) && OfferingLaws.PricesPositive(m.offers)
    ensures AllPositive(After(m, es, overrides).prices) && OfferingLaws.PricesPositive(After(m, es, overrides).offers)
    decreases |es|
  {
    if es != [] {
      var m' := Next(m, es[0], overrides);
      match es[0] {
        case Refresh(specs) =>
          if specs.Some? {
            TableMeaning(specs.value, overrides, "");
          }
        case Offer(step) =>
          var one := [step];
          assert one[1..] == [];
          assert forall e :: e in one ==> e == step;
          OfferingLaws.PublishedPricesPositive(m.offers, one);
          assert Offerings.After(m.offers, one) == Offerings.Next(m.offers, step);
      }
      EveryOfferingHasAPrice(m', es[1..], overrides);
    }
  }
}
