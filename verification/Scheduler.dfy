/** Choosing a box by capability (gateway/scheduler.py): the cheapest resource of the catalog that meets
    the requirements, with prices from the offerings (gateway/offerings.py). */
module Scheduler {
  import opened Common

  datatype Offering = Offering(
    gpu: Option<string>, gpuCount: Option<int>, gpuRam: Option<real>, ram: Option<real>, vcpu: Option<int>,
    arch: Option<string>, regions: seq<string>, rate: Option<real>, spotRate: Option<real>)

  /** Requirements; one that is absent, zero or empty asks for nothing. */
  datatype Req = Req(
    provider: Option<string>, region: Option<string>, gpu: Option<string>, gpuCount: Option<int>,
    minGpuRam: Option<real>, minRam: Option<real>, minVcpu: Option<int>, arch: Option<string>)

  datatype Resource = Resource(provider: string, instanceType: Option<string>, spot: bool)

  datatype Item = Item(name: string, res: Resource)

  type Offerings = map<(string, string), Offering>

  // ---- does an offering meet the requirements ------------------------------------------------------

  function LowerChar(c: char): char {
    if 'A' <= c <= 'Z' then c - 'A' + 'a' else c
  }

  function Lower(s: string): (r: string)
    ensures |r| == |s| && forall i :: 0 <= i < |s| ==> r[i] == LowerChar(s[i])
  {
    seq(|s|, i requires 0 <= i < |s| => LowerChar(s[i]))
  }

  predicate AskedText(r: Option<string>) {
    r.GetOr("") != ""
  }

  predicate AskedInt(r: Option<int>) {
    r.GetOr(0) != 0
  }

  predicate AskedReal(r: Option<real>) {
    r.GetOr(0.0) != 0.0
  }

  /** matches */
  predicate Matches(off: Offering, req: Req) {
    if AskedText(req.gpu) && Lower(off.gpu.GetOr("")) != Lower(req.gpu.value) then false
    else if AskedInt(req.gpuCount) && off.gpuCount.GetOr(0) < req.gpuCount.value then false
    else if AskedReal(req.minGpuRam) && off.gpuRam.GetOr(0.0) < req.minGpuRam.value then false
    else if AskedReal(req.minRam) && off.ram.GetOr(0.0) < req.minRam.value then false
    else if AskedInt(req.minVcpu) && off.vcpu.GetOr(0) < req.minVcpu.value then false
    else if AskedText(req.arch) && (if AskedText(off.arch) then off.arch.value else "x86") != req.arch.value then false
    else true
  }

  /** offerings.lookup */
  function Lookup(offs: Offerings, r: Resource): Option<Offering> {
    if r.provider == "" || !AskedText(r.instanceType) then None
    else
      var key := (r.provider, r.instanceType.value);
      if key in offs then Some(offs[key]) else None
  }

  /** A resource the loop does not skip. */
  predicate Eligible(offs: Offerings, req: Req, r: Resource) {
    if AskedText(req.provider) && r.provider != req.provider.value then false
    else
      match Lookup(offs, r)
      case None => false
      case Some(off) =>
        if AskedText(req.region) && req.region.value !in off.regions then false else Matches(off, req)
  }

  // ---- what that means, requirement by requirement -------------------------------------------------------

  /** The offerings list the resource's instance type, with its provider. */
  ghost predicate Offers(offs: Offerings, r: Resource, off: Offering) {
    && r.provider != "" && r.instanceType.Some? && r.instanceType.value != ""
    && (r.provider, r.instanceType.value) in offs && offs[(r.provider, r.instanceType.value)] == off
  }

  ghost predicate IsCapitalOf(a: char, b: char) {
    'A' <= a <= 'Z' && b as int == a as int + 32
  }

  /** The same text, but for capitals. */
  ghost predicate SameLetters(a: string, b: string) {
    |a| == |b| && forall i :: 0 <= i < |a| ==> a[i] == b[i] || IsCapitalOf(a[i], b[i]) || IsCapitalOf(b[i], a[i])
  }

  ghost predicate GpuMet(off: Offering, req: Req) {
    req.gpu.Some? && req.gpu.value != "" ==> off.gpu.Some? && SameLetters(off.gpu.value, req.gpu.value)
  }

  ghost predicate SizesMet(off: Offering, req: Req) {
    && (req.gpuCount.Some? && req.gpuCount.value != 0 ==> req.gpuCount.value <= if off.gpuCount.Some? then off.gpuCount.value else 0)
    && (req.minGpuRam.Some? && req.minGpuRam.value != 0.0 ==> req.minGpuRam.value <= if off.gpuRam.Some? then off.gpuRam.value else 0.0)
    && (req.minRam.Some? && req.minRam.value != 0.0 ==> req.minRam.value <= if off.ram.Some? then off.ram.value else 0.0)
    && (req.minVcpu.Some? && req.minVcpu.value != 0 ==> req.minVcpu.value <= if off.vcpu.Some? then off.vcpu.value else 0)
  }

  /** An offering that names no architecture is an x86. */
  ghost predicate ArchMet(off: Offering, req: Req) {
    req.arch.Some? && req.arch.value != "" ==>
      req.arch.value == if off.arch.Some? && off.arch.value != "" then off.arch.value else "x86"
  }

  ghost predicate PlaceMet(off: Offering, req: Req, r: Resource) {
    && (req.provider.Some? && req.provider.value != "" ==> r.provider == req.provider.value)
    && (req.region.Some? && req.region.value != "" ==> req.region.value in off.regions)
  }

  /** The resource is on offer, and each requirement that asks for something is met. */
  ghost predicate Suits(offs: Offerings, req: Req, r: Resource) {
    exists off :: Offers(offs, r, off) && PlaceMet(off, req, r) && GpuMet(off, req) && SizesMet(off, req) && ArchMet(off, req)
  }

  lemma LowerExactly(a: string, b: string)
    ensures Lower(a) == Lower(b) <==> SameLetters(a, b)
  {
    if Lower(a) == Lower(b) {
      forall i | 0 <= i < |a| ensures a[i] == b[i] || IsCapitalOf(a[i], b[i]) || IsCapitalOf(b[i], a[i]) {
        assert Lower(a)[i] == Lower(b)[i];
      }
    }
  }

  lemma MatchesExactly(off: Offering, req: Req)
    ensures Matches(off, req) <==> GpuMet(off, req) && SizesMet(off, req) && ArchMet(off, req)
  {
    if AskedText(req.gpu) {
      LowerExactly(off.gpu.GetOr(""), req.gpu.value);
    }
  }

  lemma EligibleExactly(offs: Offerings, req: Req, r: Resource)
    ensures Eligible(offs, req, r) <==> Suits(offs, req, r)
  {
    if Lookup(offs, r).Some? {
      MatchesExactly(Lookup(offs, r).value, req);
      assert Offers(offs, r, Lookup(offs, r).value);
    }
  }

  // ---- what it costs ----------------------------------------------------------------------------------

  /** A price, with float("inf") for one that is not known. */
  datatype Price = Rate(perHour: real) | Unknown

  /** offerings.price_per_hour */
  function PriceOf(offs: Offerings, r: Resource): Price {
    match Lookup(offs, r)
    case None => Unknown
    case Some(off) =>
      if r.spot && off.spotRate.Some? then Rate(off.spotRate.value)
      else if off.rate.Some? then Rate(off.rate.value)
      else Unknown
  }

  /** The resource's hourly rate: for a spot box the spot rate, if the offering lists one; else the offering's. */
  ghost predicate Charges(offs: Offerings, r: Resource, rate: real) {
    exists off :: Offers(offs, r, off)
      && if r.spot && off.spotRate.Some? then rate == off.spotRate.value else off.rate == Some(rate)
  }

  lemma PriceExactly(offs: Offerings, r: Resource, rate: real)
    ensures PriceOf(offs, r) == Rate(rate) <==> Charges(offs, r, rate)
  {
    if Lookup(offs, r).Some? {
      assert Offers(offs, r, Lookup(offs, r).value);
    }
  }

  predicate Less(a: Price, b: Price) {
    a.Rate? && (b.Unknown? || a.perHour < b.perHour)
  }

  /** Python's order on strings, by characters. */
  predicate NameLess(a: string, b: string) {
    if b == "" then false
    else if a == "" then true
    else if a[0] != b[0] then a[0] < b[0]
    else NameLess(a[1..], b[1..])
  }

  lemma {:induction false} NamesAreOrdered(a: string, b: string)
    ensures NameLess(a, b) || a == b || NameLess(b, a)
    ensures !(NameLess(a, b) && NameLess(b, a))
    decreases |a|
  {
    if a != "" && b != "" {
      NamesAreOrdered(a[1..], b[1..]);
      if a[0] == b[0] && a[1..] == b[1..] {
        assert a == [a[0]] + a[1..] == [b[0]] + b[1..] == b;
      }
    }
  }

  lemma {:induction false} NamesAreTransitive(a: string, b: string, c: string)
    requires NameLess(a, b) && NameLess(b, c)
    ensures NameLess(a, c)
    decreases |a|
  {
    if a != "" && a[0] == b[0] == c[0] {
      NamesAreTransitive(a[1..], b[1..], c[1..]);
    }
  }

  /** The names are alike for the first n characters, and there the first ends, or has the smaller one. */
  ghost predicate ComesFirstAt(a: string, b: string, n: nat) {
    n <= |a| && n < |b| && a[..n] == b[..n] && (n == |a| || a[n] < b[n])
  }

  ghost predicate ComesFirst(a: string, b: string) {
    exists n: nat :: ComesFirstAt(a, b, n)
  }

  lemma {:induction false} NameLessExactly(a: string, b: string)
    ensures NameLess(a, b) <==> ComesFirst(a, b)
    decreases |a|
  {
    if a == "" && b != "" {
      assert ComesFirstAt(a, b, 0);
    } else if a != "" && b != "" {
      NameLessExactly(a[1..], b[1..]);
      if a[0] != b[0] {
        DifferAtOnce(a, b);
      } else {
        AlikeAtFirst(a, b);
      }
    }
  }

  lemma DifferAtOnce(a: string, b: string)
    requires a != "" && b != "" && a[0] != b[0]
    ensures ComesFirst(a, b) <==> a[0] < b[0]
  {
    assert forall n: nat :: 0 < n <= |a| && n <= |b| ==> a[..n][0] == a[0] && b[..n][0] == b[0];
    if a[0] < b[0] {
      assert ComesFirstAt(a, b, 0);
    }
  }

  lemma AlikeAt(a: string, b: string, n: nat)
    requires a != "" && b != "" && a[0] == b[0]
    ensures ComesFirstAt(a, b, n + 1) <==> ComesFirstAt(a[1..], b[1..], n)
  {
    if n + 1 <= |a| && n + 1 < |b| {
      assert a[..n + 1] == [a[0]] + a[1..][..n] && b[..n + 1] == [b[0]] + b[1..][..n];
      assert a[1..][..n] == a[..n + 1][1..] && b[1..][..n] == b[..n + 1][1..];
    }
  }

  lemma AlikeAtFirst(a: string, b: string)
    requires a != "" && b != "" && a[0] == b[0]
    ensures ComesFirst(a, b) <==> ComesFirst(a[1..], b[1..])
  {
    if n: nat :| ComesFirstAt(a, b, n) {
      AlikeAt(a, b, n - 1);
    }
    if n: nat :| ComesFirstAt(a[1..], b[1..], n) {
      AlikeAt(a, b, n);
    }
  }

  /** The cheaper item, by name where the prices are the same. */
  predicate Cheaper(offs: Offerings, a: Item, b: Item) {
    var p, q := PriceOf(offs, a.res), PriceOf(offs, b.res);
    Less(p, q) || (p == q && NameLess(a.name, b.name))
  }

  lemma CheaperIsTransitive(offs: Offerings, a: Item, b: Item, c: Item)
    requires Cheaper(offs, a, b) && Cheaper(offs, b, c)
    ensures Cheaper(offs, a, c)
  {
    if NameLess(a.name, b.name) && NameLess(b.name, c.name) {
      NamesAreTransitive(a.name, b.name, c.name);
    }
  }

  /** The first item has a rate, and the second a greater one or none; or they have the same, or none, and the
      first has the smaller name. */
  ghost predicate Undercuts(offs: Offerings, a: Item, b: Item) {
    || (exists p :: Charges(offs, a.res, p) && forall q :: Charges(offs, b.res, q) ==> p < q)
    || ((forall p :: Charges(offs, a.res, p) <==> Charges(offs, b.res, p)) && ComesFirst(a.name, b.name))
  }

  lemma CheaperExactly(offs: Offerings, a: Item, b: Item)
    ensures Cheaper(offs, a, b) <==> Undercuts(offs, a, b)
  {
    var p, q := PriceOf(offs, a.res), PriceOf(offs, b.res);
    forall x ensures (p == Rate(x) <==> Charges(offs, a.res, x)) && (q == Rate(x) <==> Charges(offs, b.res, x)) {
      PriceExactly(offs, a.res, x);
      PriceExactly(offs, b.res, x);
    }
    NameLessExactly(a.name, b.name);
    if p.Rate? {
      assert Charges(offs, a.res, p.perHour);
    }
    if q.Rate? {
      assert Charges(offs, b.res, q.perHour);
    }
  }

  // ---- the choice ---------------------------------------------------------------------------------------

  /** The item suits, and undercuts every other item of the catalog that does. */
  ghost predicate IsBest(offs: Offerings, req: Req, catalog: seq<Item>, best: Item) {
    && best in catalog && Suits(offs, req, best.res)
    && forall x :: x in catalog && Suits(offs, req, x.res) && x != best ==> Undercuts(offs, best, x)
  }

  ghost predicate NoneSuits(offs: Offerings, req: Req, catalog: seq<Item>) {
    forall x :: x in catalog ==> !Suits(offs, req, x.res)
  }

  /** The catalog is a dictionary: one resource to a name. */
  ghost predicate OneOfEachName(catalog: seq<Item>) {
    forall i, j :: 0 <= i < j < |catalog| ==> catalog[i].name != catalog[j].name
  }

  lemma BestSoFar(offs: Offerings, req: Req, catalog: seq<Item>, k: nat, best: Item)
    requires OneOfEachName(catalog) && k < |catalog|
    requires IsBest(offs, req, catalog[..k], best)
    ensures var x := catalog[k];
      IsBest(offs, req, catalog[..k + 1], if Suits(offs, req, x.res) && Cheaper(offs, x, best) then x else best)
  {
    var x := catalog[k];
    assert catalog[..k + 1] == catalog[..k] + [x];
    var i :| 0 <= i < k && catalog[i] == best;
    OneIsCheaper(offs, x, best);
    if Suits(offs, req, x.res) && Cheaper(offs, x, best) {
      forall y | y in catalog[..k] && Suits(offs, req, y.res) && y != best
        ensures Undercuts(offs, x, y)
      {
        CheaperExactly(offs, best, y);
        CheaperIsTransitive(offs, x, best, y);
        CheaperExactly(offs, x, y);
      }
    }
  }

  lemma OneIsCheaper(offs: Offerings, a: Item, b: Item)
    requires a.name != b.name
    ensures Cheaper(offs, a, b) <==> !Cheaper(offs, b, a)
    ensures Undercuts(offs, a, b) <==> !Undercuts(offs, b, a)
    ensures Cheaper(offs, a, b) <==> Undercuts(offs, a, b)
  {
    NamesAreOrdered(a.name, b.name);
    CheaperExactly(offs, a, b);
    CheaperExactly(offs, b, a);
  }

  /** select_resource */
  method SelectResource(offs: Offerings, catalog: seq<Item>, req: Req) returns (name: Option<string>)
    requires OneOfEachName(catalog)
    ensures name.None? <==> NoneSuits(offs, req, catalog)
    ensures name.Some? ==> exists best :: IsBest(offs, req, catalog, best) && best.name == name.value
  {
    name := None;
    var price := Unknown;
    ghost var best := Item("", Resource("", None, false));
    for k := 0 to |catalog|
      invariant name.None? ==> NoneSuits(offs, req, catalog[..k])
      invariant name.Some? ==> IsBest(offs, req, catalog[..k], best)
      invariant name.Some? ==> best.name == name.value && PriceOf(offs, best.res) == price
    {
      var x := catalog[k];
      assert catalog[..k + 1] == catalog[..k] + [x];
      if name.Some? {
        BestSoFar(offs, req, catalog, k, best);
      }
      EligibleExactly(offs, req, x.res);
      if Eligible(offs, req, x.res) {
        var p := PriceOf(offs, x.res);
        if name.None? || Less(p, price) || (p == price && NameLess(x.name, name.value)) {
          name, price, best := Some(x.name), p, x;
        }
      }
    }
    assert catalog[..|catalog|] == catalog;
  }

  /** The choice does not depend on the order of the catalog. */
  lemma OrderDoesNotMatter(offs: Offerings, req: Req, a: seq<Item>, b: seq<Item>, best: Item, other: Item)
    requires forall x :: x in a <==> x in b
    requires IsBest(offs, req, a, best) && IsBest(offs, req, b, other)
    ensures best == other
  {
    NamesAreOrdered(best.name, other.name);
    CheaperExactly(offs, best, other);
    CheaperExactly(offs, other, best);
    assert best == other || !(Cheaper(offs, best, other) && Cheaper(offs, other, best));
  }

  predicate AtLeastText(more: Option<string>, less: Option<string>) {
    AskedText(less) ==> more == less
  }

  predicate AtLeastInt(more: Option<int>, less: Option<int>) {
    AskedInt(less) ==> AskedInt(more) && more.value >= less.value
  }

  predicate AtLeastReal(more: Option<real>, less: Option<real>) {
    AskedReal(less) ==> AskedReal(more) && more.value >= less.value
  }

  /** The first requirements ask for all that the second ask for. */
  predicate Stricter(more: Req, less: Req) {
    && AtLeastText(more.provider, less.provider) && AtLeastText(more.region, less.region)
    && AtLeastText(more.gpu, less.gpu) && AtLeastInt(more.gpuCount, less.gpuCount)
    && AtLeastReal(more.minGpuRam, less.minGpuRam) && AtLeastReal(more.minRam, less.minRam)
    && AtLeastInt(more.minVcpu, less.minVcpu) && AtLeastText(more.arch, less.arch)
  }

  ghost predicate ChargesAtMost(offs: Offerings, r: Resource, p: real) {
    exists q :: Charges(offs, r, q) && q <= p
  }

  /** Asking for more never finds a box where asking for less found none, nor a cheaper one: if it has a rate, the
      other has one that is no greater. */
  lemma MoreIsNeverCheaper(offs: Offerings, more: Req, less: Req, catalog: seq<Item>, best: Item)
    requires Stricter(more, less) && IsBest(offs, more, catalog, best)
    ensures !NoneSuits(offs, less, catalog)
    ensures forall other, p :: IsBest(offs, less, catalog, other) && Charges(offs, best.res, p) ==> ChargesAtMost(offs, other.res, p)
  {
    StricterIsNarrower(offs, more, less, best.res);
    forall other, p | IsBest(offs, less, catalog, other) && Charges(offs, best.res, p)
      ensures ChargesAtMost(offs, other.res, p)
    {
      NoDearer(offs, other, best, p);
    }
  }

  lemma NoDearer(offs: Offerings, a: Item, b: Item, p: real)
    requires (a == b || Undercuts(offs, a, b)) && Charges(offs, b.res, p)
    ensures ChargesAtMost(offs, a.res, p)
  {
    if a != b {
      UndercutsRate(offs, a, b, p);
    }
  }

  lemma UndercutsRate(offs: Offerings, a: Item, b: Item, p: real)
    requires Undercuts(offs, a, b) && Charges(offs, b.res, p)
    ensures ChargesAtMost(offs, a.res, p)
  {
    if q :| Charges(offs, a.res, q) && forall x :: Charges(offs, b.res, x) ==> q < x {
      assert q < p;
    } else {
      assert Charges(offs, a.res, p) && p <= p;
    }
  }

  lemma StricterIsNarrower(offs: Offerings, more: Req, less: Req, r: Resource)
    requires Stricter(more, less) && Suits(offs, more, r)
    ensures Suits(offs, less, r)
  {
    EligibleExactly(offs, more, r);
    EligibleExactly(offs, less, r);
  }
}
