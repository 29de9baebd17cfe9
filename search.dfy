/**
  pages/Search.tsx: `handleFilterProperties`, the client-side filter over the fetched property
  list. A criterion that is the empty string (falsy) imposes nothing; the numeric criteria are the
  strings the form holds, read here as already-parsed integers.
 */
module Search {
  import opened Outcomes
  import opened Text
  import opened Sequences

  /** The fields of a property the filter reads. */
  datatype Property = Property(ptype: string, state: string, address: string,
                               area: int, price: int, rooms: int, floor: int)

  /** The form state; `None` stands for the empty string of an unset numeric field. */
  datatype Criteria = Criteria(ptype: string, state: string, address: string,
                               areaMin: Option<int>, areaMax: Option<int>,
                               priceMin: Option<int>, priceMax: Option<int>,
                               floorMin: Option<int>, floorMax: Option<int>,
                               rooms: Option<int>)

  /** The criteria of the Reset button: every field empty. */
  const NoCriteria := Criteria("", "", "", None, None, None, None, None, None, None)

  /** The predicate passed to `filter`, as the chain of early `return false` it is written as. */
  predicate Keep(p: Property, c: Criteria) {
    if c.ptype != "" && c.ptype != p.ptype then false
    else if c.state != "" && c.state != p.state then false
    else if c.address != "" && !Contains(p.address, c.address) then false
    else if c.areaMin.Some? && p.area < c.areaMin.value then false
    else if c.areaMax.Some? && p.area > c.areaMax.value then false
    else if c.priceMin.Some? && p.price < c.priceMin.value then false
    else if c.priceMax.Some? && p.price > c.priceMax.value then false
    else if c.floorMin.Some? && p.floor < c.floorMin.value then false
    else if c.floorMax.Some? && p.floor > c.floorMax.value then false
    else if c.rooms.Some? && p.rooms != c.rooms.value then false
    else true
  }

  /** A bound that is given holds inclusively. */
  predicate Within(v: int, lo: Option<int>, hi: Option<int>) {
    (lo.Some? ==> lo.value <= v) && (hi.Some? ==> v <= hi.value)
  }

  /** The filter as intended, one conjunct per criterion: each given criterion holds. */
  ghost predicate Matches(p: Property, c: Criteria) {
    && (c.ptype != "" ==> p.ptype == c.ptype)
    && (c.state != "" ==> p.state == c.state)
    && (c.address != "" ==> exists i: nat :: OccursAt(p.address, c.address, i))
    && Within(p.area, c.areaMin, c.areaMax)
    && Within(p.price, c.priceMin, c.priceMax)
    && Within(p.floor, c.floorMin, c.floorMax)
    && (c.rooms.Some? ==> p.rooms == c.rooms.value)
  }

  /** The early-return chain keeps a property iff every given criterion holds; it is dropped iff one fails. */
  lemma KeepIffMatches(p: Property, c: Criteria)
    ensures Keep(p, c) <==> Matches(p, c)
  {
  }

  /** `properties.filter(...)`. */
  function FilterProperties(ps: seq<Property>, c: Criteria): (r: seq<Property>)
    ensures |r| <= |ps|
    ensures forall p :: p in r <==> p in ps && Keep(p, c)
  {
    if ps == [] then []
    else
      var rest := FilterProperties(ps[1..], c);
      assert forall p :: p in ps <==> p == ps[0] || p in ps[1..];
      if Keep(ps[0], c) then [ps[0]] + rest else rest
  }

  /** The result keeps the input's order: it is a subsequence of the input. */
  lemma {:induction false} FilterIsSubsequence(ps: seq<Property>, c: Criteria)
    ensures IsSubsequence(FilterProperties(ps, c), ps)
  {
    if ps != [] {
      FilterIsSubsequence(ps[1..], c);
      var r := FilterProperties(ps, c);
      var rest := FilterProperties(ps[1..], c);
      if Keep(ps[0], c) {
        assert r[0] == ps[0] && r[1..] == rest;
      } else {
        assert r == rest;
        if r != [] {
          assert IsSubsequence(r, ps[1..]);
        }
      }
    }
  }

  /** Each property is kept as many times as it occurs, or dropped every time. */
  lemma {:induction false} FilterMultiplicity(ps: seq<Property>, c: Criteria, p: Property)
    ensures multiset(FilterProperties(ps, c))[p] == if Keep(p, c) then multiset(ps)[p] else 0
  {
    if ps != [] {
      FilterMultiplicity(ps[1..], c, p);
      assert ps == [ps[0]] + ps[1..];
    }
  }

  /** Reset: with every criterion empty the whole list comes back, in order. */
  lemma {:induction false} ResetKeepsAll(ps: seq<Property>)
    ensures FilterProperties(ps, NoCriteria) == ps
  {
    if ps != [] {
      ResetKeepsAll(ps[1..]);
    }
  }

  /** A kept property satisfies every given criterion: type and state exactly, the address as a substring, bounds inclusively, rooms exactly. */
  lemma KeptSatisfies(ps: seq<Property>, c: Criteria, p: Property)
    requires p in FilterProperties(ps, c)
    ensures p in ps && Matches(p, c)
  {
    KeepIffMatches(p, c);
  }
}
