/**
 * The platform an environment is built on: its base, its distribution, the
 * registry of declared components (keyed by component id) and the resolvers
 * of the components actually used by the descriptor.
 */
module Platforms {
  import opened Wrappers
  import opened Validation
  import opened Components
  import opened MapOrder

  /** A lazy reference to a component, recorded when the descriptor uses one.
      It is known only by an opaque identity; resolving it is done by a
      function supplied by the caller. */
  datatype ComponentResolver = ComponentResolver(id: nat)

  datatype Platform = Platform(
    base: Base,
    distribution: Distribution,
    components: map<string, Component>,
    resolvers: seq<ComponentResolver>)

  // ---------------------------------------------------------------------------
  // Recording used components
  // ---------------------------------------------------------------------------

  /** Records one more used component at the end of the resolver list. */
  function TagUsedComponent(p: Platform, cr: ComponentResolver): (r: Platform)
    ensures |r.resolvers| == |p.resolvers| + 1
    ensures r.resolvers[..|p.resolvers|] == p.resolvers
    ensures r.resolvers[|p.resolvers|] == cr
    ensures r.(resolvers := p.resolvers) == p
  {
    p.(resolvers := p.resolvers + [cr])
  }

  /** Records every resolver of `rs`, one at a time, in order. */
  function TagAll(p: Platform, rs: seq<ComponentResolver>): (r: Platform)
    ensures r.resolvers == p.resolvers + rs
    ensures r.(resolvers := p.resolvers) == p
    decreases |rs|
  {
    if rs == [] then p
    else
      assert rs == [rs[0]] + rs[1..];
      TagAll(TagUsedComponent(p, rs[0]), rs[1..])
  }

  // ---------------------------------------------------------------------------
  // Merging platforms
  // ---------------------------------------------------------------------------

  /** Folds `theirs` into `mine`: the first-seen entry for an id wins and an
      entry keyed by the empty id is never taken over. */
  function MergeComponents(mine: map<string, Component>, theirs: map<string, Component>): (r: map<string, Component>)
    ensures r.Keys == mine.Keys + (theirs.Keys - {""})
    ensures forall id :: id in mine ==> r[id] == mine[id]
    ensures forall id :: id in r && id !in mine ==> id != "" && r[id] == theirs[id]
  {
    map id | id in mine.Keys + (theirs.Keys - {""}) :: if id in mine then mine[id] else theirs[id]
  }

  /** The distribution is taken over wholesale only when the receiver has no
      repository url and the other platform has one. */
  function MergeDistribution(mine: Distribution, theirs: Distribution): (r: Distribution)
    ensures r.repository.url.Some? <==> mine.repository.url.Some? || theirs.repository.url.Some?
    ensures mine.repository.url.Some? || theirs.repository.url.None? ==> r == mine
    ensures mine.repository.url.None? && theirs.repository.url.Some? ==> r == theirs
  {
    if mine.repository.url.None? && theirs.repository.url.Some? then theirs else mine
  }

  /** Merges `other` into `p`. The operation cannot fail. */
  function Merge(p: Platform, other: Platform): (r: Result<Platform>)
    ensures r.Success?
    ensures r.value.base == p.base
    ensures r.value.components.Keys == p.components.Keys + (other.components.Keys - {""})
    ensures forall id :: id in p.components ==> r.value.components[id] == p.components[id]
    ensures forall id :: id in r.value.components && id !in p.components ==> r.value.components[id] == other.components[id]
    ensures |r.value.resolvers| == |p.resolvers| + |other.resolvers|
    ensures r.value.resolvers[..|p.resolvers|] == p.resolvers
    ensures r.value.resolvers[|p.resolvers|..] == other.resolvers
    ensures p.distribution.repository.url.None? && other.distribution.repository.url.Some? ==>
              r.value.distribution == other.distribution
    ensures p.distribution.repository.url.Some? || other.distribution.repository.url.None? ==>
              r.value.distribution == p.distribution
  {
    var withComponents := p.(components := MergeComponents(p.components, other.components));
    var tagged := TagAll(withComponents, other.resolvers);
    Success(tagged.(distribution := MergeDistribution(p.distribution, other.distribution)))
  }

  /** Merging a platform with itself keeps its components and distribution
      but doubles its resolver list, so merge is not idempotent. */
  lemma MergeSelf(p: Platform)
    ensures Merge(p, p).value.components == p.components
    ensures Merge(p, p).value.distribution == p.distribution
    ensures Merge(p, p).value.resolvers == p.resolvers + p.resolvers
    ensures |p.resolvers| > 0 ==> Merge(p, p).value != p
  {
  }

  /** `q` has something to contribute to a merge: a component under a
      non-empty id, a resolver, or a distribution with a repository url. */
  ghost predicate Contributes(q: Platform) {
    (q.components.Keys - {""}) != {} || q.resolvers != [] || q.distribution.repository.url.Some?
  }

  /** Merging a platform that contributes nothing changes nothing. */
  lemma MergeNothing(p: Platform, q: Platform)
    requires !Contributes(q)
    ensures Merge(p, q).value == p
  {
  }

  /** The merged platform, field by field. */
  lemma MergeFieldwise(p: Platform, other: Platform)
    ensures Merge(p, other).value == Platform(
              p.base,
              MergeDistribution(p.distribution, other.distribution),
              MergeComponents(p.components, other.components),
              p.resolvers + other.resolvers)
  {
  }

  /** Registry merging is associative: first-seen-wins does not depend on grouping. */
  lemma MergeComponentsAssociative(a: map<string, Component>, b: map<string, Component>, c: map<string, Component>)
    ensures MergeComponents(MergeComponents(a, b), c) == MergeComponents(a, MergeComponents(b, c))
  {
  }

  /** Layers can be grouped either way: merging is associative, so folding a
      chain of platforms gives one result however the folds are nested. */
  lemma MergeAssociative(a: Platform, b: Platform, c: Platform)
    ensures Merge(Merge(a, b).value, c).value == Merge(a, Merge(b, c).value).value
  {
    var ab := Merge(a, b).value;
    var bc := Merge(b, c).value;
    MergeFieldwise(a, b);
    MergeFieldwise(b, c);
    MergeFieldwise(ab, c);
    MergeFieldwise(a, bc);
    MergeComponentsAssociative(a.components, b.components, c.components);
    assert (a.resolvers + b.resolvers) + c.resolvers == a.resolvers + (b.resolvers + c.resolvers);
  }

  // ---------------------------------------------------------------------------
  // Used components
  // ---------------------------------------------------------------------------

  /** Every resolver of `rs` resolves. */
  ghost predicate AllResolve(rs: seq<ComponentResolver>, resolve: ComponentResolver -> Result<Component>) {
    forall i :: 0 <= i < |rs| ==> resolve(rs[i]).Success?
  }

  /** The ids of the components the resolvers of `rs` resolve to. */
  ghost function ResolvedIds(rs: seq<ComponentResolver>, resolve: ComponentResolver -> Result<Component>): set<string>
    requires AllResolve(rs, resolve)
  {
    set i | 0 <= i < |rs| :: resolve(rs[i]).value.id
  }

  /** `c` is what resolver `i` resolves to, and no later resolver resolves to
      a component with the same id. */
  ghost predicate LastResolvedAt(rs: seq<ComponentResolver>, resolve: ComponentResolver -> Result<Component>, c: Component, i: int) {
    && 0 <= i < |rs|
    && resolve(rs[i]) == Success(c)
    && forall j :: i < j < |rs| ==> resolve(rs[j]).Failure? || resolve(rs[j]).value.id != c.id
  }

  /** `c` is the last component resolved with its id. */
  ghost predicate ResolvedLast(rs: seq<ComponentResolver>, resolve: ComponentResolver -> Result<Component>, c: Component) {
    exists i :: LastResolvedAt(rs, resolve, c, i)
  }

  /** The components resolved by `rs` in order, keyed by id; a later
      component replaces an earlier one with the same id. */
  ghost function ResolvedById(rs: seq<ComponentResolver>, resolve: ComponentResolver -> Result<Component>): (m: map<string, Component>)
    requires AllResolve(rs, resolve)
    decreases |rs|
  {
    if rs == [] then map[]
    else
      var c := resolve(rs[|rs| - 1]).value;
      ResolvedById(rs[..|rs| - 1], resolve)[c.id := c]
  }

  lemma AllResolvePrefix(rs: seq<ComponentResolver>, resolve: ComponentResolver -> Result<Component>, n: nat)
    requires AllResolve(rs, resolve) && n <= |rs|
    ensures AllResolve(rs[..n], resolve)
  {
  }

  /** The registry built by resolving in order is keyed by exactly the
      resolved ids. */
  lemma {:induction false} ResolvedByIdKeys(rs: seq<ComponentResolver>, resolve: ComponentResolver -> Result<Component>)
    requires AllResolve(rs, resolve)
    ensures ResolvedById(rs, resolve).Keys == ResolvedIds(rs, resolve)
    decreases |rs|
  {
    if rs != [] {
      var n := |rs| - 1;
      var front := rs[..n];
      AllResolvePrefix(rs, resolve, n);
      ResolvedByIdKeys(front, resolve);
      var c := resolve(rs[n]).value;
      forall x | x in ResolvedIds(rs, resolve)
        ensures x in ResolvedIds(front, resolve) + {c.id}
      {
        var i :| 0 <= i < |rs| && resolve(rs[i]).value.id == x;
        if i < n {
          assert front[i] == rs[i];
        }
      }
      forall x | x in ResolvedIds(front, resolve)
        ensures x in ResolvedIds(rs, resolve)
      {
        var i :| 0 <= i < |front| && resolve(front[i]).value.id == x;
        assert front[i] == rs[i];
      }
    }
  }

  /** The registry built by resolving in order holds, under each id, exactly
      the last component resolved with that id. */
  lemma {:induction false} ResolvedByIdLastWins(rs: seq<ComponentResolver>, resolve: ComponentResolver -> Result<Component>)
    requires AllResolve(rs, resolve)
    ensures forall id :: id in ResolvedById(rs, resolve) ==>
              ResolvedById(rs, resolve)[id].id == id && ResolvedLast(rs, resolve, ResolvedById(rs, resolve)[id])
    decreases |rs|
  {
    if rs != [] {
      var n := |rs| - 1;
      var front := rs[..n];
      AllResolvePrefix(rs, resolve, n);
      ResolvedByIdLastWins(front, resolve);
      var c := resolve(rs[n]).value;
      var m := ResolvedById(rs, resolve);
      var mf := ResolvedById(front, resolve);
      assert m == mf[c.id := c];
      forall id | id in m
        ensures m[id].id == id && ResolvedLast(rs, resolve, m[id])
      {
        if id == c.id {
          assert LastResolvedAt(rs, resolve, m[id], n);
        } else {
          var i :| LastResolvedAt(front, resolve, mf[id], i);
          assert front[i] == rs[i];
          forall j | i < j < |rs|
            ensures resolve(rs[j]).Failure? || resolve(rs[j]).value.id != m[id].id
          {
            if j < n {
              assert front[j] == rs[j];
            }
          }
          assert LastResolvedAt(rs, resolve, m[id], i);
        }
      }
    }
  }

  /** The first resolver of `rs` that fails fails with `e`. */
  ghost predicate FirstFailure(rs: seq<ComponentResolver>, resolve: ComponentResolver -> Result<Component>, e: string) {
    exists i ::
      && 0 <= i < |rs|
      && resolve(rs[i]) == Failure(e)
      && forall j :: 0 <= j < i ==> resolve(rs[j]).Success?
  }

  /** The ids of a list of components. */
  ghost function IdsOf(cs: seq<Component>): set<string> {
    set k | 0 <= k < |cs| :: cs[k].id
  }

  lemma IdsOfAppend(cs: seq<Component>, c: Component)
    ensures IdsOf(cs + [c]) == IdsOf(cs) + {c.id}
  {
    var r := cs + [c];
    forall x | x in IdsOf(r)
      ensures x in IdsOf(cs) + {c.id}
    {
      var k :| 0 <= k < |r| && r[k].id == x;
      if k < |cs| {
        assert r[k] == cs[k];
      }
    }
    assert r[|cs|].id == c.id;
    forall x | x in IdsOf(cs)
      ensures x in IdsOf(r)
    {
      var k :| 0 <= k < |cs| && cs[k].id == x;
      assert r[k] == cs[k];
    }
  }

  /** The first loop of UsedComponents: resolves in order into a map keyed by
      id, or stops at the first failure. */
  method ResolveInOrder(rs: seq<ComponentResolver>, resolve: ComponentResolver -> Result<Component>)
    returns (temp: map<string, Component>, err: Option<string>)
    ensures err.None? <==> AllResolve(rs, resolve)
    ensures err.Some? ==> FirstFailure(rs, resolve, err.value)
    ensures err.None? ==> temp == ResolvedById(rs, resolve)
  {
    temp := map[];
    var i := 0;
    while i < |rs|
      invariant 0 <= i <= |rs|
      invariant AllResolve(rs[..i], resolve)
      invariant temp == ResolvedById(rs[..i], resolve)
    {
      match resolve(rs[i])
      case Failure(e) =>
        assert forall j :: 0 <= j < i ==> rs[..i][j] == rs[j];
        assert FirstFailure(rs, resolve, e) by {
          assert resolve(rs[i]) == Failure(e);
        }
        return temp, Some(e);
      case Success(c) =>
        assert rs[..i + 1][..i] == rs[..i];
        temp := temp[c.id := c];
      i := i + 1;
    }
    assert rs[..i] == rs;
    err := None;
  }

  /** The second loop of UsedComponents: lists the values of a map keyed by
      component id, in no particular order. */
  method ListValues(temp: map<string, Component>) returns (res: seq<Component>)
    requires forall id :: id in temp ==> temp[id].id == id
    ensures forall a, b :: 0 <= a < b < |res| ==> res[a].id != res[b].id
    ensures forall k :: 0 <= k < |res| ==> res[k].id in temp && temp[res[k].id] == res[k]
    ensures IdsOf(res) == temp.Keys
  {
    res := [];
    var pending := temp.Keys;
    while pending != {}
      invariant pending <= temp.Keys
      invariant forall k :: 0 <= k < |res| ==> res[k].id in temp && temp[res[k].id] == res[k] && res[k].id !in pending
      invariant forall a, b :: 0 <= a < b < |res| ==> res[a].id != res[b].id
      invariant IdsOf(res) == temp.Keys - pending
      decreases pending
    {
      var id :| id in pending;
      ghost var before := res;
      res := res + [temp[id]];
      pending := pending - {id};
      IdsOfAppend(before, temp[id]);
    }
  }

  /** Resolves every used component in order, stopping at the first error,
      and returns each resolved component once per id (the last one resolved
      with that id). */
  method UsedComponents(p: Platform, resolve: ComponentResolver -> Result<Component>)
    returns (res: seq<Component>, err: Option<string>)
    ensures err.None? <==> AllResolve(p.resolvers, resolve)
    ensures err.Some? ==> res == [] && FirstFailure(p.resolvers, resolve, err.value)
    ensures err.None? ==> forall a, b :: 0 <= a < b < |res| ==> res[a].id != res[b].id
    ensures err.None? ==> IdsOf(res) == ResolvedIds(p.resolvers, resolve)
    ensures err.None? ==> forall k :: 0 <= k < |res| ==> ResolvedLast(p.resolvers, resolve, res[k])
  {
    var temp;
    temp, err := ResolveInOrder(p.resolvers, resolve);
    if err.Some? {
      return [], err;
    }
    ResolvedByIdKeys(p.resolvers, resolve);
    ResolvedByIdLastWins(p.resolvers, resolve);
    res := ListValues(temp);
  }

  // ---------------------------------------------------------------------------
  // Validation
  // ---------------------------------------------------------------------------

  /** Folds the diagnostics of the components named by `order` into `acc`. */
  function ValidateFrom(
    components: map<string, Component>, order: seq<string>,
    errorOnInvalid: Component -> ValidationErrors,
    merge: (ValidationErrors, ValidationErrors) -> ValidationErrors,
    acc: ValidationErrors): ValidationErrors
    requires forall i :: 0 <= i < |order| ==> order[i] in components
    decreases |order|
  {
    if order == [] then acc
    else ValidateFrom(components, order[1..], errorOnInvalid, merge, merge(acc, errorOnInvalid(components[order[0]])))
  }

  /** Validates every component of the registry, visited in `order`, folding
      each component's diagnostics into one accumulator. */
  function Validate(
    p: Platform, order: seq<string>,
    errorOnInvalid: Component -> ValidationErrors,
    merge: (ValidationErrors, ValidationErrors) -> ValidationErrors): (r: ValidationErrors)
    requires Enumerates(order, p.components.Keys)
    ensures p.components == map[] ==> r == NoErrors
  {
    ValidateFrom(p.components, order, errorOnInvalid, merge, NoErrors)
  }

  lemma {:induction false} ValidateFromReports(
    components: map<string, Component>, order: seq<string>,
    errorOnInvalid: Component -> ValidationErrors, acc: ValidationErrors, t: ErrorType)
    requires forall i :: 0 <= i < |order| ==> order[i] in components
    ensures Reports(ValidateFrom(components, order, errorOnInvalid, Concat, acc), t) <==>
              Reports(acc, t) || exists i :: 0 <= i < |order| && Reports(errorOnInvalid(components[order[i]]), t)
    decreases |order|
  {
    if order != [] {
      var next := Concat(acc, errorOnInvalid(components[order[0]]));
      ConcatReports(acc, errorOnInvalid(components[order[0]]), t);
      ValidateFromReports(components, order[1..], errorOnInvalid, next, t);
      if exists i :: 0 <= i < |order| && Reports(errorOnInvalid(components[order[i]]), t) {
        var i :| 0 <= i < |order| && Reports(errorOnInvalid(components[order[i]]), t);
        if i > 0 {
          assert order[1..][i - 1] == order[i];
        }
      }
      if exists i :: 0 <= i < |order[1..]| && Reports(errorOnInvalid(components[order[1..][i]]), t) {
        var i :| 0 <= i < |order[1..]| && Reports(errorOnInvalid(components[order[1..][i]]), t);
        assert order[1..][i] == order[i + 1];
      }
    }
  }

  /** When diagnostics are merged by concatenation, the platform's validation
      reports a severity iff some component's own validation does, whatever
      order the registry is visited in. */
  lemma ValidateReportsAnyInvalidComponent(
    p: Platform, order: seq<string>, errorOnInvalid: Component -> ValidationErrors, t: ErrorType)
    requires Enumerates(order, p.components.Keys)
    ensures Reports(Validate(p, order, errorOnInvalid, Concat), t) <==>
              exists id :: id in p.components && Reports(errorOnInvalid(p.components[id]), t)
  {
    ValidateFromReports(p.components, order, errorOnInvalid, NoErrors, t);
    if exists id :: id in p.components && Reports(errorOnInvalid(p.components[id]), t) {
      var id :| id in p.components && Reports(errorOnInvalid(p.components[id]), t);
      var i :| 0 <= i < |order| && order[i] == id;
    }
  }
}
