/** The runtime half of the tagged-union library: case constructors, the
    definition builder, the dispatcher, the filter and the exhaustiveness sentinel. */
module Adt {
  import opened Records

  /** Outcome of an operation that can throw. */
  datatype Result<+T, +E> = Success(value: T) | Failure(error: E)

  /** What the library can throw. */
  datatype Error =
    | UnresolvedVariant(tag: string)   // `match` found no handler for the tag
    | UnexpectedCase(value: Record)    // `allCasesCovered` was reached

  // ---------------------------------------------------------------------------
  // Case constructors
  // ---------------------------------------------------------------------------

  /** `{ ...data, _type: k }`: the data's properties with `_type` set to `k`. The tag
      comes after the spread, so it wins over a `_type` the data may already carry. */
  function Tag(k: string, data: Record): (r: Record)
    ensures HasTag(r, k)
    ensures r.Keys == data.Keys + {TagField}
    ensures forall f :: f in data && f != TagField ==> r[f] == data[f]
  {
    data[TagField := Str(k)]
  }

  /** A case constructor: the function that builds an instance from data, and the
      key it exposes as its `type` attribute. */
  datatype Constructor = Constructor(build: Record -> Record, key: string)

  /** What a schema entry supplies: given its own key, a constructor. */
  type Factory = string -> Constructor

  /** A factory that behaves like the ones `Case` returns. */
  ghost predicate IsCaseFactory(f: Factory)
  {
    && (forall k :: f(k).key == k)
    && (forall k, data :: f(k).build(data) == Tag(k, data))
  }

  /** `Case<Data>()`. The data type is erased at run time, so every call returns a
      factory with the same behaviour: bound to `k`, it tags data with `k` and exposes
      `type = k`. */
  function Case(): (factory: Factory)
    ensures IsCaseFactory(factory)
  {
    k => Constructor(data => Tag(k, data), k)
  }

  // ---------------------------------------------------------------------------
  // Definition builder
  // ---------------------------------------------------------------------------

  /** The bundle `Cases` returns. `match`, `isCase` and `allCasesCovered` are the same
      functions for every definition, so only the constructor table is data. */
  datatype Definition = Definition(cases: map<string, Constructor>)

  /** The constructor table a schema yields: entry `k` is `t[k](k)`. */
  function ConstructorTable(t: map<string, Factory>): (cons: map<string, Constructor>)
    ensures cons.Keys == t.Keys
    ensures forall k :: k in t ==> cons[k] == t[k](k)
  {
    map k | k in t :: t[k](k)
  }

  /** `Cases(t)`: folds over the keys of `t`, assigning `t[k](k)` into the accumulator
      under `k`. The order in which the keys are visited is left open. */
  method Cases(t: map<string, Factory>) returns (d: Definition)
    ensures d.cases == ConstructorTable(t)
  {
    var acc: map<string, Constructor> := map[];
    var rest := t.Keys;
    while rest != {}
      invariant rest <= t.Keys
      invariant acc.Keys == t.Keys - rest
      invariant forall k :: k in acc ==> acc[k] == t[k](k)
      decreases rest
    {
      var k :| k in rest;
      acc := acc[k := t[k](k)];
      rest := rest - {k};
    }
    d := Definition(acc);
  }

  /** The `reduce` itself, over a key enumeration: `Object.assign(acc, { [k]: t[k](k) })`
      for each key in turn. */
  function AssignAll(keys: seq<string>, t: map<string, Factory>, acc: map<string, Constructor>)
    : (r: map<string, Constructor>)
    requires forall i :: 0 <= i < |keys| ==> keys[i] in t
    ensures r.Keys == acc.Keys + (set k | k in keys)
  {
    if keys == [] then acc
    else AssignAll(keys[1..], t, acc[keys[0] := t[keys[0]](keys[0])])
  }

  /** Folding binds each enumerated key to its own constructor and keeps the
      accumulator's other entries. */
  lemma {:induction false} AssignAllEntries(keys: seq<string>, t: map<string, Factory>,
                                            acc: map<string, Constructor>)
    requires forall i :: 0 <= i < |keys| ==> keys[i] in t
    ensures forall k :: k in keys ==> AssignAll(keys, t, acc)[k] == t[k](k)
    ensures forall k :: k in acc && k !in keys ==> AssignAll(keys, t, acc)[k] == acc[k]
  {
    if keys != [] {
      var k0 := keys[0];
      AssignAllEntries(keys[1..], t, acc[k0 := t[k0](k0)]);
      assert forall k :: k in keys <==> k == k0 || k in keys[1..];
    }
  }

  /** Whatever order `Object.keys` lists the schema's keys in, the fold from `{}`
      yields the constructor table. */
  lemma ReduceBuildsTable(keys: seq<string>, t: map<string, Factory>)
    requires (set k | k in keys) == t.Keys
    ensures forall i :: 0 <= i < |keys| ==> keys[i] in t
    ensures AssignAll(keys, t, map[]) == ConstructorTable(t)
  {
    assert forall i :: 0 <= i < |keys| ==> keys[i] in (set k | k in keys);
    AssignAllEntries(keys, t, map[]);
  }

  /** When every entry of the schema is a case factory, the built constructor for
      `k` exposes `type = k` and tags every data record with `k`, carrying the other
      properties over unchanged and adding none. */
  lemma ConstructorTagFidelity(t: map<string, Factory>, k: string, data: Record)
    requires forall j :: j in t ==> IsCaseFactory(t[j])
    requires k in t
    ensures ConstructorTable(t)[k].key == k
    ensures var r := ConstructorTable(t)[k].build(data);
      && HasTag(r, k)
      && r.Keys == data.Keys + {TagField}
      && (forall f :: f in data && f != TagField ==> r[f] == data[f])
  {
    assert IsCaseFactory(t[k]);
  }

  /** Tagging is a copy: stripping the tag gives back the data without its own `_type`. */
  lemma TagThenStrip(k: string, data: Record)
    ensures Tag(k, data) - {TagField} == data - {TagField}
  {
  }

  /** Re-tagging an instance only replaces its tag. */
  lemma RetagOverwrites(k1: string, k2: string, data: Record)
    ensures Tag(k2, Tag(k1, data)) == Tag(k2, data)
  {
  }

  // ---------------------------------------------------------------------------
  // Dispatcher
  // ---------------------------------------------------------------------------

  /** `match(x, pattern)`: the handler keyed by the instance's tag, applied to the
      instance. The pattern must have a handler for the tag, as the type of
      `match` demands of every case the instance may be. */
  function Match<Out>(x: Record, pattern: map<string, Record -> Out>): (r: Out)
    requires IsInstance(x) && TagOf(x) in pattern
    ensures forall k :: HasTag(x, k) ==> k in pattern && r == pattern[k](x)
  {
    pattern[TagOf(x)](x)
  }

  /** What the lookup `pattern[x._type](x)` does when the typing is bypassed: with
      no handler for the tag the call throws; otherwise it is `Match`. */
  function TryMatch<Out>(x: Record, pattern: map<string, Record -> Out>): (r: Result<Out, Error>)
    requires IsInstance(x)
    ensures r.Success? <==> TagOf(x) in pattern
    ensures r.Success? ==> r.value == Match(x, pattern)
    ensures r.Failure? ==> r.error == UnresolvedVariant(TagOf(x))
  {
    var k := TagOf(x);
    if k in pattern then Success(pattern[k](x)) else Failure(UnresolvedVariant(k))
  }

  /** Dispatch depends on the handler for the tag only: there is no fallback and the
      other entries of the pattern are never consulted. */
  lemma MatchUsesOnlyTagHandler<Out>(x: Record, p: map<string, Record -> Out>, q: map<string, Record -> Out>)
    requires IsInstance(x) && TagOf(x) in p && TagOf(x) in q
    requires p[TagOf(x)] == q[TagOf(x)]
    ensures Match(x, p) == Match(x, q)
  {
  }

  /** Dispatching an instance built for `k` runs the handler for `k`. */
  lemma MatchConstructed<Out>(k: string, data: Record, pattern: map<string, Record -> Out>)
    requires k in pattern
    ensures IsInstance(Tag(k, data)) && TagOf(Tag(k, data)) == k
    ensures Match(Tag(k, data), pattern) == pattern[k](Tag(k, data))
  {
  }

  // ---------------------------------------------------------------------------
  // Filter
  // ---------------------------------------------------------------------------

  /** `isCase(x, ...keys)`, i.e. `keys.some(k => x._type === k)`: true iff the tag is
      one of the candidates; with no candidates it is false. */
  function IsCase(x: Record, keys: seq<string>): (b: bool)
    ensures b <==> exists i :: 0 <= i < |keys| && HasTag(x, keys[i])
    ensures b <==> IsInstance(x) && TagOf(x) in keys
    ensures keys == [] ==> !b
  {
    if keys == [] then false
    else HasTag(x, keys[0]) || IsCase(x, keys[1..])
  }

  /** Narrowing: on an instance of `schema`, a true `isCase` leaves only the
      candidates, and a false one only the other variants of the schema. */
  lemma IsCaseNarrows(x: Record, schema: set<string>, keys: seq<string>)
    requires InstanceOf(x, schema)
    ensures IsCase(x, keys) ==> InstanceOf(x, schema * (set k | k in keys))
    ensures !IsCase(x, keys) ==> InstanceOf(x, schema - (set k | k in keys))
  {
  }

  /** After a false `isCase`, a pattern covering the remaining variants of the schema
      is enough: dispatch cannot fail and runs the handler for the tag. */
  lemma MatchOnComplement<Out>(x: Record, schema: set<string>, keys: seq<string>,
                               pattern: map<string, Record -> Out>)
    requires InstanceOf(x, schema) && !IsCase(x, keys)
    requires schema - (set k | k in keys) <= pattern.Keys
    ensures TagOf(x) in pattern
    ensures TryMatch(x, pattern) == Success(pattern[TagOf(x)](x))
  {
    IsCaseNarrows(x, schema, keys);
  }

  // ---------------------------------------------------------------------------
  // Exhaustiveness sentinel
  // ---------------------------------------------------------------------------

  /** `allCasesCovered(x)`: never returns normally, whatever type it is used at; it
      throws, carrying the offending value. */
  function AllCasesCovered<T>(x: Record): (r: Result<T, Error>)
    ensures r.Failure? && r.error == UnexpectedCase(x)
  {
    Failure(UnexpectedCase(x))
  }

  /** The keys an array of switch arms tests for. */
  function ArmKeys<Out>(arms: seq<(string, Record -> Out)>): set<string>
  {
    set i | 0 <= i < |arms| :: arms[i].0
  }

  /** `switch (x._type) { case k: ...; default: allCasesCovered(x) }`: the first arm
      whose key matches the tag, or the sentinel when none does. An arm stands for
      everything the switch runs from its label to the first `break`, including any
      cases it falls through into. */
  function Switch<Out>(x: Record, arms: seq<(string, Record -> Out)>): (r: Result<Out, Error>)
    ensures r.Success? <==> exists i :: 0 <= i < |arms| && HasTag(x, arms[i].0)
    ensures r.Failure? ==> r.error == UnexpectedCase(x)
    ensures r.Success? ==>
      exists i :: (0 <= i < |arms| && HasTag(x, arms[i].0)
                   && (forall j :: 0 <= j < i ==> !HasTag(x, arms[j].0)) && r.value == arms[i].1(x))
  {
    if arms == [] then AllCasesCovered(x)
    else if HasTag(x, arms[0].0) then Success(arms[0].1(x))
    else Switch(x, arms[1..])
  }

  /** A switch whose arms cover the schema never reaches the sentinel on an instance
      of that schema; one that misses the instance's tag always does. */
  lemma ExhaustiveSwitch<Out>(x: Record, schema: set<string>, arms: seq<(string, Record -> Out)>)
    requires InstanceOf(x, schema)
    ensures schema <= ArmKeys(arms) ==> Switch(x, arms).Success?
    ensures TagOf(x) !in ArmKeys(arms) ==> Switch(x, arms) == AllCasesCovered(x)
  {
  }
}
