/** UltraConfigurableProviderSupport: five alias -> implementation registries (hash strategies,
    URI locators, naming strategies, pre-processors, post-processors) that are replaced,
    merged, copied out and layered over defaults. The processor registries are insertion
    ordered (LinkedHashMap); the other three are plain HashMaps. */
module ProviderSupport {

  /** A LinkedHashMap from aliases: `keys` lists every alias once, in insertion order. */
  datatype LinkedMap<V> = LinkedMap(keys: seq<string>, values: map<string, V>)

  ghost predicate Distinct(s: seq<string>) {
    forall i, j :: 0 <= i < j < |s| ==> s[i] != s[j]
  }

  ghost predicate ValidLinked<V>(m: LinkedMap<V>) {
    && Distinct(m.keys)
    && (forall k :: k in m.values <==> k in m.keys)
  }

  function EmptyLinked<V>(): (r: LinkedMap<V>)
    ensures ValidLinked(r)
  {
    LinkedMap([], map[])
  }

  /** `put`: a present alias keeps its position and gets the new value; a new alias goes last. */
  function Put<V>(m: LinkedMap<V>, k: string, v: V): (r: LinkedMap<V>)
    ensures ValidLinked(m) ==> ValidLinked(r)
    ensures r.values == m.values[k := v]
  {
    if k in m.values then LinkedMap(m.keys, m.values[k := v])
    else LinkedMap(m.keys + [k], m.values[k := v])
  }

  /** `putAll` of the aliases `ks`, in that order, with their values in `vals`. */
  function PutKeys<V>(m: LinkedMap<V>, ks: seq<string>, vals: map<string, V>): LinkedMap<V>
    requires forall k :: k in ks ==> k in vals
    decreases |ks|
  {
    if ks == [] then m else PutKeys(Put(m, ks[0], vals[ks[0]]), ks[1..], vals)
  }

  /** `putAll(src)`: the entries of `src` put one by one, in `src`'s iteration order. */
  function PutAll<V>(m: LinkedMap<V>, src: LinkedMap<V>): (r: LinkedMap<V>)
    requires ValidLinked(src)
    ensures ValidLinked(m) ==> ValidLinked(r)
  {
    PutKeysValid(m, src.keys, src.values);
    PutKeys(m, src.keys, src.values)
  }

  /** The aliases of `s` not in `drop`, in their order in `s`. */
  function Without(s: seq<string>, drop: set<string>): seq<string> {
    if s == [] then []
    else if s[0] in drop then Without(s[1..], drop)
    else [s[0]] + Without(s[1..], drop)
  }

  /** `keySet().removeAll(drop)` on a LinkedHashMap copy. */
  function RemoveKeys<V>(m: LinkedMap<V>, drop: set<string>): LinkedMap<V> {
    LinkedMap(Without(m.keys, drop), map k | k in m.values && k !in drop :: m.values[k])
  }

  /** putAllInMapIfKeyAbsent on an insertion-ordered map. */
  function PutAllIfKeyAbsent<V>(target: LinkedMap<V>, source: LinkedMap<V>): (r: LinkedMap<V>)
    requires ValidLinked(source)
    ensures ValidLinked(target) ==> ValidLinked(r)
  {
    var tmp := RemoveKeys(source, target.values.Keys);
    WithoutKeepsValid(source, target.values.Keys);
    PutAll(target, tmp)
  }

  /** putAllInMapIfKeyAbsent on a HashMap. */
  function PutAllIfKeyAbsentMap<V>(target: map<string, V>, source: map<string, V>): map<string, V> {
    target + (source - target.Keys)
  }

  lemma {:induction false} WithoutMembership(s: seq<string>, drop: set<string>, k: string)
    ensures k in Without(s, drop) <==> k in s && k !in drop
    decreases |s|
  {
    if s != [] {
      WithoutMembership(s[1..], drop, k);
    }
  }

  lemma {:induction false} WithoutDistinct(s: seq<string>, drop: set<string>)
    requires Distinct(s)
    ensures Distinct(Without(s, drop))
    decreases |s|
  {
    if s != [] {
      WithoutDistinct(s[1..], drop);
      if s[0] !in drop {
        WithoutMembership(s[1..], drop, s[0]);
      }
    }
  }

  lemma WithoutKeepsValid<V>(m: LinkedMap<V>, drop: set<string>)
    requires ValidLinked(m)
    ensures ValidLinked(RemoveKeys(m, drop))
  {
    WithoutDistinct(m.keys, drop);
    forall k ensures k in RemoveKeys(m, drop).values <==> k in RemoveKeys(m, drop).keys {
      WithoutMembership(m.keys, drop, k);
    }
  }

  lemma {:induction false} WithoutNothing(s: seq<string>)
    ensures Without(s, {}) == s
    decreases |s|
  {
    if s != [] {
      WithoutNothing(s[1..]);
    }
  }

  lemma {:induction false} WithoutAll(s: seq<string>, drop: set<string>)
    requires forall k :: k in s ==> k in drop
    ensures Without(s, drop) == []
    decreases |s|
  {
    if s != [] {
      WithoutAll(s[1..], drop);
    }
  }

  lemma {:induction false} WithoutTwice(s: seq<string>, drop: set<string>)
    ensures Without(Without(s, drop), drop) == Without(s, drop)
    decreases |s|
  {
    if s != [] {
      WithoutTwice(s[1..], drop);
    }
  }

  /** Dropping an alias that does not occur changes nothing. */
  lemma {:induction false} WithoutAbsent(s: seq<string>, drop: set<string>, x: string)
    requires x !in s
    ensures Without(s, drop + {x}) == Without(s, drop)
    decreases |s|
  {
    if s != [] {
      WithoutAbsent(s[1..], drop, x);
    }
  }

  /** `putAll` keeps a valid LinkedHashMap valid. */
  lemma {:induction false} PutKeysValid<V>(m: LinkedMap<V>, ks: seq<string>, vals: map<string, V>)
    requires forall k :: k in ks ==> k in vals
    ensures ValidLinked(m) ==> ValidLinked(PutKeys(m, ks, vals))
    decreases |ks|
  {
    if ks != [] {
      PutKeysValid(Put(m, ks[0], vals[ks[0]]), ks[1..], vals);
    }
  }

  /** `putAll` of aliases: those in `ks` take their value from `vals`, the others keep theirs. */
  lemma {:induction false} PutKeysValues<V>(m: LinkedMap<V>, ks: seq<string>, vals: map<string, V>)
    requires forall k :: k in ks ==> k in vals
    ensures forall k :: k in PutKeys(m, ks, vals).values <==> k in m.values || k in ks
    ensures forall k :: k in ks ==> PutKeys(m, ks, vals).values[k] == vals[k]
    ensures forall k :: k in m.values && k !in ks ==> PutKeys(m, ks, vals).values[k] == m.values[k]
    decreases |ks|
  {
    if ks != [] {
      var m' := Put(m, ks[0], vals[ks[0]]);
      PutKeysValues(m', ks[1..], vals);
      forall k | k in ks ensures PutKeys(m, ks, vals).values[k] == vals[k] {
        if k !in ks[1..] {
          assert k == ks[0];
        }
      }
    }
  }

  /** `putAll` of distinct aliases: present aliases keep their place, new aliases are
      appended in the order given. */
  lemma {:induction false} PutKeysOrder<V>(m: LinkedMap<V>, ks: seq<string>, vals: map<string, V>)
    requires Distinct(ks)
    requires forall k :: k in ks ==> k in vals
    ensures PutKeys(m, ks, vals).keys == m.keys + Without(ks, m.values.Keys)
    decreases |ks|
  {
    if ks != [] {
      var k0 := ks[0];
      var m' := Put(m, k0, vals[k0]);
      assert Distinct(ks[1..]) by {
        forall i, j | 0 <= i < j < |ks[1..]| ensures ks[1..][i] != ks[1..][j] {
          assert ks[i + 1] != ks[j + 1];
        }
      }
      PutKeysOrder(m', ks[1..], vals);
      assert ks == [k0] + ks[1..];
      if k0 in m.values {
        assert m'.keys == m.keys && m'.values.Keys == m.values.Keys;
        assert Without(ks, m.values.Keys) == Without(ks[1..], m.values.Keys);
      } else {
        assert k0 !in ks[1..] by {
          forall i | 0 <= i < |ks[1..]| ensures ks[1..][i] != k0 {
            assert ks[i + 1] != ks[0];
          }
        }
        assert m'.keys == m.keys + [k0];
        assert m'.values.Keys == m.values.Keys + {k0};
        WithoutAbsent(ks[1..], m.values.Keys, k0);
        assert Without(ks, m.values.Keys) == [k0] + Without(ks[1..], m.values.Keys);
        assert m.keys + [k0] + Without(ks[1..], m.values.Keys) == m.keys + ([k0] + Without(ks[1..], m.values.Keys));
      }
    }
  }

  /** Replacing the contents of an empty map with `src` gives exactly `src`, order included. */
  lemma PutAllIntoEmpty<V>(src: LinkedMap<V>)
    requires ValidLinked(src)
    ensures PutAll(EmptyLinked(), src) == src
  {
    var e: LinkedMap<V> := EmptyLinked();
    var r := PutKeys(e, src.keys, src.values);
    assert PutAll(e, src) == r;
    assert r.keys == src.keys by {
      PutKeysOrder(e, src.keys, src.values);
      WithoutNothing(src.keys);
      assert e.keys == [] && e.values.Keys == {};
    }
    assert r.values == src.values by {
      PutKeysValues(e, src.keys, src.values);
      assert e.values == map[];
      assert r.values.Keys == src.values.Keys;
    }
  }

  /** `addAll*` on an ordered registry: the values for `src`'s aliases are overwritten,
      every other entry is unchanged, and new aliases are appended in `src`'s order. */
  lemma PutAllOverwrites<V>(m: LinkedMap<V>, src: LinkedMap<V>)
    requires ValidLinked(m) && ValidLinked(src)
    ensures ValidLinked(PutAll(m, src))
    ensures PutAll(m, src).values == m.values + src.values
    ensures PutAll(m, src).keys == m.keys + Without(src.keys, m.values.Keys)
  {
    PutKeysValid(m, src.keys, src.values);
    PutKeysValues(m, src.keys, src.values);
    PutKeysOrder(m, src.keys, src.values);
  }

  /** Layering defaults: the aliases are the union, configured aliases keep their values,
      new aliases take the source's value. */
  lemma PutAllIfKeyAbsentValues<V>(target: LinkedMap<V>, source: LinkedMap<V>)
    requires ValidLinked(target) && ValidLinked(source)
    ensures ValidLinked(PutAllIfKeyAbsent(target, source))
    ensures PutAllIfKeyAbsent(target, source).values.Keys == target.values.Keys + source.values.Keys
    ensures forall k :: k in target.values ==> PutAllIfKeyAbsent(target, source).values[k] == target.values[k]
    ensures forall k :: k in source.values && k !in target.values ==>
              PutAllIfKeyAbsent(target, source).values[k] == source.values[k]
  {
    var tmp := RemoveKeys(source, target.values.Keys);
    WithoutKeepsValid(source, target.values.Keys);
    PutAllOverwrites(target, tmp);
  }

  /** Layering defaults: aliases new to the target come after the existing ones, in the
      source's order. */
  lemma PutAllIfKeyAbsentOrder<V>(target: LinkedMap<V>, source: LinkedMap<V>)
    requires ValidLinked(target) && ValidLinked(source)
    ensures PutAllIfKeyAbsent(target, source).keys == target.keys + Without(source.keys, target.values.Keys)
  {
    var tmp := RemoveKeys(source, target.values.Keys);
    WithoutKeepsValid(source, target.values.Keys);
    PutAllOverwrites(target, tmp);
    WithoutTwice(source.keys, target.values.Keys);
  }

  lemma {:induction false} WithoutUnaffected(s: seq<string>, drop: set<string>)
    requires forall k :: k in s ==> k !in drop
    ensures Without(s, drop) == s
    decreases |s|
  {
    if s != [] {
      WithoutUnaffected(s[1..], drop);
    }
  }

  /** Layering the same defaults twice is the same as layering them once. */
  lemma PutAllIfKeyAbsentIdempotent<V>(target: LinkedMap<V>, source: LinkedMap<V>)
    requires ValidLinked(target) && ValidLinked(source)
    ensures PutAllIfKeyAbsent(PutAllIfKeyAbsent(target, source), source) == PutAllIfKeyAbsent(target, source)
  {
    var once := PutAllIfKeyAbsent(target, source);
    PutAllIfKeyAbsentValues(target, source);
    WithoutAll(source.keys, once.values.Keys);
    assert RemoveKeys(source, once.values.Keys).keys == [];
  }

  /** The HashMap variant: union of aliases, configured aliases keep their values,
      and layering twice equals layering once. */
  lemma PutAllIfKeyAbsentMapSpec<V>(target: map<string, V>, source: map<string, V>)
    ensures PutAllIfKeyAbsentMap(target, source).Keys == target.Keys + source.Keys
    ensures forall k :: k in target ==> PutAllIfKeyAbsentMap(target, source)[k] == target[k]
    ensures forall k :: k in source && k !in target ==> PutAllIfKeyAbsentMap(target, source)[k] == source[k]
    ensures PutAllIfKeyAbsentMap(PutAllIfKeyAbsentMap(target, source), source) == PutAllIfKeyAbsentMap(target, source)
  {
  }

  /** What DefaultConfigurableProvider supplies for each registry. */
  datatype Defaults<H, L, N, Pre, Post> = Defaults(
    hashStrategies: map<string, H>,
    locators: map<string, L>,
    namingStrategies: map<string, N>,
    preProcessors: LinkedMap<Pre>,
    postProcessors: LinkedMap<Post>)

  /** Layering defaults over configured registries never overrides a configured alias,
      in any of the five registries. */
  lemma DefaultsNeverOverride<H, L, N, Pre, Post>(
      configured: Defaults<H, L, N, Pre, Post>, defaults: Defaults<H, L, N, Pre, Post>)
    requires ValidLinked(configured.preProcessors) && ValidLinked(configured.postProcessors)
    requires ValidLinked(defaults.preProcessors) && ValidLinked(defaults.postProcessors)
    ensures forall k :: k in configured.hashStrategies ==>
              PutAllIfKeyAbsentMap(configured.hashStrategies, defaults.hashStrategies)[k] == configured.hashStrategies[k]
    ensures forall k :: k in configured.locators ==>
              PutAllIfKeyAbsentMap(configured.locators, defaults.locators)[k] == configured.locators[k]
    ensures forall k :: k in configured.namingStrategies ==>
              PutAllIfKeyAbsentMap(configured.namingStrategies, defaults.namingStrategies)[k] == configured.namingStrategies[k]
    ensures forall k :: k in configured.preProcessors.values ==>
              k in PutAllIfKeyAbsent(configured.preProcessors, defaults.preProcessors).values &&
              PutAllIfKeyAbsent(configured.preProcessors, defaults.preProcessors).values[k] == configured.preProcessors.values[k]
    ensures forall k :: k in configured.postProcessors.values ==>
              k in PutAllIfKeyAbsent(configured.postProcessors, defaults.postProcessors).values &&
              PutAllIfKeyAbsent(configured.postProcessors, defaults.postProcessors).values[k] == configured.postProcessors.values[k]
  {
    PutAllIfKeyAbsentValues(configured.preProcessors, defaults.preProcessors);
    PutAllIfKeyAbsentValues(configured.postProcessors, defaults.postProcessors);
  }

  class UltraConfigurableProviderSupport<H, L, N, Pre, Post> {
    var hashStrategies: map<string, H>
    var locators: map<string, L>
    var namingStrategies: map<string, N>
    var preProcessors: LinkedMap<Pre>
    var postProcessors: LinkedMap<Post>

    ghost predicate Valid()
      reads this
    {
      ValidLinked(preProcessors) && ValidLinked(postProcessors)
    }

    constructor ()
      ensures Valid()
      ensures hashStrategies == map[] && locators == map[] && namingStrategies == map[]
      ensures preProcessors == EmptyLinked() && postProcessors == EmptyLinked()
    {
      hashStrategies, locators, namingStrategies := map[], map[], map[];
      preProcessors, postProcessors := EmptyLinked(), EmptyLinked();
    }

    /** Values are copied out: nothing done later to the result or to this object affects the other. */
    method ProvideHashStrategies() returns (r: map<string, H>)
      ensures r == hashStrategies
    {
      r := hashStrategies;
    }

    method SetHashStrategies(m: map<string, H>)
      modifies this`hashStrategies
      ensures hashStrategies == m
    {
      hashStrategies := map[];
      AddAllHashStrategies(m);
    }

    method AddAllHashStrategies(m: map<string, H>)
      modifies this`hashStrategies
      ensures hashStrategies == old(hashStrategies) + m
    {
      hashStrategies := hashStrategies + m;
    }

    method ProvideLocators() returns (r: map<string, L>)
      ensures r == locators
    {
      r := locators;
    }

    method SetUriLocators(m: map<string, L>)
      modifies this`locators
      ensures locators == m
    {
      locators := map[];
      AddAllUriLocators(m);
    }

    method AddAllUriLocators(m: map<string, L>)
      modifies this`locators
      ensures locators == old(locators) + m
    {
      locators := locators + m;
    }

    method ProvideNamingStrategies() returns (r: map<string, N>)
      ensures r == namingStrategies
    {
      r := namingStrategies;
    }

    method SetNamingStrategies(m: map<string, N>)
      modifies this`namingStrategies
      ensures namingStrategies == m
    {
      namingStrategies := map[];
      AddAllNamingStrategies(m);
    }

    method AddAllNamingStrategies(m: map<string, N>)
      modifies this`namingStrategies
      ensures namingStrategies == old(namingStrategies) + m
    {
      namingStrategies := namingStrategies + m;
    }

    /** The copy keeps the insertion order. */
    method ProvidePreProcessors() returns (r: LinkedMap<Pre>)
      ensures r == preProcessors
    {
      r := preProcessors;
    }

    method SetPreProcessors(m: LinkedMap<Pre>)
      requires Valid() && ValidLinked(m)
      modifies this`preProcessors
      ensures Valid()
      ensures preProcessors == m
    {
      preProcessors := EmptyLinked();
      AddAllPreProcessors(m);
      PutAllIntoEmpty(m);
    }

    method AddAllPreProcessors(m: LinkedMap<Pre>)
      requires Valid() && ValidLinked(m)
      modifies this`preProcessors
      ensures Valid()
      ensures preProcessors.values == old(preProcessors.values) + m.values
      ensures preProcessors.keys == old(preProcessors.keys) + Without(m.keys, old(preProcessors.values.Keys))
      ensures preProcessors == PutAll(old(preProcessors), m)
    {
      PutAllOverwrites(preProcessors, m);
      preProcessors := PutAll(preProcessors, m);
    }

    method ProvidePostProcessors() returns (r: LinkedMap<Post>)
      ensures r == postProcessors
    {
      r := postProcessors;
    }

    method SetPostProcessors(m: LinkedMap<Post>)
      requires Valid() && ValidLinked(m)
      modifies this`postProcessors
      ensures Valid()
      ensures postProcessors == m
    {
      postProcessors := EmptyLinked();
      AddAllPostProcessors(m);
      PutAllIntoEmpty(m);
    }

    method AddAllPostProcessors(m: LinkedMap<Post>)
      requires Valid() && ValidLinked(m)
      modifies this`postProcessors
      ensures Valid()
      ensures postProcessors.values == old(postProcessors.values) + m.values
      ensures postProcessors.keys == old(postProcessors.keys) + Without(m.keys, old(postProcessors.values.Keys))
      ensures postProcessors == PutAll(old(postProcessors), m)
    {
      PutAllOverwrites(postProcessors, m);
      postProcessors := PutAll(postProcessors, m);
    }

    /** Layers the defaults under what is configured: no configured alias is overridden. */
    method InitWithDefaults(defaults: Defaults<H, L, N, Pre, Post>)
      requires Valid() && ValidLinked(defaults.preProcessors) && ValidLinked(defaults.postProcessors)
      modifies this
      ensures Valid()
      ensures hashStrategies == PutAllIfKeyAbsentMap(old(hashStrategies), defaults.hashStrategies)
      ensures locators == PutAllIfKeyAbsentMap(old(locators), defaults.locators)
      ensures namingStrategies == PutAllIfKeyAbsentMap(old(namingStrategies), defaults.namingStrategies)
      ensures preProcessors == PutAllIfKeyAbsent(old(preProcessors), defaults.preProcessors)
      ensures postProcessors == PutAllIfKeyAbsent(old(postProcessors), defaults.postProcessors)
    {
      hashStrategies := hashStrategies + (defaults.hashStrategies - hashStrategies.Keys);
      locators := locators + (defaults.locators - locators.Keys);
      namingStrategies := namingStrategies + (defaults.namingStrategies - namingStrategies.Keys);
      preProcessors := PutAllIfKeyAbsent(preProcessors, defaults.preProcessors);
      postProcessors := PutAllIfKeyAbsent(postProcessors, defaults.postProcessors);
    }
  }
}
