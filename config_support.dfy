/** ConfigSupport: a processor's configuration set. A property's value is the one set
    explicitly, else the first non-null answer of an ordered list of resolvers, else the
    key's default; required properties without a value make the set invalid. Keys compare
    by key string, so the maps here are indexed by it. */
module Configuration {
  import opened Exceptions
  import opened PropertyKeys
  import opened ValueResolvers

  /** A ConfigPropertyValueResolver: the servlet-context one, or any other, given by what
      it answers for a key and a prefix. */
  datatype ValueResolver =
    | ServletContextResolver(initParameters: map<string, string>)
    | OtherResolver(answer: (ConfigPropertyKey, Option<string>) -> Option<Value>)

  function Resolve(resolver: ValueResolver, key: ConfigPropertyKey, prefix: Option<string>): Option<Value> {
    match resolver
    case ServletContextResolver(p) => ServletContextResolve(p, key, prefix)
    case OtherResolver(answer) => answer(key, prefix)
  }

  /** The resolver loop of `getPropertyValue`: resolvers are asked in order until one
      answers non-null. */
  function FirstResolved(resolvers: seq<ValueResolver>, key: ConfigPropertyKey, prefix: Option<string>): Option<Value>
    decreases |resolvers|
  {
    if resolvers == [] then None
    else
      match Resolve(resolvers[0], key, prefix)
      case Some(v) => Some(v)
      case None => FirstResolved(resolvers[1..], key, prefix)
  }

  /** The value found is the answer of the first resolver that answers non-null, and there
      is none exactly when every resolver answers null. */
  lemma {:induction false} FirstResolvedIsFirstAnswer(resolvers: seq<ValueResolver>, key: ConfigPropertyKey,
                                                      prefix: Option<string>)
    ensures FirstResolved(resolvers, key, prefix).None? <==>
              forall i :: 0 <= i < |resolvers| ==> Resolve(resolvers[i], key, prefix).None?
    ensures FirstResolved(resolvers, key, prefix).Some? ==>
              exists i :: && 0 <= i < |resolvers|
                          && Resolve(resolvers[i], key, prefix) == FirstResolved(resolvers, key, prefix)
                          && forall j :: 0 <= j < i ==> Resolve(resolvers[j], key, prefix).None?
    decreases |resolvers|
  {
    if resolvers != [] && Resolve(resolvers[0], key, prefix).None? {
      var rest := resolvers[1..];
      FirstResolvedIsFirstAnswer(rest, key, prefix);
      assert forall i :: 1 <= i < |resolvers| ==> resolvers[i] == rest[i - 1];
      if FirstResolved(rest, key, prefix).Some? {
        var i :| && 0 <= i < |rest|
                 && Resolve(rest[i], key, prefix) == FirstResolved(rest, key, prefix)
                 && forall j :: 0 <= j < i ==> Resolve(rest[j], key, prefix).None?;
        assert Resolve(resolvers[i + 1], key, prefix) == FirstResolved(resolvers, key, prefix);
      }
    } else if resolvers != [] {
      assert Resolve(resolvers[0], key, prefix) == FirstResolved(resolvers, key, prefix);
    }
  }

  /** Once a resolver answers, the resolvers after it are not consulted. */
  lemma {:induction false} LaterResolversIgnored(first: seq<ValueResolver>, rest: seq<ValueResolver>,
                                                 key: ConfigPropertyKey, prefix: Option<string>)
    ensures FirstResolved(first, key, prefix).Some? ==>
              FirstResolved(first + rest, key, prefix) == FirstResolved(first, key, prefix)
    ensures FirstResolved(first, key, prefix).None? ==>
              FirstResolved(first + rest, key, prefix) == FirstResolved(rest, key, prefix)
    decreases |first|
  {
    if first != [] {
      assert (first + rest)[1..] == first[1..] + rest;
      LaterResolversIgnored(first[1..], rest, key, prefix);
    } else {
      assert first + rest == rest;
    }
  }

  /** `properties.put(key, value)` on a HashMap whose keys compare by key string: an equal
      key already present stays (with its flags) and only the value changes. */
  function PutProperty(properties: map<string, (ConfigPropertyKey, Option<Value>)>,
                       key: ConfigPropertyKey, value: Option<Value>): map<string, (ConfigPropertyKey, Option<Value>)> {
    if key.key in properties then properties[key.key := (properties[key.key].0, value)]
    else properties[key.key := (key, value)]
  }

  /** `HashSet.addAll(keys)` for keys that compare by key string: the first of equal keys stays. */
  function AddKeys(set0: map<string, ConfigPropertyKey>, keys: seq<ConfigPropertyKey>): map<string, ConfigPropertyKey>
    decreases |keys|
  {
    if keys == [] then set0
    else AddKeys(if keys[0].key in set0 then set0 else set0[keys[0].key := keys[0]], keys[1..])
  }

  lemma {:induction false} AddKeysIndexed(set0: map<string, ConfigPropertyKey>, keys: seq<ConfigPropertyKey>)
    requires forall s :: s in set0 ==> set0[s].key == s
    ensures forall s :: s in AddKeys(set0, keys) ==> AddKeys(set0, keys)[s].key == s
    decreases |keys|
  {
    if keys != [] {
      AddKeysIndexed(if keys[0].key in set0 then set0 else set0[keys[0].key := keys[0]], keys[1..]);
    }
  }

  /** The check `setPropertyValues` applies to each entry, as written: a null value fails
      on `value.getClass()`, and the value's class must be assignable FROM the key's type. */
  function EntryCheck(key: ConfigPropertyKey, value: Option<Value>): (r: Outcome)
    ensures value.None? ==> r.Fail? && r.error.NullPointerException?
    ensures value.Some? && r.Fail? ==> r.error.IllegalArgumentException?
  {
    match value
    case None => Fail(NullPointerException(""))
    case Some(v) =>
      if IsAssignableFrom(ClassOf(v), key.valueType) then Pass
      else Fail(IllegalArgumentException("Value of property " + key.ToString() + " must be an instance of "
                                         + SimpleName(key.valueType)))
  }

  /** The check the error message describes: the value is an instance of the key's type. */
  function EntryCheckCorrected(key: ConfigPropertyKey, value: Option<Value>): (r: Outcome)
    ensures r == Pass <==> value.Some? && IsInstanceOf(value.value, key.valueType)
  {
    match value
    case None => Fail(NullPointerException(""))
    case Some(v) =>
      if IsAssignableFrom(key.valueType, ClassOf(v)) then Pass
      else Fail(IllegalArgumentException("Value of property " + key.ToString() + " must be an instance of "
                                         + SimpleName(key.valueType)))
  }

  /** How many leading entries `setPropertyValues` stores before it throws. */
  function AcceptedPrefix(entries: seq<(ConfigPropertyKey, Option<Value>)>): (n: nat)
    ensures n <= |entries|
    ensures forall i :: 0 <= i < n ==> EntryCheck(entries[i].0, entries[i].1) == Pass
    ensures n < |entries| ==> EntryCheck(entries[n].0, entries[n].1).Fail?
    decreases |entries|
  {
    if entries == [] || EntryCheck(entries[0].0, entries[0].1).Fail? then 0
    else 1 + AcceptedPrefix(entries[1..])
  }

  /** The entries stored one after another. */
  function PutProperties(properties: map<string, (ConfigPropertyKey, Option<Value>)>,
                         entries: seq<(ConfigPropertyKey, Option<Value>)>): map<string, (ConfigPropertyKey, Option<Value>)>
    decreases |entries|
  {
    if entries == [] then properties
    else PutProperties(PutProperty(properties, entries[0].0, entries[0].1), entries[1..])
  }

  lemma {:induction false} PutPropertiesSnoc(properties: map<string, (ConfigPropertyKey, Option<Value>)>,
                                             entries: seq<(ConfigPropertyKey, Option<Value>)>, i: nat)
    requires i < |entries|
    ensures PutProperties(properties, entries[..i + 1]) ==
            PutProperty(PutProperties(properties, entries[..i]), entries[i].0, entries[i].1)
    decreases i
  {
    if i > 0 {
      var p' := PutProperty(properties, entries[0].0, entries[0].1);
      PutPropertiesSnoc(p', entries[1..], i - 1);
      assert entries[..i + 1][1..] == entries[1..][..i];
      assert entries[..i][1..] == entries[1..][..i - 1];
    }
  }

  /** As written, the check rejects a LoggingJsDocToolkitOutputHandler for the
      `outputHandler` key of JsDocToolkitConfig, although it is an instance of the key's
      type JsDocToolkitOutputHandler. */
  lemma AsWrittenCheckRejectsInstance(key: ConfigPropertyKey, id: nat)
    requires key.valueType == OutputHandlerInterface
    ensures IsInstanceOf(ObjectValue(LoggingOutputHandlerClass, id), key.valueType)
    ensures EntryCheck(key, Some(ObjectValue(LoggingOutputHandlerClass, id))).Fail?
    ensures AcceptedPrefix([(key, Some(ObjectValue(LoggingOutputHandlerClass, id)))]) == 0
  {
  }

  /** As written, the check also lets through a value of the exact class Object for any
      key, although it is an instance of none of the typed keys' types. */
  lemma AsWrittenCheckAcceptsNonInstance(key: ConfigPropertyKey, id: nat)
    requires key.valueType != ObjectClass
    ensures !IsInstanceOf(ObjectValue(ObjectClass, id), key.valueType)
    ensures EntryCheck(key, Some(ObjectValue(ObjectClass, id))) == Pass
    ensures EntryCheckCorrected(key, Some(ObjectValue(ObjectClass, id))).Fail?
  {
  }

  /** The corrected check accepts every instance of the key's type, among them every value
      the key's own conversion produces, and agrees with the written check on the final
      classes String, Boolean and Integer except for values of the exact class Object
      (which the written check accepts for any key). */
  lemma CorrectedCheckAcceptsInstances(key: ConfigPropertyKey, value: Option<Value>, s: string)
    ensures key.ConvertToRequiredType(Some(s)).Success? ==>
              EntryCheckCorrected(key, key.ConvertToRequiredType(Some(s)).value) == Pass
    ensures key.valueType in {StringClass, BooleanClass, IntegerClass} &&
            (value.None? || ClassOf(value.value) != ObjectClass) ==>
              EntryCheckCorrected(key, value) == EntryCheck(key, value)
  {
  }

  class ConfigSupport {
    var valueResolvers: seq<ValueResolver>
    /** A HashSet of keys; as keys compare by key string it is indexed by that string. */
    var expectedPropertyKeys: map<string, ConfigPropertyKey>
    /** The HashMap of explicitly set values (null allowed), with the key object it holds. */
    var properties: map<string, (ConfigPropertyKey, Option<Value>)>
    const configSetKey: Option<string>

    ghost predicate Valid()
      reads this
    {
      && (forall s :: s in expectedPropertyKeys ==> expectedPropertyKeys[s].key == s)
      && (forall s :: s in properties ==> properties[s].0.key == s)
    }

    /** The constructor taking a nullable collection of expected keys. */
    constructor (configSetKey: Option<string>, expectedPropertyKeys: Option<seq<ConfigPropertyKey>>)
      ensures Valid()
      ensures this.configSetKey == configSetKey && valueResolvers == [] && properties == map[]
      ensures this.expectedPropertyKeys ==
                if expectedPropertyKeys.None? then map[] else AddKeys(map[], expectedPropertyKeys.value)
    {
      this.configSetKey := configSetKey;
      this.valueResolvers := [];
      this.properties := map[];
      if expectedPropertyKeys.Some? {
        AddKeysIndexed(map[], expectedPropertyKeys.value);
        this.expectedPropertyKeys := AddKeys(map[], expectedPropertyKeys.value);
      } else {
        this.expectedPropertyKeys := map[];
      }
    }

    /** The varargs constructor. */
    constructor WithKeys(configSetKey: Option<string>, expectedPropertyKeys: seq<ConfigPropertyKey>)
      ensures Valid()
      ensures this.configSetKey == configSetKey && valueResolvers == [] && properties == map[]
      ensures this.expectedPropertyKeys == AddKeys(map[], expectedPropertyKeys)
    {
      this.configSetKey := configSetKey;
      this.valueResolvers := [];
      this.properties := map[];
      AddKeysIndexed(map[], expectedPropertyKeys);
      this.expectedPropertyKeys := AddKeys(map[], expectedPropertyKeys);
    }

    method AddValueResolver(valueResolver: ValueResolver)
      modifies this`valueResolvers
      ensures valueResolvers == old(valueResolvers) + [valueResolver]
    {
      valueResolvers := valueResolvers + [valueResolver];
    }

    method SetValueResolvers(valueResolvers: seq<ValueResolver>)
      modifies this`valueResolvers
      ensures this.valueResolvers == valueResolvers
    {
      this.valueResolvers := [];
      this.valueResolvers := this.valueResolvers + valueResolvers;
    }

    /** Empties the expected keys (the method takes no argument). */
    method SetExpectedPropertyKeys()
      requires Valid()
      modifies this`expectedPropertyKeys
      ensures Valid()
      ensures expectedPropertyKeys == map[]
    {
      expectedPropertyKeys := map[];
    }

    /** The explicitly set value for `key`, or null. */
    function ExplicitValue(key: ConfigPropertyKey): Option<Value>
      reads this
    {
      if key.key in properties then properties[key.key].1 else None
    }

    /** `getPropertyValue`. */
    function PropertyValue(key: ConfigPropertyKey): (r: Option<Value>)
      reads this, key
      ensures ExplicitValue(key).Some? ==> r == ExplicitValue(key)
      ensures r.None? <==>
                ExplicitValue(key).None? && FirstResolved(valueResolvers, key, configSetKey).None? && key.defaultValue.None?
    {
      if ExplicitValue(key).Some? then ExplicitValue(key)
      else
        match FirstResolved(valueResolvers, key, configSetKey)
        case Some(v) => Some(v)
        case None => key.defaultValue
    }

    /** The keys `getInvalidProperties` checks: the set ones and the expected ones; where
        both hold an equal key, the set property's key object is the one kept. */
    function CheckedKeys(): map<string, ConfigPropertyKey>
      reads this
    {
      expectedPropertyKeys + map s | s in properties :: properties[s].0
    }

    function KeyObjects(): set<ConfigPropertyKey>
      reads this
    {
      CheckedKeys().Values
    }

    /** `getInvalidProperties`: the checked keys that are required but have no value. */
    function InvalidProperties(): (r: set<ConfigPropertyKey>)
      reads this, KeyObjects()
      ensures forall k :: k in r ==> k in KeyObjects() && k.required && PropertyValue(k).None?
    {
      set s | s in CheckedKeys() && CheckedKeys()[s].required && PropertyValue(CheckedKeys()[s]).None?
        :: CheckedKeys()[s]
    }

    predicate IsValid()
      reads this, KeyObjects()
    {
      InvalidProperties() == {}
    }

    /** A value present for `key` that is not an instance of the key's type. */
    predicate Mistyped(key: ConfigPropertyKey)
      reads this, key
    {
      PropertyValue(key).Some? && !IsInstanceOf(PropertyValue(key).value, key.valueType)
    }

    /** The invalid properties as documented: required keys without a value, and keys
        whose value does not match the required type. */
    function InvalidPropertiesCorrected(): (r: set<ConfigPropertyKey>)
      reads this, KeyObjects()
      ensures InvalidProperties() <= r
      ensures forall k :: k in r ==> k in KeyObjects() && ((k.required && PropertyValue(k).None?) || Mistyped(k))
    {
      set s | s in CheckedKeys() && ((CheckedKeys()[s].required && PropertyValue(CheckedKeys()[s]).None?)
                                     || Mistyped(CheckedKeys()[s]))
        :: CheckedKeys()[s]
    }

    predicate IsValidCorrected()
      reads this, KeyObjects()
    {
      InvalidPropertiesCorrected() == {}
    }

    /** `setPropertyValue`: null is refused for a required key, leaving the map unchanged. */
    method SetPropertyValue(key: ConfigPropertyKey, value: Option<Value>) returns (outcome: Outcome)
      requires Valid()
      modifies this`properties
      ensures Valid()
      ensures key.required && value.None? ==>
                && outcome == Fail(IllegalArgumentException("Null is not a valid value for the required property " + key.ToString()))
                && properties == old(properties)
      ensures !(key.required && value.None?) ==> outcome == Pass && properties == PutProperty(old(properties), key, value)
    {
      if key.required && value.None? {
        return Fail(IllegalArgumentException("Null is not a valid value for the required property " + key.ToString()));
      }
      properties := PutProperty(properties, key, value);
      outcome := Pass;
    }

    /** `setPropertyValues`, over the map's entries in its iteration order: entries are
        stored one by one until one fails the check, which then throws. */
    method SetPropertyValues(entries: seq<(ConfigPropertyKey, Option<Value>)>) returns (outcome: Outcome)
      requires Valid()
      modifies this`properties
      ensures Valid()
      ensures properties == PutProperties(old(properties), entries[..AcceptedPrefix(entries)])
      ensures outcome == Pass <==> AcceptedPrefix(entries) == |entries|
      ensures outcome.Fail? ==> outcome == EntryCheck(entries[AcceptedPrefix(entries)].0, entries[AcceptedPrefix(entries)].1)
    {
      var i := 0;
      while i < |entries|
        invariant 0 <= i <= |entries| && Valid()
        invariant forall j :: 0 <= j < i ==> EntryCheck(entries[j].0, entries[j].1) == Pass
        invariant properties == PutProperties(old(properties), entries[..i])
      {
        var (key, value) := entries[i];
        if value.None? {
          return Fail(NullPointerException(""));
        }
        if !IsAssignableFrom(ClassOf(value.value), key.valueType) {
          return Fail(IllegalArgumentException("Value of property " + key.ToString() + " must be an instance of "
                                               + SimpleName(key.valueType)));
        }
        PutPropertiesSnoc(old(properties), entries, i);
        var stored := SetPropertyValue(key, value);
        i := i + 1;
      }
      assert entries[..i] == entries;
      outcome := Pass;
    }
  }

  /** The first `n` entries pass, so `AcceptedPrefix` counts at least them. */
  lemma {:induction false} AcceptedPrefixAtLeast(entries: seq<(ConfigPropertyKey, Option<Value>)>, n: nat)
    requires n <= |entries|
    requires forall j :: 0 <= j < n ==> EntryCheck(entries[j].0, entries[j].1) == Pass
    ensures n <= AcceptedPrefix(entries)
    decreases n
  {
    if n > 0 {
      AcceptedPrefixAtLeast(entries[1..], n - 1);
    }
  }

  /** An explicitly set non-null value is returned whatever the resolvers answer. */
  lemma ExplicitValueWins(c: ConfigSupport, key: ConfigPropertyKey)
    requires key.key in c.properties && c.properties[key.key].1.Some?
    ensures c.PropertyValue(key) == c.properties[key.key].1
  {
  }

  /** With no explicit value, the value is the first resolver answer, else the default. */
  lemma ResolverThenDefault(c: ConfigSupport, key: ConfigPropertyKey)
    requires c.ExplicitValue(key).None?
    ensures FirstResolved(c.valueResolvers, key, c.configSetKey).Some? ==>
              c.PropertyValue(key) == FirstResolved(c.valueResolvers, key, c.configSetKey)
    ensures FirstResolved(c.valueResolvers, key, c.configSetKey).None? ==> c.PropertyValue(key) == key.defaultValue
  {
  }

  /** The set is valid exactly when every checked required key has a value, and the
      invalid keys are exactly those that do not. */
  lemma {:induction false} InvalidPropertiesExactly(c: ConfigSupport)
    ensures forall s :: s in c.CheckedKeys() ==>
              (c.CheckedKeys()[s] in c.InvalidProperties() <==>
                 c.CheckedKeys()[s].required && c.PropertyValue(c.CheckedKeys()[s]).None?)
    ensures c.IsValid() <==>
              forall s :: s in c.CheckedKeys() && c.CheckedKeys()[s].required ==> c.PropertyValue(c.CheckedKeys()[s]).Some?
  {
    var ck := c.CheckedKeys();
    forall s | s in ck
      ensures ck[s] in c.InvalidProperties() <==> ck[s].required && c.PropertyValue(ck[s]).None?
    {
      if ck[s] in c.InvalidProperties() {
        var t :| t in ck && ck[t].required && c.PropertyValue(ck[t]).None? && ck[t] == ck[s];
      }
    }
    if !c.IsValid() {
      var k :| k in c.InvalidProperties();
      var t :| t in ck && ck[t].required && c.PropertyValue(ck[t]).None? && ck[t] == k;
    }
  }

  /** The class invariant makes the checked keys a set in Java's sense: no two of them are
      equal, and each is found under its own key string. */
  lemma CheckedKeysAreASet(c: ConfigSupport)
    requires c.Valid()
    ensures forall s :: s in c.CheckedKeys() ==> c.CheckedKeys()[s].key == s
    ensures forall s, t :: s in c.CheckedKeys() && t in c.CheckedKeys() && c.CheckedKeys()[s].Equals(c.CheckedKeys()[t]) ==> s == t
  {
  }

  /** As written, `getInvalidProperties` does not report a value of the wrong type: a
      Boolean stored under an Integer key leaves the key valid, though the documented
      check reports it. */
  lemma AsWrittenIgnoresMistypedValue(c: ConfigSupport, key: ConfigPropertyKey, b: bool)
    requires key.valueType == IntegerClass
    requires key.key in c.properties && c.properties[key.key] == (key, Some(BooleanValue(b)))
    ensures key in c.KeyObjects()
    ensures key !in c.InvalidProperties()
    ensures key in c.InvalidPropertiesCorrected()
  {
    assert c.CheckedKeys()[key.key] == key;
  }

  /** The state above is reachable through the public operations: `setPropertyValue` has no
      type check, so a required Integer key holding a Boolean is valid as written and
      invalid as documented. */
  method MistypedValueGoesUnreported(name: string) returns (valid: bool, validCorrected: bool)
    ensures valid && !validCorrected
  {
    var key := new ConfigPropertyKey.WithRequired(name, IntegerClass, true);
    var config := new ConfigSupport(None, None);
    var stored := config.SetPropertyValue(key, Some(BooleanValue(true)));
    assert config.properties == map[name := (key, Some(BooleanValue(true)))];
    assert config.CheckedKeys() == map[name := key];
    AsWrittenIgnoresMistypedValue(config, key, true);
    assert config.InvalidProperties() == {};
    valid := config.IsValid();
    validCorrected := config.IsValidCorrected();
  }

  /** The documented check reports exactly the required keys without a value and the keys
      whose value does not match their type. */
  lemma {:induction false} CorrectedInvalidPropertiesExactly(c: ConfigSupport)
    ensures forall s :: s in c.CheckedKeys() ==>
              (c.CheckedKeys()[s] in c.InvalidPropertiesCorrected() <==>
                 (c.CheckedKeys()[s].required && c.PropertyValue(c.CheckedKeys()[s]).None?) || c.Mistyped(c.CheckedKeys()[s]))
    ensures c.IsValidCorrected() ==> c.IsValid()
  {
    var ck := c.CheckedKeys();
    forall s | s in ck
      ensures ck[s] in c.InvalidPropertiesCorrected() <==>
                (ck[s].required && c.PropertyValue(ck[s]).None?) || c.Mistyped(ck[s])
    {
      if ck[s] in c.InvalidPropertiesCorrected() {
        var t :| t in ck && ((ck[t].required && c.PropertyValue(ck[t]).None?) || c.Mistyped(ck[t])) && ck[t] == ck[s];
      }
    }
  }
}
