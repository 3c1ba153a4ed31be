/** The property value resolvers: the `prefix.key` name a resolver looks up
    (AbstractConfigPropertyResolver) and the resolver that reads the filter's init
    parameters (ServletContextPropertyValueResolver). */
module ValueResolvers {
  import opened Exceptions
  import opened Strings
  import opened PropertyKeys

  /** ConfigPropertyValueResolver.PROPERTY_KEY_PREFIX_DELIMITER */
  const PropertyKeyPrefixDelimiter := "."

  /** The config-set key JsDocToolkitConfig passes as prefix. */
  const JsDocToolkitConfigKey := "jsDocToolKit"

  /** `StringUtils.isEmpty`: null or "". */
  predicate IsEmpty(s: Option<string>) {
    s.None? || s.value == ""
  }

  /** `getFullPropertyKey`: the bare key, or `prefix.key` when there is a prefix. */
  function FullPropertyKey(key: ConfigPropertyKey, prefix: Option<string>): (r: string)
    ensures EndsWith(r, key.key)
    ensures IsEmpty(prefix) ==> r == key.key
    ensures !IsEmpty(prefix) ==>
              && StartsWith(r, prefix.value)
              && |r| == |prefix.value| + 1 + |key.key|
              && r[|prefix.value|] == '.'
  {
    if IsEmpty(prefix) then key.key else prefix.value + PropertyKeyPrefixDelimiter + key.key
  }

  /** `resolve` with the filter's init parameters as a map: the parameter named by the full
      key, converted to the key's type; a missing parameter and a conversion failure
      (which is logged) both give null. */
  function ServletContextResolve(initParameters: map<string, string>, key: ConfigPropertyKey, prefix: Option<string>)
    : (r: Option<Value>)
    ensures r.Some? ==> IsInstanceOf(r.value, key.valueType)
  {
    var fullKey := FullPropertyKey(key, prefix);
    if fullKey !in initParameters then None
    else
      match key.ConvertToRequiredType(Some(initParameters[fullKey]))
      case Success(v) => v
      case Failure(_) => None
  }

  /** A parameter that is absent gives null; conversion is not attempted. */
  lemma AbsentParameterGivesNull(initParameters: map<string, string>, key: ConfigPropertyKey, prefix: Option<string>)
    requires FullPropertyKey(key, prefix) !in initParameters
    ensures ServletContextResolve(initParameters, key, prefix) == None
  {
  }

  /** A present parameter gives exactly what the conversion returns, and null where the
      conversion throws: resolving never throws. */
  lemma PresentParameterIsConverted(initParameters: map<string, string>, key: ConfigPropertyKey, prefix: Option<string>)
    requires FullPropertyKey(key, prefix) in initParameters
    ensures var c := key.ConvertToRequiredType(Some(initParameters[FullPropertyKey(key, prefix)]));
            && (c.Success? ==> ServletContextResolve(initParameters, key, prefix) == c.value)
            && (c.Failure? ==> ServletContextResolve(initParameters, key, prefix) == None)
  {
  }

  /** Only the parameter under the full key matters: with a prefix, a parameter under the
      bare key is not seen. */
  lemma OnlyFullKeyIsLookedUp(p1: map<string, string>, p2: map<string, string>, key: ConfigPropertyKey, prefix: Option<string>)
    requires var f := FullPropertyKey(key, prefix); (f in p1 <==> f in p2) && (f in p1 ==> p1[f] == p2[f])
    ensures ServletContextResolve(p1, key, prefix) == ServletContextResolve(p2, key, prefix)
  {
  }

  lemma BareKeyIgnoredUnderPrefix(initParameters: map<string, string>, key: ConfigPropertyKey, prefix: string, v: string)
    requires prefix != ""
    requires prefix + "." + key.key !in initParameters
    ensures ServletContextResolve(initParameters[key.key := v], key, Some(prefix)) == None
  {
    var f := FullPropertyKey(key, Some(prefix));
    assert f != key.key by {
      assert |f| == |prefix| + 1 + |key.key|;
    }
  }

  /** With JsDocToolkitConfig's prefix the parameter looked up is "jsDocToolKit.<key>". */
  lemma JsDocToolkitParameterName(key: ConfigPropertyKey)
    ensures FullPropertyKey(key, Some(JsDocToolkitConfigKey)) == "jsDocToolKit." + key.key
  {
  }

  /** A URL-typed key, like JsDocToolkitConfig's directory keys, never gets a value from
      the init parameters: the conversion always fails and the failure is swallowed. */
  lemma UrlKeysNeverResolve(initParameters: map<string, string>, key: ConfigPropertyKey, prefix: Option<string>)
    requires key.valueType == UrlClass
    ensures ServletContextResolve(initParameters, key, prefix) == None
  {
    var f := FullPropertyKey(key, prefix);
    if f in initParameters {
      ConvertUnsupportedThrows(key, initParameters[f]);
    }
  }
}
