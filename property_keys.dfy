/** ConfigPropertyKey: a named, typed configuration property with a required flag and a
    default, and the conversion of a property's string form into its type. */
module PropertyKeys {
  import opened Exceptions

  /** The Java classes that matter here, as property value types and as classes of values.
      (Double is not modelled.) */
  datatype JClass =
    | StringClass
    | BooleanClass
    | IntegerClass
    | InputStreamClass
    | UrlClass
    | OutputHandlerInterface      // JsDocToolkitOutputHandler
    | LoggingOutputHandlerClass   // LoggingJsDocToolkitOutputHandler implements it
    | ObjectClass

  /** The subtype relation between those classes (reflexive). */
  predicate IsSubclassOf(sub: JClass, sup: JClass) {
    sub == sup || sup == ObjectClass || (sub == LoggingOutputHandlerClass && sup == OutputHandlerInterface)
  }

  /** `target.isAssignableFrom(from)`: `from` is `target` or one of its subtypes. */
  predicate IsAssignableFrom(target: JClass, from: JClass) {
    IsSubclassOf(from, target)
  }

  function SimpleName(c: JClass): string {
    match c
    case StringClass => "String"
    case BooleanClass => "Boolean"
    case IntegerClass => "Integer"
    case InputStreamClass => "InputStream"
    case UrlClass => "URL"
    case OutputHandlerInterface => "JsDocToolkitOutputHandler"
    case LoggingOutputHandlerClass => "LoggingJsDocToolkitOutputHandler"
    case ObjectClass => "Object"
  }

  /** A non-null property value. Other objects are an instance of a class, told apart by `id`. */
  datatype Value =
    | StringValue(s: string)
    | BooleanValue(b: bool)
    | IntegerValue(i: int)
    | ObjectValue(cls: JClass, id: nat)

  /** `value.getClass()`. */
  function ClassOf(v: Value): JClass {
    match v
    case StringValue(_) => StringClass
    case BooleanValue(_) => BooleanClass
    case IntegerValue(_) => IntegerClass
    case ObjectValue(c, _) => c
  }

  /** `c.isInstance(v)`. */
  predicate IsInstanceOf(v: Value, c: JClass) {
    IsSubclassOf(ClassOf(v), c)
  }

  // ---------------------------------------------------------------------------
  // java.lang.Integer.parseInt, java.lang.Integer.toString and String.hashCode
  // ---------------------------------------------------------------------------

  const IntMin: int := -0x8000_0000
  const IntMax: int := 0x7fff_ffff

  predicate IsDigit(c: char) {
    '0' <= c <= '9'
  }

  predicate AllDigits(s: string) {
    forall i :: 0 <= i < |s| ==> IsDigit(s[i])
  }

  function DigitValue(c: char): nat
    requires IsDigit(c)
  {
    (c as int) - ('0' as int)
  }

  function DigitChar(d: nat): (c: char)
    requires d < 10
    ensures IsDigit(c) && DigitValue(c) == d
  {
    ('0' as int + d) as char
  }

  /** The value of a string of decimal digits, leading zeros allowed. */
  function DecimalValue(s: string): nat
    requires AllDigits(s)
    decreases |s|
  {
    if s == [] then 0 else DecimalValue(s[..|s| - 1]) * 10 + DigitValue(s[|s| - 1])
  }

  /** `Integer.parseInt(s)`: an optional '-' or '+', then at least one digit, and the value
      must fit in 32 bits; anything else is a NumberFormatException, here None. */
  function ParseInt(s: string): (r: Option<int>)
    ensures r.Some? ==> IntMin <= r.value <= IntMax
  {
    if |s| == 0 then None
    else
      var digits := if s[0] == '-' || s[0] == '+' then s[1..] else s;
      if |digits| == 0 || !AllDigits(digits) then None
      else
        var magnitude: int := DecimalValue(digits);
        var v := if s[0] == '-' then -magnitude else magnitude;
        if IntMin <= v <= IntMax then Some(v) else None
  }

  /** The shortest decimal digits of `n`. */
  function DecimalString(n: nat): string
    decreases n
  {
    if n < 10 then [DigitChar(n)] else DecimalString(n / 10) + [DigitChar(n % 10)]
  }

  /** `Integer.toString(n)`. */
  function IntToString(n: int): string {
    if n < 0 then "-" + DecimalString(-n) else DecimalString(n)
  }

  lemma {:induction false} DecimalStringValue(n: nat)
    ensures |DecimalString(n)| > 0 && AllDigits(DecimalString(n))
    ensures DecimalValue(DecimalString(n)) == n
    decreases n
  {
    if n >= 10 {
      DecimalStringValue(n / 10);
      var s := DecimalString(n);
      assert s[..|s| - 1] == DecimalString(n / 10);
    }
  }

  /** Every 32-bit integer, written the way Java writes it, parses back to itself. */
  lemma ParseIntRoundTrip(n: int)
    requires IntMin <= n <= IntMax
    ensures ParseInt(IntToString(n)) == Some(n)
  {
    var s := IntToString(n);
    if n < 0 {
      DecimalStringValue(-n);
      assert s[1..] == DecimalString(-n);
    } else {
      DecimalStringValue(n);
      assert IsDigit(s[0]);
    }
  }

  /** An integer outside the 32-bit range, written in decimal, does not parse. */
  lemma ParseIntRejectsOutOfRange(n: int)
    requires n < IntMin || IntMax < n
    ensures ParseInt(IntToString(n)) == None
  {
    var s := IntToString(n);
    if n < 0 {
      DecimalStringValue(-n);
      assert s[1..] == DecimalString(-n);
    } else {
      DecimalStringValue(n);
      assert IsDigit(s[0]);
    }
  }

  /** A string holding a character other than a sign in front and digits does not parse. */
  lemma ParseIntRejectsNonDigit(s: string, i: nat)
    requires 0 < i < |s| && !IsDigit(s[i])
    ensures ParseInt(s) == None
  {
    var digits := if s[0] == '-' || s[0] == '+' then s[1..] else s;
    if s[0] == '-' || s[0] == '+' {
      assert digits[i - 1] == s[i];
    } else {
      assert digits[i] == s[i];
    }
  }

  function ToLowerAscii(c: char): char {
    if 'A' <= c <= 'Z' then ((c as int) + 32) as char else c
  }

  /** `a.equalsIgnoreCase(b)`, folding the ASCII letters. */
  predicate EqualsIgnoreCase(a: string, b: string) {
    |a| == |b| && forall i :: 0 <= i < |a| ==> ToLowerAscii(a[i]) == ToLowerAscii(b[i])
  }

  /** Wraps an integer into the 32-bit two's complement range. */
  function WrapInt32(x: int): (r: int)
    ensures IntMin <= r <= IntMax
    ensures IntMin <= x <= IntMax ==> r == x
  {
    (x - IntMin) % 0x1_0000_0000 + IntMin
  }

  /** `String.hashCode`: s[0]*31^(n-1) + ... + s[n-1], in 32-bit arithmetic. */
  function JavaStringHash(s: string): (h: int)
    ensures IntMin <= h <= IntMax
    decreases |s|
  {
    if s == [] then 0 else WrapInt32(31 * JavaStringHash(s[..|s| - 1]) + s[|s| - 1] as int)
  }

  // ---------------------------------------------------------------------------
  // ConfigPropertyKey
  // ---------------------------------------------------------------------------

  const DefaultRequiredValue := false

  class ConfigPropertyKey {
    const key: string
    const valueType: JClass
    const required: bool
    var defaultValue: Option<Value>

    constructor (key: string, valueType: JClass)
      ensures this.key == key && this.valueType == valueType
      ensures required == DefaultRequiredValue && defaultValue == None
    {
      this.key := key;
      this.valueType := valueType;
      this.required := DefaultRequiredValue;
      this.defaultValue := None;
    }

    constructor WithRequired(key: string, valueType: JClass, required: bool)
      ensures this.key == key && this.valueType == valueType && this.required == required
      ensures defaultValue == None
    {
      this.key := key;
      this.valueType := valueType;
      this.required := required;
      this.defaultValue := None;
    }

    constructor WithDefault(key: string, valueType: JClass, required: bool, defaultValue: Option<Value>)
      ensures this.key == key && this.valueType == valueType && this.required == required
      ensures this.defaultValue == defaultValue
    {
      this.key := key;
      this.valueType := valueType;
      this.required := required;
      this.defaultValue := defaultValue;
    }

    method SetDefaultValue(defaultValue: Option<Value>)
      modifies this`defaultValue
      ensures this.defaultValue == defaultValue
    {
      this.defaultValue := defaultValue;
    }

    /** The message of the IllegalArgumentException thrown for an unconvertible string. */
    function CannotConvert(valueAsString: string): string {
      "Cannot convert string value '" + valueAsString + "' for property key " + key
        + " into a " + SimpleName(valueType)
    }

    /** `convertToRequiredType`: null stays null; otherwise the string becomes a value of
        this key's type, or an IllegalArgumentException is thrown. The InputStream branch
        needs a locator factory the class never receives, so it always fails too. */
    function ConvertToRequiredType(valueAsString: Option<string>): (r: Result<Option<Value>>)
      ensures valueAsString.None? ==> r == Success(None)
      ensures r.Failure? ==> r.error.IllegalArgumentException?
      ensures r.Success? && valueAsString.Some? ==> r.value.Some? && IsInstanceOf(r.value.value, valueType)
    {
      match valueAsString
      case None => Success(None)
      case Some(s) =>
        var converted: Option<Value> :=
          match valueType
          case StringClass => Some(StringValue(s))
          case BooleanClass => Some(BooleanValue(EqualsIgnoreCase("true", s)))
          case IntegerClass =>
            (match ParseInt(s)
             case Some(n) => Some(IntegerValue(n))
             case None => None)
          case _ => None;
        if converted.None? then Failure(IllegalArgumentException(CannotConvert(s)))
        else Success(converted)
    }

    function ToString(): string {
      key
    }

    /** `equals`: another key with the same key string, whatever its type, flag or default. */
    predicate Equals(o: ConfigPropertyKey?) {
      o != null && (this == o || key == o.key)
    }

    /** `hashCode`: the key string's hash, a 32-bit int. */
    function HashCode(): (h: int)
      ensures IntMin <= h <= IntMax
    {
      JavaStringHash(key)
    }
  }

  /** Two keys are equal exactly when their key strings are; equality is symmetric and
      equal keys hash and print alike. */
  lemma EqualsByKeyOnly(a: ConfigPropertyKey, b: ConfigPropertyKey)
    ensures a.Equals(b) <==> a.key == b.key
    ensures a.Equals(b) <==> b.Equals(a)
    ensures a.Equals(b) ==> a.HashCode() == b.HashCode() && a.ToString() == b.ToString()
  {
  }

  /** A String-typed key returns the string unchanged. */
  lemma ConvertStringIsIdentity(k: ConfigPropertyKey, s: string)
    requires k.valueType == StringClass
    ensures k.ConvertToRequiredType(Some(s)) == Success(Some(StringValue(s)))
  {
  }

  /** A Boolean-typed key never throws: the value is true exactly for "true" in any case. */
  lemma ConvertBooleanNeverThrows(k: ConfigPropertyKey, s: string)
    requires k.valueType == BooleanClass
    ensures k.ConvertToRequiredType(Some(s)).Success?
    ensures k.ConvertToRequiredType(Some(s)) == Success(Some(BooleanValue(EqualsIgnoreCase(s, "true"))))
  {
  }

  /** An Integer-typed key converts exactly the strings parseInt accepts. */
  lemma ConvertIntegerIffParses(k: ConfigPropertyKey, s: string)
    requires k.valueType == IntegerClass
    ensures k.ConvertToRequiredType(Some(s)).Success? <==> ParseInt(s).Some?
    ensures ParseInt(s).Some? ==> k.ConvertToRequiredType(Some(s)) == Success(Some(IntegerValue(ParseInt(s).value)))
  {
  }

  /** An Integer-typed key reads back every 32-bit integer written in decimal, and rejects
      every integer outside that range. */
  lemma ConvertIntegerRoundTrip(k: ConfigPropertyKey, n: int)
    requires k.valueType == IntegerClass
    ensures IntMin <= n <= IntMax ==> k.ConvertToRequiredType(Some(IntToString(n))) == Success(Some(IntegerValue(n)))
    ensures (n < IntMin || IntMax < n) ==> k.ConvertToRequiredType(Some(IntToString(n))).Failure?
  {
    if IntMin <= n <= IntMax {
      ParseIntRoundTrip(n);
    } else {
      ParseIntRejectsOutOfRange(n);
    }
  }

  /** Any other value type (URL, InputStream, an interface, Object) rejects every string. */
  lemma ConvertUnsupportedThrows(k: ConfigPropertyKey, s: string)
    requires k.valueType !in {StringClass, BooleanClass, IntegerClass}
    ensures k.ConvertToRequiredType(Some(s)) == Failure(IllegalArgumentException(k.CannotConvert(s)))
  {
  }

  /** No key converts a non-null string, the empty one included, to null: the result is a
      value of the key's type or the IllegalArgumentException. */
  lemma EmptyStringNeverNull(k: ConfigPropertyKey)
    ensures k.ConvertToRequiredType(Some("")).Success? ==> k.ConvertToRequiredType(Some("")).value.Some?
    ensures k.valueType == StringClass ==> k.ConvertToRequiredType(Some("")) == Success(Some(StringValue("")))
    ensures k.valueType == BooleanClass ==> k.ConvertToRequiredType(Some("")) == Success(Some(BooleanValue(false)))
    ensures k.valueType != StringClass && k.valueType != BooleanClass ==> k.ConvertToRequiredType(Some("")).Failure?
  {
  }
}
