/** The field coercions shared by the monitoring worker and the REST
    handlers. Each one has the JavaScript shape
    `typeof(v) == ... && <test> ? <value> : false`; here the `false` is `None`. */
module Fields {
  import opened Json

  /** A field that passed coercion, or `false`, as a JSON value. */
  function OrFalse(v: Option<string>): Json
  {
    if v.Some? then JStr(v.value) else JBool(false)
  }

  /** A string whose trimmed form has a JavaScript `length` (UTF-16 code
      units) of exactly `n`; yields the trimmed form (ids are 20, phone
      numbers 10). */
  function TrimmedOfLength(v: Option<Json>, n: nat): (r: Option<string>)
    ensures r.Some? <==> v.Some? && v.value.JStr? && Utf16Length(Trim(v.value.s)) == n
    ensures r.Some? ==> r.value == Trim(v.value.s) && Utf16Length(r.value) == n && Trimmed(r.value)
  {
    if TypeOf(v) == "string" && Utf16Length(Trim(v.value.s)) == n then
      TrimShape(v.value.s);
      Some(Trim(v.value.s))
    else None
  }

  /** A string whose trimmed form has `n` characters passes the length-`n`
      test exactly when none of those characters lies outside the Basic
      Multilingual Plane. */
  lemma CharCountPassesIffBmp(s: string, n: nat)
    requires |Trim(s)| == n
    ensures TrimmedOfLength(Some(JStr(s)), n).Some? <==>
            forall i :: 0 <= i < |Trim(s)| ==> Trim(s)[i] as int <= 0xFFFF
  {
    Utf16LengthExceeds(Trim(s));
    Utf16LengthBounds(Trim(s));
  }

  /** Ten characters are not a ten-character phone number when one of them
      lies outside the Basic Multilingual Plane: the JavaScript length is 11. */
  lemma AstralPhoneRejected()
    ensures |"123456789" + ['\U{1F600}']| == 10
    ensures TrimmedOfLength(Some(JStr("123456789" + ['\U{1F600}'])), 10).None?
  {
    var s := "123456789" + ['\U{1F600}'];
    TrimOfTrimmed(s);
    Utf16LengthConcat("123456789", ['\U{1F600}']);
    Utf16LengthBounds("123456789");
  }

  /** A string that is not blank once trimmed; yields the trimmed form. */
  function NonBlank(v: Option<Json>): (r: Option<string>)
    ensures r.Some? <==> v.Some? && v.value.JStr? && Trim(v.value.s) != ""
    ensures r.Some? ==> r.value == Trim(v.value.s) && r.value != [] && Trimmed(r.value)
  {
    if TypeOf(v) == "string" && |Trim(v.value.s)| > 0 then
      TrimShape(v.value.s);
      Some(Trim(v.value.s))
    else None
  }

  /** A string that is exactly one of `allowed` (no trimming). */
  function OneOf(v: Option<Json>, allowed: seq<string>): (r: Option<string>)
    ensures r.Some? <==> v.Some? && v.value.JStr? && v.value.s in allowed
    ensures r.Some? ==> r.value == v.value.s
  {
    if TypeOf(v) == "string" && IndexOfElem(allowed, v.value.s) > -1 then Some(v.value.s) else None
  }

  /** A non-empty array, whatever its elements. */
  function NonEmptyArray(v: Option<Json>): (r: Option<seq<Json>>)
    ensures r.Some? <==> v.Some? && v.value.JArr? && v.value.items != []
    ensures r.Some? ==> v == Some(JArr(r.value))
  {
    if TypeOf(v) == "object" && v.value.JArr? && |v.value.items| > 0 then Some(v.value.items) else None
  }

  /** `typeof(v) == 'object' && v instanceof Array ? v : []`. */
  function ArrayOrEmpty(v: Option<Json>): (r: seq<Json>)
    ensures v.Some? && v.value.JArr? ==> r == v.value.items
    ensures !(v.Some? && v.value.JArr?) ==> r == []
  {
    if TypeOf(v) == "object" && v.value.JArr? then v.value.items else []
  }

  /** An integral number of seconds from 1 to 5. */
  function TimeoutSeconds(v: Option<Json>): (r: Option<int>)
    ensures r.Some? <==> v.Some? && v.value.JNum? && IsIntegral(v.value.n) && 1.0 <= v.value.n <= 5.0
    ensures r.Some? ==> 1 <= r.value <= 5 && v == Some(JNum(r.value as real))
  {
    if TypeOf(v) == "number" && IsIntegral(v.value.n) && v.value.n >= 1.0 && v.value.n <= 5.0 then
      Some(v.value.n.Floor)
    else None
  }

  /** `typeof(v) == 'boolean' && v == true`. */
  predicate IsTrue(v: Option<Json>)
    ensures IsTrue(v) <==> v == Some(JBool(true))
  {
    TypeOf(v) == "boolean" && v.value.b
  }
}
