/**
 * The loosely typed options object the JavaScript caller passes to
 * `takePicture` / `chooseFromGallery`, and how each platform reads it.
 *
 * Android reads it through org.json's `optBoolean`, `optInt` and `optString`,
 * which coerce between JSON kinds; iOS reads it with Swift's `as? Bool`,
 * `as? Int` and `as? String` casts, which accept only the matching kind.
 * A key that is absent or that the reader refuses gives the default.
 */
module Options {
  import opened Wrappers
  import opened Text

  /** One value of the options object, as the platform's JSON parser hands it over. */
  datatype JsonValue =
    | JBool(b: bool)
    | JInt(i: int)        // a number literal written without fraction or exponent
    | JReal(r: real)      // a number literal written with a fraction or an exponent
    | JString(s: string)
    | JNull
    | JCompound           // a nested array or object

  type OptionMap = map<string, JsonValue>

  const IntMin: int := -0x8000_0000
  const IntMax: int := 0x7fff_ffff
  const LongMin: int := -0x8000_0000_0000_0000
  const LongMax: int := 0x7fff_ffff_ffff_ffff

  predicate IsInt32(x: int) { IntMin <= x <= IntMax }
  predicate IsInt64(x: int) { LongMin <= x <= LongMax }

  /** Java's `Long.intValue()`: keep the low 32 bits, read them as a signed number. */
  function WrapToInt(x: int): (r: int)
    ensures IsInt32(r)
    ensures (r - x) % 0x1_0000_0000 == 0
    ensures IsInt32(x) ==> r == x
  {
    var low := x % 0x1_0000_0000;
    if low <= IntMax then low else low - 0x1_0000_0000
  }

  /** Truncation toward zero (Java's and Swift's float-to-integer rounding). */
  function TruncateReal(r: real): (n: int)
    ensures r >= 0.0 ==> n as real <= r < n as real + 1.0
    ensures r < 0.0 ==> n as real - 1.0 < r <= n as real
  {
    if r >= 0.0 then r.Floor else -((-r).Floor)
  }

  /** Java's narrowing of a double to int: truncate toward zero, then saturate. */
  function DoubleToInt(r: real): (n: int)
    ensures IsInt32(n)
    ensures IsInt32(TruncateReal(r)) ==> n == TruncateReal(r)
    ensures TruncateReal(r) < IntMin ==> n == IntMin
    ensures TruncateReal(r) > IntMax ==> n == IntMax
  {
    var t := TruncateReal(r);
    if t < IntMin then IntMin else if t > IntMax then IntMax else t
  }

  /** Clamping to the 32-bit range: what `(int)` does to a double that is a whole number. */
  function Saturate(x: int): (n: int)
    ensures IsInt32(n)
    ensures IsInt32(x) ==> n == x
    ensures x < IntMin ==> n == IntMin
    ensures x > IntMax ==> n == IntMax
  {
    if x < IntMin then IntMin else if x > IntMax then IntMax else x
  }

  predicate AllDigits(s: string)
  {
    forall i :: 0 <= i < |s| ==> '0' <= s[i] <= '9'
  }

  /** A string of ASCII digits, optionally signed: the numeric strings the model reads as numbers. */
  function SignedDigits(s: string): Option<int>
  {
    if |s| >= 2 && s[0] == '-' && AllDigits(s[1..]) then Some(-(ParseDecimal(s[1..]) as int))
    else if |s| >= 2 && s[0] == '+' && AllDigits(s[1..]) then Some(ParseDecimal(s[1..]))
    else if |s| >= 1 && AllDigits(s) then Some(ParseDecimal(s))
    else None
  }

  // ---------------------------------------------------------------- Android

  /** `JSONObject.optBoolean(key, fallback)`: a boolean, or the strings "true"/"false" in any case. */
  function OptBoolean(o: OptionMap, key: string, fallback: bool): (r: bool)
    ensures key !in o ==> r == fallback
    ensures key in o && o[key].JBool? ==> r == o[key].b
    ensures key in o && o[key].JString? && EqualsIgnoreCase(o[key].s, "true") ==> r
    ensures key in o && o[key].JString? && EqualsIgnoreCase(o[key].s, "false") ==> !r
    ensures key in o && o[key].JString? && !EqualsIgnoreCase(o[key].s, "true") && !EqualsIgnoreCase(o[key].s, "false") ==>
      r == fallback
    ensures key in o && !o[key].JBool? && !o[key].JString? ==> r == fallback
  {
    if key !in o then fallback
    else match o[key]
      case JBool(b) => b
      case JString(s) =>
        if EqualsIgnoreCase(s, "true") then true
        else if EqualsIgnoreCase(s, "false") then false
        else fallback
      case _ => fallback
  }

  /**
   * `JSONObject.optInt(key, fallback)`: an Integer as it is, a Long cut to its
   * low 32 bits, a Double truncated and saturated, a numeric string converted
   * the way `(int) Double.parseDouble(s)` does it; anything else gives the fallback.
   */
  function OptInt(o: OptionMap, key: string, fallback: int): (r: int)
    ensures key !in o ==> r == fallback
    ensures key in o && o[key].JInt? && IsInt32(o[key].i) ==> r == o[key].i
    ensures key in o && (o[key].JBool? || o[key].JNull? || o[key].JCompound?) ==> r == fallback
    ensures key in o && o[key].JInt? && IsInt64(o[key].i) ==> r == WrapToInt(o[key].i)
    ensures key in o && o[key].JInt? && !IsInt64(o[key].i) ==> r == Saturate(o[key].i)
    ensures key in o && o[key].JReal? ==> r == DoubleToInt(o[key].r)
    ensures key in o && o[key].JString? && SignedDigits(o[key].s).Some? ==> r == Saturate(SignedDigits(o[key].s).value)
    ensures key in o && o[key].JString? && SignedDigits(o[key].s).None? ==> r == fallback
    ensures key in o && !o[key].JString? ==> IsInt32(r) || r == fallback
  {
    if key !in o then fallback
    else match o[key]
      case JInt(i) =>
        // the parser makes an Integer or a Long of what fits, a Double of the rest
        if IsInt64(i) then WrapToInt(i) else Saturate(i)
      case JReal(r) => DoubleToInt(r)
      case JString(s) => (
        match SignedDigits(s)
        case Some(n) => Saturate(n)
        case None => fallback)
      case _ => fallback
  }

  /**
   * `JSONObject.optString(key, fallback)`: a string as it is; `None` stands for
   * a value of another kind, which Java renders with `toString` ("true",
   * "null", digits, "[...]", "{...}").  None of those renderings is "fileURI",
   * which is the only comparison the plugin makes.
   */
  function OptString(o: OptionMap, key: string, fallback: string): (r: Option<string>)
    ensures key !in o ==> r == Some(fallback)
    ensures key in o ==> (r.Some? <==> o[key].JString?)
    ensures key in o && r.Some? ==> r.value == o[key].s
  {
    if key !in o then Some(fallback)
    else match o[key]
      case JString(s) => Some(s)
      case _ => None
  }

  // ---------------------------------------------------------------- iOS

  /** `o[key] as? Bool`. */
  function CastBool(o: OptionMap, key: string): (r: Option<bool>)
    ensures r.Some? <==> key in o && o[key].JBool?
    ensures r.Some? ==> r.value == o[key].b
  {
    if key in o && o[key].JBool? then Some(o[key].b) else None
  }

  /** `o[key] as? Int`, where Swift's `Int` is 64 bits wide. */
  function CastInt(o: OptionMap, key: string): (r: Option<int>)
    ensures r.Some? <==> key in o && o[key].JInt? && IsInt64(o[key].i)
    ensures r.Some? ==> r.value == o[key].i
  {
    if key in o && o[key].JInt? && IsInt64(o[key].i) then Some(o[key].i) else None
  }

  /** `o[key] as? String`. */
  function CastString(o: OptionMap, key: string): (r: Option<string>)
    ensures r.Some? <==> key in o && o[key].JString?
    ensures r.Some? ==> r.value == o[key].s
  {
    if key in o && o[key].JString? then Some(o[key].s) else None
  }

  // ---------------------------------------------------------------- both

  /** What the processing code takes from the options. */
  datatype Settings = Settings(
    correctOrientation: bool,
    targetWidth: int,
    targetHeight: int,
    quality: int,
    encodingType: int,
    fileUri: bool,          // returnType is exactly "fileURI"
    saveToGallery: bool)

  const Defaults: Settings := Settings(true, 0, 0, 85, 0, false, false)

  function AndroidSettings(o: OptionMap): (s: Settings)
    ensures IsInt32(s.targetWidth) && IsInt32(s.targetHeight) && IsInt32(s.quality) && IsInt32(s.encodingType)
    ensures s.fileUri <==> "returnType" in o && o["returnType"] == JString("fileURI")
  {
    Settings(
      OptBoolean(o, "correctOrientation", true),
      OptInt(o, "targetWidth", 0),
      OptInt(o, "targetHeight", 0),
      OptInt(o, "quality", 85),
      OptInt(o, "encodingType", 0),
      OptString(o, "returnType", "base64") == Some("fileURI"),
      OptBoolean(o, "saveToGallery", false))
  }

  function IosSettings(o: OptionMap): (s: Settings)
    ensures IsInt64(s.targetWidth) && IsInt64(s.targetHeight) && IsInt64(s.quality) && IsInt64(s.encodingType)
    ensures s.fileUri <==> "returnType" in o && o["returnType"] == JString("fileURI")
  {
    Settings(
      CastBool(o, "correctOrientation").GetOrDefault(true),
      CastInt(o, "targetWidth").GetOrDefault(0),
      CastInt(o, "targetHeight").GetOrDefault(0),
      CastInt(o, "quality").GetOrDefault(85),
      CastInt(o, "encodingType").GetOrDefault(0),
      CastString(o, "returnType").GetOrDefault("base64") == "fileURI",
      CastBool(o, "saveToGallery") == Some(true))
  }

  /** An empty options object (what `{}` or a missing argument becomes) gives the same defaults on both platforms. */
  lemma EmptyOptionsGiveDefaults()
    ensures AndroidSettings(map[]) == Defaults
    ensures IosSettings(map[]) == Defaults
  {
  }

  /**
   * The kind of value the iOS reader accepts under each key: a boolean for
   * the two flags, a string for the return type, an integer that fits Swift's
   * 64-bit `Int` for the four numbers. Other keys are not read at all.
   */
  predicate ExpectedKind(key: string, v: JsonValue)
  {
    if key == "correctOrientation" || key == "saveToGallery" then v.JBool?
    else if key == "returnType" then v.JString?
    else if key == "targetWidth" || key == "targetHeight" || key == "quality" || key == "encodingType" then
      v.JInt? && IsInt64(v.i)
    else true
  }

  /** Values of the wrong kind are ignored on iOS: the setting is read as if the key were absent. */
  lemma IosWrongKindGivesDefault(o: OptionMap, key: string)
    requires key in o && !ExpectedKind(key, o[key])
    ensures IosSettings(o) == IosSettings(o - {key})
  {
  }

  /** The option values both readers accept alike: booleans, 32-bit integers and strings, each under its own key. */
  predicate WellTyped(o: OptionMap)
  {
    && (forall k :: k in o && (k == "correctOrientation" || k == "saveToGallery") ==> o[k].JBool?)
    && (forall k :: k in o && (k == "targetWidth" || k == "targetHeight" || k == "quality" || k == "encodingType") ==>
          o[k].JInt? && IsInt32(o[k].i))
    && (forall k :: k in o && k == "returnType" ==> o[k].JString?)
  }

  /** On well-typed options the two platforms read the same settings. */
  lemma SameSettingsWhenWellTyped(o: OptionMap)
    requires WellTyped(o)
    ensures AndroidSettings(o) == IosSettings(o)
  {
    assert "correctOrientation" in o ==> o["correctOrientation"].JBool?;
    assert "saveToGallery" in o ==> o["saveToGallery"].JBool?;
    assert "targetWidth" in o ==> o["targetWidth"].JInt? && IsInt32(o["targetWidth"].i);
    assert "targetHeight" in o ==> o["targetHeight"].JInt? && IsInt32(o["targetHeight"].i);
    assert "quality" in o ==> o["quality"].JInt? && IsInt32(o["quality"].i);
    assert "encodingType" in o ==> o["encodingType"].JInt? && IsInt32(o["encodingType"].i);
    assert "returnType" in o ==> o["returnType"].JString?;
  }

  /** Where they differ: a fractional width is truncated by Android and ignored by iOS. */
  lemma FractionalWidthDiffers()
    ensures AndroidSettings(map["targetWidth" := JReal(800.5)]).targetWidth == 800
    ensures IosSettings(map["targetWidth" := JReal(800.5)]).targetWidth == 0
  {
  }

  /** And a flag written as a string ("False") is read by Android, while iOS ignores it and keeps the default. */
  lemma StringFlagDiffers()
    ensures !AndroidSettings(map["correctOrientation" := JString("False")]).correctOrientation
    ensures IosSettings(map["correctOrientation" := JString("False")]).correctOrientation
  {
  }
}
