/**
 * The system settings page (frontend/src/components/SystemSettings.tsx): the
 * built-in configuration entries, how each entry's text is decoded into a
 * form value by its type, the loading and the resetting of the form, and the
 * rules a submitted form must meet. Saving only logs the values and is left out.
 */
module SystemSettings {
  import opened Wrappers
  import Text

  datatype ConfigType = StringType | NumberType | BooleanType | JsonType

  /** A configuration entry: its key, its value as text and its type. */
  datatype SystemConfig = SystemConfig(key: string, value: string, description: string, configType: ConfigType)

  /** A form field's value: a switch, a number (None for `NaN`) or a text. */
  datatype FieldValue = Flag(on: bool) | Number(n: Option<int>) | Words(text: string)

  /** The page's built-in entries. */
  const Defaults: seq<SystemConfig> := [
    SystemConfig("max_news_per_fetch", "10", "每次获取新闻的最大数量", NumberType),
    SystemConfig("fetch_interval_hours", "24", "自动获取新闻的间隔时间（小时）", NumberType),
    SystemConfig("enable_auto_fetch", "true", "是否启用自动获取新闻", BooleanType),
    SystemConfig("news_sources", "techcrunch,venturebeat,wired", "新闻源列表（逗号分隔）", StringType),
    SystemConfig("ai_keywords", "artificial intelligence,machine learning,deep learning,AI,ML,neural network",
                 "AI相关关键词（逗号分隔）", StringType),
    SystemConfig("content_min_length", "100", "新闻内容最小长度", NumberType),
    SystemConfig("enable_duplicate_check", "true", "是否启用重复内容检查", BooleanType),
    SystemConfig("log_level", "INFO", "日志级别", StringType)]

  // ---------------------------------------------------------------------------
  // parseInt
  // ---------------------------------------------------------------------------

  /** The value of a digit in the given radix (10 or 16), None for any other character. */
  function DigitValue(c: char, radix: nat): (d: Option<nat>)
    ensures d.Some? ==> d.value < radix
  {
    if '0' <= c <= '9' && (c as int - '0' as int) < radix then Some(c as int - '0' as int)
    else if radix == 16 && 'a' <= c <= 'f' then Some(c as int - 'a' as int + 10)
    else if radix == 16 && 'A' <= c <= 'F' then Some(c as int - 'A' as int + 10)
    else None
  }

  /** How many characters at the start of `s` are digits. */
  function LeadingDigits(s: string, radix: nat): (k: nat)
    ensures k <= |s|
    ensures forall i :: 0 <= i < k ==> DigitValue(s[i], radix).Some?
    ensures k < |s| ==> DigitValue(s[k], radix).None?
  {
    if s == [] || DigitValue(s[0], radix).None? then 0 else 1 + LeadingDigits(s[1..], radix)
  }

  /** The number a string of digits denotes. */
  function DigitsNumber(s: string, radix: nat): nat
    requires forall i :: 0 <= i < |s| ==> DigitValue(s[i], radix).Some?
  {
    if s == [] then 0
    else
      var init := s[..|s| - 1];
      assert forall i :: 0 <= i < |init| ==> init[i] == s[i];
      var high: nat, low: nat := DigitsNumber(init, radix), DigitValue(s[|s| - 1], radix).value;
      radix * high + low
  }

  /** The longest run of digits at the start of `d`, read in the radix; None when there is none. */
  function ParseDigits(d: string, radix: nat): (r: Option<nat>)
    ensures r.None? <==> d == [] || DigitValue(d[0], radix).None?
  {
    var k := LeadingDigits(d, radix);
    if k == 0 then None else Some(DigitsNumber(d[..k], radix))
  }

  /** After the sign: a `0x` or `0X` prefix switches to hexadecimal. */
  function ParseUnsigned(u: string): (r: Option<nat>)
  {
    if |u| >= 2 && u[0] == '0' && (u[1] == 'x' || u[1] == 'X') then ParseDigits(u[2..], 16) else ParseDigits(u, 10)
  }

  /** An optional sign, then the digits. */
  function ParseSigned(t: string): (r: Option<int>)
  {
    if t != [] && t[0] == '-' then
      (match ParseUnsigned(t[1..]) { case None => None case Some(n) => Some(0 - n) })
    else if t != [] && t[0] == '+' then
      (match ParseUnsigned(t[1..]) { case None => None case Some(n) => Some(n) })
    else
      (match ParseUnsigned(t) { case None => None case Some(n) => Some(n) })
  }

  /**
   * JavaScript's `parseInt` with no radix: leading white space skipped, an
   * optional sign, a `0x` prefix switching to hexadecimal, then the longest
   * run of digits; None (`NaN`) when the run is empty.
   */
  function ParseInt(s: string): (r: Option<int>)
  {
    ParseSigned(Text.TrimStart(Text.JavaScript, s))
  }

  /** Decimal digits mean here what they mean to the rest of the model. */
  lemma {:induction false} DecimalDigits(s: string)
    requires Text.AllDigits(s)
    ensures forall i :: 0 <= i < |s| ==> DigitValue(s[i], 10).Some?
    ensures DigitsNumber(s, 10) == Text.DigitsValue(s)
  {
    if s != [] {
      DecimalDigits(s[..|s| - 1]);
    }
  }

  lemma {:induction false} LeadingDigitsOfDigits(s: string, rest: string)
    requires Text.AllDigits(s)
    requires rest == [] || !('0' <= rest[0] <= '9')
    ensures LeadingDigits(s + rest, 10) == |s|
  {
    if s != [] {
      assert (s + rest)[1..] == s[1..] + rest;
      LeadingDigitsOfDigits(s[1..], rest);
    } else if rest != [] {
      assert DigitValue(rest[0], 10).None?;
    }
  }

  /** A run of decimal digits followed by something else reads as the digits' number. */
  lemma DigitsThenRest(s: string, rest: string)
    requires s != [] && Text.AllDigits(s)
    requires rest == [] || !('0' <= rest[0] <= '9')
    ensures ParseDigits(s + rest, 10) == Some(Text.DigitsValue(s))
  {
    LeadingDigitsOfDigits(s, rest);
    assert (s + rest)[..|s|] == s;
    DecimalDigits(s);
  }

  /** Text starting with a decimal digit, and not with `0x`, is read in decimal from its first character. */
  lemma DecimalStart(w: string)
    requires w != [] && '0' <= w[0] <= '9'
    requires |w| >= 2 ==> w[1] != 'x' && w[1] != 'X'
    ensures ParseDigits(w, 10).Some? && ParseInt(w) == Some(ParseDigits(w, 10).value)
  {
    assert !Text.Space(Text.JavaScript, w[0]);
    assert Text.TrimStart(Text.JavaScript, w) == w;
    assert ParseUnsigned(w) == ParseDigits(w, 10);
  }

  /**
   * `parseInt` reads back a rendered count, and stops at the first character
   * that is not a digit: `parseInt("12px")` is 12. (An `x` right after a lone
   * `0` would start a hexadecimal number instead.)
   */
  lemma ParseIntRendered(n: nat, rest: string)
    requires rest == [] || (!('0' <= rest[0] <= '9') && rest[0] != 'x' && rest[0] != 'X')
    ensures ParseInt(Text.NatToString(n) + rest) == Some(n)
  {
    var s := Text.NatToString(n);
    var w := s + rest;
    assert w[0] == s[0];
    assert |w| >= 2 ==> w[1] != 'x' && w[1] != 'X' by {
      if |s| >= 2 {
        assert w[1] == s[1];
      } else if |w| >= 2 {
        assert w[1] == rest[0];
      }
    }
    DecimalStart(w);
    DigitsThenRest(s, rest);
    Text.NatToStringRoundTrip(n);
  }

  // ---------------------------------------------------------------------------
  // Decoding and the form
  // ---------------------------------------------------------------------------

  /** One entry's form value: a boolean is on exactly for the text `true`, a number goes through `parseInt`, any other text is kept. */
  function Decode(c: SystemConfig): (v: FieldValue)
    ensures c.configType == BooleanType ==> v == Flag(c.value == "true")
    ensures c.configType == NumberType ==> v == Number(ParseInt(c.value))
    ensures c.configType == StringType || c.configType == JsonType ==> v == Words(c.value)
  {
    match c.configType {
      case BooleanType => Flag(c.value == "true")
      case NumberType => Number(ParseInt(c.value))
      case _ => Words(c.value)
    }
  }

  /** The form values of the entries taken in order: a later entry of the same key wins. */
  function Values(cs: seq<SystemConfig>): (m: map<string, FieldValue>)
    ensures forall i :: 0 <= i < |cs| ==> cs[i].key in m
  {
    if cs == [] then map[] else Values(cs[..|cs| - 1])[cs[|cs| - 1].key := Decode(cs[|cs| - 1])]
  }

  /** With distinct keys, every entry's key holds that entry's decoded value. */
  lemma {:induction false} ValuesOfDistinct(cs: seq<SystemConfig>, i: nat)
    requires forall a, b :: 0 <= a < b < |cs| ==> cs[a].key != cs[b].key
    requires i < |cs|
    ensures Values(cs)[cs[i].key] == Decode(cs[i])
  {
    if i < |cs| - 1 {
      ValuesOfDistinct(cs[..|cs| - 1], i);
    }
  }

  /** `forEach` over the entries, filling `initialValues`. */
  method InitialValues(cs: seq<SystemConfig>) returns (values: map<string, FieldValue>)
    ensures values == Values(cs)
  {
    values := map[];
    var i := 0;
    while i < |cs|
      invariant 0 <= i <= |cs|
      invariant values == Values(cs[..i])
    {
      var c := cs[i];
      if c.configType == BooleanType {
        values := values[c.key := Flag(c.value == "true")];
      } else if c.configType == NumberType {
        values := values[c.key := Number(ParseInt(c.value))];
      } else {
        values := values[c.key := Words(c.value)];
      }
      assert cs[..i + 1][..i] == cs[..i];
      i := i + 1;
    }
    assert cs[..i] == cs;
  }

  // ---------------------------------------------------------------------------
  // Rules
  // ---------------------------------------------------------------------------

  const EnterNumber: string := "请输入数值"
  const AtLeastOne: string := "数值必须大于0"
  const ChooseLevel: string := "请选择日志级别"
  const EnterText: string := "请输入内容"
  const LogLevels: seq<string> := ["DEBUG", "INFO", "WARNING", "ERROR"]

  /**
   * The rule of an entry's field: a number is required and at least 1; a
   * text is required (the log level's by its own message); a switch has no
   * rule, and a JSON entry has no field.
   */
  function FieldError(c: SystemConfig, v: Option<FieldValue>): (e: Option<string>)
    ensures c.configType == NumberType && v.Some? && v.value.Number? && v.value.n.Some? ==>
      (e.None? <==> v.value.n.value >= 1)
    ensures c.configType == BooleanType || c.configType == JsonType ==> e.None?
  {
    match c.configType {
      case NumberType =>
        if v.None? || !v.value.Number? || v.value.n.None? then Some(EnterNumber)
        else if v.value.n.value < 1 then Some(AtLeastOne)
        else None
      case StringType =>
        if v.None? || !v.value.Words? || v.value.text == "" then Some(if c.key == "log_level" then ChooseLevel else EnterText)
        else None
      case _ => None
    }
  }

  /** The entries whose field fails its rule. */
  function FormErrors(cs: seq<SystemConfig>, form: map<string, FieldValue>): (r: seq<string>)
    ensures |r| <= |cs|
  {
    if cs == [] then []
    else
      var c := cs[|cs| - 1];
      var v := if c.key in form then Some(form[c.key]) else None;
      FormErrors(cs[..|cs| - 1], form) + (if FieldError(c, v).Some? then [c.key] else [])
  }

  /** A form whose every entry's field passes its rule has no errors. */
  lemma {:induction false} FormErrorsNone(cs: seq<SystemConfig>, form: map<string, FieldValue>)
    requires forall i :: 0 <= i < |cs| ==> cs[i].key in form && FieldError(cs[i], Some(form[cs[i].key])).None?
    ensures FormErrors(cs, form) == []
  {
    if cs != [] {
      FormErrorsNone(cs[..|cs| - 1], form);
    }
  }

  lemma DefaultKeysDistinct()
    ensures forall a, b :: 0 <= a < b < |Defaults| ==> Defaults[a].key != Defaults[b].key
  {
  }

  /** A run of decimal digits not starting with `0x` reads as its value. */
  lemma ReadsDecimal(w: string)
    requires w != [] && Text.AllDigits(w)
    ensures ParseInt(w) == Some(Text.DigitsValue(w))
  {
    DecimalStart(w);
    DigitsThenRest(w, []);
    assert w + [] == w;
  }

  lemma DefaultNumbers()
    ensures ParseInt("10") == Some(10) && ParseInt("24") == Some(24) && ParseInt("100") == Some(100)
  {
    ReadsTen();
    ReadsTwentyFour();
    ReadsHundred();
  }

  lemma ReadsTen()
    ensures ParseInt("10") == Some(10)
  {
    ReadsDecimal("10");
    assert Text.DigitsValue("10") == 10;
  }

  lemma ReadsTwentyFour()
    ensures ParseInt("24") == Some(24)
  {
    ReadsDecimal("24");
    assert Text.DigitsValue("24") == 24;
  }

  lemma ReadsHundred()
    ensures ParseInt("100") == Some(100)
  {
    ReadsDecimal("100");
    assert "100"[..2] == "10" && "10"[..1] == "1" && "1"[..0] == "";
    assert Text.DigitsValue("10") == 10;
    assert Text.DigitsValue("100") == 100;
  }

  /** Each built-in entry's decoded value passes its rule. */
  lemma DefaultDecodesPass(i: nat)
    requires i < |Defaults|
    ensures FieldError(Defaults[i], Some(Decode(Defaults[i]))).None?
  {
    if i == 0 {
      ReadsTen();
    } else if i == 1 {
      ReadsTwentyFour();
    } else if i == 5 {
      ReadsHundred();
    } else if i == 3 || i == 4 || i == 7 {
      assert Defaults[i].value != [];
    }
  }

  /** The built-in values pass every rule. */
  lemma DefaultsPass()
    ensures FormErrors(Defaults, Values(Defaults)) == []
  {
    DefaultKeysDistinct();
    var m := Values(Defaults);
    forall i | 0 <= i < |Defaults| ensures Defaults[i].key in m && FieldError(Defaults[i], Some(m[Defaults[i].key])).None? {
      ValuesOfDistinct(Defaults, i);
      DefaultDecodesPass(i);
    }
    FormErrorsNone(Defaults, m);
  }

  /**
   * The built-in values pass every rule, their numbers read as 10, 24 and
   * 100, and both switches start on.
   */
  lemma DefaultsValid()
    ensures FormErrors(Defaults, Values(Defaults)) == []
    ensures var m := Values(Defaults);
      && "max_news_per_fetch" in m && m["max_news_per_fetch"] == Number(Some(10))
      && "fetch_interval_hours" in m && m["fetch_interval_hours"] == Number(Some(24))
      && "content_min_length" in m && m["content_min_length"] == Number(Some(100))
      && "enable_auto_fetch" in m && m["enable_auto_fetch"] == Flag(true)
      && "enable_duplicate_check" in m && m["enable_duplicate_check"] == Flag(true)
      && "log_level" in m && m["log_level"] == Words("INFO") && "INFO" in LogLevels
  {
    DefaultsPass();
    DefaultKeysDistinct();
    DefaultNumbers();
    ValuesOfDistinct(Defaults, 0);
    ValuesOfDistinct(Defaults, 1);
    ValuesOfDistinct(Defaults, 2);
    ValuesOfDistinct(Defaults, 5);
    ValuesOfDistinct(Defaults, 6);
    ValuesOfDistinct(Defaults, 7);
  }

  // ---------------------------------------------------------------------------
  // The page
  // ---------------------------------------------------------------------------

  datatype Toast = Info(text: string) | Success(text: string) | Error(text: string)

  class SettingsPage {
    var configs: seq<SystemConfig>
    var form: map<string, FieldValue>
    var loading: bool
    var toasts: seq<Toast>

    constructor ()
      ensures configs == [] && form == map[] && !loading && toasts == []
    {
      configs, form, loading, toasts := [], map[], false, [];
    }

    /** `loadConfigs`: the built-in entries are listed and the form gets their decoded values. */
    method LoadConfigs()
      modifies this
      ensures configs == Defaults && form == Values(Defaults) && !loading && toasts == old(toasts)
    {
      loading := true;
      configs := Defaults;
      var values := InitialValues(Defaults);
      form := values;
      loading := false;
    }

    /** `resetToDefault`: the form gets the same values loading gives; the entries listed stay. */
    method ResetToDefault()
      modifies this
      ensures form == Values(Defaults) && configs == old(configs) && loading == old(loading)
      ensures toasts == old(toasts) + [Info("已重置为默认配置")]
    {
      var values := InitialValues(Defaults);
      form := values;
      toasts := toasts + [Info("已重置为默认配置")];
    }
  }
}
