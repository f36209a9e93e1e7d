/**
  SmsVerificationSender: the PHONE-channel sender. It checks its arguments,
  loads the template sms/<type>.txt, fills the `${key}` placeholders from a
  parameter map and hands the text to the SMS service, whose asynchronous
  failures are only logged.
*/
module SmsSender {
  import opened Wrappers
  import opened Failures
  import opened JavaText
  import opened VerificationKinds

  const TemplateDir: string := "sms/"
  const TemplateExt: string := ".txt"
  const Company: string := "Tessa 系统"
  const ExpireMinutes: int := 5

  /** The message handed to SmsService.sendSmsAsync. */
  datatype Sms = Sms(phone: string, content: string)

  // ---------------------------------------------------------------- validation

  /** phone.matches("^1[3-9]\\d{9}$"). */
  predicate IsValidPhoneNumber(phone: string) {
    |phone| == 11 && phone[0] == '1' && '3' <= phone[1] <= '9' && AllDigits(phone[2..])
  }

  /** validateParameters: the exception of the first guard that fails, if any. */
  function ValidateParameters(channel: Option<Channel>, target: Option<string>,
                              code: Option<string>, vtype: Option<VerificationType>): (r: Option<Failure>)
    ensures r.None? <==>
      channel == Some(PHONE) && HasText(target) && IsValidPhoneNumber(target.value)
      && HasText(code) && Utf16Length(code.value) >= 4 && vtype.Some?
    ensures r.Some? ==> r.value.IllegalArgument?
  {
    if channel != Some(PHONE) then Some(IllegalArgument("PhoneVerificationSender仅支持PHONE渠道"))
    else if !HasText(target) || !IsValidPhoneNumber(target.value) then
      Some(IllegalArgument("无效的手机号码: " + Show(target)))
    else if !HasText(code) || Utf16Length(code.value) < 4 then
      Some(IllegalArgument("无效的验证码: " + Show(code)))
    else if vtype.None? then Some(IllegalArgument("验证类型不能为空"))
    else None
  }

  /** A well-formed phone number is all ASCII digits, so it is never blank. */
  lemma ValidPhoneIsDigits(phone: string)
    requires IsValidPhoneNumber(phone)
    ensures AllDigits(phone) && !IsBlank(phone)
  {
    assert forall i :: 2 <= i < |phone| ==> phone[i] == phone[2..][i - 2];
    assert !IsWhitespace(phone[0]);
  }

  // ---------------------------------------------------------------- templates

  /** loadTemplateContent's resource name: "sms/" + type.name().toLowerCase() + ".txt". */
  function TemplateName(vtype: VerificationType): string {
    TemplateDir + ToLowerAscii(vtype.Name()) + TemplateExt
  }

  /** Each type reads its own template (the four names differ in length). */
  lemma TemplateNameInjective(t1: VerificationType, t2: VerificationType)
    requires t1 != t2
    ensures TemplateName(t1) != TemplateName(t2)
  {
  }

  /** TemplateLoaderServiceImpl.getTemplate over the classpath resources
      templates/<name>: a missing resource is an IOException, which sendCode
      wraps in a RuntimeException; an empty one makes Scanner.next() throw
      NoSuchElementException. */
  function LoadTemplate(templates: map<string, string>, name: string): (r: Result<string, Failure>)
    ensures r.Ok? <==> name in templates && templates[name] != []
    ensures r.Ok? ==> r.value == templates[name]
    ensures name !in templates ==> r.Err? && r.error.Runtime?
  {
    if name !in templates then
      Err(Runtime("加载短信模板失败: class path resource [templates/" + name
                  + "] cannot be opened because it does not exist"))
    else if templates[name] == [] then Err(NoSuchElement)
    else Ok(templates[name])
  }

  /** buildTemplateParams: the five values a template may refer to, each as the
      string its toString() gives. */
  function TemplateParams(phone: string, code: string, vtype: VerificationType): (params: map<string, string>)
    ensures params.Keys == ParamKeys
    ensures params["phone"] == phone && params["code"] == code && params["type"] == vtype.Description()
    ensures params["company"] == Company && params["expireMinutes"] == IntString(ExpireMinutes)
  {
    map["phone" := phone, "code" := code, "type" := vtype.Description(),
        "company" := Company, "expireMinutes" := IntString(ExpireMinutes)]
  }

  /** The names buildTemplateParams puts in its map. */
  const ParamKeys: set<string> := {"phone", "code", "type", "company", "expireMinutes"}

  /** An iteration order of that map: each of its names exactly once. */
  type ParamOrder = order: seq<string> | IsEntryOrder(order, ParamKeys)
    witness ["phone", "code", "type", "company", "expireMinutes"]

  /** One such order, the one used where no map is iterated. */
  const ParamNames: ParamOrder := ["phone", "code", "type", "company", "expireMinutes"]

  // ---------------------------------------------------------------- rendering

  function Placeholder(key: string): string {
    "${" + key + "}"
  }

  /** The text after replacing the placeholders of the keys in `order`, the
      first key first. */
  function RenderInOrder(template: string, params: map<string, string>, order: seq<string>): string
    requires forall i :: 0 <= i < |order| ==> order[i] in params
    decreases |order|
  {
    if order == [] then template
    else
      var last := order[|order| - 1];
      ReplaceAll(RenderInOrder(template, params, order[..|order| - 1]), Placeholder(last), params[last])
  }

  /** `order` lists every key of the map exactly once: an iteration order of
      the map's entries. */
  predicate IsEntryOrder(order: seq<string>, keys: set<string>) {
    (forall i :: 0 <= i < |order| ==> order[i] in keys)
    && (forall k :: k in keys ==> k in order)
    && (forall i, j :: 0 <= i < j < |order| ==> order[i] != order[j])
  }

  /** renderTemplate: for each entry of the HashMap, in its iteration order,
      replace every "${key}" by the value. The iteration order is left open. */
  method RenderTemplate(template: string, params: map<string, string>)
    returns (result: string, ghost order: seq<string>)
    ensures IsEntryOrder(order, params.Keys)
    ensures result == RenderInOrder(template, params, order)
  {
    result := template;
    order := [];
    var remaining := params.Keys;
    while remaining != {}
      invariant remaining <= params.Keys
      invariant forall i :: 0 <= i < |order| ==> order[i] in params.Keys && order[i] !in remaining
      invariant forall k :: k in params.Keys ==> k in remaining || k in order
      invariant forall i, j :: 0 <= i < j < |order| ==> order[i] != order[j]
      invariant result == RenderInOrder(template, params, order)
      decreases |remaining|
    {
      var key :| key in remaining;
      result := ReplaceAll(result, Placeholder(key), params[key]);
      order := order + [key];
      assert order[..|order| - 1] == order[..|order| - 1];
      remaining := remaining - {key};
    }
  }

  /** A template without "${" comes back unchanged, whatever the order. */
  lemma {:induction false} RenderWithoutPlaceholders(template: string, params: map<string, string>, order: seq<string>)
    requires forall i :: 0 <= i < |order| ==> order[i] in params
    requires !Contains(template, "${")
    ensures RenderInOrder(template, params, order) == template
    decreases |order|
  {
    if order != [] {
      var last := order[|order| - 1];
      RenderWithoutPlaceholders(template, params, order[..|order| - 1]);
      if Contains(template, Placeholder(last)) {
        assert Placeholder(last) == "${" + (last + "}");
        ContainsPrefix(template, "${", last + "}");
      }
      ReplaceAllAbsent(template, Placeholder(last), params[last]);
    }
  }

  /** The only '$' of a + "${k}" + b is the placeholder's own, so no other
      key's placeholder occurs there. */
  lemma OtherPlaceholderAbsent(a: string, k: string, b: string, l: string)
    requires '$' !in a && '$' !in b && '$' !in k && '}' !in k && '}' !in l && k != l
    ensures !Contains(a + Placeholder(k) + b, Placeholder(l))
  {
    var s := a + Placeholder(k) + b;
    var p := Placeholder(l);
    var n := |a|;
    assert s[n] == '$' && s[n + 1] == '{' && s[n + 2 + |k|] == '}';
    forall i | 0 <= i <= |s| && i + |p| <= |s|
      ensures !OccursAt(s, p, i)
    {
      var w := s[i..i + |p|];
      assert w[0] == s[i];
      if i < n {
        assert s[i] == a[i];
      } else if i == n + 1 || i == n + 2 + |k| {
      } else if n + 2 <= i < n + 2 + |k| {
        assert s[i] == k[i - n - 2];
      } else if i > n + 2 + |k| {
        assert s[i] == b[i - n - 3 - |k|];
      } else if |l| < |k| {
        assert w[|l| + 2] == s[n + 2 + |l|] == k[|l|];
        assert p[|l| + 2] == '}';
      } else if |l| > |k| {
        assert w[|k| + 2] == s[n + 2 + |k|];
        assert p[|k| + 2] == l[|k|];
      } else {
        assert w[2..2 + |l|] == s[n + 2..n + 2 + |k|] == k;
        assert p[2..2 + |l|] == l;
      }
    }
  }

  /** A template with exactly one placeholder, for key k, renders to the text
      around it with k's value in between, whatever the iteration order, as
      long as the value brings no '$' of its own. */
  lemma {:induction false} RenderSinglePlaceholder(a: string, k: string, b: string,
                                                   params: map<string, string>, order: seq<string>)
    requires '$' !in a && '$' !in b && '$' !in k && '}' !in k
    requires k in params && '$' !in params[k]
    requires forall i :: 0 <= i < |order| ==> order[i] in params && '}' !in order[i]
    requires forall i, j :: 0 <= i < j < |order| ==> order[i] != order[j]
    ensures RenderInOrder(a + Placeholder(k) + b, params, order)
            == if k in order then a + params[k] + b else a + Placeholder(k) + b
    decreases |order|
  {
    if order != [] {
      var prefix := order[..|order| - 1];
      var last := order[|order| - 1];
      RenderSinglePlaceholder(a, k, b, params, prefix);
      var before := RenderInOrder(a + Placeholder(k) + b, params, prefix);
      if last == k {
        assert k !in prefix;
        assert Placeholder(k)[0] == '$';
        NoLeadNoOccurrence(b, Placeholder(k));
        assert a + Placeholder(k) + b == a + Placeholder(k) + b;
        ReplaceSingle(a, Placeholder(k), b, params[k]);
      } else if k in prefix {
        var done := a + params[k] + b;
        assert '$' !in done;
        assert Placeholder(last)[0] == '$';
        NoLeadNoOccurrence(done, Placeholder(last));
        ReplaceAllAbsent(done, Placeholder(last), params[last]);
      } else {
        OtherPlaceholderAbsent(a, k, b, last);
        ReplaceAllAbsent(a + Placeholder(k) + b, Placeholder(last), params[last]);
      }
    }
  }

  /** No parameter name contains '$' or '}', and for a valid phone number and
      an all-digit code no value contains '$'. */
  lemma TemplateParamsPlain(phone: string, code: string, vtype: VerificationType)
    requires AllDigits(phone) && AllDigits(code)
    ensures forall k :: k in TemplateParams(phone, code, vtype) ==>
              '$' !in k && '}' !in k && '$' !in TemplateParams(phone, code, vtype)[k]
  {
    var params := TemplateParams(phone, code, vtype);
    assert IntString(ExpireMinutes) == "5";
  }

  // ---------------------------------------------------------------- sendCode

  /** sendCode: the checks come first, so invalid arguments never reach the
      template loader or the SMS service; a load failure propagates; otherwise
      the rendered text goes to the target number. */
  method SendCode(channel: Option<Channel>, target: Option<string>, code: Option<string>,
                  vtype: Option<VerificationType>, templates: map<string, string>)
    returns (r: Result<Sms, Failure>, ghost order: ParamOrder)
    ensures ValidateParameters(channel, target, code, vtype).Some? ==>
              r == Err(ValidateParameters(channel, target, code, vtype).value)
    ensures ValidateParameters(channel, target, code, vtype).None? ==>
              var loaded := LoadTemplate(templates, TemplateName(vtype.value));
              var params := TemplateParams(target.value, code.value, vtype.value);
              (loaded.Err? ==> r == Err(loaded.error))
              && (loaded.Ok? ==> r == Ok(Sms(target.value, RenderInOrder(loaded.value, params, order))))
  {
    order := ParamNames;
    var invalid := ValidateParameters(channel, target, code, vtype);
    if invalid.Some? {
      return Err(invalid.value), order;
    }
    var loaded := LoadTemplate(templates, TemplateName(vtype.value));
    if loaded.Err? {
      return Err(loaded.error), order;
    }
    var params := TemplateParams(target.value, code.value, vtype.value);
    var content;
    ghost var visited;
    content, visited := RenderTemplate(loaded.value, params);
    order := visited;
    r := Ok(Sms(target.value, content));
  }

  /** The text sent for a template holding one "${code}" and no other '$' is
      the template with the code in its place, for every iteration order. */
  lemma SmsCarriesCode(a: string, b: string, phone: string, code: string,
                       vtype: VerificationType, order: ParamOrder)
    requires '$' !in a && '$' !in b && IsValidPhoneNumber(phone) && AllDigits(code)
    ensures RenderInOrder(a + Placeholder("code") + b, TemplateParams(phone, code, vtype), order)
            == a + code + b
  {
    var params := TemplateParams(phone, code, vtype);
    ValidPhoneIsDigits(phone);
    TemplateParamsPlain(phone, code, vtype);
    assert "code" in order;
    RenderSinglePlaceholder(a, "code", b, params, order);
  }
}
