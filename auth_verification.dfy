/**
  The auth package's VerificationServiceImpl: one-time numeric codes for the
  EMAIL, PHONE and APP channels, kept in the key/value store under
    prefix + type.name() + ":" + channel.name() + ":" + target + ":" + infix
  with infix "code:" for the code (300 s) and "send:" for the send time (60 s),
  which throttles sending to once a minute per (type, channel, target).
*/
module AuthVerification {
  import opened Wrappers
  import opened Failures
  import opened JavaText
  import opened KeyValueStore
  import opened VerificationKinds
  import SmsSender

  const CodeLength: int := 6
  const ExpireSeconds: nat := 300
  const SendIntervalSeconds: nat := 60
  const CodeInfix: string := "code:"
  const SendInfix: string := "send:"
  /** The default of my-configuration.redis.key-prefix. */
  const DefaultKeyPrefix: string := "tessa_verify_"

  const ThrottledMessage: string := "验证码发送过于频繁，请" + IntString(SendIntervalSeconds as int) + "秒后重试"

  /** What the channel senders hand on: a mail for EMAIL, a text for PHONE. */
  datatype Outbound = Mail(to: string, code: string) | Text(sms: SmsSender.Sms)

  // ---------------------------------------------------------------- keys

  /** buildRedisKey. */
  function RedisKey(prefix: string, channel: Channel, target: string,
                    vtype: VerificationType, infix: string): string {
    prefix + vtype.Name() + ":" + channel.Name() + ":" + target + ":" + infix
  }

  function CodeKey(prefix: string, channel: Channel, target: string, vtype: VerificationType): string {
    RedisKey(prefix, channel, target, vtype, CodeInfix)
  }

  function SendKey(prefix: string, channel: Channel, target: string, vtype: VerificationType): string {
    RedisKey(prefix, channel, target, vtype, SendInfix)
  }

  /** A field without ':' followed by ':' can be split off unambiguously. */
  lemma SplitAtColon(x: string, y: string, x': string, y': string)
    requires ':' !in x && ':' !in x' && x + ":" + y == x' + ":" + y'
    ensures x == x' && y == y'
  {
    var s := x + ":" + y;
    assert s[|x|] == ':' && (x' + ":" + y')[|x'|] == ':';
    assert x == s[..|x|] && x' == (x' + ":" + y')[..|x'|];
    assert y == s[|x| + 1..] && y' == (x' + ":" + y')[|x'| + 1..];
  }

  /** A common prefix can be dropped. */
  lemma DropPrefix(p: string, x: string, y: string)
    requires p + x == p + y
    ensures x == y
  {
    assert x == (p + x)[|p|..] && y == (p + y)[|p|..];
  }

  /** A suffix of known length after ':' can be split off. */
  lemma SplitSuffix(x: string, y: string, x': string, y': string)
    requires |y| == |y'| && x + ":" + y == x' + ":" + y'
    ensures x == x' && y == y'
  {
    var s := x + ":" + y;
    assert x == s[..|x|] && x' == (x' + ":" + y')[..|x'|];
    assert y == s[|x| + 1..] && y' == (x' + ":" + y')[|x'| + 1..];
  }

  /** The key read field by field. */
  lemma RedisKeyFields(prefix: string, channel: Channel, target: string,
                       vtype: VerificationType, infix: string)
    ensures RedisKey(prefix, channel, target, vtype, infix)
            == prefix + (vtype.Name() + ":" + (channel.Name() + ":" + (target + ":" + infix)))
  {
  }

  /** Different (channel, target, type, infix) give different keys, so no two
      identities and no two record kinds share a store entry. */
  lemma {:induction false} RedisKeyInjective(prefix: string,
      c1: Channel, t1: string, v1: VerificationType, i1: string,
      c2: Channel, t2: string, v2: VerificationType, i2: string)
    requires i1 in {CodeInfix, SendInfix} && i2 in {CodeInfix, SendInfix}
    requires RedisKey(prefix, c1, t1, v1, i1) == RedisKey(prefix, c2, t2, v2, i2)
    ensures c1 == c2 && t1 == t2 && v1 == v2 && i1 == i2
  {
    RedisKeyFields(prefix, c1, t1, v1, i1);
    RedisKeyFields(prefix, c2, t2, v2, i2);
    DropPrefix(prefix, v1.Name() + ":" + (c1.Name() + ":" + (t1 + ":" + i1)),
                       v2.Name() + ":" + (c2.Name() + ":" + (t2 + ":" + i2)));
    NamesHaveNoColon(v1, c1);
    NamesHaveNoColon(v2, c2);
    SplitAtColon(v1.Name(), c1.Name() + ":" + (t1 + ":" + i1), v2.Name(), c2.Name() + ":" + (t2 + ":" + i2));
    SplitAtColon(c1.Name(), t1 + ":" + i1, c2.Name(), t2 + ":" + i2);
    NamesInjective(v1, v2, c1, c2);
    SplitSuffix(t1, i1, t2, i2);
  }

  /** In particular a code record and a send-time record never collide. */
  lemma CodeKeyIsNotSendKey(prefix: string, c1: Channel, t1: string, v1: VerificationType,
                            c2: Channel, t2: string, v2: VerificationType)
    ensures CodeKey(prefix, c1, t1, v1) != SendKey(prefix, c2, t2, v2)
  {
    if CodeKey(prefix, c1, t1, v1) == SendKey(prefix, c2, t2, v2) {
      RedisKeyInjective(prefix, c1, t1, v1, CodeInfix, c2, t2, v2, SendInfix);
    }
  }

  // ---------------------------------------------------------------- specification

  /** validateSendParameters: the exception of the first failing guard. */
  function ValidateSendParameters(channel: Option<Channel>, target: Option<string>,
                                  vtype: Option<VerificationType>): (r: Option<Failure>)
    ensures r.None? <==> channel.Some? && vtype.Some? && HasText(target)
    ensures r.Some? ==> r.value.IllegalArgument?
  {
    if channel.None? then Some(IllegalArgument("验证渠道（channel）不能为空"))
    else if vtype.None? then Some(IllegalArgument("验证类型（type）不能为空"))
    else if !HasText(target) then Some(IllegalArgument("目标地址（target）不能为空"))
    else None
  }

  /** What canSendCode answers and the store it leaves behind. */
  datatype Throttle = Throttle(allowed: bool, store: Store)

  /** canSendCode: no record (or a blank one) allows sending; an unparsable one
      is deleted and allows sending; otherwise sending is allowed once the
      Java long difference now - last reaches the interval. */
  function CheckThrottle(s: Store, key: string, now: int): (r: Throttle)
    ensures r.store == s || r.store == Delete(s, key)
    ensures !r.allowed ==> r.store == s
    ensures Get(s, key, now).None? ==> r == Throttle(true, s)
  {
    var last := Get(s, key, now);
    if !HasText(last) then Throttle(true, s)
    else match ParseLong(last.value)
      case None => Throttle(true, Delete(s, key))
      case Some(t) => Throttle(WrapLong(now - t) >= SendIntervalSeconds as int * 1000, s)
  }

  /** A send time written at t0 throttles exactly the next 60 000 ms. */
  lemma ThrottleWindow(s: Store, key: string, t0: nat, now: nat)
    requires t0 <= now <= LongMax
    ensures CheckThrottle(Set(s, key, Decimal(t0), SendIntervalSeconds, t0), key, now)
            == Throttle(now >= t0 + SendIntervalSeconds * 1000,
                        Set(s, key, Decimal(t0), SendIntervalSeconds, t0))
  {
    var s' := Set(s, key, Decimal(t0), SendIntervalSeconds, t0);
    if now < t0 + SendIntervalSeconds * 1000 {
      assert Get(s', key, now) == Some(Decimal(t0));
      assert !IsWhitespace(Decimal(t0)[0]);
      ParseLongDecimal(t0);
    }
  }

  /** An integer with exactly `length` digits written out with `length`
      characters: no leading zero, only digits. */
  predicate IsVerificationCode(code: string, length: int) {
    0 < |code| == length && AllDigits(code) && code[0] != '0'
  }

  /** String.format("%0" + width + "d", n) for n >= 0. */
  function FormatZeroPadded(n: nat, width: int): (s: string)
    ensures AllDigits(s) && |s| == if width > |Decimal(n)| then width else |Decimal(n)|
    ensures DigitsValue(s) == n
  {
    var d := Decimal(n);
    DecimalValue(n);
    if |d| >= width then d
    else
      LeadingZeros(width - |d|, d);
      seq(width - |d|, _ => '0') + d
  }

  /** What a dispatch through the channel's sender yields. EMAIL always
      succeeds from the caller's view: the mail goes out asynchronously and
      its failure is only logged. PHONE goes through SmsVerificationSender,
      whose synchronous exceptions propagate. APP has no sender. */
  function Dispatch(templates: map<string, string>, channel: Channel, target: string,
                    code: string, vtype: VerificationType, order: SmsSender.ParamOrder): (r: Result<Outbound, Failure>)
    ensures channel == EMAIL ==> r == Ok(Mail(target, code))
    ensures channel == APP ==> r.Err? && r.error.UnsupportedOperation?
    ensures channel == PHONE && r.Ok? ==> r.value.Text? && r.value.sms.phone == target
  {
    match channel
    case EMAIL => Ok(Mail(target, code))
    case APP => Err(UnsupportedOperation("不支持的验证渠道：" + channel.Name()))
    case PHONE =>
      var invalid := SmsSender.ValidateParameters(Some(PHONE), Some(target), Some(code), Some(vtype));
      if invalid.Some? then Err(invalid.value)
      else
        var loaded := SmsSender.LoadTemplate(templates, SmsSender.TemplateName(vtype));
        var params := SmsSender.TemplateParams(target, code, vtype);
        if loaded.Err? then Err(loaded.error)
        else Ok(Text(SmsSender.Sms(target, SmsSender.RenderInOrder(loaded.value, params, order))))
  }

  /** Everything a call changes: its result, the store and the messages sent. */
  datatype Outcome = Outcome(result: Result<(), Failure>, store: Store, outbox: seq<Outbound>)

  /** sendVerificationCode once the random code (and the SMS parameter order)
      is fixed: validate, throttle, store the code, store the send time, then
      dispatch. */
  function Send(prefix: string, templates: map<string, string>, s: Store, out: seq<Outbound>,
                channel: Option<Channel>, target: Option<string>, vtype: Option<VerificationType>,
                now: nat, code: string, order: SmsSender.ParamOrder): Outcome
  {
    var invalid := ValidateSendParameters(channel, target, vtype);
    if invalid.Some? then Outcome(Err(invalid.value), s, out)
    else
      var sendKey := SendKey(prefix, channel.value, target.value, vtype.value);
      var codeKey := CodeKey(prefix, channel.value, target.value, vtype.value);
      var th := CheckThrottle(s, sendKey, now);
      if !th.allowed then Outcome(Err(Runtime(ThrottledMessage)), s, out)
      else
        var s' := Set(Set(th.store, codeKey, code, ExpireSeconds, now), sendKey, Decimal(now), SendIntervalSeconds, now);
        match Dispatch(templates, channel.value, target.value, code, vtype.value, order)
        case Ok(m) => Outcome(Ok(()), s', out + [m])
        case Err(e) => Outcome(Err(e), s', out)
  }

  /** verifyVerificationCode: the stored code must be non-blank and equal the
      input; a match deletes it. */
  function Verify(s: Store, key: string, code: Option<string>, now: int): (r: (bool, Store))
    ensures r.0 <==> HasText(Get(s, key, now)) && code == Get(s, key, now)
    ensures r.1 == if r.0 then Delete(s, key) else s
  {
    var stored := Get(s, key, now);
    var ok := HasText(stored) && code == stored;
    (ok, if ok then Delete(s, key) else s)
  }

  // ---------------------------------------------------------------- properties

  /** A null channel, null type or blank target is rejected before any write. */
  lemma SendRejectsBadArguments(prefix: string, templates: map<string, string>, s: Store,
      out: seq<Outbound>, channel: Option<Channel>, target: Option<string>,
      vtype: Option<VerificationType>, now: nat, code: string, order: SmsSender.ParamOrder)
    requires channel.None? || vtype.None? || !HasText(target)
    ensures var o := Send(prefix, templates, s, out, channel, target, vtype, now, code, order);
            o.result.Err? && o.result.error.IllegalArgument? && o.store == s && o.outbox == out
  {
  }

  /** A throttled request fails with RuntimeException and changes nothing. */
  lemma SendThrottledChangesNothing(prefix: string, templates: map<string, string>, s: Store,
      out: seq<Outbound>, channel: Channel, target: string, vtype: VerificationType,
      now: nat, code: string, order: SmsSender.ParamOrder)
    requires HasText(Some(target))
    requires !CheckThrottle(s, SendKey(prefix, channel, target, vtype), now).allowed
    ensures Send(prefix, templates, s, out, Some(channel), Some(target), Some(vtype), now, code, order)
            == Outcome(Err(Runtime(ThrottledMessage)), s, out)
  {
  }

  /** Once the throttle lets a request through, both records are written
      whatever the dispatch does: the code lives 300 s, the send time 60 s,
      and no other key changes. This includes the APP channel, which then
      fails with UnsupportedOperationException. */
  lemma SendWritesBothRecords(prefix: string, templates: map<string, string>, s: Store,
      out: seq<Outbound>, channel: Channel, target: string, vtype: VerificationType,
      now: nat, code: string, order: SmsSender.ParamOrder, t: int, k: string)
    requires HasText(Some(target))
    requires CheckThrottle(s, SendKey(prefix, channel, target, vtype), now).allowed
    ensures var o := Send(prefix, templates, s, out, Some(channel), Some(target), Some(vtype), now, code, order);
            var codeKey := CodeKey(prefix, channel, target, vtype);
            var sendKey := SendKey(prefix, channel, target, vtype);
            && (now <= t < now + ExpireSeconds * 1000 ==> Get(o.store, codeKey, t) == Some(code))
            && (now <= t < now + SendIntervalSeconds * 1000 ==> Get(o.store, sendKey, t) == Some(Decimal(now)))
            && (k != codeKey && k != sendKey ==> Get(o.store, k, t) == Get(s, k, t))
            && (channel == APP ==> o.result.Err? && o.result.error.UnsupportedOperation? && o.outbox == out)
            && (channel == EMAIL ==> o.result == Ok(()) && o.outbox == out + [Mail(target, code)])
  {
    CodeKeyIsNotSendKey(prefix, channel, target, vtype, channel, target, vtype);
  }

  /** Within a minute of a send that got past the throttle, a second send for
      the same identity is refused, and it is allowed again from then on. */
  lemma {:induction false} ResendThrottled(prefix: string, templates: map<string, string>, s: Store,
      out: seq<Outbound>, channel: Channel, target: string, vtype: VerificationType,
      now: nat, code: string, order: SmsSender.ParamOrder, later: nat)
    requires HasText(Some(target))
    requires CheckThrottle(s, SendKey(prefix, channel, target, vtype), now).allowed
    requires now <= later <= LongMax
    ensures var o := Send(prefix, templates, s, out, Some(channel), Some(target), Some(vtype), now, code, order);
            CheckThrottle(o.store, SendKey(prefix, channel, target, vtype), later).allowed
            <==> later >= now + SendIntervalSeconds * 1000
  {
    var sendKey := SendKey(prefix, channel, target, vtype);
    var codeKey := CodeKey(prefix, channel, target, vtype);
    var th := CheckThrottle(s, sendKey, now);
    var s1 := Set(th.store, codeKey, code, ExpireSeconds, now);
    ThrottleWindow(s1, sendKey, now, later);
  }

  /** The code just sent verifies during its 300 s lifetime, and only once. */
  lemma {:induction false} SentCodeVerifiesOnce(prefix: string, templates: map<string, string>, s: Store,
      out: seq<Outbound>, channel: Channel, target: string, vtype: VerificationType,
      now: nat, code: string, order: SmsSender.ParamOrder, t1: int, t2: int)
    requires HasText(Some(target)) && IsVerificationCode(code, CodeLength)
    requires CheckThrottle(s, SendKey(prefix, channel, target, vtype), now).allowed
    requires now <= t1 < now + ExpireSeconds * 1000
    ensures var o := Send(prefix, templates, s, out, Some(channel), Some(target), Some(vtype), now, code, order);
            var key := CodeKey(prefix, channel, target, vtype);
            var first := Verify(o.store, key, Some(code), t1);
            first.0 && !Verify(first.1, key, Some(code), t2).0
  {
    var o := Send(prefix, templates, s, out, Some(channel), Some(target), Some(vtype), now, code, order);
    var key := CodeKey(prefix, channel, target, vtype);
    SendWritesBothRecords(prefix, templates, s, out, channel, target, vtype, now, code, order, t1, key);
    assert !IsWhitespace(code[0]);
  }

  /** A PHONE send past the throttle, to a well-formed number, with a six-digit
      code and a template for the type that holds one "${code}" and no other
      '$', succeeds: the text goes to the number and is the template with the
      stored code in place of the placeholder, whatever order the parameter
      map iterates in. */
  lemma PhoneSendCarriesStoredCode(prefix: string, templates: map<string, string>, s: Store,
      out: seq<Outbound>, target: string, vtype: VerificationType, now: nat, code: string,
      order: SmsSender.ParamOrder, a: string, b: string, t: int)
    requires '$' !in a && '$' !in b
    requires SmsSender.TemplateName(vtype) in templates
    requires templates[SmsSender.TemplateName(vtype)] == a + SmsSender.Placeholder("code") + b
    requires SmsSender.IsValidPhoneNumber(target) && IsVerificationCode(code, CodeLength)
    requires CheckThrottle(s, SendKey(prefix, PHONE, target, vtype), now).allowed
    requires now <= t < now + ExpireSeconds * 1000
    ensures var o := Send(prefix, templates, s, out, Some(PHONE), Some(target), Some(vtype), now, code, order);
            && o.result == Ok(())
            && o.outbox == out + [Text(SmsSender.Sms(target, a + code + b))]
            && Get(o.store, CodeKey(prefix, PHONE, target, vtype), t) == Some(code)
  {
    SmsSender.ValidPhoneIsDigits(target);
    assert !IsWhitespace(code[0]);
    assert SmsSender.ValidateParameters(Some(PHONE), Some(target), Some(code), Some(vtype)).None?;
    SmsSender.SmsCarriesCode(a, b, target, code, vtype, order);
    SendWritesBothRecords(prefix, templates, s, out, PHONE, target, vtype, now, code, order, t,
                          CodeKey(prefix, PHONE, target, vtype));
  }

  /** A failed verification changes nothing; a successful one leaves no code
      to verify again. */
  lemma VerifySingleUse(s: Store, key: string, code: Option<string>, now: int, later: int)
    ensures !Verify(s, key, code, now).0 ==> Verify(s, key, code, now).1 == s
    ensures Verify(s, key, code, now).0 ==> !Verify(Verify(s, key, code, now).1, key, code, later).0
  {
  }

  // ---------------------------------------------------------------- the service

  class VerificationService {
    /** my-configuration.redis.key-prefix. */
    const keyPrefix: string
    /** The classpath SMS templates, by resource name under templates/. */
    const smsTemplates: map<string, string>
    /** The Redis store. */
    var store: Store
    /** Messages handed to the mail and SMS services, oldest first. */
    var outbox: seq<Outbound>

    constructor (keyPrefix: string, smsTemplates: map<string, string>, store: Store)
      ensures this.keyPrefix == keyPrefix && this.smsTemplates == smsTemplates
      ensures this.store == store && outbox == []
    {
      this.keyPrefix := keyPrefix;
      this.smsTemplates := smsTemplates;
      this.store := store;
      outbox := [];
    }

    /** sendVerificationCode; `code` and `order` name the random draw and the
        HashMap order the call happened to use. */
    method SendVerificationCode(channel: Option<Channel>, target: Option<string>,
                                vtype: Option<VerificationType>, now: nat)
      returns (r: Result<(), Failure>, ghost code: string, ghost order: SmsSender.ParamOrder)
      modifies this
      ensures IsVerificationCode(code, CodeLength)
      ensures Outcome(r, store, outbox)
              == Send(keyPrefix, smsTemplates, old(store), old(outbox), channel, target, vtype, now, code, order)
    {
      code, order := "100000", SmsSender.ParamNames;
      var invalid := ValidateSendParameters(channel, target, vtype);
      if invalid.Some? {
        return Err(invalid.value), code, order;
      }
      var allowed := CanSendCode(channel.value, target.value, vtype.value, now);
      if !allowed {
        return Err(Runtime(ThrottledMessage)), code, order;
      }
      var generated := GenerateVerificationCode(CodeLength);
      var verificationCode := generated.value;
      code := verificationCode;
      SaveVerificationCode(channel.value, target.value, vtype.value, verificationCode, now);
      RecordSendTime(channel.value, target.value, vtype.value, now);
      var sent;
      sent, order := SendCodeThroughChannel(channel.value, target.value, vtype.value, verificationCode);
      if sent.Err? {
        return Err(sent.error), code, order;
      }
      outbox := outbox + [sent.value];
      r := Ok(());
    }

    /** verifyVerificationCode. */
    method VerifyVerificationCode(channel: Channel, target: string, code: Option<string>,
                                  vtype: VerificationType, now: nat) returns (verified: bool)
      modifies this
      ensures (verified, store) == Verify(old(store), CodeKey(keyPrefix, channel, target, vtype), code, now)
      ensures outbox == old(outbox)
    {
      var key := RedisKey(keyPrefix, channel, target, vtype, CodeInfix);
      var stored := Get(store, key, now);
      verified := HasText(stored) && stored == code;
      if verified {
        store := Delete(store, key);
      }
    }

    /** canSendCode. */
    method CanSendCode(channel: Channel, target: string, vtype: VerificationType, now: nat)
      returns (allowed: bool)
      modifies this
      ensures Throttle(allowed, store) == CheckThrottle(old(store), SendKey(keyPrefix, channel, target, vtype), now)
      ensures outbox == old(outbox)
    {
      var key := RedisKey(keyPrefix, channel, target, vtype, SendInfix);
      var last := Get(store, key, now);
      if !HasText(last) {
        return true;
      }
      match ParseLong(last.value)
      case None =>
        store := Delete(store, key);
        allowed := true;
      case Some(lastSendTime) =>
        var interval := WrapLong(now - lastSendTime);
        allowed := interval >= SendIntervalSeconds as int * 1000;
    }

    /** saveVerificationCodeToRedis. */
    method SaveVerificationCode(channel: Channel, target: string, vtype: VerificationType,
                                code: string, now: nat)
      modifies this
      ensures store == Set(old(store), CodeKey(keyPrefix, channel, target, vtype), code, ExpireSeconds, now)
      ensures outbox == old(outbox)
    {
      store := Set(store, RedisKey(keyPrefix, channel, target, vtype, CodeInfix), code, ExpireSeconds, now);
    }

    /** recordSendTimeToRedis. */
    method RecordSendTime(channel: Channel, target: string, vtype: VerificationType, now: nat)
      modifies this
      ensures store == Set(old(store), SendKey(keyPrefix, channel, target, vtype), Decimal(now), SendIntervalSeconds, now)
      ensures outbox == old(outbox)
    {
      store := Set(store, RedisKey(keyPrefix, channel, target, vtype, SendInfix), Decimal(now), SendIntervalSeconds, now);
    }

    /** sendCodeThroughChannel with getSenderByChannel: the sender's outcome;
        `order` is the SMS sender's HashMap order, unused by the other channels. */
    method SendCodeThroughChannel(channel: Channel, target: string, vtype: VerificationType, code: string)
      returns (r: Result<Outbound, Failure>, ghost order: SmsSender.ParamOrder)
      ensures r == Dispatch(smsTemplates, channel, target, code, vtype, order)
    {
      order := SmsSender.ParamNames;
      match channel
      case EMAIL =>
        r := Ok(Mail(target, code));
      case PHONE =>
        var sent;
        sent, order := SmsSender.SendCode(Some(PHONE), Some(target), Some(code), Some(vtype), smsTemplates);
        r := if sent.Ok? then Ok(Text(sent.value)) else Err(sent.error);
      case APP =>
        r := Err(UnsupportedOperation("不支持的验证渠道：" + channel.Name()));
    }
  }

  /** generateVerificationCode: lengths outside 4..8 are refused; otherwise the
      digits of a random integer with exactly `length` digits. */
  method GenerateVerificationCode(length: int) returns (r: Result<string, Failure>)
    ensures r.Err? <==> length < 4 || length > 8
    ensures r.Err? ==> r.error == IllegalArgument("验证码长度需在4-8位之间")
    ensures r.Ok? ==> IsVerificationCode(r.value, length)
  {
    if length < 4 || length > 8 {
      return Err(IllegalArgument("验证码长度需在4-8位之间"));
    }
    assert Pow10(length) == 10 * Pow10(length - 1);
    var n: nat :| Pow10(length - 1) <= n < Pow10(length);
    DecimalLength(n, length);
    r := Ok(FormatZeroPadded(n, length));
  }
}
