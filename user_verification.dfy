/**
  The user.verification package's VerificationServiceImpl: the older,
  e-mail-only variant of the one-time code service. Its keys are
    KeyPrefix + ":verify:" + typeCode + email      (the code, 300 s)
    KeyPrefix + ":send_time:" + typeCode + email   (the send time, 60 s)
  where typeCode is the code of that package's own VerificationType, an enum
  that is not part of this model, so a type appears here only as its code.
*/
module UserVerification {
  import opened Wrappers
  import opened Failures
  import opened JavaText
  import opened KeyValueStore

  const CodeExpireSeconds: nat := 300
  const SendIntervalSeconds: nat := 60
  const CodeLength: int := 6
  const KeyInfixVerificationCode: string := ":verify:"
  const KeyInfixSendTime: string := ":send_time:"
  const ThrottledMessage: string := "发送频率过高, 请稍后再试"

  /** A mail handed to MailService.sendHtmlEmailAsync. */
  datatype Mail = Mail(to: string, code: string)

  function VerifyKey(prefix: string, typeCode: string, email: string): string {
    prefix + KeyInfixVerificationCode + typeCode + email
  }

  function SendTimeKey(prefix: string, typeCode: string, email: string): string {
    prefix + KeyInfixSendTime + typeCode + email
  }

  /** A code key is never a send-time key: the infixes differ right after the
      prefix. */
  lemma CodeKeyIsNotSendTimeKey(prefix: string, type1: string, email1: string,
                                type2: string, email2: string)
    ensures VerifyKey(prefix, type1, email1) != SendTimeKey(prefix, type2, email2)
  {
    assert VerifyKey(prefix, type1, email1)[|prefix| + 1] == 'v';
    assert SendTimeKey(prefix, type2, email2)[|prefix| + 1] == 's';
  }

  /** For one type, each e-mail address has its own key. */
  lemma VerifyKeyInjectiveForType(prefix: string, typeCode: string, email1: string, email2: string)
    requires VerifyKey(prefix, typeCode, email1) == VerifyKey(prefix, typeCode, email2)
    ensures email1 == email2
  {
    var n := |prefix + KeyInfixVerificationCode + typeCode|;
    assert email1 == VerifyKey(prefix, typeCode, email1)[n..];
    assert email2 == VerifyKey(prefix, typeCode, email2)[n..];
  }

  /** With no separator between type code and address, two different
      (type, address) pairs can share a key. */
  lemma VerifyKeyAmbiguous(prefix: string)
    ensures VerifyKey(prefix, "reset", "_password@x") == VerifyKey(prefix, "reset_password", "@x")
  {
    assert "reset" + "_password@x" == "reset_password" + "@x";
    assert VerifyKey(prefix, "reset", "_password@x")
        == prefix + KeyInfixVerificationCode + ("reset" + "_password@x");
    assert VerifyKey(prefix, "reset_password", "@x")
        == prefix + KeyInfixVerificationCode + ("reset_password" + "@x");
  }

  /** What canSendVerificationCode answers and the store it leaves behind. */
  datatype Throttle = Throttle(allowed: bool, store: Store)

  /** canSendVerificationCode: no record allows sending; an unparsable one
      (including an empty or blank one) is deleted and allows sending;
      otherwise sending is allowed once the Java long difference reaches the
      interval. */
  function CheckThrottle(s: Store, key: string, now: int): (r: Throttle)
    ensures r.store == s || r.store == Delete(s, key)
    ensures !r.allowed ==> r.store == s
    ensures Get(s, key, now).None? ==> r == Throttle(true, s)
  {
    var last := Get(s, key, now);
    if last.None? then Throttle(true, s)
    else match ParseLong(last.value)
      case None => Throttle(true, Delete(s, key))
      case Some(t) => Throttle(WrapLong(now - t) >= SendIntervalSeconds as int * 1000, s)
  }

  /** A send time written at t0 throttles exactly the next 60 000 ms. */
  lemma ThrottleWindow(s: Store, key: string, t0: nat, now: nat)
    requires t0 <= now <= LongMax
    ensures CheckThrottle(Set(s, key, Decimal(t0), SendIntervalSeconds, t0), key, now)
            == Throttle(now >= t0 + SendIntervalSeconds * 1000,
                        Set(s, key, Decimal(t0), SendIntervalSeconds, t0))
  {
    if now < t0 + SendIntervalSeconds * 1000 {
      ParseLongDecimal(t0);
    }
  }

  /** Everything a call changes: its result, the store and the mails sent. */
  datatype Outcome = Outcome(result: Result<(), Failure>, store: Store, outbox: seq<Mail>)

  /** sendVerificationCode once the random code is fixed. The mail is sent
      asynchronously and a failure is only logged, so it never reaches the
      caller. */
  function Send(prefix: string, s: Store, out: seq<Mail>, typeCode: string, email: string,
                now: nat, code: string): Outcome
  {
    var th := CheckThrottle(s, SendTimeKey(prefix, typeCode, email), now);
    if !th.allowed then Outcome(Err(Runtime(ThrottledMessage)), s, out)
    else
      var s1 := Set(th.store, VerifyKey(prefix, typeCode, email), code, CodeExpireSeconds, now);
      var s2 := Set(s1, SendTimeKey(prefix, typeCode, email), Decimal(now), SendIntervalSeconds, now);
      Outcome(Ok(()), s2, out + [Mail(email, code)])
  }

  /** verifyVerificationCode: the stored value must be present and equal the
      input (no blank check here); a match deletes it. */
  function Verify(s: Store, key: string, code: Option<string>, now: int): (r: (bool, Store))
    ensures r.0 <==> Get(s, key, now).Some? && code == Get(s, key, now)
    ensures r.1 == if r.0 then Delete(s, key) else s
  {
    var stored := Get(s, key, now);
    var ok := stored.Some? && stored == code;
    (ok, if ok then Delete(s, key) else s)
  }

  /** A throttled request fails with RuntimeException and changes nothing. */
  lemma SendThrottledChangesNothing(prefix: string, s: Store, out: seq<Mail>, typeCode: string,
                                    email: string, now: nat, code: string)
    requires !CheckThrottle(s, SendTimeKey(prefix, typeCode, email), now).allowed
    ensures Send(prefix, s, out, typeCode, email, now, code) == Outcome(Err(Runtime(ThrottledMessage)), s, out)
  {
  }

  /** A request past the throttle always succeeds: it stores the code for
      300 s and the send time for 60 s, touches no other key, and sends the
      mail. */
  lemma SendWritesBothRecords(prefix: string, s: Store, out: seq<Mail>, typeCode: string,
                              email: string, now: nat, code: string, t: int, k: string)
    requires CheckThrottle(s, SendTimeKey(prefix, typeCode, email), now).allowed
    ensures var o := Send(prefix, s, out, typeCode, email, now, code);
            var codeKey := VerifyKey(prefix, typeCode, email);
            var timeKey := SendTimeKey(prefix, typeCode, email);
            && o.result == Ok(())
            && o.outbox == out + [Mail(email, code)]
            && (now <= t < now + CodeExpireSeconds * 1000 ==> Get(o.store, codeKey, t) == Some(code))
            && (now <= t < now + SendIntervalSeconds * 1000 ==> Get(o.store, timeKey, t) == Some(Decimal(now)))
            && (k != codeKey && k != timeKey ==> Get(o.store, k, t) == Get(s, k, t))
  {
    CodeKeyIsNotSendTimeKey(prefix, typeCode, email, typeCode, email);
  }

  /** Within a minute of a send, a second send for the same (type, address)
      is refused; from then on it is allowed. */
  lemma {:induction false} ResendThrottled(prefix: string, s: Store, out: seq<Mail>, typeCode: string,
                                           email: string, now: nat, code: string, later: nat)
    requires CheckThrottle(s, SendTimeKey(prefix, typeCode, email), now).allowed
    requires now <= later <= LongMax
    ensures var o := Send(prefix, s, out, typeCode, email, now, code);
            CheckThrottle(o.store, SendTimeKey(prefix, typeCode, email), later).allowed
            <==> later >= now + SendIntervalSeconds * 1000
  {
    var timeKey := SendTimeKey(prefix, typeCode, email);
    var th := CheckThrottle(s, timeKey, now);
    var s1 := Set(th.store, VerifyKey(prefix, typeCode, email), code, CodeExpireSeconds, now);
    ThrottleWindow(s1, timeKey, now, later);
  }

  /** The code just sent verifies during its lifetime, and only once. */
  lemma {:induction false} SentCodeVerifiesOnce(prefix: string, s: Store, out: seq<Mail>, typeCode: string,
                                                email: string, now: nat, code: string, t1: int, t2: int)
    requires CheckThrottle(s, SendTimeKey(prefix, typeCode, email), now).allowed
    requires now <= t1 < now + CodeExpireSeconds * 1000
    ensures var o := Send(prefix, s, out, typeCode, email, now, code);
            var key := VerifyKey(prefix, typeCode, email);
            var first := Verify(o.store, key, Some(code), t1);
            first.0 && !Verify(first.1, key, Some(code), t2).0
  {
    SendWritesBothRecords(prefix, s, out, typeCode, email, now, code, t1, VerifyKey(prefix, typeCode, email));
  }

  /** A failed verification changes nothing; after a successful one the same
      code fails. */
  lemma VerifySingleUse(s: Store, key: string, code: Option<string>, now: int, later: int)
    ensures !Verify(s, key, code, now).0 ==> Verify(s, key, code, now).1 == s
    ensures Verify(s, key, code, now).0 ==> !Verify(Verify(s, key, code, now).1, key, code, later).0
  {
  }

  /** generateRandomCode: the decimal digits of a random integer with exactly
      `length` digits (the double arithmetic lands in [10^(length-1), 10^length),
      and the int cast is exact for up to nine digits). */
  method GenerateRandomCode(length: int) returns (code: string)
    requires 1 <= length <= 9
    ensures |code| == length && AllDigits(code) && code[0] != '0'
    ensures ParseLong(code).Some? && Pow10(length - 1) <= ParseLong(code).value < Pow10(length)
  {
    assert Pow10(length) == 10 * Pow10(length - 1);
    var n: nat :| Pow10(length - 1) <= n < Pow10(length);
    assert Pow10(length) <= 1_000_000_000 by {
      assert Pow10(1) == 10 && Pow10(2) == 100 && Pow10(3) == 1000;
      assert Pow10(6) == 1_000_000 && Pow10(9) == 1_000_000_000;
    }
    DecimalLength(n, length);
    ParseLongDecimal(n);
    code := Decimal(n);
  }

  class EmailVerificationService {
    /** KeyPrefix: a static field, which Spring's @Value does not fill, so it
        is a fixed string here. */
    const keyPrefix: string
    /** The Redis store. */
    var store: Store
    /** Mails handed to the mail service, oldest first. */
    var outbox: seq<Mail>

    constructor (keyPrefix: string, store: Store)
      ensures this.keyPrefix == keyPrefix && this.store == store && outbox == []
    {
      this.keyPrefix := keyPrefix;
      this.store := store;
      outbox := [];
    }

    /** sendVerificationCode; `code` names the random draw the call used. */
    method SendVerificationCode(email: string, typeCode: string, now: nat)
      returns (r: Result<(), Failure>, ghost code: string)
      modifies this
      ensures |code| == CodeLength && AllDigits(code) && code[0] != '0'
      ensures Outcome(r, store, outbox) == Send(keyPrefix, old(store), old(outbox), typeCode, email, now, code)
    {
      code := "100000";
      var allowed := CanSendVerificationCode(email, typeCode, now);
      if !allowed {
        return Err(Runtime(ThrottledMessage)), code;
      }
      var generated := GenerateRandomCode(CodeLength);
      code := generated;
      store := Set(store, keyPrefix + KeyInfixVerificationCode + typeCode + email,
                   generated, CodeExpireSeconds, now);
      store := Set(store, keyPrefix + KeyInfixSendTime + typeCode + email,
                   Decimal(now), SendIntervalSeconds, now);
      outbox := outbox + [Mail(email, generated)];
      r := Ok(());
    }

    /** verifyVerificationCode. */
    method VerifyVerificationCode(email: string, code: Option<string>, typeCode: string, now: nat)
      returns (verified: bool)
      modifies this
      ensures (verified, store) == Verify(old(store), VerifyKey(keyPrefix, typeCode, email), code, now)
      ensures outbox == old(outbox)
    {
      var key := keyPrefix + KeyInfixVerificationCode + typeCode + email;
      var storedCode := Get(store, key, now);
      if storedCode.Some? && storedCode == code {
        store := Delete(store, key);
        return true;
      }
      return false;
    }

    /** canSendVerificationCode. */
    method CanSendVerificationCode(email: string, typeCode: string, now: nat) returns (allowed: bool)
      modifies this
      ensures Throttle(allowed, store) == CheckThrottle(old(store), SendTimeKey(keyPrefix, typeCode, email), now)
      ensures outbox == old(outbox)
    {
      var key := keyPrefix + KeyInfixSendTime + typeCode + email;
      var lastSendTimeStr := Get(store, key, now);
      if lastSendTimeStr.None? {
        return true;
      }
      match ParseLong(lastSendTimeStr.value)
      case None =>
        store := Delete(store, key);
        allowed := true;
      case Some(lastSendTime) =>
        var elapsedTime := WrapLong(now - lastSendTime);
        allowed := elapsedTime >= SendIntervalSeconds as int * 1000;
    }
  }
}
