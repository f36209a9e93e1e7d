/**
  The auth package's VerificationType and VerificationChannel enums. A type's
  code becomes part of store keys, so its comment asks for codes without
  special characters.
*/
module VerificationKinds {
  import opened Wrappers
  import Lookup

  datatype VerificationType = REGISTER | RESET_PASSWORD | UPDATE_EMAIL | BIND_EMAIL
  {
    /** Enum.name(). */
    function Name(): string {
      match this
      case REGISTER => "REGISTER"
      case RESET_PASSWORD => "RESET_PASSWORD"
      case UPDATE_EMAIL => "UPDATE_EMAIL"
      case BIND_EMAIL => "BIND_EMAIL"
    }

    function Description(): string {
      match this
      case REGISTER => "注册"
      case RESET_PASSWORD => "重置密码"
      case UPDATE_EMAIL => "更新邮箱"
      case BIND_EMAIL => "绑定邮箱"
    }

    function Code(): string {
      match this
      case REGISTER => "register"
      case RESET_PASSWORD => "reset_password"
      case UPDATE_EMAIL => "update_email"
      case BIND_EMAIL => "bind_email"
    }
  }

  /** VerificationType.values(), in declaration order. */
  const AllTypes: seq<VerificationType> := [REGISTER, RESET_PASSWORD, UPDATE_EMAIL, BIND_EMAIL]

  function TypeCode(t: VerificationType): string { t.Code() }

  /** VerificationType.fromCode: the constant with this exact code, or null. */
  function TypeFromCode(code: string): (r: Option<VerificationType>)
    ensures r.Some? ==> r.value.Code() == code
    ensures r.None? ==> forall t: VerificationType :: t.Code() != code
  {
    var r := Lookup.FindFirst(AllTypes, TypeCode, code);
    assert r.None? ==> forall t: VerificationType :: t.Code() != code by {
      if r.None? {
        forall t: VerificationType ensures t.Code() != code {
          assert TypeCode(AllTypes[TypeIndex(t)]) != code;
        }
      }
    }
    r
  }

  /** The position of a constant in AllTypes (its ordinal). */
  function TypeIndex(t: VerificationType): (i: nat)
    ensures i < |AllTypes| && AllTypes[i] == t
  {
    match t
    case REGISTER => 0
    case RESET_PASSWORD => 1
    case UPDATE_EMAIL => 2
    case BIND_EMAIL => 3
  }

  /** The codes are pairwise distinct, so fromCode inverts getCode. */
  lemma TypeFromCodeRoundTrip(t: VerificationType)
    ensures TypeFromCode(t.Code()) == Some(t)
  {
    assert Lookup.KeysDistinct(AllTypes, TypeCode);
    assert AllTypes[TypeIndex(t)] == t;
    Lookup.FindOwnKey(AllTypes, TypeCode, t);
  }

  /** Codes are made of lower-case ASCII letters and '_' only. */
  predicate KeySafe(s: string) {
    forall i :: 0 <= i < |s| ==> ('a' <= s[i] <= 'z') || s[i] == '_'
  }

  lemma TypeCodesKeySafe(t: VerificationType)
    ensures |t.Code()| > 0 && KeySafe(t.Code())
  {
  }

  /** Matching is exact: an enum name is not a code. */
  lemma TypeFromCodeCaseSensitive()
    ensures TypeFromCode("REGISTER").None?
  {
    assert !KeySafe("REGISTER") by { assert "REGISTER"[0] == 'R'; }
    forall t: VerificationType ensures t.Code() != "REGISTER" {
      TypeCodesKeySafe(t);
    }
  }

  datatype Channel = EMAIL | PHONE | APP
  {
    /** Enum.name(). */
    function Name(): string {
      match this
      case EMAIL => "EMAIL"
      case PHONE => "PHONE"
      case APP => "APP"
    }
  }

  /** Enum names contain no ':', the separator of store keys. */
  lemma NamesHaveNoColon(t: VerificationType, c: Channel)
    ensures ':' !in t.Name() && ':' !in c.Name()
  {
  }

  /** Distinct constants have distinct names. */
  lemma NamesInjective(t1: VerificationType, t2: VerificationType, c1: Channel, c2: Channel)
    ensures t1.Name() == t2.Name() ==> t1 == t2
    ensures c1.Name() == c2.Name() ==> c1 == c2
  {
  }
}
