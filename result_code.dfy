/**
  The API result codes (ResultCode): each constant has a numeric code and
  the key of its message in the resource bundles. Several business codes
  reuse a generic code, so a code does not always identify one constant.
*/
module ResultCodes {
  import opened Wrappers

  /** A constant of the enum; Code() and I18nKey() are its two fields. */
  datatype ResultCode =
    SUCCESS | CREATED | ACCEPTED | NO_CONTENT | BAD_REQUEST | VALIDATION_FAILED |
    MISSING_PARAMETER | INVALID_FORMAT | UNAUTHORIZED | INVALID_CREDENTIALS | TOKEN_EXPIRED |
    TOKEN_INVALID | ACCOUNT_LOCKED | ACCOUNT_DISABLED | FORBIDDEN | PERMISSION_DENIED |
    NOT_FOUND | RESOURCE_NOT_FOUND | METHOD_NOT_ALLOWED | CONFLICT | RESOURCE_ALREADY_EXISTS |
    DUPLICATE_ENTRY | TOO_MANY_REQUESTS | INTERNAL_SERVER_ERROR | SERVICE_UNAVAILABLE |
    DATABASE_ERROR | EXTERNAL_SERVICE_ERROR | TEMPLATE_LOADING_ERROR | FILE_UPLOAD_FAILED |
    CONFIGURATION_ERROR | USER_NOT_FOUND | USER_ALREADY_EXISTS | EMAIL_ALREADY_REGISTERED |
    PHONE_ALREADY_REGISTERED | PASSWORD_MISMATCH | PASSWORD_INVALID_FORMAT |
    VERIFICATION_CODE_EXPIRED | VERIFICATION_CODE_MISMATCH | OPERATION_NOT_ALLOWED |
    ORDER_NOT_FOUND | ORDER_STATUS_INVALID | INSUFFICIENT_STOCK | PAYMENT_FAILED |
    DATA_INTEGRITY_VIOLATION
  {
    /** getCode(). */
    function Code(): int {
      match this
      case SUCCESS => 200
      case CREATED => 201
      case ACCEPTED => 202
      case NO_CONTENT => 204
      case BAD_REQUEST => 400
      case VALIDATION_FAILED => 4001
      case MISSING_PARAMETER => 4002
      case INVALID_FORMAT => 4003
      case UNAUTHORIZED => 401
      case INVALID_CREDENTIALS => 4011
      case TOKEN_EXPIRED => 4012
      case TOKEN_INVALID => 4013
      case ACCOUNT_LOCKED => 4014
      case ACCOUNT_DISABLED => 4015
      case FORBIDDEN => 403
      case PERMISSION_DENIED => 4031
      case NOT_FOUND => 404
      case RESOURCE_NOT_FOUND => 4041
      case METHOD_NOT_ALLOWED => 405
      case CONFLICT => 409
      case RESOURCE_ALREADY_EXISTS => 4091
      case DUPLICATE_ENTRY => 4092
      case TOO_MANY_REQUESTS => 429
      case INTERNAL_SERVER_ERROR => 500
      case SERVICE_UNAVAILABLE => 503
      case DATABASE_ERROR => 5001
      case EXTERNAL_SERVICE_ERROR => 5002
      case TEMPLATE_LOADING_ERROR => 5003
      case FILE_UPLOAD_FAILED => 5004
      case CONFIGURATION_ERROR => 5005
      case USER_NOT_FOUND => 4041
      case USER_ALREADY_EXISTS => 4091
      case EMAIL_ALREADY_REGISTERED => 4092
      case PHONE_ALREADY_REGISTERED => 4093
      case PASSWORD_MISMATCH => 4016
      case PASSWORD_INVALID_FORMAT => 4004
      case VERIFICATION_CODE_EXPIRED => 4005
      case VERIFICATION_CODE_MISMATCH => 4006
      case OPERATION_NOT_ALLOWED => 4032
      case ORDER_NOT_FOUND => 4042
      case ORDER_STATUS_INVALID => 4007
      case INSUFFICIENT_STOCK => 4094
      case PAYMENT_FAILED => 4008
      case DATA_INTEGRITY_VIOLATION => 4095
    }

    /** getI18nKey(). */
    function I18nKey(): string {
      match this
      case SUCCESS => "common.success"
      case CREATED => "common.created"
      case ACCEPTED => "common.accepted"
      case NO_CONTENT => "common.no_content"
      case BAD_REQUEST => "client.bad_request"
      case VALIDATION_FAILED => "client.validation_failed"
      case MISSING_PARAMETER => "client.missing_parameter"
      case INVALID_FORMAT => "client.invalid_format"
      case UNAUTHORIZED => "client.unauthorized"
      case INVALID_CREDENTIALS => "client.invalid_credentials"
      case TOKEN_EXPIRED => "client.token_expired"
      case TOKEN_INVALID => "client.token_invalid"
      case ACCOUNT_LOCKED => "client.account_locked"
      case ACCOUNT_DISABLED => "client.account_disabled"
      case FORBIDDEN => "client.forbidden"
      case PERMISSION_DENIED => "client.permission_denied"
      case NOT_FOUND => "client.not_found"
      case RESOURCE_NOT_FOUND => "client.resource_not_found"
      case METHOD_NOT_ALLOWED => "client.method_not_allowed"
      case CONFLICT => "client.conflict"
      case RESOURCE_ALREADY_EXISTS => "client.resource_already_exists"
      case DUPLICATE_ENTRY => "client.duplicate_entry"
      case TOO_MANY_REQUESTS => "client.too_many_requests"
      case INTERNAL_SERVER_ERROR => "server.internal_error"
      case SERVICE_UNAVAILABLE => "server.unavailable"
      case DATABASE_ERROR => "server.database_error"
      case EXTERNAL_SERVICE_ERROR => "server.external_service_error"
      case TEMPLATE_LOADING_ERROR => "server.template_loading_error"
      case FILE_UPLOAD_FAILED => "server.file_upload_failed"
      case CONFIGURATION_ERROR => "server.configuration_error"
      case USER_NOT_FOUND => "business.user.not_found"
      case USER_ALREADY_EXISTS => "business.user.already_exists"
      case EMAIL_ALREADY_REGISTERED => "business.user.email_registered"
      case PHONE_ALREADY_REGISTERED => "business.user.phone_registered"
      case PASSWORD_MISMATCH => "business.user.password_mismatch"
      case PASSWORD_INVALID_FORMAT => "business.user.password_invalid_format"
      case VERIFICATION_CODE_EXPIRED => "business.auth.verification_code_expired"
      case VERIFICATION_CODE_MISMATCH => "business.auth.verification_code_mismatch"
      case OPERATION_NOT_ALLOWED => "business.operation_not_allowed"
      case ORDER_NOT_FOUND => "business.order.not_found"
      case ORDER_STATUS_INVALID => "business.order.status_invalid"
      case INSUFFICIENT_STOCK => "business.order.insufficient_stock"
      case PAYMENT_FAILED => "business.payment_failed"
      case DATA_INTEGRITY_VIOLATION => "business.data_integrity_violation"
    }
  }

  /** The number of constants. */
  const Count := 44

  /** values()[i]: the constants in declaration order. */
  function Nth(i: nat): ResultCode
    requires i < Count
  {
    match i
    case 0 => SUCCESS
    case 1 => CREATED
    case 2 => ACCEPTED
    case 3 => NO_CONTENT
    case 4 => BAD_REQUEST
    case 5 => VALIDATION_FAILED
    case 6 => MISSING_PARAMETER
    case 7 => INVALID_FORMAT
    case 8 => UNAUTHORIZED
    case 9 => INVALID_CREDENTIALS
    case 10 => TOKEN_EXPIRED
    case 11 => TOKEN_INVALID
    case 12 => ACCOUNT_LOCKED
    case 13 => ACCOUNT_DISABLED
    case 14 => FORBIDDEN
    case 15 => PERMISSION_DENIED
    case 16 => NOT_FOUND
    case 17 => RESOURCE_NOT_FOUND
    case 18 => METHOD_NOT_ALLOWED
    case 19 => CONFLICT
    case 20 => RESOURCE_ALREADY_EXISTS
    case 21 => DUPLICATE_ENTRY
    case 22 => TOO_MANY_REQUESTS
    case 23 => INTERNAL_SERVER_ERROR
    case 24 => SERVICE_UNAVAILABLE
    case 25 => DATABASE_ERROR
    case 26 => EXTERNAL_SERVICE_ERROR
    case 27 => TEMPLATE_LOADING_ERROR
    case 28 => FILE_UPLOAD_FAILED
    case 29 => CONFIGURATION_ERROR
    case 30 => USER_NOT_FOUND
    case 31 => USER_ALREADY_EXISTS
    case 32 => EMAIL_ALREADY_REGISTERED
    case 33 => PHONE_ALREADY_REGISTERED
    case 34 => PASSWORD_MISMATCH
    case 35 => PASSWORD_INVALID_FORMAT
    case 36 => VERIFICATION_CODE_EXPIRED
    case 37 => VERIFICATION_CODE_MISMATCH
    case 38 => OPERATION_NOT_ALLOWED
    case 39 => ORDER_NOT_FOUND
    case 40 => ORDER_STATUS_INVALID
    case 41 => INSUFFICIENT_STOCK
    case 42 => PAYMENT_FAILED
    case _ => DATA_INTEGRITY_VIOLATION // 43
  }

  /** fromCode's loop from position i on: the first constant at or after i
      with this code, or None. */
  function SearchFrom(code: int, i: nat): (r: Option<ResultCode>)
    requires i <= Count
    ensures r.Some? ==> r.value.Code() == code
    ensures r.None? <==> forall j :: i <= j < Count ==> Nth(j).Code() != code
    ensures r.Some? ==> exists k :: i <= k < Count && Nth(k) == r.value
                                    && forall j :: i <= j < k ==> Nth(j).Code() != code
    decreases Count - i
  {
    if i == Count then None
    else if Nth(i).Code() == code then Some(Nth(i))
    else SearchFrom(code, i + 1)
  }

  /** fromCode: the first constant in declaration order with this code
      (see FirstAt), INTERNAL_SERVER_ERROR when there is none. */
  function FromCode(code: int): (r: ResultCode)
    ensures r.Code() == code || r == INTERNAL_SERVER_ERROR
  {
    var found := SearchFrom(code, 0);
    if found.Some? then found.value else INTERNAL_SERVER_ERROR
  }

  /** The constant fromCode returns is the first one in values() with the code. */
  lemma FirstAt(code: int, i: nat)
    requires i < Count && Nth(i).Code() == code
    requires forall j :: 0 <= j < i ==> Nth(j).Code() != code
    ensures FromCode(code) == Nth(i)
  {
    var found := SearchFrom(code, 0);
    var k :| 0 <= k < Count && Nth(k) == found.value
             && forall j :: 0 <= j < k ==> Nth(j).Code() != code;
    assert k == i;
  }

  /** ordinal(): the position of a constant in values(). */
  function Ordinal(r: ResultCode): (i: nat)
    ensures i < Count && Nth(i) == r
  {
    match r
    case SUCCESS => 0
    case CREATED => 1
    case ACCEPTED => 2
    case NO_CONTENT => 3
    case BAD_REQUEST => 4
    case VALIDATION_FAILED => 5
    case MISSING_PARAMETER => 6
    case INVALID_FORMAT => 7
    case UNAUTHORIZED => 8
    case INVALID_CREDENTIALS => 9
    case TOKEN_EXPIRED => 10
    case TOKEN_INVALID => 11
    case ACCOUNT_LOCKED => 12
    case ACCOUNT_DISABLED => 13
    case FORBIDDEN => 14
    case PERMISSION_DENIED => 15
    case NOT_FOUND => 16
    case RESOURCE_NOT_FOUND => 17
    case METHOD_NOT_ALLOWED => 18
    case CONFLICT => 19
    case RESOURCE_ALREADY_EXISTS => 20
    case DUPLICATE_ENTRY => 21
    case TOO_MANY_REQUESTS => 22
    case INTERNAL_SERVER_ERROR => 23
    case SERVICE_UNAVAILABLE => 24
    case DATABASE_ERROR => 25
    case EXTERNAL_SERVICE_ERROR => 26
    case TEMPLATE_LOADING_ERROR => 27
    case FILE_UPLOAD_FAILED => 28
    case CONFIGURATION_ERROR => 29
    case USER_NOT_FOUND => 30
    case USER_ALREADY_EXISTS => 31
    case EMAIL_ALREADY_REGISTERED => 32
    case PHONE_ALREADY_REGISTERED => 33
    case PASSWORD_MISMATCH => 34
    case PASSWORD_INVALID_FORMAT => 35
    case VERIFICATION_CODE_EXPIRED => 36
    case VERIFICATION_CODE_MISMATCH => 37
    case OPERATION_NOT_ALLOWED => 38
    case ORDER_NOT_FOUND => 39
    case ORDER_STATUS_INVALID => 40
    case INSUFFICIENT_STOCK => 41
    case PAYMENT_FAILED => 42
    case DATA_INTEGRITY_VIOLATION => 43
  }

  /** Every constant's code maps back to a constant with that same code. */
  lemma FromCodeKeepsCode(c: ResultCode)
    ensures FromCode(c.Code()).Code() == c.Code()
  {
    assert Nth(Ordinal(c)).Code() == c.Code();
  }

  /** A code no constant has falls back to INTERNAL_SERVER_ERROR. */
  lemma FromCodeUnknown(code: int)
    requires forall c: ResultCode :: c.Code() != code
    ensures FromCode(code) == INTERNAL_SERVER_ERROR
  {
    assert forall j :: 0 <= j < Count ==> Nth(j).Code() != code;
  }

  lemma StandardCodes()
    ensures FromCode(200) == SUCCESS
    ensures FromCode(429) == TOO_MANY_REQUESTS
  {
    FirstAt(200, 0);
    FirstAt(429, 22);
  }

  /** USER_NOT_FOUND reuses 4041, declared earlier by RESOURCE_NOT_FOUND. */
  lemma UserNotFoundResolvesToResourceNotFound()
    ensures FromCode(USER_NOT_FOUND.Code()) == RESOURCE_NOT_FOUND
  {
    assert USER_NOT_FOUND.Code() == 4041;
    FirstAt(4041, 17);
  }

  /** USER_ALREADY_EXISTS reuses 4091, declared earlier by RESOURCE_ALREADY_EXISTS. */
  lemma UserAlreadyExistsResolvesToResourceAlreadyExists()
    ensures FromCode(USER_ALREADY_EXISTS.Code()) == RESOURCE_ALREADY_EXISTS
  {
    assert USER_ALREADY_EXISTS.Code() == 4091;
    FirstAt(4091, 20);
  }

  /** EMAIL_ALREADY_REGISTERED reuses 4092, declared earlier by DUPLICATE_ENTRY. */
  lemma EmailAlreadyRegisteredResolvesToDuplicateEntry()
    ensures FromCode(EMAIL_ALREADY_REGISTERED.Code()) == DUPLICATE_ENTRY
  {
    assert EMAIL_ALREADY_REGISTERED.Code() == 4092;
    FirstAt(4092, 21);
  }

  /** So fromCode is not a left inverse of getCode. */
  lemma FromCodeNotLeftInverse()
    ensures exists c: ResultCode :: FromCode(c.Code()) != c
  {
    UserNotFoundResolvesToResourceNotFound();
    assert FromCode(USER_NOT_FOUND.Code()) != USER_NOT_FOUND;
  }

  /** No constant has code 999, so it falls back. */
  lemma UnknownCodeFallsBack()
    ensures FromCode(999) == INTERNAL_SERVER_ERROR
  {
    FromCodeUnknown(999);
  }
}
