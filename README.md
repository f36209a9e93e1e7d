# Tessa credential logic in Dafny

This project models the credential logic of Tessa, a Spring Boot user
service, and proves what its code promises. The model covers:

- **One-time codes.** The one-time verification-code service in both of its
  variants (`AuthVerification`, `UserVerification`). It works over a key/value
  store with time-to-live (`KeyValueStore`, standing for Redis). The model
  covers the argument checks, the once-a-minute throttle, code generation,
  single-use verification and the shape of the store keys.
- **Tokens.** The access/refresh token logic of `JwtServiceImpl`
  (`JwtServiceOps`) and of the older `JwtUtils` (`JwtUtilsOps`). This covers
  configuration checks, the claims each token kind carries, validation,
  refresh-token discrimination, role claims and remaining validity. Tokens
  are signed compact JWTs (section 3 of RFC 7515, section 4 of RFC 7519).
  `JwtTokens` models them as a claims set plus the secret they were signed
  with.
- **SMS sender.** The SMS sender's argument checks, template naming and
  `${key}` substitution loop (`SmsSender`).
- **Password policy.** The password policy check (`PasswordValidation`).
- **Salted passwords.** The salted SHA-256 password tool with its hex
  encoding loop (`PasswordHashing`).
- **User accounts.** The two user services over the users table
  (`CoreUserService`, `UserAccountService`, over `Users`). This covers
  argument guards, registration, activation, the two notions of "activated"
  and the partial profile update.
- **Lookup tables.** `ResultCodes`, `VerificationKinds`, `UserStatuses` and
  `Genders`.
- **Response envelope.** The factories of the API response envelope
  (`ApiResponses`).

Code that changes state is modelled with state:

- The verification services, the token services and the user services are
  classes. Their fields are the store, the signing key or the table, and
  their methods state the new state.
- The hex loop and the template loop are methods with loop invariants.
- The field-by-field profile update is a method without a loop.
- Each method is proved against a specification function.
- The lemmas that state the source's promises (throttling, single use,
  round trips, idempotence, "a refused call changes nothing") are proved
  about those functions.

Java's nullable references are `Option`s, and thrown exceptions are `Err`
values of `Failures.Failure`. Outside inputs are parameters:

- the clock, as `now` in milliseconds;
- SHA-256, as a `Digest`;
- BCrypt, as a `string -> string` function;
- the random UUID, as a 36-character `Uuid`;
- the SMS transport and the template resources.

Random numbers are nondeterministic choices (`:|`) in methods and explicit
arguments in the functions that specify them.

The users table is a sequence of rows numbered by the identity column. The
user mapper's `updateUser` writes every non-null field of the record it is
given, and `selectUserByEmail` returns the first row with the address.

## Model

| member | source | states |
|---|---|---|
| AuthVerification.RedisKeyInjective | src/main/java/com/noahmiller/tessa/auth/service/impl/VerificationServiceImpl.java:192-195 | two keys built from (channel, target, type, infix) with infix "code:" or "send:" are equal only when all four parts are equal, because type and channel names hold no ':' |
| AuthVerification.CodeKeyIsNotSendKey | src/main/java/com/noahmiller/tessa/auth/service/impl/VerificationServiceImpl.java:39-40 | a code key never equals a send-time key, for any two identities |
| AuthVerification.ValidateSendParameters | src/main/java/com/noahmiller/tessa/auth/service/impl/VerificationServiceImpl.java:115-125 | no failure exactly when channel and type are non-null and the target has text; otherwise an IllegalArgumentException |
| AuthVerification.CheckThrottle | src/main/java/com/noahmiller/tessa/auth/service/impl/VerificationServiceImpl.java:169-187 | the store is either unchanged or has the send record deleted; a refusal leaves it unchanged; no record means sending is allowed |
| AuthVerification.ThrottleWindow | src/main/java/com/noahmiller/tessa/auth/service/impl/VerificationServiceImpl.java:169-187 | after a send time t0 is recorded, canSendCode at `now` allows exactly when now >= t0 + 60 000 ms, and changes nothing |
| AuthVerification.Dispatch | src/main/java/com/noahmiller/tessa/auth/service/impl/VerificationServiceImpl.java:200-217 | EMAIL always hands a mail on; APP fails with UnsupportedOperationException; a PHONE success is a text to the target, rendered from the type's template in an iteration order of the parameter map |
| AuthVerification.Verify | src/main/java/com/noahmiller/tessa/auth/service/impl/VerificationServiceImpl.java:97-108 | true exactly when the stored code has text and equals the input; the code is deleted exactly on true |
| AuthVerification.SendRejectsBadArguments | src/main/java/com/noahmiller/tessa/auth/service/impl/VerificationServiceImpl.java:66-68 | a null channel, null type or blank target gives an IllegalArgumentException with the store and outbox unchanged |
| AuthVerification.SendThrottledChangesNothing | src/main/java/com/noahmiller/tessa/auth/service/impl/VerificationServiceImpl.java:71-73 | a throttled send fails with the "too frequent" RuntimeException and changes nothing |
| AuthVerification.SendWritesBothRecords | src/main/java/com/noahmiller/tessa/auth/service/impl/VerificationServiceImpl.java:76-85 | past the throttle, the code is readable for 300 s and the send time for 60 s, no other key changes, an APP send still fails after both writes, and EMAIL succeeds |
| AuthVerification.ResendThrottled | src/main/java/com/noahmiller/tessa/auth/service/impl/VerificationServiceImpl.java:66-86 | after a send, a second send for the same identity is allowed exactly from 60 000 ms on |
| AuthVerification.SentCodeVerifiesOnce | src/main/java/com/noahmiller/tessa/auth/service/impl/VerificationServiceImpl.java:97-108 | the code just sent verifies within its 300 s, and the same code then fails |
| AuthVerification.PhoneSendCarriesStoredCode | src/main/java/com/noahmiller/tessa/auth/service/impl/VerificationServiceImpl.java:66-86 | a PHONE send past the throttle, to a valid number with a 6-digit code and a template holding one "${code}" and no other '$', succeeds, sends that template with the stored code in place of the placeholder, and stores the code |
| AuthVerification.VerifySingleUse | src/main/java/com/noahmiller/tessa/auth/service/impl/VerificationServiceImpl.java:102-107 | a failed verification changes nothing; after a success the same code fails |
| AuthVerification.FormatZeroPadded | src/main/java/com/noahmiller/tessa/auth/service/impl/VerificationServiceImpl.java:135-136 | the formatted number is all digits, exactly `width` long when that exceeds its decimal length (else its decimal form's length), and reads back as the number |
| AuthVerification.GenerateVerificationCode | src/main/java/com/noahmiller/tessa/auth/service/impl/VerificationServiceImpl.java:130-137 | refused exactly for lengths outside 4..8; otherwise exactly `length` digits with a non-zero first digit |
| AuthVerification.VerificationService.SendVerificationCode | src/main/java/com/noahmiller/tessa/auth/service/impl/VerificationServiceImpl.java:66-86 | the result, new store and outbox are those of Send for the code drawn, which is a 6-digit code, and for an iteration order of the SMS parameter map |
| AuthVerification.VerificationService.VerifyVerificationCode | src/main/java/com/noahmiller/tessa/auth/service/impl/VerificationServiceImpl.java:97-108 | the answer and new store are those of Verify |
| AuthVerification.VerificationService.CanSendCode | src/main/java/com/noahmiller/tessa/auth/service/impl/VerificationServiceImpl.java:169-187 | the answer and new store are those of CheckThrottle |
| AuthVerification.VerificationService.SaveVerificationCode | src/main/java/com/noahmiller/tessa/auth/service/impl/VerificationServiceImpl.java:142-151 | the code key is set to the code with a 300 s lifetime |
| AuthVerification.VerificationService.RecordSendTime | src/main/java/com/noahmiller/tessa/auth/service/impl/VerificationServiceImpl.java:156-164 | the send key is set to the current milliseconds with a 60 s lifetime |
| AuthVerification.VerificationService.SendCodeThroughChannel | src/main/java/com/noahmiller/tessa/auth/service/impl/VerificationServiceImpl.java:200-217 | the outcome is Dispatch's for the order in which the SMS sender's parameter map was iterated, which lists each parameter exactly once |
| UserVerification.CodeKeyIsNotSendTimeKey | src/main/java/com/noahmiller/tessa/user/verification/service/impl/VerificationServiceImpl.java:38-41 | a ":verify:" key never equals a ":send_time:" key |
| UserVerification.VerifyKeyInjectiveForType | src/main/java/com/noahmiller/tessa/user/verification/service/impl/VerificationServiceImpl.java:108 | for one type code, different addresses have different keys |
| UserVerification.VerifyKeyAmbiguous | src/main/java/com/noahmiller/tessa/user/verification/service/impl/VerificationServiceImpl.java:71 | with no separator, type "reset" with "_password@x" and type "reset_password" with "@x" share a key |
| UserVerification.CheckThrottle | src/main/java/com/noahmiller/tessa/user/verification/service/impl/VerificationServiceImpl.java:128-152 | the store is either unchanged or has the record deleted; a refusal leaves it unchanged; no record allows sending |
| UserVerification.ThrottleWindow | src/main/java/com/noahmiller/tessa/user/verification/service/impl/VerificationServiceImpl.java:128-152 | after a send time t0, sending is allowed exactly from t0 + 60 000 ms |
| UserVerification.Verify | src/main/java/com/noahmiller/tessa/user/verification/service/impl/VerificationServiceImpl.java:107-119 | true exactly when a value is stored and equals the input; deleted exactly on true |
| UserVerification.SendThrottledChangesNothing | src/main/java/com/noahmiller/tessa/user/verification/service/impl/VerificationServiceImpl.java:60-64 | a throttled send fails with RuntimeException and writes nothing |
| UserVerification.SendWritesBothRecords | src/main/java/com/noahmiller/tessa/user/verification/service/impl/VerificationServiceImpl.java:66-96 | past the throttle the send succeeds, whatever the mail does; the code lives 300 s, the send time 60 s, and no other key changes |
| UserVerification.ResendThrottled | src/main/java/com/noahmiller/tessa/user/verification/service/impl/VerificationServiceImpl.java:60-83 | a second send is allowed exactly from 60 000 ms after the first |
| UserVerification.SentCodeVerifiesOnce | src/main/java/com/noahmiller/tessa/user/verification/service/impl/VerificationServiceImpl.java:107-119 | the code just sent verifies within its lifetime, and only once |
| UserVerification.VerifySingleUse | src/main/java/com/noahmiller/tessa/user/verification/service/impl/VerificationServiceImpl.java:112-118 | a failed verification changes nothing; after a success the same code fails |
| UserVerification.GenerateRandomCode | src/main/java/com/noahmiller/tessa/user/verification/service/impl/VerificationServiceImpl.java:160-167 | exactly `length` digits, no leading zero, reading back as a number in [10^(length-1), 10^length) |
| UserVerification.EmailVerificationService.SendVerificationCode | src/main/java/com/noahmiller/tessa/user/verification/service/impl/VerificationServiceImpl.java:60-97 | the result, store and outbox are those of Send for the 6-digit code drawn |
| UserVerification.EmailVerificationService.VerifyVerificationCode | src/main/java/com/noahmiller/tessa/user/verification/service/impl/VerificationServiceImpl.java:107-119 | the answer and new store are those of Verify |
| UserVerification.EmailVerificationService.CanSendVerificationCode | src/main/java/com/noahmiller/tessa/user/verification/service/impl/VerificationServiceImpl.java:128-152 | the answer and new store are those of CheckThrottle |
| JwtTokens.NumericDate | src/main/java/com/noahmiller/tessa/core/service/impl/JwtServiceImpl.java:102-103 | a date read back from a token is a whole second, at most one second before the instant set, and never after it |
| JwtTokens.Parse | src/main/java/com/noahmiller/tessa/core/service/impl/JwtServiceImpl.java:112-116 | a blank text is rejected first; a token parses exactly when it was signed with this key and `now` is not after its expiration, and then gives its own claims |
| JwtTokens.ParsedIsNotExpired | src/main/java/com/noahmiller/tessa/core/service/impl/JwtServiceImpl.java:220-222 | with one reading of the clock, claims that parsed are not expired |
| JwtTokens.Put | src/main/java/com/noahmiller/tessa/core/service/impl/JwtServiceImpl.java:87-91 | a put sets its claim (a null value removes it) and keeps every other claim |
| JwtTokens.IssuedLivesUntilExpiry | src/main/java/com/noahmiller/tessa/core/service/impl/JwtServiceImpl.java:102-103 | a lifetime of at least a second leaves the token unexpired at issue and expiring no later than issue + lifetime |
| JwtServiceOps.ValidateConfiguration | src/main/java/com/noahmiller/tessa/core/service/impl/JwtServiceImpl.java:236-259 | no failure exactly when the secret has text and at least 32 UTF-8 bytes, the issuer has text and both lifetimes are positive; the first two checks' exceptions and messages |
| JwtServiceOps.JwtService.Init | src/main/java/com/noahmiller/tessa/core/service/impl/JwtServiceImpl.java:56-61 | the result is the configuration check's; on success the key is the secret, on failure the key is unchanged |
| JwtServiceOps.JwtService.BuildToken | src/main/java/com/noahmiller/tessa/core/service/impl/JwtServiceImpl.java:86-106 | the token is signed with the secret and carries subject, issuer, issue and expiry dates, type, email, username, roles, and a jti exactly for refresh tokens |
| JwtServiceOps.JwtService.GenerateAccessToken | src/main/java/com/noahmiller/tessa/core/service/impl/JwtServiceImpl.java:65-68 | type "access", no jti, expiry accessExpiration after issue |
| JwtServiceOps.JwtService.GenerateRefreshToken | src/main/java/com/noahmiller/tessa/core/service/impl/JwtServiceImpl.java:72-75 | type "refresh", jti the drawn UUID, expiry refreshExpiration after issue |
| JwtServiceOps.ParseToken | src/main/java/com/noahmiller/tessa/core/service/impl/JwtServiceImpl.java:110-124 | success exactly when parsing succeeds; expiry passes through as ExpiredJwtException; other parse failures become a new JwtException with the prefixed message; a blank token is an IllegalArgumentException |
| JwtServiceOps.ValidateToken | src/main/java/com/noahmiller/tessa/core/service/impl/JwtServiceImpl.java:128-139 | true exactly when the token is signed with the key, unexpired at `now` and issued by the configured issuer |
| JwtServiceOps.ValidateRefreshToken | src/main/java/com/noahmiller/tessa/core/service/impl/JwtServiceImpl.java:143-158 | true exactly when validateToken holds, the type is "refresh" and the jti is a non-blank string |
| JwtServiceOps.GetTokenId | src/main/java/com/noahmiller/tessa/core/service/impl/JwtServiceImpl.java:172-183 | the jti exactly for a parsed refresh token with a non-blank jti; a non-refresh token is an IllegalArgumentException; parse failures escape |
| JwtServiceOps.GetRoles | src/main/java/com/noahmiller/tessa/core/service/impl/JwtServiceImpl.java:186-203 | no roles claim gives none, a list gives its elements in order, any other shape is a JwtException; parse failures escape |
| JwtServiceOps.IsTokenExpired | src/main/java/com/noahmiller/tessa/core/service/impl/JwtServiceImpl.java:207-215 | false exactly for a token that parses, true for every JwtException, and a blank token's exception escapes |
| JwtServiceOps.GetRemainingValidity | src/main/java/com/noahmiller/tessa/core/service/impl/JwtServiceImpl.java:225-233 | expiration minus `now` for a token that parses (never negative), -1 for every JwtException |
| JwtServiceOps.AccessTokenIsNotRefresh | src/main/java/com/noahmiller/tessa/core/service/impl/JwtServiceImpl.java:143-158 | an access token never passes validateRefreshToken and never yields a jti |
| JwtServiceOps.RefreshTokenValidUntilExpiry | src/main/java/com/noahmiller/tessa/core/service/impl/JwtServiceImpl.java:143-183 | a refresh token passes validateRefreshToken up to its expiry, yields its UUID as jti, and reports the remaining milliseconds |
| JwtServiceOps.TokenRejectedAfterExpiry | src/main/java/com/noahmiller/tessa/core/service/impl/JwtServiceImpl.java:117-119 | after its expiry a token fails validation, counts as expired, has validity -1, and reading its roles throws ExpiredJwtException |
| JwtServiceOps.ForeignKeyRejected | src/main/java/com/noahmiller/tessa/core/service/impl/JwtServiceImpl.java:120-123 | a token signed with another key fails validation with a wrapped JwtException |
| JwtServiceOps.RolesRoundTrip | src/main/java/com/noahmiller/tessa/core/service/impl/JwtServiceImpl.java:186-203 | the roles put into a token are read back in order, and none when none were put |
| JwtServiceOps.IssuedTokenValidAtIssue | src/main/java/com/noahmiller/tessa/core/service/impl/JwtServiceImpl.java:128-139 | a token with a lifetime of at least a second validates at its issue instant |
| JwtServiceOps.ShortLifetimeBornExpired | src/main/java/com/noahmiller/tessa/core/service/impl/JwtServiceImpl.java:103 | a 400 ms token issued at 1500 ms is already invalid at 1500 ms |
| JwtUtilsOps.ValidateKeyStrength | src/main/java/com/noahmiller/tessa/common/utils/JwtUtils.java:210-215 | no failure exactly when the secret has at least 32 UTF-8 bytes; otherwise the IllegalArgumentException with its message |
| JwtUtilsOps.JwtUtils.constructor | src/main/java/com/noahmiller/tessa/common/utils/JwtUtils.java:28-41 | an absent lifetime property takes its default, 3 600 000 ms for access and 2 592 000 000 ms for refresh |
| JwtUtilsOps.JwtUtils.BuildToken | src/main/java/com/noahmiller/tessa/common/utils/JwtUtils.java:83-94 | fails with WeakKeyException exactly for a secret under 32 bytes; otherwise signs the claims with subject, issuer, issue and expiry dates |
| JwtUtilsOps.JwtUtils.GenerateAccessToken | src/main/java/com/noahmiller/tessa/common/utils/JwtUtils.java:50-58 | type "access", email, username and roles, no jti, expiry accessExpiration after issue |
| JwtUtilsOps.JwtUtils.GenerateRefreshToken | src/main/java/com/noahmiller/tessa/common/utils/JwtUtils.java:65-74 | type "refresh" and the drawn UUID as jti, expiry refreshExpiration after issue |
| JwtUtilsOps.ParseToken | src/main/java/com/noahmiller/tessa/common/utils/JwtUtils.java:102-110 | success exactly for a strong secret and a token that parses with it; a secret under 32 UTF-8 bytes gives WeakKeyException (itself a JwtException); the one failure that is not a JwtException is a blank token under a strong secret |
| JwtUtilsOps.ValidateToken | src/main/java/com/noahmiller/tessa/common/utils/JwtUtils.java:117-125 | true exactly when the token is signed with the secret, unexpired and from the issuer; a blank token's exception escapes |
| JwtUtilsOps.ValidateRefreshToken | src/main/java/com/noahmiller/tessa/common/utils/JwtUtils.java:132-144 | true exactly when validateToken holds, the type is "refresh" and any jti is present |
| JwtUtilsOps.GetTokenId | src/main/java/com/noahmiller/tessa/common/utils/JwtUtils.java:170-176 | a non-refresh token is an IllegalArgumentException; otherwise the jti claim, possibly absent; parse failures escape |
| JwtUtilsOps.GetRoles | src/main/java/com/noahmiller/tessa/common/utils/JwtUtils.java:183-195 | succeeds exactly when parsing does: the list's elements, or no roles for a missing or other-shaped claim |
| JwtUtilsOps.KeyStrengthWeakerThanConfiguration | src/main/java/com/noahmiller/tessa/common/utils/JwtUtils.java:210-215 | every configuration JwtServiceImpl accepts passes validateKeyStrength |
| JwtUtilsOps.KeyStrengthIgnoresIssuerAndLifetimes | src/main/java/com/noahmiller/tessa/common/utils/JwtUtils.java:210-215 | a 32-byte secret with a blank issuer and non-positive lifetimes passes here but not in JwtServiceImpl |
| JwtUtilsOps.ValidateAgreesWithService | src/main/java/com/noahmiller/tessa/common/utils/JwtUtils.java:117-125 | with a strong secret and a non-blank token the two validateToken methods agree |
| JwtUtilsOps.BlankTokenEscapes | src/main/java/com/noahmiller/tessa/common/utils/JwtUtils.java:117-125 | a blank token gives false in JwtServiceImpl but an exception here |
| JwtUtilsOps.RefreshAgreesWithServiceOnPlainJti | src/main/java/com/noahmiller/tessa/common/utils/JwtUtils.java:132-144 | the two refresh checks agree when the jti is absent or a non-blank string |
| JwtUtilsOps.EmptyJtiDrift | src/main/java/com/noahmiller/tessa/common/utils/JwtUtils.java:139 | an empty jti passes here and fails in JwtServiceImpl |
| JwtUtilsOps.NegativeLifetimeBornExpired | src/main/java/com/noahmiller/tessa/common/utils/JwtUtils.java:91 | with a negative lifetime a token is already invalid at its issue time |
| JwtUtilsOps.RolesRoundTrip | src/main/java/com/noahmiller/tessa/common/utils/JwtUtils.java:183-195 | the roles put into a token are read back, and none when none were put |
| SmsSender.ValidateParameters | src/main/java/com/noahmiller/tessa/auth/service/impl/SmsVerificationSender.java:60-74 | no failure exactly when the channel is PHONE, the target has text and matches ^1[3-9]\d{9}$, the code has text and at least 4 UTF-16 units, and the type is non-null; every failure is an IllegalArgumentException |
| SmsSender.ValidPhoneIsDigits | src/main/java/com/noahmiller/tessa/auth/service/impl/SmsVerificationSender.java:76-79 | a number matching the pattern is all digits and so never blank |
| SmsSender.TemplateNameInjective | src/main/java/com/noahmiller/tessa/auth/service/impl/SmsVerificationSender.java:81-85 | different types load different template names |
| SmsSender.LoadTemplate | src/main/java/com/noahmiller/tessa/auth/service/impl/SmsVerificationSender.java:81-85 | succeeds exactly for a present, non-empty resource and returns its text; a missing one is a RuntimeException |
| SmsSender.TemplateParams | src/main/java/com/noahmiller/tessa/auth/service/impl/SmsVerificationSender.java:87-95 | the keys are exactly phone, code, type, company and expireMinutes; they map to the phone, the code, the type's description, "Tessa 系统" and "5" |
| SmsSender.TemplateParamsPlain | src/main/java/com/noahmiller/tessa/auth/service/impl/SmsVerificationSender.java:87-95 | no key holds '$' or '}' and, for digit-only phone and code, no value holds '$' |
| SmsSender.RenderTemplate | src/main/java/com/noahmiller/tessa/auth/service/impl/SmsVerificationSender.java:97-104 | the loop visits every key once, in some order, and the result is the template with each key's placeholders replaced in that order |
| SmsSender.RenderWithoutPlaceholders | src/main/java/com/noahmiller/tessa/auth/service/impl/SmsVerificationSender.java:97-104 | a template without "${" is returned unchanged, whatever the order |
| SmsSender.OtherPlaceholderAbsent | src/main/java/com/noahmiller/tessa/auth/service/impl/SmsVerificationSender.java:101 | a text whose only '$' starts the placeholder of k holds no placeholder of another key |
| SmsSender.RenderSinglePlaceholder | src/main/java/com/noahmiller/tessa/auth/service/impl/SmsVerificationSender.java:97-104 | a template with one placeholder gets that key's value in its place, whatever the order |
| SmsSender.SendCode | src/main/java/com/noahmiller/tessa/auth/service/impl/SmsVerificationSender.java:32-56 | invalid arguments fail before any load or send; a load failure propagates; otherwise the rendered text goes to the target |
| SmsSender.SmsCarriesCode | src/main/java/com/noahmiller/tessa/auth/service/impl/SmsVerificationSender.java:32-56 | for a template with one "${code}", the text sent is the template with the code in its place, for every iteration order |
| JavaText.ReplaceAllAbsent | src/main/java/com/noahmiller/tessa/auth/service/impl/SmsVerificationSender.java:101 | a replace whose target does not occur returns the string unchanged |
| JavaText.ReplaceSingle | src/main/java/com/noahmiller/tessa/auth/service/impl/SmsVerificationSender.java:101 | a single occurrence of the target is replaced and the text around it kept |
| PasswordValidation.ValidatePassword | src/main/java/com/noahmiller/tessa/core/service/impl/PasswordValidatorServiceImpl.java:21-43 | valid exactly when every check passes, and then without a message; otherwise the message of the first failing check in the order null, minimum, maximum, pattern |
| PasswordValidation.InvertedBoundsRejectAll | src/main/java/com/noahmiller/tessa/core/service/impl/PasswordValidatorServiceImpl.java:27-35 | a policy whose minimum exceeds its maximum accepts no password |
| PasswordValidation.SupplementaryCountsTwice | src/main/java/com/noahmiller/tessa/core/service/impl/PasswordValidatorServiceImpl.java:27-35 | a single character above U+FFFF has length 2 for the limits |
| PasswordHashing.Unsigned | src/main/java/com/noahmiller/tessa/common/utils/PasswordTool.java:28 | the value `%02x` prints for a byte is below 256 and congruent to the signed byte modulo 256 |
| PasswordHashing.Hex | src/main/java/com/noahmiller/tessa/common/utils/PasswordTool.java:26-30 | the text is twice as long as the digest and made of lower-case hex digits only |
| PasswordHashing.ByteRoundTrip | src/main/java/com/noahmiller/tessa/common/utils/PasswordTool.java:28 | the two digits printed for a byte read back as that same signed byte |
| PasswordHashing.HexRoundTrip | src/main/java/com/noahmiller/tessa/common/utils/PasswordTool.java:26-30 | decoding the hex text of a digest gives the digest back, so the formatting loses nothing |
| PasswordHashing.HexInjective | src/main/java/com/noahmiller/tessa/common/utils/PasswordTool.java:26-30 | two digests with the same hex text are the same digest |
| PasswordHashing.GenerateSalt | src/main/java/com/noahmiller/tessa/common/utils/PasswordTool.java:10-12 | succeeds exactly for lengths 0..36 with a prefix of the UUID text of that length; any other length is an index-out-of-bounds failure |
| PasswordHashing.GenerateDefaultSalt | src/main/java/com/noahmiller/tessa/common/utils/PasswordTool.java:14-16 | 32 characters, a prefix of the UUID text, with hyphens exactly at positions 8, 13, 18 and 23 |
| PasswordHashing.HashPassword | src/main/java/com/noahmiller/tessa/common/utils/PasswordTool.java:18-35 | the loop builds the hex text of the digest of password + salt (a null joining as "null"), two characters per digest byte |
| PasswordHashing.VerifyPassword | src/main/java/com/noahmiller/tessa/common/utils/PasswordTool.java:44-50 | true exactly when the stored hash equals the hash recomputed from the raw password and the stored salt; a null stored hash never matches |
| PasswordHashing.VerifyMatchesDigest | src/main/java/com/noahmiller/tessa/common/utils/PasswordTool.java:44-50 | comparing hash texts is the same as comparing the digests themselves |
| ResultCodes.SearchFrom | src/main/java/com/noahmiller/tessa/core/enums/ResultCode.java:101-109 | the loop from position i finds a constant with the code, and the first such one, or reports that none from i on has it |
| ResultCodes.FromCode | src/main/java/com/noahmiller/tessa/core/enums/ResultCode.java:101-109 | the constant returned has the code asked for, or is the INTERNAL_SERVER_ERROR fallback |
| ResultCodes.FirstAt | src/main/java/com/noahmiller/tessa/core/enums/ResultCode.java:101-109 | fromCode returns the first constant in declaration order that has the code |
| ResultCodes.Ordinal | src/main/java/com/noahmiller/tessa/core/enums/ResultCode.java:12-77 | every constant sits at its position among the 44 constants |
| ResultCodes.FromCodeKeepsCode | src/main/java/com/noahmiller/tessa/core/enums/ResultCode.java:101-109 | the code of any constant maps back to a constant with that same code |
| ResultCodes.FromCodeUnknown | src/main/java/com/noahmiller/tessa/core/enums/ResultCode.java:101-109 | a code no constant has gives INTERNAL_SERVER_ERROR |
| ResultCodes.StandardCodes | src/main/java/com/noahmiller/tessa/core/enums/ResultCode.java:15 | 200 gives SUCCESS and 429 gives TOO_MANY_REQUESTS |
| ResultCodes.UserNotFoundResolvesToResourceNotFound | src/main/java/com/noahmiller/tessa/core/enums/ResultCode.java:58 | USER_NOT_FOUND's code 4041 gives back RESOURCE_NOT_FOUND, declared earlier with the same code |
| ResultCodes.UserAlreadyExistsResolvesToResourceAlreadyExists | src/main/java/com/noahmiller/tessa/core/enums/ResultCode.java:59 | USER_ALREADY_EXISTS's code 4091 gives back RESOURCE_ALREADY_EXISTS |
| ResultCodes.EmailAlreadyRegisteredResolvesToDuplicateEntry | src/main/java/com/noahmiller/tessa/core/enums/ResultCode.java:60 | EMAIL_ALREADY_REGISTERED's code 4092 gives back DUPLICATE_ENTRY |
| ResultCodes.FromCodeNotLeftInverse | src/main/java/com/noahmiller/tessa/core/enums/ResultCode.java:101-109 | some constant does not survive getCode followed by fromCode |
| ResultCodes.UnknownCodeFallsBack | src/main/java/com/noahmiller/tessa/core/enums/ResultCode.java:101-109 | 999 falls back to INTERNAL_SERVER_ERROR |
| VerificationKinds.TypeFromCode | src/main/java/com/noahmiller/tessa/auth/enums/VerificationType.java:39-46 | a type found has exactly the code asked for; null means no type has that code |
| VerificationKinds.TypeIndex | src/main/java/com/noahmiller/tessa/auth/enums/VerificationType.java:11-14 | every type sits at its position in values() |
| VerificationKinds.TypeFromCodeRoundTrip | src/main/java/com/noahmiller/tessa/auth/enums/VerificationType.java:39-46 | every type's code maps back to that type |
| VerificationKinds.TypeCodesKeySafe | src/main/java/com/noahmiller/tessa/auth/enums/VerificationType.java:10-14 | every code is non-empty and made only of lower-case letters and underscores, as the comment on the constants asks |
| VerificationKinds.TypeFromCodeCaseSensitive | src/main/java/com/noahmiller/tessa/auth/enums/VerificationType.java:41 | the constant's name "REGISTER" is not a code |
| VerificationKinds.NamesHaveNoColon | src/main/java/com/noahmiller/tessa/auth/enums/VerificationChannel.java:4-6 | no type name and no channel name contains ':' |
| VerificationKinds.NamesInjective | src/main/java/com/noahmiller/tessa/auth/enums/VerificationChannel.java:4-6 | different types, and different channels, have different names |
| UserStatuses.StatusIndex | src/main/java/com/noahmiller/tessa/user/entity/UserStatus.java:4-7 | every status sits at its position in values() |
| UserStatuses.StatusFromValue | src/main/java/com/noahmiller/tessa/user/entity/UserStatus.java:22-29 | the status found has the value asked for; the IllegalArgumentException "Invalid status: " + value exactly when no status has it |
| UserStatuses.StatusRoundTrip | src/main/java/com/noahmiller/tessa/user/entity/UserStatus.java:22-29 | every status's value maps back to that status |
| UserStatuses.StatusValuesDistinct | src/main/java/com/noahmiller/tessa/user/entity/UserStatus.java:4-7 | different statuses have different values |
| UserStatuses.StatusFromValueCaseSensitive | src/main/java/com/noahmiller/tessa/user/entity/UserStatus.java:24 | the constant name "ACTIVE" is not a value and is refused |
| Genders.GenderIndex | src/main/java/com/noahmiller/tessa/user/entity_old/Gender.java:8-11 | every gender sits at its position in values() |
| Genders.GenderFromValue | src/main/java/com/noahmiller/tessa/user/entity_old/Gender.java:21-29 | the gender found has the letter asked for; an IllegalArgumentException without message exactly when none has |
| Genders.GenderValueOf | src/main/java/com/noahmiller/tessa/user/entity_old/Gender.java:7-11 | Enum.valueOf: the gender with exactly that constant name, none when no constant has it |
| Genders.GenderRoundTrip | src/main/java/com/noahmiller/tessa/user/entity_old/Gender.java:21-29 | every gender's letter maps back to that gender |
| Genders.GenderNameRoundTrip | src/main/java/com/noahmiller/tessa/user/entity_old/Gender.java:7-11 | every gender's name maps back to that gender |
| Genders.GenderValuesDistinct | src/main/java/com/noahmiller/tessa/user/entity_old/Gender.java:8-11 | different genders have different letters |
| Genders.UnknownOnlyFromU | src/main/java/com/noahmiller/tessa/user/entity_old/Gender.java:11 | UNKNOWN comes from "U" and from nothing else |
| Users.DefaultUsername | src/main/java/com/noahmiller/tessa/core/service/impl/UserServiceImpl.java:96 | "用户" followed by the decimal digits of the number drawn, 3 to 8 characters, and the digits read back as that number |
| Users.SelectByEmail | src/main/java/com/noahmiller/tessa/user/mapper/UserMapper.java:21 | a row found is in the table and has the address; nothing is found exactly when the address is null or no row has it |
| Users.SelectFindsExisting | src/main/java/com/noahmiller/tessa/user/mapper/UserMapper.java:21 | selectUserByEmail finds a row exactly when existsByEmail holds |
| Users.SelectById | src/main/java/com/noahmiller/tessa/user/mapper/UserMapper.java:15 | a row found is in the table and has the id |
| Users.SelectByIdNumbered | src/main/java/com/noahmiller/tessa/user/mapper/UserMapper.java:15 | in a table numbered by the identity column, id k finds row k exactly for 1 <= k <= size, and nothing otherwise |
| Users.RowAtItsId | src/main/java/com/noahmiller/tessa/user/mapper/UserMapper.java:15 | a row of a numbered table sits at the position its id names |
| Users.SelectUnique | src/main/java/com/noahmiller/tessa/user/mapper/UserMapper.java:21 | with unique addresses, the row holding the address is the one selected |
| Users.InsertRow | src/main/java/com/noahmiller/tessa/user/mapper/UserMapper.java:27 | the table grows by one row, keeps the old rows, gives the new one the next id, and stays numbered |
| Users.PatchEmpty | src/main/java/com/noahmiller/tessa/user/mapper/UserMapper.java:30 | writing an all-null record changes nothing |
| Users.PatchIdempotent | src/main/java/com/noahmiller/tessa/user/mapper/UserMapper.java:30 | writing the same record twice is writing it once |
| Users.PatchChangedCopy | src/main/java/com/noahmiller/tessa/user/mapper/UserMapper.java:30 | a record read from the row and then only given non-null values is stored exactly as it is |
| Users.UpdateRow | src/main/java/com/noahmiller/tessa/user/mapper/UserMapper.java:30 | only the row with the record's id changes, it becomes the patched row, and the table stays numbered |
| CoreUserService.GetUserById | src/main/java/com/noahmiller/tessa/core/service/impl/UserServiceImpl.java:43-49 | a null or non-positive id is the "用户ID必须是正整数。" refusal; otherwise the row with that id, present exactly when the id is at most the table size |
| CoreUserService.GetUserByEmail | src/main/java/com/noahmiller/tessa/core/service/impl/UserServiceImpl.java:52-58 | refused exactly for a null or blank address; otherwise a row is found exactly when one has the address, and it does |
| CoreUserService.ExistsByEmail | src/main/java/com/noahmiller/tessa/core/service/impl/UserServiceImpl.java:136-143 | true exactly when the address has text and some row has it |
| CoreUserService.IsEmailVerified | src/main/java/com/noahmiller/tessa/core/service/impl/UserServiceImpl.java:146-152 | true exactly when the address has text and some row with that address has `emailVerified == Some(true)`; with unique addresses, exactly when the row selected by that address has `emailVerified == Some(true)` |
| CoreUserService.IsPhoneVerified | src/main/java/com/noahmiller/tessa/core/service/impl/UserServiceImpl.java:155-163 | always false |
| CoreUserService.IsUserActivatedByEmail | src/main/java/com/noahmiller/tessa/core/service/impl/UserServiceImpl.java:129-133 | refused for a blank address; otherwise true exactly when the row with the address has status ACTIVE |
| CoreUserService.Insert | src/main/java/com/noahmiller/tessa/core/service/impl/UserServiceImpl.java:68-100 | each guard's exception in order (null request, blank address, address taken); otherwise one new INACTIVE, unverified row with the BCrypt hash of the password and the default user name, old rows kept and addresses still unique |
| CoreUserService.Activate | src/main/java/com/noahmiller/tessa/core/service/impl/UserServiceImpl.java:104-121 | refused for a blank address and, with UserNotFoundException, for an unknown one; otherwise only the selected row changes, to ACTIVE with its address verified |
| CoreUserService.ActivateAt | src/main/java/com/noahmiller/tessa/core/service/impl/UserServiceImpl.java:104-121 | with unique addresses, activating row k's address rewrites exactly row k |
| CoreUserService.ActivatedAfterActivation | src/main/java/com/noahmiller/tessa/core/service/impl/UserServiceImpl.java:104-152 | after activation the address reads as activated and as verified |
| CoreUserService.ActivateIdempotent | src/main/java/com/noahmiller/tessa/core/service/impl/UserServiceImpl.java:104-121 | activating twice gives the table activating once gives |
| CoreUserService.NewAccountNotActivated | src/main/java/com/noahmiller/tessa/core/service/impl/UserServiceImpl.java:68-133 | a freshly registered address is neither activated nor verified |
| CoreUserService.UpdatedCity | src/main/java/com/noahmiller/tessa/core/service/impl/UserServiceImpl.java:261-273 | a province or city with text replaces that name; otherwise the name of the user's city, or null for a new City |
| CoreUserService.UpdateFields | src/main/java/com/noahmiller/tessa/core/service/impl/UserServiceImpl.java:225-274 | fails exactly when a supplied birthday is refused by `LocalDate.parse` (DateTimeParseException, reported first) or a gender with text names no constant (the invalid-gender exception); otherwise each field with text (a birthday when non-null) is written, the password as its hash, and every other field is untouched |
| CoreUserService.EmptyRequestChangesNothing | src/main/java/com/noahmiller/tessa/core/service/impl/UserServiceImpl.java:225-274 | a request that supplies no field leaves the user as it was |
| CoreUserService.BlankCityStillCreatesCity | src/main/java/com/noahmiller/tessa/core/service/impl/UserServiceImpl.java:261-266 | blank fields count as not supplied, except that a blank province still gives a user without a city an empty City |
| CoreUserService.GenderIgnoresCase | src/main/java/com/noahmiller/tessa/core/service/impl/UserServiceImpl.java:249-257 | a gender whose upper-case form is a constant's name sets that constant, and the update then fails only for a refused birthday |
| CoreUserService.UpdateFieldsIdempotent | src/main/java/com/noahmiller/tessa/core/service/impl/UserServiceImpl.java:225-274 | without a new password, applying a request twice is applying it once |
| CoreUserService.BirthdayCheckedFirst | src/main/java/com/noahmiller/tessa/core/service/impl/UserServiceImpl.java:243-257 | a refused birthday gives DateTimeParseException even when the gender is invalid too, and nothing is written |
| CoreUserService.UpdateByEmail | src/main/java/com/noahmiller/tessa/core/service/impl/UserServiceImpl.java:167-188 | the guards' exceptions in order, then updateUserFields' exception (a refused birthday or an unknown gender); otherwise only the row with the address is replaced by its updated record, and the table stays numbered |
| CoreUserService.UpdateById | src/main/java/com/noahmiller/tessa/core/service/impl/UserServiceImpl.java:192-213 | the guards' exceptions in order, then updateUserFields' exception (a refused birthday or an unknown gender); otherwise row id - 1 is replaced by its updated record |
| CoreUserService.Write | src/main/java/com/noahmiller/tessa/core/service/impl/UserServiceImpl.java:184-186 | an update exception is passed on with nothing written; otherwise the table stays numbered |
| CoreUserService.UpdateKeepsEmails | src/main/java/com/noahmiller/tessa/core/service/impl/UserServiceImpl.java:167-188 | an update never changes an address, so addresses stay unique |
| CoreUserService.UserService.InsertUser | src/main/java/com/noahmiller/tessa/core/service/impl/UserServiceImpl.java:68-100 | the new table is Insert's for some number drawn below 1 000 000, or the table is untouched and the exception is Insert's |
| CoreUserService.UserService.ActivateUser | src/main/java/com/noahmiller/tessa/core/service/impl/UserServiceImpl.java:104-121 | the new table, or the exception with the table untouched, is Activate's |
| CoreUserService.UserService.UpdateUserByEmail | src/main/java/com/noahmiller/tessa/core/service/impl/UserServiceImpl.java:167-188 | the new table, or the exception (a refused birthday included) with the table untouched, is UpdateByEmail's |
| CoreUserService.UserService.UpdateUserById | src/main/java/com/noahmiller/tessa/core/service/impl/UserServiceImpl.java:192-213 | the new table, or the exception (a refused birthday included) with the table untouched, is UpdateById's |
| CoreUserService.UserService.UpdateUserFields | src/main/java/com/noahmiller/tessa/core/service/impl/UserServiceImpl.java:225-274 | the field-by-field updates give UpdateFields's record or exception; the birthday setter's parse failure returns before the gender step |
| UserAccountService.Insert | src/main/java/com/noahmiller/tessa/user/service/impl/UserServiceImpl.java:45-64 | the "该邮箱已经注册, 请登录" RuntimeException exactly when the address is taken; otherwise a new INACTIVE, unverified row with a 32-character salt, the hex SHA-256 of password + salt and the default user name |
| UserAccountService.RegisteredPasswordVerifies | src/main/java/com/noahmiller/tessa/user/service/impl/UserServiceImpl.java:53-55 | the stored hash is what verifyPassword recomputes from the password and the stored salt |
| UserAccountService.Activate | src/main/java/com/noahmiller/tessa/user/service/impl/UserServiceImpl.java:67-78 | an unknown or null address changes nothing; otherwise only the selected row changes, to ACTIVE and verified |
| UserAccountService.ActivateAgreesWithCore | src/main/java/com/noahmiller/tessa/user/service/impl/UserServiceImpl.java:67-78 | for a known address with text, the table is the one the core service writes |
| UserAccountService.UnknownAddressIgnored | src/main/java/com/noahmiller/tessa/user/service/impl/UserServiceImpl.java:69 | where the core service refuses an unknown address, this one changes nothing |
| UserAccountService.IsUserActivatedByEmail | src/main/java/com/noahmiller/tessa/user/service/impl/UserServiceImpl.java:81-89 | true exactly when a row has the address and its status is not INACTIVE |
| UserAccountService.ActivatedDrift | src/main/java/com/noahmiller/tessa/user/service/impl/UserServiceImpl.java:81-84 | the two services disagree exactly on a user whose status is neither ACTIVE nor INACTIVE, and this one then says activated |
| UserAccountService.NewAccountNotActivated | src/main/java/com/noahmiller/tessa/user/service/impl/UserServiceImpl.java:45-64 | a freshly registered account is activated under neither definition |
| UserAccountService.UserService.InsertRecord | src/main/java/com/noahmiller/tessa/user/service/impl/UserServiceImpl.java:40-42 | the record is inserted as it is |
| UserAccountService.UserService.InsertUser | src/main/java/com/noahmiller/tessa/user/service/impl/UserServiceImpl.java:45-64 | the new table is Insert's for some number drawn below 1 000 000, or the table is untouched and the exception is Insert's |
| UserAccountService.UserService.ActivateUser | src/main/java/com/noahmiller/tessa/user/service/impl/UserServiceImpl.java:67-78 | the new table is Activate's |
| ApiResponses.JsonMembers | src/main/java/com/noahmiller/tessa/common/api/ApiResponse.java:14 | code is always written; message, data and errors exactly when non-null |
| ApiResponses.Success | src/main/java/com/noahmiller/tessa/common/api/ApiResponse.java:44-46 | code, message and data as given, no errors, so no "errors" member in the JSON |
| ApiResponses.SuccessDefault | src/main/java/com/noahmiller/tessa/common/api/ApiResponse.java:26-28 | 200 with "操作成功": a JSON object of code and message only |
| ApiResponses.SuccessMessage | src/main/java/com/noahmiller/tessa/common/api/ApiResponse.java:30-32 | 200 with the message, no data and no errors |
| ApiResponses.SuccessData | src/main/java/com/noahmiller/tessa/common/api/ApiResponse.java:34-36 | 200 with the message and the data, no errors |
| ApiResponses.SuccessCode | src/main/java/com/noahmiller/tessa/common/api/ApiResponse.java:38-40 | the code and message given, no data and no errors |
| ApiResponses.Failure | src/main/java/com/noahmiller/tessa/common/api/ApiResponse.java:81-83 | code, message and errors as given, no data, so no "data" member in the JSON |
| ApiResponses.FailureMessage | src/main/java/com/noahmiller/tessa/common/api/ApiResponse.java:56-58 | 400 with the message, no data and no errors |
| ApiResponses.FailureErrors | src/main/java/com/noahmiller/tessa/common/api/ApiResponse.java:77-79 | 400 with the message and the errors, no data |
| ApiResponses.FailureCode | src/main/java/com/noahmiller/tessa/common/api/ApiResponse.java:60-62 | the code and message given, no data and no errors |
| ApiResponses.InvalidParams | src/main/java/com/noahmiller/tessa/common/api/ApiResponse.java:69-71 | 400 with "参数验证失败" and the errors, no data |
| ApiResponses.InvalidParamsEmpty | src/main/java/com/noahmiller/tessa/common/api/ApiResponse.java:73-75 | invalidParams with null errors: a JSON object of code and message only |
| ApiResponses.SuccessFailureOverlap | src/main/java/com/noahmiller/tessa/common/api/ApiResponse.java:22-53 | a success and a failure envelope are equal exactly when neither has data or errors and code and message agree |
| ApiResponses.SuccessWithBadRequestIsFailure | src/main/java/com/noahmiller/tessa/common/api/ApiResponse.java:38-58 | success(400, m) and failure(m) give the same envelope |
| ApiResponses.InvalidParamsJson | src/main/java/com/noahmiller/tessa/common/api/ApiResponse.java:69-71 | invalidParams with errors is written as code, message and errors |

## Left out

- Transport:
  - Mail and SMS transport, the asynchronous executor and the template
    resources (I/O) are parameters or outcomes.
  - A dispatch failure in the e-mail-only variant is swallowed, as in the
    source.
- The cryptographic primitives are parameters, because they are library code:
  - HMAC signing and jjwt parsing (a token records the secret it was signed
    with);
  - SHA-256;
  - BCrypt;
  - `UUID.randomUUID`.
- BCrypt is modelled as a deterministic function, but the real encoder salts
  each call at random. So `UpdateFieldsIdempotent` is stated only for
  requests without a new password.
- PasswordHashing.HashPassword: the `RuntimeException("密码哈希失败")` path is
  not modelled. SHA-256 and UTF-8 are always available to the JDK, so the
  digest parameter cannot fail.
- Clock reads:
  - One instant `now` stands for every clock read within one call, where
    `validateToken` reads the clock twice.
  - A token always carries "exp".
- Long arithmetic: `WrapLong` models 64-bit wrap-around of the throttle's
  subtraction. Other long sums (issue time plus lifetime) are unbounded
  integers, because lifetimes are configuration values far below the
  overflow range.
- JavaText.ParseLong: ASCII digits only. `Long.parseLong` also accepts the
  other Unicode decimal digits (through `Character.digit`); the model
  answers NumberFormatException for those.
- CheckThrottle (AuthVerification.CheckThrottle and
  UserVerification.CheckThrottle): a stored send time written in non-ASCII
  decimal digits counts as unparsable, so the key is deleted and the send
  is allowed, where `Long.parseLong` would read it. The services only ever
  store `String.valueOf(now)`, which is ASCII.
- JwtServiceOps.GetRoles: a roles list is modelled as a list of strings. A
  null element, which `Object::toString` would turn into a
  NullPointerException, is not modelled.
- JwtUtilsOps.GetRoles: a list with non-string elements, which
  `toArray(new String[0])` would reject with ArrayStoreException, is not
  modelled. Other claim shapes give the empty array, as in the source.
- The jjwt library's own exception messages (for a blank token, for
  instance) are not reproduced. Only the exception type is.
- `getUserEmailFromToken` and `getUsernameFromToken` (in both `JwtServiceImpl`
  and `JwtUtils`) are left out, because each is a parse followed by a plain
  claim read.
- PasswordValidation.ValidatePassword: the configured regular expression is
  a predicate parameter, because regex matching is library code.
- Birthdays: whether `LocalDate.parse` accepts a text is a predicate
  parameter (`isoDate`), because the ISO date grammar is library code. A
  refused text gives DateTimeParseException; its message is not
  reproduced. An accepted birthday is kept as the text it was set from,
  not as a date value. Date formatting on the way out is Jackson/JDBC work.
- User records are values, so aliasing between the entity the services
  mutate and the mapper's row is not modelled:
  - A refused birthday or an invalid gender in `updateUserFields` throws after earlier fields
    were already set on the in-memory entity. The model reports the
    exception and writes nothing, as the source does (its mapper call is
    never reached).
- The mapper XML is not part of this model. The mapper behaviour assumed is:
  - `updateUser` writes the record's non-null fields to the row with its id;
  - `existsByEmail` and `isEmailVerified` read the row with the address.
- Unique constraints of the database are not modelled. Address uniqueness is
  an invariant the core service keeps (`UniqueEmails`).
- Concurrency, the check-then-delete race in verification and the throttle
  race are left out; calls are single-threaded.
- UserVerification: the e-mail-only variant's `static` key prefix (which
  Spring does not inject) is a fixed constant.
- UserVerification.GenerateRandomCode: lengths above 9 are left out
  (requires 1..9). The double arithmetic and the int cast are exact only up
  to nine digits, and the source calls it with 6.
- The older entity classes (`entity_old`) and the current ones are merged
  into one `Users.User` record. Both services use the same fields.
- UserAccountService.Insert: a null request (a NullPointerException in the
  source) is not modelled. The request is a value.
- `deleteUser` of the core service has an empty body. It is modelled as a
  method that changes nothing.
- `getUsers` returns the whole table. It is not a separate member.
- The `HttpStatus` overloads of the response factories are modelled through
  their integer `value()`.
- The generic payload `T data` is represented by the JSON text it is written
  as (`ApiResponses.Payload`), since the factories never look inside it.
- Controllers, DTO copying (`BeanUtils.copyProperties`, beyond the e-mail
  address), configuration classes, type handlers, the i18n service and the
  exception handler are framework glue and are not part of this model.
