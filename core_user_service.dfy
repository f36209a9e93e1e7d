/**
  The core user service (core.service.impl.UserServiceImpl): argument
  guards, registration with duplicate rejection, activation, the account
  queries, and the partial update of a user's profile. Each operation that
  writes is a function from the old table to the new one (or to the
  exception it throws, with the table untouched), and the service class
  applies it to its mapper table. The BCrypt encoder is a function
  parameter and the random number in the default user name is a choice.
*/
module CoreUserService {
  import opened Wrappers
  import opened Failures
  import opened JavaText
  import opened Genders
  import opened UserStatuses
  import opened Users

  const IdMessage := "用户ID必须是正整数。"
  const EmailMessage := "用户邮箱不能为空。"
  const CreateRequestMessage := "用户创建请求不能为空。"
  const UpdateRequestMessage := "用户更新请求不能为空。"
  const ActivateEmailMessage := "激活邮箱不能为空。"
  /** BCryptPasswordEncoder.encode(null). */
  const NullPasswordMessage := "rawPassword cannot be null"

  function AlreadyRegisteredMessage(email: string): string {
    "邮箱 " + email + " 已被注册。"
  }

  function EmailNotFoundMessage(email: string): string {
    "邮箱为 " + email + " 的用户不存在。"
  }

  function IdNotFoundMessage(id: int): string {
    "用户ID " + IntString(id) + " 不存在。"
  }

  function InvalidGenderMessage(gender: string): string {
    "无效的性别值: " + gender
  }

  /** The invariant of the users table: numbered rows, one row per address. */
  predicate TableValid(rows: Table) {
    Numbered(rows) && UniqueEmails(rows)
  }

  // ---------------------------------------------------------------- queries

  /** getUserById: a null or non-positive id is refused; otherwise the row
      with that id, if any. */
  function GetUserById(rows: Table, id: Option<int>): (r: Result<Option<User>, Failure>)
    requires Numbered(rows)
    ensures r.Err? <==> id.None? || id.value < 1
    ensures r.Err? ==> r.error == InvalidUserArgument(IdMessage)
    ensures r.Ok? ==> (r.value.Some? <==> id.value <= |rows|)
    ensures r.Ok? && r.value.Some? ==> r.value.value == rows[id.value - 1]
  {
    if id.None? || id.value < 1 then Err(InvalidUserArgument(IdMessage))
    else
      SelectByIdNumbered(rows, id.value);
      Ok(SelectById(rows, id))
  }

  /** getUserByEmail: a null or blank address is refused; otherwise the row
      with that address, if any. */
  function GetUserByEmail(rows: Table, email: Option<string>): (r: Result<Option<User>, Failure>)
    ensures r.Err? <==> !HasText(email)
    ensures r.Err? ==> r.error == InvalidUserArgument(EmailMessage)
    ensures r.Ok? ==> (r.value.Some? <==> HasEmail(rows, email))
    ensures r.Ok? && r.value.Some? ==> r.value.value in rows && r.value.value.email == email
  {
    if !HasText(email) then Err(InvalidUserArgument(EmailMessage))
    else Ok(SelectByEmail(rows, email))
  }

  /** existsByEmail: false for a null or blank address without asking the table. */
  function ExistsByEmail(rows: Table, email: Option<string>): (r: bool)
    ensures r <==> HasText(email) && HasEmail(rows, email)
  {
    if !HasText(email) then false
    else
      SelectFindsExisting(rows, email);
      SelectByEmail(rows, email).Some?
  }

  /** isEmailVerified: false for a null or blank address; otherwise whether
      the row with that address has its e-mail verified. */
  function IsEmailVerified(rows: Table, email: Option<string>): (r: bool)
    ensures r ==> HasText(email) && HasEmail(rows, email)
    ensures r <==> HasText(email) && exists i :: 0 <= i < |rows| && rows[i].email == email
                                                && rows[i].emailVerified == Some(true)
    ensures UniqueEmails(rows) && HasText(email) && HasEmail(rows, email) ==>
              (r <==> SelectByEmail(rows, email).value.emailVerified == Some(true))
  {
    HasText(email) && exists i :: 0 <= i < |rows| && rows[i].email == email
                                 && rows[i].emailVerified == Some(true)
  }

  /** isPhoneVerified is not implemented yet: it answers false for every number. */
  function IsPhoneVerified(phone: Option<string>): (r: bool)
    ensures !r
  {
    if !HasText(phone) then false else false
  }

  /** isUserActivated(User): only ACTIVE counts. */
  predicate IsUserActivated(user: Option<User>) {
    user.Some? && user.value.status == Some(ACTIVE)
  }

  /** isUserActivated(String): getUserByEmail's refusal of a blank address
      escapes; an unknown address is not activated. */
  function IsUserActivatedByEmail(rows: Table, email: Option<string>): (r: Result<bool, Failure>)
    ensures r.Err? <==> !HasText(email)
    ensures r.Err? ==> r.error == InvalidUserArgument(EmailMessage)
    ensures r.Ok? ==> (r.value <==> HasEmail(rows, email) && SelectByEmail(rows, email).value.status == Some(ACTIVE))
  {
    var found := GetUserByEmail(rows, email);
    if found.Err? then Err(found.error) else Ok(IsUserActivated(found.value))
  }

  // ---------------------------------------------------------------- insertUser

  /** insertUser with `n` the number Random.nextInt(1000000) draws: the
      guards in order, then a new INACTIVE, unverified row holding the
      address, the encoded password and the default user name. */
  function Insert(rows: Table, request: Option<CreateRequest>, bcrypt: string -> string, n: nat)
    : (r: Result<Table, Failure>)
    requires n < 1_000_000
    ensures r.Err? <==> request.None? || !HasText(request.value.email)
                        || HasEmail(rows, request.value.email) || request.value.password.None?
    ensures request.None? ==> r == Err(InvalidUserArgument(CreateRequestMessage))
    ensures request.Some? && !HasText(request.value.email) ==> r == Err(InvalidUserArgument(EmailMessage))
    ensures request.Some? && HasText(request.value.email) && HasEmail(rows, request.value.email) ==>
              r == Err(UserAlreadyExists(AlreadyRegisteredMessage(request.value.email.value)))
    ensures (request.Some? && HasText(request.value.email) && !HasEmail(rows, request.value.email)
             && request.value.password.None?) ==> r == Err(IllegalArgument(NullPasswordMessage))
    ensures r.Ok? ==> |r.value| == |rows| + 1 && r.value[..|rows|] == rows
    ensures r.Ok? ==> var u := r.value[|rows|];
                      && u.id == Some(|rows| + 1) && u.email == request.value.email
                      && u.status == Some(INACTIVE)
                      && u.emailVerified == Some(false) && u.phoneVerified == Some(false)
                      && u.passwordHash == Some(bcrypt(request.value.password.value))
                      && u.username == Some(DefaultUsername(n))
    ensures r.Ok? && UniqueEmails(rows) ==> UniqueEmails(r.value)
  {
    if request.None? then Err(InvalidUserArgument(CreateRequestMessage))
    else if !HasText(request.value.email) then Err(InvalidUserArgument(EmailMessage))
    else if ExistsByEmail(rows, request.value.email) then
      Err(UserAlreadyExists(AlreadyRegisteredMessage(request.value.email.value)))
    else if request.value.password.None? then Err(IllegalArgument(NullPasswordMessage))
    else
      var user := EmptyUser.(email := request.value.email, status := Some(INACTIVE),
                             passwordHash := Some(bcrypt(request.value.password.value)),
                             phoneVerified := Some(false), emailVerified := Some(false),
                             username := Some(DefaultUsername(n)));
      Ok(InsertRow(rows, user))
  }

  // ---------------------------------------------------------------- activateUser

  /** activateUser: the row with the address becomes ACTIVE with its e-mail
      verified; a blank or unknown address is refused. */
  function Activate(rows: Table, email: Option<string>): (r: Result<Table, Failure>)
    requires Numbered(rows)
    ensures r.Err? <==> !HasText(email) || !HasEmail(rows, email)
    ensures !HasText(email) ==> r == Err(InvalidUserArgument(ActivateEmailMessage))
    ensures HasText(email) && !HasEmail(rows, email) ==> r == Err(UserNotFound(EmailNotFoundMessage(email.value)))
    ensures r.Ok? ==> |r.value| == |rows| && Numbered(r.value)
    ensures r.Ok? ==> forall i :: 0 <= i < |rows| ==>
              if rows[i] == SelectByEmail(rows, email).value
              then r.value[i] == rows[i].(status := Some(ACTIVE), emailVerified := Some(true))
              else r.value[i] == rows[i]
  {
    if !HasText(email) then Err(InvalidUserArgument(ActivateEmailMessage))
    else
      var stored := SelectByEmail(rows, email);
      if stored.None? then Err(UserNotFound(EmailNotFoundMessage(email.value)))
      else
        var activated := stored.value.(status := Some(ACTIVE), emailVerified := Some(true));
        RowAtItsId(rows, stored.value);
        PatchChangedCopy(stored.value, activated);
        Ok(UpdateRow(rows, activated))
  }

  /** The row activateUser leaves behind. */
  function ActivatedRow(u: User): User {
    u.(status := Some(ACTIVE), emailVerified := Some(true))
  }

  /** With unique addresses, activating the address of row k rewrites row k
      and nothing else. */
  lemma ActivateAt(rows: Table, email: Option<string>, k: int)
    requires TableValid(rows) && HasText(email) && 0 <= k < |rows| && rows[k].email == email
    ensures Activate(rows, email) == Ok(rows[k := ActivatedRow(rows[k])])
  {
    SelectUnique(rows, email, k);
    var r := Activate(rows, email).value;
    assert r == rows[k := ActivatedRow(rows[k])];
  }

  /** After activation the address reads as activated and verified. */
  lemma ActivatedAfterActivation(rows: Table, email: Option<string>)
    requires TableValid(rows) && HasText(email) && HasEmail(rows, email)
    ensures Activate(rows, email).Ok?
    ensures IsUserActivatedByEmail(Activate(rows, email).value, email) == Ok(true)
    ensures IsEmailVerified(Activate(rows, email).value, email)
  {
    var k :| 0 <= k < |rows| && rows[k].email == email;
    ActivateAt(rows, email, k);
    var after := rows[k := ActivatedRow(rows[k])];
    assert forall i :: 0 <= i < |after| ==> after[i].email == rows[i].email;
    SelectUnique(after, email, k);
    assert after[k].emailVerified == Some(true);
  }

  /** Activating twice is activating once. */
  lemma ActivateIdempotent(rows: Table, email: Option<string>)
    requires TableValid(rows) && HasText(email) && HasEmail(rows, email)
    ensures Activate(rows, email).Ok? && Activate(Activate(rows, email).value, email) == Activate(rows, email)
  {
    var k :| 0 <= k < |rows| && rows[k].email == email;
    ActivateAt(rows, email, k);
    var once := rows[k := ActivatedRow(rows[k])];
    assert forall i :: 0 <= i < |once| ==> once[i].email == rows[i].email && once[i].id == rows[i].id;
    ActivateAt(once, email, k);
    assert once[k := ActivatedRow(once[k])] == once;
  }

  /** A freshly registered account is not activated until activateUser runs. */
  lemma NewAccountNotActivated(rows: Table, request: Option<CreateRequest>, bcrypt: string -> string, n: nat)
    requires n < 1_000_000 && UniqueEmails(rows)
    requires Insert(rows, request, bcrypt, n).Ok?
    ensures IsUserActivatedByEmail(Insert(rows, request, bcrypt, n).value, request.value.email) == Ok(false)
    ensures !IsEmailVerified(Insert(rows, request, bcrypt, n).value, request.value.email)
  {
    var after := Insert(rows, request, bcrypt, n).value;
    var email := request.value.email;
    assert after[|rows|].email == email;
    assert HasEmail(after, email);
    assert forall i :: 0 <= i < |rows| ==> after[i] == rows[i] && rows[i].email != email;
  }

  // ---------------------------------------------------------------- updates

  /** Gender.valueOf(gender.toUpperCase()); only ASCII letters can spell a
      constant's name after upper-casing. */
  function ParseGender(gender: string): Option<Gender> {
    GenderValueOf(ToUpperAscii(gender))
  }

  /** The city after an update naming a province or a city: the user's City
      (a new one when there is none) with each non-blank name written. */
  function UpdatedCity(current: Option<City>, stateProvince: Option<string>, city: Option<string>): (r: City)
    ensures HasText(stateProvince) ==> r.provinceName == stateProvince
    ensures HasText(city) ==> r.name == city
    ensures !HasText(stateProvince) ==> r.provinceName == (if current.Some? then current.value.provinceName else None)
    ensures !HasText(city) ==> r.name == (if current.Some? then current.value.name else None)
  {
    var base := if current.Some? then current.value else City(None, None);
    var withProvince := if HasText(stateProvince) then base.(provinceName := stateProvince) else base;
    if HasText(city) then withProvince.(name := city) else withProvince
  }

  /** A supplied birthday that LocalDate.parse refuses; `isoDate` stands for
      LocalDate.parse accepting the text. */
  predicate BirthdayRejected(request: UpdateRequest, isoDate: string -> bool) {
    request.birthday.Some? && !isoDate(request.birthday.value)
  }

  /** updateUserFields: the user after the request's non-blank fields are
      applied, or the first exception raised: DateTimeParseException from the
      birthday setter, then the one an unknown gender raises. */
  function UpdateFields(user: User, request: UpdateRequest,
                        bcrypt: string -> string, isoDate: string -> bool): (r: Result<User, Failure>)
    ensures r.Err? <==> BirthdayRejected(request, isoDate)
                        || (HasText(request.gender) && ParseGender(request.gender.value).None?)
    ensures BirthdayRejected(request, isoDate) ==> r == Err(DateTimeParse(request.birthday.value))
    ensures r.Err? && !BirthdayRejected(request, isoDate) ==>
              r.error == InvalidUserArgument(InvalidGenderMessage(request.gender.value))
    ensures r.Ok? ==> r.value.username == (if HasText(request.username) then request.username else user.username)
    ensures r.Ok? ==>
              r.value.passwordHash == (if HasText(request.password) then Some(bcrypt(request.password.value))
                                       else user.passwordHash)
    ensures r.Ok? ==> r.value.phoneNumber == (if HasText(request.phoneNumber) then request.phoneNumber else user.phoneNumber)
    ensures r.Ok? ==> r.value.birthday == (if request.birthday.Some? then request.birthday else user.birthday)
    ensures r.Ok? ==>
              r.value.gender == (if HasText(request.gender) then ParseGender(request.gender.value) else user.gender)
    ensures r.Ok? ==>
              r.value.city == (if request.stateProvince.Some? || request.city.Some?
                               then Some(UpdatedCity(user.city, request.stateProvince, request.city))
                               else user.city)
    ensures r.Ok? ==> ChangedFrom(r.value, user)
    ensures r.Ok? ==> r.value.(username := user.username, passwordHash := user.passwordHash,
                               phoneNumber := user.phoneNumber, birthday := user.birthday,
                               gender := user.gender, city := user.city) == user
  {
    var gender := if HasText(request.gender) then ParseGender(request.gender.value) else user.gender;
    if BirthdayRejected(request, isoDate) then Err(DateTimeParse(request.birthday.value))
    else if HasText(request.gender) && gender.None? then
      Err(InvalidUserArgument(InvalidGenderMessage(request.gender.value)))
    else
      var username := if HasText(request.username) then request.username else user.username;
      var passwordHash := if HasText(request.password) then Some(bcrypt(request.password.value)) else user.passwordHash;
      var phoneNumber := if HasText(request.phoneNumber) then request.phoneNumber else user.phoneNumber;
      var birthday := if request.birthday.Some? then request.birthday else user.birthday;
      var city := if request.stateProvince.Some? || request.city.Some?
                  then Some(UpdatedCity(user.city, request.stateProvince, request.city)) else user.city;
      assert username == user.username || username.Some?;
      assert passwordHash == user.passwordHash || passwordHash.Some?;
      assert phoneNumber == user.phoneNumber || phoneNumber.Some?;
      assert gender == user.gender || gender.Some?;
      assert city == user.city || city.Some?;
      Ok(user.(username := username, passwordHash := passwordHash, phoneNumber := phoneNumber,
               birthday := birthday, gender := gender, city := city))
  }

  /** A request that supplies nothing leaves the user as it was. */
  lemma EmptyRequestChangesNothing(user: User, id: Option<int>, email: Option<string>,
                                   bcrypt: string -> string, isoDate: string -> bool)
    ensures UpdateFields(user, UpdateRequest(id, None, None, email, None, None, None, None, None), bcrypt, isoDate)
            == Ok(user)
  {
  }

  /** Blank fields count as not supplied, except a blank province or city
      name, which still gives the user a City. */
  lemma BlankCityStillCreatesCity(user: User, bcrypt: string -> string, isoDate: string -> bool)
    requires user.city.None?
    ensures UpdateFields(user, UpdateRequest(None, Some(""), Some(" "), None, None, None, None, Some(""), None),
        bcrypt, isoDate)
            == Ok(user.(city := Some(City(None, None))))
  {
    assert !HasText(Some(""));
    assert !HasText(Some(" "));
  }

  /** The gender is matched against the constant names without regard to
      the case of ASCII letters; only the birthday can still fail the update. */
  lemma GenderIgnoresCase(user: User, request: UpdateRequest, g: Gender,
                          bcrypt: string -> string, isoDate: string -> bool)
    requires request.gender.Some? && ToUpperAscii(request.gender.value) == g.Name()
    ensures UpdateFields(user, request, bcrypt, isoDate).Ok? <==> !BirthdayRejected(request, isoDate)
    ensures UpdateFields(user, request, bcrypt, isoDate).Ok? ==>
              UpdateFields(user, request, bcrypt, isoDate).value.gender == Some(g)
  {
    GenderNameRoundTrip(g);
    assert request.gender.value != [];
    var c := request.gender.value[0];
    assert UpperChar(c) == g.Name()[0];
    assert !IsWhitespace(c);
  }

  /** A birthday LocalDate.parse refuses is reported ahead of an invalid
      gender, and the update by address then writes nothing. */
  lemma BirthdayCheckedFirst(rows: Table, email: string, request: UpdateRequest,
                             bcrypt: string -> string, isoDate: string -> bool)
    requires Numbered(rows) && HasText(Some(email)) && HasEmail(rows, Some(email))
    requires BirthdayRejected(request, isoDate)
    ensures UpdateByEmail(rows, Some(email), Some(request), bcrypt, isoDate)
            == Err(DateTimeParse(request.birthday.value))
  {
  }

  /** Applying a request without a new password twice is applying it once. */
  lemma UpdateFieldsIdempotent(user: User, request: UpdateRequest,
                               bcrypt: string -> string, isoDate: string -> bool)
    requires UpdateFields(user, request, bcrypt, isoDate).Ok? && !HasText(request.password)
    ensures UpdateFields(UpdateFields(user, request, bcrypt, isoDate).value, request, bcrypt, isoDate)
            == UpdateFields(user, request, bcrypt, isoDate)
  {
  }

  /** updateUserByEmail: the guards in order, then the updated row is written. */
  function UpdateByEmail(rows: Table, email: Option<string>, request: Option<UpdateRequest>,
                         bcrypt: string -> string, isoDate: string -> bool): (r: Result<Table, Failure>)
    requires Numbered(rows)
    ensures !HasText(email) ==> r == Err(InvalidUserArgument(EmailMessage))
    ensures HasText(email) && request.None? ==> r == Err(InvalidUserArgument(UpdateRequestMessage))
    ensures HasText(email) && request.Some? && !HasEmail(rows, email) ==>
              r == Err(UserNotFound(EmailNotFoundMessage(email.value)))
    ensures r.Ok? <==> HasText(email) && request.Some? && HasEmail(rows, email)
                       && UpdateFields(SelectByEmail(rows, email).value, request.value, bcrypt, isoDate).Ok?
    ensures r.Ok? ==> Numbered(r.value) && |r.value| == |rows|
    ensures r.Ok? ==> var u := SelectByEmail(rows, email).value;
              forall i :: 0 <= i < |rows| ==>
                r.value[i] == if rows[i] == u then UpdateFields(u, request.value, bcrypt, isoDate).value else rows[i]
  {
    if !HasText(email) then Err(InvalidUserArgument(EmailMessage))
    else if request.None? then Err(InvalidUserArgument(UpdateRequestMessage))
    else
      var existing := SelectByEmail(rows, email);
      if existing.None? then Err(UserNotFound(EmailNotFoundMessage(email.value)))
      else Write(rows, existing.value, UpdateFields(existing.value, request.value, bcrypt, isoDate))
  }

  /** updateUserById: the guards in order, then the updated row is written. */
  function UpdateById(rows: Table, id: Option<int>, request: Option<UpdateRequest>,
                      bcrypt: string -> string, isoDate: string -> bool): (r: Result<Table, Failure>)
    requires Numbered(rows)
    ensures id.None? || id.value < 1 ==> r == Err(InvalidUserArgument(IdMessage))
    ensures id.Some? && id.value >= 1 && request.None? ==> r == Err(InvalidUserArgument(UpdateRequestMessage))
    ensures id.Some? && id.value > |rows| && request.Some? ==> r == Err(UserNotFound(IdNotFoundMessage(id.value)))
    ensures r.Ok? <==> id.Some? && 1 <= id.value <= |rows| && request.Some?
                       && UpdateFields(rows[id.value - 1], request.value, bcrypt, isoDate).Ok?
    ensures r.Ok? ==> Numbered(r.value) && |r.value| == |rows|
    ensures r.Ok? ==> r.value == rows[id.value - 1 := UpdateFields(rows[id.value - 1], request.value, bcrypt, isoDate).value]
  {
    if id.None? || id.value < 1 then Err(InvalidUserArgument(IdMessage))
    else if request.None? then Err(InvalidUserArgument(UpdateRequestMessage))
    else
      SelectByIdNumbered(rows, id.value);
      var existing := SelectById(rows, id);
      if existing.None? then Err(UserNotFound(IdNotFoundMessage(id.value)))
      else Write(rows, existing.value, UpdateFields(existing.value, request.value, bcrypt, isoDate))
  }

  /** The write-back after updateUserFields: the exception, or the updated
      record stored over its row. */
  function Write(rows: Table, existing: User, updated: Result<User, Failure>): (r: Result<Table, Failure>)
    requires Numbered(rows) && existing in rows
    requires updated.Ok? ==> ChangedFrom(updated.value, existing) && updated.value.id == existing.id
    ensures updated.Err? ==> r == Err(updated.error)
    ensures updated.Ok? ==> r.Ok? && Numbered(r.value)
                            && r.value == rows[existing.id.value - 1 := updated.value]
  {
    RowAtItsId(rows, existing);
    if updated.Err? then Err(updated.error)
    else
      PatchChangedCopy(existing, updated.value);
      Ok(UpdateRow(rows, updated.value))
  }

  /** Updates never change an address, so addresses stay unique. */
  lemma UpdateKeepsEmails(rows: Table, email: Option<string>, request: Option<UpdateRequest>,
                          bcrypt: string -> string, isoDate: string -> bool)
    requires TableValid(rows) && UpdateByEmail(rows, email, request, bcrypt, isoDate).Ok?
    ensures TableValid(UpdateByEmail(rows, email, request, bcrypt, isoDate).value)
  {
    var after := UpdateByEmail(rows, email, request, bcrypt, isoDate).value;
    assert forall i :: 0 <= i < |rows| ==> after[i].email == rows[i].email;
  }

  // ---------------------------------------------------------------- the service

  class UserService {
    /** The users table behind UserMapper. */
    var rows: Table

    ghost predicate Valid()
      reads this
    {
      TableValid(rows)
    }

    constructor (rows: Table)
      requires TableValid(rows)
      ensures Valid() && this.rows == rows
    {
      this.rows := rows;
    }

    /** insertUser. */
    method InsertUser(request: Option<CreateRequest>, bcrypt: string -> string) returns (r: Result<(), Failure>)
      requires Valid()
      modifies this
      ensures Valid()
      ensures r.Err? ==> rows == old(rows) && Insert(old(rows), request, bcrypt, 0) == Err(r.error)
      ensures r.Ok? ==> exists n :: 0 <= n < 1_000_000 && Insert(old(rows), request, bcrypt, n) == Ok(rows)
    {
      if request.None? {
        return Err(InvalidUserArgument(CreateRequestMessage));
      }
      var email := request.value.email;
      if !HasText(email) {
        return Err(InvalidUserArgument(EmailMessage));
      }
      if ExistsByEmail(rows, email) {
        return Err(UserAlreadyExists(AlreadyRegisteredMessage(email.value)));
      }
      var user := EmptyUser.(email := email);
      user := user.(status := Some(INACTIVE));
      if request.value.password.None? {
        return Err(IllegalArgument(NullPasswordMessage));
      }
      user := user.(passwordHash := Some(bcrypt(request.value.password.value)));
      user := user.(phoneVerified := Some(false));
      user := user.(emailVerified := Some(false));
      var n: nat :| n < 1_000_000;
      user := user.(username := Some(DefaultUsername(n)));
      rows := InsertRow(rows, user);
      assert Insert(old(rows), request, bcrypt, n) == Ok(rows);
      r := Ok(());
    }

    /** activateUser. */
    method ActivateUser(email: Option<string>) returns (r: Result<(), Failure>)
      requires Valid()
      modifies this
      ensures Valid()
      ensures r.Err? ==> rows == old(rows) && Activate(old(rows), email) == Err(r.error)
      ensures r.Ok? ==> Activate(old(rows), email) == Ok(rows)
    {
      if !HasText(email) {
        return Err(InvalidUserArgument(ActivateEmailMessage));
      }
      var storedUser := SelectByEmail(rows, email);
      if storedUser.None? {
        return Err(UserNotFound(EmailNotFoundMessage(email.value)));
      }
      var user := storedUser.value;
      user := user.(status := Some(ACTIVE));
      user := user.(emailVerified := Some(true));
      RowAtItsId(rows, storedUser.value);
      PatchChangedCopy(storedUser.value, user);
      rows := UpdateRow(rows, user);
      assert forall i :: 0 <= i < |rows| ==> rows[i].email == old(rows)[i].email;
      r := Ok(());
    }

    /** updateUserByEmail. */
    method UpdateUserByEmail(email: Option<string>, request: Option<UpdateRequest>,
                             bcrypt: string -> string, isoDate: string -> bool)
      returns (r: Result<(), Failure>)
      requires Valid()
      modifies this
      ensures Valid()
      ensures r.Err? ==> rows == old(rows) && UpdateByEmail(old(rows), email, request, bcrypt, isoDate) == Err(r.error)
      ensures r.Ok? ==> UpdateByEmail(old(rows), email, request, bcrypt, isoDate) == Ok(rows)
    {
      if !HasText(email) {
        return Err(InvalidUserArgument(EmailMessage));
      }
      if request.None? {
        return Err(InvalidUserArgument(UpdateRequestMessage));
      }
      var existingUser := SelectByEmail(rows, email);
      if existingUser.None? {
        return Err(UserNotFound(EmailNotFoundMessage(email.value)));
      }
      var updated := UpdateUserFields(existingUser.value, request.value, bcrypt, isoDate);
      if updated.Err? {
        return Err(updated.error);
      }
      UpdateKeepsEmails(rows, email, request, bcrypt, isoDate);
      RowAtItsId(rows, existingUser.value);
      rows := rows[existingUser.value.id.value - 1 := updated.value];
      r := Ok(());
    }

    /** updateUserById. */
    method UpdateUserById(userId: Option<int>, request: Option<UpdateRequest>,
                          bcrypt: string -> string, isoDate: string -> bool)
      returns (r: Result<(), Failure>)
      requires Valid()
      modifies this
      ensures Valid()
      ensures r.Err? ==> rows == old(rows) && UpdateById(old(rows), userId, request, bcrypt, isoDate) == Err(r.error)
      ensures r.Ok? ==> UpdateById(old(rows), userId, request, bcrypt, isoDate) == Ok(rows)
    {
      if userId.None? || userId.value < 1 {
        return Err(InvalidUserArgument(IdMessage));
      }
      if request.None? {
        return Err(InvalidUserArgument(UpdateRequestMessage));
      }
      SelectByIdNumbered(rows, userId.value);
      var existingUser := SelectById(rows, userId);
      if existingUser.None? {
        return Err(UserNotFound(IdNotFoundMessage(userId.value)));
      }
      var updated := UpdateUserFields(existingUser.value, request.value, bcrypt, isoDate);
      if updated.Err? {
        return Err(updated.error);
      }
      var k := userId.value - 1;
      assert forall i :: 0 <= i < |rows| ==> rows[k := updated.value][i].email == rows[i].email;
      rows := rows[k := updated.value];
      r := Ok(());
    }

    /** deleteUser has an empty body: it changes nothing. */
    method DeleteUser(userId: Option<int>)
    {
    }

    /** updateUserFields, one field at a time on the record read from the table. */
    method UpdateUserFields(existingUser: User, request: UpdateRequest,
                            bcrypt: string -> string, isoDate: string -> bool)
      returns (r: Result<User, Failure>)
      ensures r == UpdateFields(existingUser, request, bcrypt, isoDate)
    {
      var user := existingUser;
      if HasText(request.username) {
        user := user.(username := request.username);
      }
      if HasText(request.password) {
        user := user.(passwordHash := Some(bcrypt(request.password.value)));
      }
      if HasText(request.phoneNumber) {
        user := user.(phoneNumber := request.phoneNumber);
      }
      if request.birthday.Some? {
        if !isoDate(request.birthday.value) {
          return Err(DateTimeParse(request.birthday.value));
        }
        user := user.(birthday := request.birthday);
      }
      if HasText(request.gender) {
        var gender := ParseGender(request.gender.value);
        if gender.None? {
          return Err(InvalidUserArgument(InvalidGenderMessage(request.gender.value)));
        }
        user := user.(gender := gender);
      }
      if request.stateProvince.Some? || request.city.Some? {
        var userCity := user.city;
        if userCity.None? {
          userCity := Some(City(None, None));
          user := user.(city := userCity);
        }
        if HasText(request.stateProvince) {
          userCity := Some(userCity.value.(provinceName := request.stateProvince));
        }
        if HasText(request.city) {
          userCity := Some(userCity.value.(name := request.city));
        }
        user := user.(city := userCity);
      }
      r := Ok(user);
    }
  }
}
