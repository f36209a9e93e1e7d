/**
  The user package's service (user.service.impl.UserServiceImpl), an older
  variant of the core user service: no argument guards, a salted SHA-256
  password hash instead of BCrypt, activation that silently ignores an
  unknown address and writes a record holding only the changed fields, and
  a looser notion of "activated". The random UUID, the SHA-256 digest and
  the random number in the default user name are parameters or choices.
*/
module UserAccountService {
  import opened Wrappers
  import opened Failures
  import opened JavaText
  import opened UserStatuses
  import opened UuidText
  import opened PasswordHashing
  import opened Users
  import Core = CoreUserService

  /** UserResponseMessage.MAIL_ALREADY_REGISTER. */
  const AlreadyRegisteredMessage := "该邮箱已经注册, 请登录"

  /** insertUser(UserCreateRequest) with `n` the number Random.nextInt(1000000)
      draws: refused when the address is taken; otherwise a new INACTIVE,
      unverified row with a fresh 32-character salt and the hex SHA-256 of
      password + salt. */
  function Insert(rows: Table, request: CreateRequest, uuid: Uuid, sha256: Digest, n: nat): (r: Result<Table, Failure>)
    requires n < 1_000_000
    ensures r.Err? <==> HasEmail(rows, request.email)
    ensures r.Err? ==> r.error == Runtime(AlreadyRegisteredMessage)
    ensures r.Ok? ==> |r.value| == |rows| + 1 && r.value[..|rows|] == rows
    ensures r.Ok? ==> var u := r.value[|rows|];
                      && u.id == Some(|rows| + 1) && u.email == request.email
                      && u.status == Some(INACTIVE)
                      && u.emailVerified == Some(false) && u.phoneVerified == Some(false)
                      && u.salt == Some(GenerateDefaultSalt(uuid)) && |u.salt.value| == 32
                      && u.passwordHash == Some(Hex(sha256(Show(request.password) + u.salt.value)))
                      && u.username == Some(DefaultUsername(n))
  {
    if HasEmail(rows, request.email) then Err(Runtime(AlreadyRegisteredMessage))
    else
      var salt := GenerateDefaultSalt(uuid);
      var user := EmptyUser.(email := request.email, status := Some(INACTIVE), salt := Some(salt),
                             passwordHash := Some(Hex(sha256(Show(request.password) + salt))),
                             phoneVerified := Some(false), emailVerified := Some(false),
                             username := Some(DefaultUsername(n)));
      Ok(InsertRow(rows, user))
  }

  /** The stored hash of a new account is exactly what verifyPassword
      recomputes from the password and the stored salt, so the password
      it was registered with verifies. */
  lemma RegisteredPasswordVerifies(rows: Table, request: CreateRequest, uuid: Uuid, sha256: Digest, n: nat)
    requires n < 1_000_000 && Insert(rows, request, uuid, sha256, n).Ok?
    ensures var u := Insert(rows, request, uuid, sha256, n).value[|rows|];
            u.passwordHash == Some(Hex(sha256(Show(request.password) + Show(u.salt))))
  {
  }

  /** activateUser: an unknown (or null) address is ignored; otherwise the
      row is patched with a record holding only its id, ACTIVE and
      emailVerified = true. */
  function Activate(rows: Table, email: Option<string>): (r: Table)
    requires Numbered(rows)
    ensures Numbered(r) && |r| == |rows|
    ensures !HasEmail(rows, email) ==> r == rows
    ensures HasEmail(rows, email) ==> forall i :: 0 <= i < |rows| ==>
              if rows[i] == SelectByEmail(rows, email).value
              then r[i] == rows[i].(status := Some(ACTIVE), emailVerified := Some(true))
              else r[i] == rows[i]
  {
    var storedUser := SelectByEmail(rows, email);
    if storedUser.None? then rows
    else
      RowAtItsId(rows, storedUser.value);
      UpdateRow(rows, EmptyUser.(id := storedUser.value.id, status := Some(ACTIVE), emailVerified := Some(true)))
  }

  /** Where the core service activates an address, this one writes the same table. */
  lemma ActivateAgreesWithCore(rows: Table, email: Option<string>)
    requires Numbered(rows) && HasText(email) && HasEmail(rows, email)
    ensures Core.Activate(rows, email) == Ok(Activate(rows, email))
  {
    var core := Core.Activate(rows, email).value;
    var here := Activate(rows, email);
    assert |core| == |here|;
    forall i | 0 <= i < |core|
      ensures core[i] == here[i]
    {
    }
  }

  /** Where the core service refuses an unknown address, this one changes nothing. */
  lemma UnknownAddressIgnored(rows: Table, email: Option<string>)
    requires Numbered(rows) && HasText(email) && !HasEmail(rows, email)
    ensures Core.Activate(rows, email).Err? && Activate(rows, email) == rows
  {
  }

  /** isUserActivated(User): anything but INACTIVE counts, a null status included. */
  predicate IsUserActivated(user: Option<User>) {
    user.Some? && user.value.status != Some(INACTIVE)
  }

  /** isUserActivated(String): an unknown or null address is not activated. */
  function IsUserActivatedByEmail(rows: Table, email: Option<string>): (r: bool)
    ensures r <==> HasEmail(rows, email) && SelectByEmail(rows, email).value.status != Some(INACTIVE)
  {
    IsUserActivated(SelectByEmail(rows, email))
  }

  /** The two services disagree on a user exactly when its status is
      PENDING, BLOCKED or null: this one counts it as activated, the core
      one does not. */
  lemma ActivatedDrift(user: Option<User>)
    ensures IsUserActivated(user) != Core.IsUserActivated(user)
            <==> user.Some? && user.value.status != Some(ACTIVE) && user.value.status != Some(INACTIVE)
    ensures IsUserActivated(user) != Core.IsUserActivated(user) ==> IsUserActivated(user)
  {
  }

  /** A freshly registered account is not activated under either definition. */
  lemma NewAccountNotActivated(rows: Table, request: CreateRequest, uuid: Uuid, sha256: Digest, n: nat)
    requires n < 1_000_000 && Insert(rows, request, uuid, sha256, n).Ok?
    ensures var u := Some(Insert(rows, request, uuid, sha256, n).value[|rows|]);
            !IsUserActivated(u) && !Core.IsUserActivated(u)
  {
  }

  class UserService {
    /** The users table behind UserMapper. */
    var rows: Table

    ghost predicate Valid()
      reads this
    {
      Numbered(rows)
    }

    constructor (rows: Table)
      requires Numbered(rows)
      ensures Valid() && this.rows == rows
    {
      this.rows := rows;
    }

    /** insertUser(User): the mapper inserts the record as it is. */
    method InsertRecord(user: User)
      requires Valid()
      modifies this
      ensures Valid()
      ensures rows == InsertRow(old(rows), user)
    {
      rows := InsertRow(rows, user);
    }

    /** insertUser(UserCreateRequest). */
    method InsertUser(request: CreateRequest, uuid: Uuid, sha256: Digest) returns (r: Result<(), Failure>)
      requires Valid()
      modifies this
      ensures Valid()
      ensures r.Err? ==> rows == old(rows) && Insert(old(rows), request, uuid, sha256, 0) == Err(r.error)
      ensures r.Ok? ==> exists n :: 0 <= n < 1_000_000 && Insert(old(rows), request, uuid, sha256, n) == Ok(rows)
    {
      if HasEmail(rows, request.email) {
        return Err(Runtime(AlreadyRegisteredMessage));
      }
      var user := EmptyUser.(email := request.email);
      user := user.(status := Some(INACTIVE));
      var salt := GenerateDefaultSalt(uuid);
      user := user.(salt := Some(salt));
      var hash := HashPassword(request.password, Some(salt), sha256);
      user := user.(passwordHash := Some(hash));
      user := user.(phoneVerified := Some(false));
      user := user.(emailVerified := Some(false));
      var n: nat :| n < 1_000_000;
      user := user.(username := Some(DefaultUsername(n)));
      rows := InsertRow(rows, user);
      assert Insert(old(rows), request, uuid, sha256, n) == Ok(rows);
      r := Ok(());
    }

    /** activateUser. */
    method ActivateUser(email: Option<string>)
      requires Valid()
      modifies this
      ensures Valid()
      ensures rows == Activate(old(rows), email)
    {
      var storedUser := SelectByEmail(rows, email);
      if storedUser.None? {
        return;
      }
      var user := EmptyUser;
      user := user.(id := storedUser.value.id);
      user := user.(status := Some(ACTIVE));
      user := user.(emailVerified := Some(true));
      rows := UpdateRow(rows, user);
    }
  }
}
