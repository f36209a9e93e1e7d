/**
  The user records both user services keep, the requests they accept, and
  the users table as the mapper sees it: rows in insertion order, numbered
  from 1 by the identity column. A record is a value: a service reads a row,
  builds the changed record and writes it back through the mapper.
*/
module Users {
  import opened Wrappers
  import opened JavaText
  import opened Genders
  import opened UserStatuses
  import Lookup

  /** The city a user lives in; a new City() has both names null. */
  datatype City = City(name: Option<string>, provinceName: Option<string>)

  /** A user record; every field is a nullable reference. The birthday is the
      date text it was set from. */
  datatype User = User(
    id: Option<int>,
    email: Option<string>,
    phoneNumber: Option<string>,
    passwordHash: Option<string>,
    salt: Option<string>,
    username: Option<string>,
    birthday: Option<string>,
    gender: Option<Gender>,
    city: Option<City>,
    status: Option<UserStatus>,
    emailVerified: Option<bool>,
    phoneVerified: Option<bool>)

  /** new User(). */
  const EmptyUser := User(None, None, None, None, None, None, None, None, None, None, None, None)

  /** UserCreateRequest: the password and the e-mail address. */
  datatype CreateRequest = CreateRequest(password: Option<string>, email: Option<string>)

  /** UserUpdateRequest: each field is optional. */
  datatype UpdateRequest = UpdateRequest(
    id: Option<int>,
    username: Option<string>,
    password: Option<string>,
    email: Option<string>,
    phoneNumber: Option<string>,
    birthday: Option<string>,
    gender: Option<string>,
    stateProvince: Option<string>,
    city: Option<string>)

  /** The user name a new account gets: "用户" and a number. */
  function DefaultUsername(n: nat): (name: string)
    requires n < 1_000_000
    ensures 3 <= |name| <= 8
    ensures name[..2] == "用户" && AllDigits(name[2..])
    ensures DigitsValue(name[2..]) == n
  {
    var digits := Decimal(n);
    DecimalValue(n);
    DecimalLengthBelow(n, 6);
    assert ("用户" + digits)[2..] == digits;
    "用户" + digits
  }

  /** A number below 10^k has at most k digits. */
  lemma {:induction false} DecimalLengthBelow(n: nat, k: nat)
    requires 1 <= k && n < Pow10(k)
    ensures |Decimal(n)| <= k
    decreases k
  {
    if n >= 10 {
      assert Pow10(k) == 10 * Pow10(k - 1);
      DecimalLengthBelow(n / 10, k - 1);
    }
  }

  // ---------------------------------------------------------------- the table

  /** The rows a mapper holds. */
  type Table = seq<User>

  /** The identity column: row i has id i + 1. */
  predicate Numbered(rows: Table) {
    forall i :: 0 <= i < |rows| ==> rows[i].id == Some(i + 1)
  }

  function EmailOf(u: User): Option<string> { u.email }

  function IdOf(u: User): Option<int> { u.id }

  /** selectUserByEmail: the row with this e-mail address (the first, should
      there be several); a null address matches no row. */
  function SelectByEmail(rows: Table, email: Option<string>): (r: Option<User>)
    ensures r.Some? ==> email.Some? && r.value in rows && r.value.email == email
    ensures r.None? <==> email.None? || forall i :: 0 <= i < |rows| ==> rows[i].email != email
  {
    if email.None? then None else Lookup.FindFirst(rows, EmailOf, email)
  }

  /** existsByEmail: some row has this (non-null) e-mail address. */
  predicate HasEmail(rows: Table, email: Option<string>) {
    email.Some? && exists i :: 0 <= i < |rows| && rows[i].email == email
  }

  /** A row is found by e-mail exactly when one exists. */
  lemma SelectFindsExisting(rows: Table, email: Option<string>)
    ensures SelectByEmail(rows, email).Some? <==> HasEmail(rows, email)
  {
  }

  /** selectUserById: the row with this id; a null id matches no row. */
  function SelectById(rows: Table, id: Option<int>): (r: Option<User>)
    ensures r.Some? ==> id.Some? && r.value in rows && r.value.id == id
  {
    if id.None? then None else Lookup.FindFirst(rows, IdOf, id)
  }

  /** In a numbered table, id k names row k - 1, and ids outside 1..|rows| name none. */
  lemma SelectByIdNumbered(rows: Table, id: int)
    requires Numbered(rows)
    ensures 1 <= id <= |rows| ==> SelectById(rows, Some(id)) == Some(rows[id - 1])
    ensures !(1 <= id <= |rows|) ==> SelectById(rows, Some(id)).None?
  {
    var r := Lookup.FindFirst(rows, IdOf, Some(id));
    if 1 <= id <= |rows| {
      assert IdOf(rows[id - 1]) == Some(id);
      var k :| 0 <= k < |rows| && rows[k] == r.value
               && forall j :: 0 <= j < k ==> IdOf(rows[j]) != Some(id);
    } else {
      assert forall i :: 0 <= i < |rows| ==> IdOf(rows[i]) != Some(id);
    }
  }

  /** A row of a numbered table sits at the position its id names. */
  lemma RowAtItsId(rows: Table, u: User)
    requires Numbered(rows) && u in rows
    ensures u.id.Some? && 1 <= u.id.value <= |rows| && rows[u.id.value - 1] == u
  {
    var k :| 0 <= k < |rows| && rows[k] == u;
  }

  /** No two rows share a (non-null) e-mail address. */
  predicate UniqueEmails(rows: Table) {
    forall i, j :: 0 <= i < j < |rows| && rows[i].email.Some? ==> rows[i].email != rows[j].email
  }

  /** With unique addresses, the row holding an address is the one found. */
  lemma SelectUnique(rows: Table, email: Option<string>, k: int)
    requires UniqueEmails(rows) && email.Some? && 0 <= k < |rows| && rows[k].email == email
    ensures SelectByEmail(rows, email) == Some(rows[k])
  {
    assert forall i :: 0 <= i < |rows| && i != k ==> rows[i].email != email;
    var u := SelectByEmail(rows, email).value;
    var j :| 0 <= j < |rows| && rows[j] == u;
    assert j == k;
  }

  /** Inserting a row: the identity column gives it the next id. */
  function InsertRow(rows: Table, u: User): (r: Table)
    ensures Numbered(rows) ==> Numbered(r)
    ensures |r| == |rows| + 1 && r[..|rows|] == rows
    ensures r[|rows|] == u.(id := Some(|rows| + 1))
  {
    rows + [u.(id := Some(|rows| + 1))]
  }

  // ---------------------------------------------------------------- updateUser

  /** A nullable field of an update: the new value when it is not null. */
  function Or<T>(update: Option<T>, current: Option<T>): Option<T> {
    if update.Some? then update else current
  }

  /** The row after updateUser(u): every non-null field of `u` is written,
      every null one keeps the stored value. */
  function Patch(row: User, u: User): (r: User)
  {
    User(Or(u.id, row.id), Or(u.email, row.email), Or(u.phoneNumber, row.phoneNumber),
         Or(u.passwordHash, row.passwordHash), Or(u.salt, row.salt), Or(u.username, row.username),
         Or(u.birthday, row.birthday), Or(u.gender, row.gender), Or(u.city, row.city),
         Or(u.status, row.status), Or(u.emailVerified, row.emailVerified),
         Or(u.phoneVerified, row.phoneVerified))
  }

  /** Writing an all-null record changes nothing. */
  lemma PatchEmpty(row: User)
    ensures Patch(row, EmptyUser) == row
  {
  }

  /** Writing the same record twice is writing it once. */
  lemma PatchIdempotent(row: User, u: User)
    ensures Patch(Patch(row, u), u) == Patch(row, u)
  {
  }

  /** `u` is the stored row with some fields set to non-null values. */
  predicate ChangedFrom(u: User, row: User) {
    && (u.id == row.id || u.id.Some?)
    && (u.email == row.email || u.email.Some?)
    && (u.phoneNumber == row.phoneNumber || u.phoneNumber.Some?)
    && (u.passwordHash == row.passwordHash || u.passwordHash.Some?)
    && (u.salt == row.salt || u.salt.Some?)
    && (u.username == row.username || u.username.Some?)
    && (u.birthday == row.birthday || u.birthday.Some?)
    && (u.gender == row.gender || u.gender.Some?)
    && (u.city == row.city || u.city.Some?)
    && (u.status == row.status || u.status.Some?)
    && (u.emailVerified == row.emailVerified || u.emailVerified.Some?)
    && (u.phoneVerified == row.phoneVerified || u.phoneVerified.Some?)
  }

  /** A record read from the row and then only given non-null values is
      stored exactly as it is. */
  lemma PatchChangedCopy(row: User, u: User)
    requires ChangedFrom(u, row)
    ensures Patch(row, u) == u
  {
  }

  /** mapper.updateUser(u): the row whose id is u.id is patched with u;
      without such a row nothing changes. */
  function UpdateRow(rows: Table, u: User): (r: Table)
    ensures |r| == |rows|
    ensures forall i :: 0 <= i < |rows| && Some(i + 1) != u.id ==> r[i] == rows[i]
    ensures forall i :: 0 <= i < |rows| && Some(i + 1) == u.id ==> r[i] == Patch(rows[i], u)
    ensures Numbered(rows) ==> Numbered(r)
  {
    if u.id.Some? && 1 <= u.id.value <= |rows| then
      rows[u.id.value - 1 := Patch(rows[u.id.value - 1], u)]
    else rows
  }
}
