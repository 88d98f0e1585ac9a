/**
 * The user service over an in-memory user table: lookup by id (which needs the
 * user's secrets record), lookup by e-mail or else username, newest-first
 * pagination, administrative creation and role changes.
 */
module UserService {
  import opened Wrappers
  import opened Seqs

  /** The secrets record of a user: the password hash and the last sign-in time. */
  datatype Secrets = Secrets(password: Option<string>, lastSignedIn: int)

  datatype UserRow = UserRow(
    id: string,
    name: string,
    email: string,
    username: string,
    locale: string,
    provider: string,
    role: string,
    emailVerified: bool,
    createdAt: int,
    secrets: Option<Secrets>)

  datatype UserError = RecordNotFound | SecretsNotFound | UniqueViolation | InvalidArguments | InvalidRole

  /** The values of the `Role` enum column; the database refuses any other role. */
  const Roles: set<string> := {"USER", "ADMIN", "SUPER_ADMIN"}

  /** The table's unique columns: id, e-mail and username. */
  predicate UniqueKeys(users: seq<UserRow>) {
    forall i, j :: 0 <= i < j < |users| ==>
      users[i].id != users[j].id && users[i].email != users[j].email && users[i].username != users[j].username
  }

  /** The index of the first user satisfying `p`. */
  function Find(users: seq<UserRow>, p: UserRow -> bool): (r: Option<nat>)
    ensures r.None? <==> forall j :: 0 <= j < |users| ==> !p(users[j])
    ensures r.Some? ==> r.value < |users| && p(users[r.value])
  {
    if users == [] then None
    else if p(users[0]) then Some(0)
    else
      match Find(users[1..], p)
      case None => None
      case Some(k) => Some(k + 1)
  }

  function HasId(id: string): UserRow -> bool {
    (u: UserRow) => u.id == id
  }

  function HasEmail(email: string): UserRow -> bool {
    (u: UserRow) => u.email == email
  }

  function HasUsername(username: string): UserRow -> bool {
    (u: UserRow) => u.username == username
  }

  /** `findOneById`: a missing user is RecordNotFound; a user without secrets is SecretsNotFound. */
  function FindOneById(users: seq<UserRow>, id: string): (r: Result<UserRow, UserError>)
    ensures r.Ok? ==> r.value in users && r.value.id == id && r.value.secrets.Some?
    ensures r == Err(RecordNotFound) <==> forall j :: 0 <= j < |users| ==> users[j].id != id
    ensures r == Err(SecretsNotFound) ==> exists j :: 0 <= j < |users| && users[j].id == id && users[j].secrets.None?
    ensures r.Err? ==> r.error in {RecordNotFound, SecretsNotFound}
  {
    match Find(users, HasId(id))
    case None => Err(RecordNotFound)
    case Some(i) => if users[i].secrets.None? then Err(SecretsNotFound) else Ok(users[i])
  }

  /** In a table with unique ids, `findOneById` succeeds exactly for a stored user that has secrets. */
  lemma FindOneByIdExactly(users: seq<UserRow>, u: UserRow)
    requires UniqueKeys(users)
    requires u in users
    ensures FindOneById(users, u.id) == (if u.secrets.Some? then Ok(u) else Err(SecretsNotFound))
  {
    var k :| 0 <= k < |users| && users[k] == u;
    var i := Find(users, HasId(u.id)).value;
    assert i == k;
  }

  /** `findOneByIdentifier`: the user with that e-mail, else the user with that username, else none. */
  function FindOneByIdentifier(users: seq<UserRow>, identifier: string): (r: Option<UserRow>)
    ensures r.Some? ==> r.value in users && (r.value.email == identifier || r.value.username == identifier)
    ensures r.None? <==> forall j :: 0 <= j < |users| ==> users[j].email != identifier && users[j].username != identifier
  {
    match Find(users, HasEmail(identifier))
    case Some(i) => Some(users[i])
    case None =>
      match Find(users, HasUsername(identifier))
      case Some(i) => Some(users[i])
      case None => None
  }

  /** An e-mail match wins over another user whose username equals the identifier. */
  lemma EmailFirst(users: seq<UserRow>, identifier: string, u: UserRow)
    requires UniqueKeys(users)
    requires u in users && u.email == identifier
    ensures FindOneByIdentifier(users, identifier) == Some(u)
  {
    var k :| 0 <= k < |users| && users[k] == u;
    var i := Find(users, HasEmail(identifier)).value;
    assert i == k;
  }

  /** Without an e-mail match, the username decides. */
  lemma UsernameSecond(users: seq<UserRow>, identifier: string, u: UserRow)
    requires UniqueKeys(users)
    requires u in users && u.username == identifier
    requires forall j :: 0 <= j < |users| ==> users[j].email != identifier
    ensures FindOneByIdentifier(users, identifier) == Some(u)
  {
    var k :| 0 <= k < |users| && users[k] == u;
    var i := Find(users, HasUsername(identifier)).value;
    assert i == k;
  }

  /** `findOneByIdentifierOrThrow`: the same lookup, throwing only when neither key matches. */
  function FindOneByIdentifierOrThrow(users: seq<UserRow>, identifier: string): (r: Result<UserRow, UserError>)
    ensures r.Err? ==> r.error == RecordNotFound
  {
    match Find(users, HasEmail(identifier))
    case Some(i) => Ok(users[i])
    case None =>
      match Find(users, HasUsername(identifier))
      case Some(i) => Ok(users[i])
      case None => Err(RecordNotFound)
  }

  /** The throwing lookup agrees with the plain one: same user, and it throws exactly where the other finds nothing. */
  lemma OrThrowAgrees(users: seq<UserRow>, identifier: string)
    ensures FindOneByIdentifierOrThrow(users, identifier).Ok?
        <==> FindOneByIdentifier(users, identifier).Some?
    ensures FindOneByIdentifierOrThrow(users, identifier).Ok? ==>
      FindOneByIdentifierOrThrow(users, identifier).value == FindOneByIdentifier(users, identifier).value
  {
  }

  // ---- findAllUsers ----

  function CreatedAt(u: UserRow): int {
    u.createdAt
  }

  datatype UserPage = UserPage(users: seq<UserRow>, total: nat)

  function Min(a: int, b: int): int {
    if a <= b then a else b
  }

  /**
   * `findAllUsers(page = 1, limit = 10)`: skip `(page - 1) * limit` users of the
   * newest-first order and take `limit`; `total` counts the whole table. A negative
   * skip or take is refused.
   */
  function FindAllUsers(users: seq<UserRow>, page: Option<int>, limit: Option<int>): (r: Result<UserPage, UserError>)
    ensures var p := page.GetOr(1);
      var l := limit.GetOr(10);
      r.Ok? <==> l >= 0 && (p - 1) * l >= 0
    ensures r.Ok? ==> r.value.total == |users| && |r.value.users| <= limit.GetOr(10)
    ensures r.Ok? ==> var skip := (page.GetOr(1) - 1) * limit.GetOr(10);
      skip >= |users| ==> r.value.users == []
    ensures r.Ok? ==> var skip := (page.GetOr(1) - 1) * limit.GetOr(10);
      skip < |users| ==>
        r.value.users == SortDesc(CreatedAt, users)[skip..Min(skip + limit.GetOr(10), |users|)]
  {
    var p := page.GetOr(1);
    var l := limit.GetOr(10);
    var skip := (p - 1) * l;
    if l < 0 || skip < 0 then Err(InvalidArguments)
    else
      var sorted := SortDesc(CreatedAt, users);
      assert |sorted| == |multiset(sorted)| == |users|;
      Ok(UserPage(Slice(sorted, skip, l), |users|))
  }

  /** `skip` then `take` on a sequence. */
  function Slice<T>(s: seq<T>, skip: nat, take: nat): (r: seq<T>)
    ensures |r| <= take
    ensures skip >= |s| ==> r == []
    ensures skip < |s| ==> r == s[skip..Min(skip + take, |s|)]
  {
    if skip >= |s| then [] else s[skip..Min(skip + take, |s|)]
  }

  /**
   * Entry `m` of page `page` is the user at position `(page - 1) * limit + m` of the
   * newest-first order, for every position the table has.
   */
  lemma UserOnItsPage(users: seq<UserRow>, page: int, limit: int, m: nat)
    requires page >= 1 && 0 <= m < limit
    requires (page - 1) * limit + m < |users|
    ensures var r := FindAllUsers(users, Some(page), Some(limit));
      && r.Ok?
      && m < |r.value.users|
      && r.value.users[m] == SortDesc(CreatedAt, users)[(page - 1) * limit + m]
  {
    var sorted := SortDesc(CreatedAt, users);
    assert |sorted| == |multiset(sorted)| == |users|;
    var skip := (page - 1) * limit;
    MulNonNegative(page - 1, limit);
    var r := FindAllUsers(users, Some(page), Some(limit));
    assert r == Ok(UserPage(Slice(sorted, skip, limit), |users|));
  }

  lemma MulNonNegative(a: nat, b: nat)
    ensures a * b >= 0
  {
  }

  /** Each page is ordered newest first. */
  lemma PageNewestFirst(users: seq<UserRow>, page: Option<int>, limit: Option<int>)
    requires FindAllUsers(users, page, limit).Ok?
    ensures SortedDesc(CreatedAt, FindAllUsers(users, page, limit).value.users)
  {
    var skip := (page.GetOr(1) - 1) * limit.GetOr(10);
    var sorted := SortDesc(CreatedAt, users);
    if skip < |users| {
      var s := FindAllUsers(users, page, limit).value.users;
      forall i, j | 0 <= i < j < |s|
        ensures CreatedAt(s[i]) >= CreatedAt(s[j])
      {
        assert s[i] == sorted[skip + i] && s[j] == sorted[skip + j];
      }
    }
  }

  // ---- createUserAsAdmin and updateUserRole ----

  /** The administrator's input; `None` is an omitted optional field. */
  datatype AdminUserInput = AdminUserInput(
    name: string, email: string, username: string, password: string, role: Option<string>, locale: Option<string>)

  /**
   * The row `createUserAsAdmin` inserts: locale and role defaulted, an e-mail
   * provider, a verified e-mail, and secrets holding `hashedPassword` (the hash of
   * the input password, computed outside this model).
   */
  function AdminUserRow(data: AdminUserInput, id: string, hashedPassword: string, now: int): (r: UserRow)
    ensures r.locale == (if data.locale.Some? then data.locale.value else "en-US")
    ensures r.role == (if data.role.Some? then data.role.value else "USER")
    ensures r.provider == "email" && r.emailVerified
    ensures r.secrets == Some(Secrets(Some(hashedPassword), now))
    ensures r.name == data.name && r.email == data.email && r.username == data.username && r.id == id
  {
    UserRow(id, data.name, data.email, data.username, data.locale.GetOr("en-US"), "email",
            data.role.GetOr("USER"), true, now, Some(Secrets(Some(hashedPassword), now)))
  }

  class UserTable {
    var users: seq<UserRow>

    /** The unique keys hold, and every stored role is a value of the enum. */
    predicate Valid()
      reads this
    {
      && UniqueKeys(users)
      && forall j :: 0 <= j < |users| ==> users[j].role in Roles
    }

    constructor ()
      ensures users == [] && Valid()
    {
      users := [];
    }

    /**
     * `createUserAsAdmin`: a role outside the enum is refused before the insert; otherwise
     * insert the defaulted row, unless a taken id, e-mail or username violates a unique key.
     */
    method CreateUserAsAdmin(data: AdminUserInput, id: string, hashedPassword: string, now: int)
      returns (r: Result<UserRow, UserError>)
      modifies this
      requires Valid()
      ensures Valid()
      ensures r.Ok? <==> data.role.GetOr("USER") in Roles && forall j :: 0 <= j < |old(users)| ==>
        old(users)[j].id != id && old(users)[j].email != data.email && old(users)[j].username != data.username
      ensures r.Ok? ==> r.value == AdminUserRow(data, id, hashedPassword, now) && users == old(users) + [r.value]
      ensures r.Err? ==> users == old(users)
      ensures r.Err? ==> r.error == (if data.role.GetOr("USER") !in Roles then InvalidRole else UniqueViolation)
    {
      if data.role.GetOr("USER") !in Roles {
        return Err(InvalidRole);
      }
      if exists j :: 0 <= j < |users| && (users[j].id == id || users[j].email == data.email || users[j].username == data.username) {
        return Err(UniqueViolation);
      }
      var row := AdminUserRow(data, id, hashedPassword, now);
      users := users + [row];
      r := Ok(row);
    }

    /**
     * `updateUserRole`: a role outside the enum is refused before the lookup; otherwise
     * only the role of the user with that id changes, and a missing user is RecordNotFound.
     */
    method UpdateUserRole(id: string, role: string) returns (r: Result<UserRow, UserError>)
      modifies this
      requires Valid()
      ensures Valid()
      ensures r.Err? <==> role !in Roles || forall j :: 0 <= j < |old(users)| ==> old(users)[j].id != id
      ensures r.Err? ==> users == old(users)
      ensures r.Err? ==> r.error == (if role !in Roles then InvalidRole else RecordNotFound)
      ensures r.Ok? ==> |users| == |old(users)| && forall j :: 0 <= j < |users| ==>
        users[j] == (if old(users)[j].id == id then old(users)[j].(role := role) else old(users)[j])
      ensures r.Ok? ==> r.value.id == id && r.value.role == role && r.value in users
    {
      if role !in Roles {
        return Err(InvalidRole);
      }
      var found := Find(users, HasId(id));
      if found.None? {
        return Err(RecordNotFound);
      }
      var i := found.value;
      var updated := users[i].(role := role);
      users := users[i := updated];
      r := Ok(updated);
    }
  }
}
