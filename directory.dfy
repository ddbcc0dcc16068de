/** An in-memory stand-in for the user store (PgDatabase): the three operations
    the controller calls, over a sequence of rows in insertion order. */
module Directory {
  import opened Errors
  import opened Models

  /** One stored user: id, username, password hash and the role's name, as the
      INSERT writes them. */
  datatype Row = Row(id: Uuid, username: string, password: string, role: string)

  /** The error a lookup reports when no row matches. */
  const ErrNoRows: Error := Error("no rows in result set")

  /** The error an insert reports when the id or the username is taken. */
  const ErrDuplicateKey: Error := Error("duplicate key value violates unique constraint")

  /** No two rows share an id or a username. */
  ghost predicate Unique(rows: seq<Row>) {
    forall i, j :: 0 <= i < j < |rows| ==> rows[i].id != rows[j].id && rows[i].username != rows[j].username
  }

  /** The position of the first row satisfying `p`, or -1 when there is none. */
  function Find(rows: seq<Row>, p: Row -> bool): (i: int)
    ensures -1 <= i < |rows|
    ensures 0 <= i ==> p(rows[i]) && forall j :: 0 <= j < i ==> !p(rows[j])
    ensures i < 0 <==> forall j :: 0 <= j < |rows| ==> !p(rows[j])
    decreases |rows|
  {
    if rows == [] then -1
    else if p(rows[0]) then 0
    else
      var k := Find(rows[1..], p);
      if k < 0 then -1 else k + 1
  }

  /** FindUser: the user stored under `id`, its role parsed by RoleFromString;
      the zero user and an error when there is no such row or its role does not
      parse. */
  function FindUser(rows: seq<Row>, id: Uuid): (res: (User, Option<Error>))
    ensures res.1.Some? ==> res.0 == ZeroUser
    ensures res.1 == Some(ErrNoRows) <==> forall i :: 0 <= i < |rows| ==> rows[i].id != id
    ensures res.1.None? ==>
              res.0.id == id && res.0.role != Unknown
              && exists i :: 0 <= i < |rows| && rows[i].id == id && rows[i].username == res.0.username
                                            && rows[i].role == res.0.role.String()
  {
    var i := Find(rows, (row: Row) => row.id == id);
    if i < 0 then (ZeroUser, Some(ErrNoRows))
    else
      var (role, err) := RoleFromString(rows[i].role);
      if err.Some? then
        assert err.value.message[0] != ErrNoRows.message[0];
        (ZeroUser, err)
      else (User(id, rows[i].username, role), None)
  }

  /** FindUserAndPasswordByUsername: the user and password hash stored under
      `username`; the zero user, an empty hash and an error otherwise. */
  function FindUserAndPasswordByUsername(rows: seq<Row>, username: string): (res: (User, string, Option<Error>))
    ensures res.2.Some? ==> res.0 == ZeroUser && res.1 == ""
    ensures res.2 == Some(ErrNoRows) <==> forall i :: 0 <= i < |rows| ==> rows[i].username != username
    ensures res.2.None? ==>
              res.0.username == username && res.0.role != Unknown
              && exists i :: 0 <= i < |rows| && rows[i].username == username && rows[i].id == res.0.id
                                            && rows[i].password == res.1 && rows[i].role == res.0.role.String()
  {
    var i := Find(rows, (row: Row) => row.username == username);
    if i < 0 then (ZeroUser, "", Some(ErrNoRows))
    else
      var (role, err) := RoleFromString(rows[i].role);
      if err.Some? then
        assert err.value.message[0] != ErrNoRows.message[0];
        (ZeroUser, "", err)
      else (User(rows[i].id, username, role), rows[i].password, None)
  }

  /** The outcome of inserting `user`: a duplicate-key error exactly when its id
      or its username is already stored. */
  function CreateUserError(rows: seq<Row>, user: User): (err: Option<Error>)
    ensures err.None? <==> forall i :: 0 <= i < |rows| ==> rows[i].id != user.id && rows[i].username != user.username
    ensures err.Some? ==> err == Some(ErrDuplicateKey)
  {
    var i := Find(rows, (row: Row) => row.id == user.id || row.username == user.username);
    if i < 0 then None else Some(ErrDuplicateKey)
  }

  /** The row the insert writes for `user` with hash `hashedPassword`. */
  function RowOf(user: User, hashedPassword: string): Row {
    Row(user.id, user.username, hashedPassword, user.role.String())
  }

  /** A user inserted under a named role is found again by id, unchanged. */
  lemma {:induction false} CreatedUserIsFoundById(rows: seq<Row>, user: User, hashedPassword: string)
    requires CreateUserError(rows, user).None? && user.role != Unknown
    ensures FindUser(rows + [RowOf(user, hashedPassword)], user.id) == (user, None)
  {
    var rows' := rows + [RowOf(user, hashedPassword)];
    var i := Find(rows', (row: Row) => row.id == user.id);
    assert rows'[|rows|].id == user.id;
    assert i == |rows|;
    RoleRoundTrip(user.role);
  }

  /** A user inserted under a named role is found again by username, with the
      hash that was stored. */
  lemma {:induction false} CreatedUserIsFoundByUsername(rows: seq<Row>, user: User, hashedPassword: string)
    requires CreateUserError(rows, user).None? && user.role != Unknown
    ensures FindUserAndPasswordByUsername(rows + [RowOf(user, hashedPassword)], user.username)
            == (user, hashedPassword, None)
  {
    var rows' := rows + [RowOf(user, hashedPassword)];
    var i := Find(rows', (row: Row) => row.username == user.username);
    assert rows'[|rows|].username == user.username;
    assert i == |rows|;
    RoleRoundTrip(user.role);
  }

  /** In a store that keeps ids unique, every row under a named role is the
      one its id finds, whatever its position. */
  lemma StoredRowIsFoundById(rows: seq<Row>, i: nat)
    requires Unique(rows) && i < |rows| && rows[i].role in {"member", "admin"}
    ensures FindUser(rows, rows[i].id) == (User(rows[i].id, rows[i].username, RoleFromString(rows[i].role).0), None)
  {
    assert Find(rows, (row: Row) => row.id == rows[i].id) == i;
  }

  /** In a store that keeps usernames unique, every row under a named role is
      the one its username finds, with its own id and hash. */
  lemma StoredRowIsFoundByUsername(rows: seq<Row>, i: nat)
    requires Unique(rows) && i < |rows| && rows[i].role in {"member", "admin"}
    ensures FindUserAndPasswordByUsername(rows, rows[i].username)
            == (User(rows[i].id, rows[i].username, RoleFromString(rows[i].role).0), rows[i].password, None)
  {
    assert Find(rows, (row: Row) => row.username == rows[i].username) == i;
  }

  /** The store: a table of rows that the insert extends. */
  class Database {
    var rows: seq<Row>

    ghost predicate Valid()
      reads this
    {
      Unique(rows)
    }

    constructor ()
      ensures Valid() && rows == []
    {
      rows := [];
    }

    /** CreateUser: appends the user's row unless its id or username is taken,
        in which case nothing is stored and the duplicate-key error is returned. */
    method CreateUser(user: User, hashedPassword: string) returns (err: Option<Error>)
      requires Valid()
      modifies this
      ensures Valid()
      ensures err == CreateUserError(old(rows), user)
      ensures rows == if err.None? then old(rows) + [RowOf(user, hashedPassword)] else old(rows)
    {
      err := CreateUserError(rows, user);
      if err.None? {
        rows := rows + [RowOf(user, hashedPassword)];
      }
    }
  }
}
