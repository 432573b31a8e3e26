/** `UserService`: accounts by id, with usernames and emails kept unique by
    the checks in `createUser` and `updateUser`, a login that tries the
    username before the email, and a DTO without the password. */
module UserStore {
  import opened Wrappers
  import opened Text

  datatype UserRecord = UserRecord(
    id: int,
    username: string,
    email: string,
    password: string,
    firstName: Option<string>,
    lastName: Option<string>)

  /** `UserCreateDTO`. */
  datatype UserCreateDto = UserCreateDto(
    username: string,
    email: string,
    password: string,
    firstName: Option<string>,
    lastName: Option<string>)

  /** `UserUpdateDTO`: every field may be null. */
  datatype UserUpdateDto = UserUpdateDto(
    username: Option<string>,
    email: Option<string>,
    password: Option<string>,
    firstName: Option<string>,
    lastName: Option<string>)

  /** `UserDTO`: it has no password field. */
  datatype UserDto = UserDto(
    id: int,
    username: string,
    email: string,
    firstName: Option<string>,
    lastName: Option<string>)

  const UsernameExists := "Username already exists"
  const EmailExists := "Email already exists"
  const UserNotFound := "User not found"
  const InvalidPassword := "Invalid password"

  function NotFound(id: int): string {
    "User not found with id: " + IntToString(id)
  }

  /** `existsByUsername`. */
  predicate UsernameTaken(rows: map<int, UserRecord>, username: string) {
    exists k :: k in rows && rows[k].username == username
  }

  /** `existsByEmail`. */
  predicate EmailTaken(rows: map<int, UserRecord>, email: string) {
    exists k :: k in rows && rows[k].email == email
  }

  /** No two accounts share a username or an email. */
  predicate Unique(rows: map<int, UserRecord>) {
    forall a, b :: a in rows && b in rows && a != b ==>
      rows[a].username != rows[b].username && rows[a].email != rows[b].email
  }

  function Created(dto: UserCreateDto, id: int): UserRecord {
    UserRecord(id, dto.username, dto.email, dto.password, dto.firstName, dto.lastName)
  }

  /** The account `updateUser` saves when no check fails: each non-null
      field overwrites, the others stay. */
  function Merge(u: UserRecord, dto: UserUpdateDto): (m: UserRecord)
    ensures m.id == u.id
    ensures m.username == dto.username.GetOr(u.username) && m.email == dto.email.GetOr(u.email)
    ensures m.password == dto.password.GetOr(u.password)
    ensures m.firstName == Pick(dto.firstName, u.firstName) && m.lastName == Pick(dto.lastName, u.lastName)
  {
    UserRecord(u.id, dto.username.GetOr(u.username), dto.email.GetOr(u.email),
               dto.password.GetOr(u.password), Pick(dto.firstName, u.firstName),
               Pick(dto.lastName, u.lastName))
  }

  /** The check of `updateUser` that fails first, if any: a new username
      (then a new email) is refused only when another account holds it. */
  function Conflict(rows: map<int, UserRecord>, id: int, dto: UserUpdateDto): (c: Option<string>)
    requires id in rows
    ensures c == Some(UsernameExists) <==>
              dto.username.Some? && UsernameTaken(rows, dto.username.value)
              && rows[id].username != dto.username.value
    ensures c == Some(EmailExists) <==>
              c != Some(UsernameExists) && dto.email.Some? && EmailTaken(rows, dto.email.value)
              && rows[id].email != dto.email.value
    ensures c.None? || c == Some(UsernameExists) || c == Some(EmailExists)
  {
    var u := rows[id];
    if dto.username.Some? && UsernameTaken(rows, dto.username.value) && u.username != dto.username.value then
      Some(UsernameExists)
    else if dto.email.Some? && EmailTaken(rows, dto.email.value) && u.email != dto.email.value then
      Some(EmailExists)
    else
      None
  }

  /** `convertToDTO`. */
  function ToDto(u: UserRecord): UserDto {
    UserDto(u.id, u.username, u.email, u.firstName, u.lastName)
  }

  // ---------------------------------------------------------------------------
  // Properties

  /** The DTO never carries the password: it is the same whatever the
      stored password is. */
  lemma DtoHidesPassword(u: UserRecord, password: string)
    ensures ToDto(u.(password := password)) == ToDto(u)
  {
  }

  /** An insert that passed both checks keeps usernames and emails unique. */
  lemma {:induction false} CreateKeepsUnique(rows: map<int, UserRecord>, dto: UserCreateDto, id: int)
    requires Unique(rows) && id !in rows
    requires !UsernameTaken(rows, dto.username) && !EmailTaken(rows, dto.email)
    ensures Unique(rows[id := Created(dto, id)])
  {
    var rows' := rows[id := Created(dto, id)];
    forall a, b | a in rows' && b in rows' && a != b
      ensures rows'[a].username != rows'[b].username && rows'[a].email != rows'[b].email
    {
      if a == id {
        assert b in rows;
      } else if b == id {
        assert a in rows;
      }
    }
  }

  /** An update that passed both checks keeps usernames and emails unique. */
  lemma {:induction false} UpdateKeepsUnique(rows: map<int, UserRecord>, id: int, dto: UserUpdateDto)
    requires Unique(rows) && id in rows && Conflict(rows, id, dto).None?
    ensures Unique(rows[id := Merge(rows[id], dto)])
  {
    var rows' := rows[id := Merge(rows[id], dto)];
    forall a, b | a in rows' && b in rows' && a != b
      ensures rows'[a].username != rows'[b].username && rows'[a].email != rows'[b].email
    {
      if a == id || b == id {
        var other := if a == id then b else a;
        assert other in rows && rows'[other] == rows[other];
        if dto.username.Some? && dto.username.value != rows[id].username {
          assert !UsernameTaken(rows, dto.username.value);
        }
        if dto.email.Some? && dto.email.value != rows[id].email {
          assert !EmailTaken(rows, dto.email.value);
        }
      }
    }
  }

  // ---------------------------------------------------------------------------
  // The service

  /** The setters of `updateUser` on the loaded account, each check before
      its setter; a failed check ends the update. */
  method ApplyUpdate(rows: map<int, UserRecord>, id: int, dto: UserUpdateDto) returns (r: Result<UserRecord, string>)
    requires id in rows
    ensures Conflict(rows, id, dto).Some? ==> r == Err(Conflict(rows, id, dto).value)
    ensures Conflict(rows, id, dto).None? ==> r == Ok(Merge(rows[id], dto))
  {
    var user := rows[id];
    if dto.username.Some? {
      if (exists k :: k in rows && rows[k].username == dto.username.value)
         && user.username != dto.username.value {
        return Err(UsernameExists);
      }
      user := user.(username := dto.username.value);
    }
    if dto.email.Some? {
      if (exists k :: k in rows && rows[k].email == dto.email.value)
         && user.email != dto.email.value {
        return Err(EmailExists);
      }
      user := user.(email := dto.email.value);
    }
    if dto.password.Some? {
      user := user.(password := dto.password.value);
    }
    if dto.firstName.Some? {
      user := user.(firstName := dto.firstName);
    }
    if dto.lastName.Some? {
      user := user.(lastName := dto.lastName);
    }
    r := Ok(user);
  }

  class UserService {
    var rows: map<int, UserRecord>
    var nextId: int

    ghost predicate Valid()
      reads this
    {
      nextId > 0 && (forall k :: k in rows ==> 0 < k < nextId && rows[k].id == k) && Unique(rows)
    }

    constructor ()
      ensures Valid() && rows == map[]
    {
      rows := map[];
      nextId := 1;
    }

    /** `createUser`: the username is checked first, then the email. */
    method CreateUser(dto: UserCreateDto) returns (r: Result<UserDto, string>)
      requires Valid()
      modifies this
      ensures Valid()
      ensures UsernameTaken(old(rows), dto.username) ==>
                r == Err(UsernameExists) && rows == old(rows) && nextId == old(nextId)
      ensures !UsernameTaken(old(rows), dto.username) && EmailTaken(old(rows), dto.email) ==>
                r == Err(EmailExists) && rows == old(rows) && nextId == old(nextId)
      ensures !UsernameTaken(old(rows), dto.username) && !EmailTaken(old(rows), dto.email) ==>
                rows == old(rows)[old(nextId) := Created(dto, old(nextId))]
                && nextId == old(nextId) + 1 && r == Ok(ToDto(Created(dto, old(nextId))))
    {
      if exists k :: k in rows && rows[k].username == dto.username {
        return Err(UsernameExists);
      }
      if exists k :: k in rows && rows[k].email == dto.email {
        return Err(EmailExists);
      }
      var user := Created(dto, nextId);
      CreateKeepsUnique(rows, dto, nextId);
      rows := rows[nextId := user];
      nextId := nextId + 1;
      r := Ok(ToDto(user));
    }

    /** `getUserById`. */
    method GetUserById(id: int) returns (r: Result<UserDto, string>)
      ensures id in rows ==> r == Ok(ToDto(rows[id]))
      ensures id !in rows ==> r == Err(NotFound(id))
    {
      if id !in rows {
        return Err(NotFound(id));
      }
      r := Ok(ToDto(rows[id]));
    }

    /** `updateUser`: the loaded account is changed setter by setter; a
        failed check throws, and the transaction keeps nothing. */
    method UpdateUser(id: int, dto: UserUpdateDto) returns (r: Result<UserDto, string>)
      requires Valid()
      modifies this
      ensures Valid() && nextId == old(nextId)
      ensures id !in old(rows) ==> r == Err(NotFound(id)) && rows == old(rows)
      ensures id in old(rows) && Conflict(old(rows), id, dto).Some? ==>
                r == Err(Conflict(old(rows), id, dto).value) && rows == old(rows)
      ensures id in old(rows) && Conflict(old(rows), id, dto).None? ==>
                rows == old(rows)[id := Merge(old(rows)[id], dto)] && r == Ok(ToDto(rows[id]))
    {
      if id !in rows {
        return Err(NotFound(id));
      }
      var updated := ApplyUpdate(rows, id, dto);
      if updated.Err? {
        return Err(updated.error);
      }
      var user := updated.value;
      UpdateKeepsUnique(rows, id, dto);
      rows := rows[id := user];
      r := Ok(ToDto(user));
    }

    /** `deleteUser`: fails on an unknown id; otherwise removes that account only. */
    method DeleteUser(id: int) returns (r: Result<(), string>)
      requires Valid()
      modifies this
      ensures Valid() && nextId == old(nextId)
      ensures id !in old(rows) ==> r == Err(NotFound(id)) && rows == old(rows)
      ensures id in old(rows) ==> r == Ok(()) && rows == old(rows) - {id}
    {
      if id !in rows {
        return Err(NotFound(id));
      }
      rows := rows - {id};
      r := Ok(());
    }

    /** `login`: the account with that username, else the one with that
        email; none gives "User not found", a wrong password "Invalid
        password". */
    method Login(emailOrUsername: string, password: string) returns (r: Result<UserDto, string>)
      requires Valid()
      ensures r == Err(UserNotFound) <==>
                !UsernameTaken(rows, emailOrUsername) && !EmailTaken(rows, emailOrUsername)
      ensures forall k :: k in rows && rows[k].username == emailOrUsername ==>
                r == if rows[k].password == password then Ok(ToDto(rows[k])) else Err(InvalidPassword)
      ensures !UsernameTaken(rows, emailOrUsername) ==>
                forall k :: k in rows && rows[k].email == emailOrUsername ==>
                  r == if rows[k].password == password then Ok(ToDto(rows[k])) else Err(InvalidPassword)
    {
      var user: UserRecord;
      if exists k :: k in rows && rows[k].username == emailOrUsername {
        var k :| k in rows && rows[k].username == emailOrUsername;
        user := rows[k];
      } else if exists k :: k in rows && rows[k].email == emailOrUsername {
        var k :| k in rows && rows[k].email == emailOrUsername;
        user := rows[k];
      } else {
        return Err(UserNotFound);
      }
      if user.password != password {
        return Err(InvalidPassword);
      }
      r := Ok(ToDto(user));
    }
  }
}
