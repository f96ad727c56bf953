/** The user table and the service that creates, finds, updates and removes
    users and changes their passwords. Passwords are stored hashed; `hash`
    and `compare` stand for bcrypt's and are parameters. */
module Users {
  import opened Common
  import opened Strings

  /** A row of the `users` table. */
  datatype User = User(
    id: string,
    email: string,
    name: string,
    password: string,
    isActive: bool,
    role: string,
    clientId: string)

  datatype CreateUserDto = CreateUserDto(
    email: string,
    name: string,
    password: string,
    role: Option<string>,
    clientId: string)

  /** A partial update: None leaves the field as it is. */
  datatype UpdateUserDto = UpdateUserDto(
    email: Option<string>,
    name: Option<string>,
    password: Option<string>,
    role: Option<string>,
    clientId: Option<string>)

  /** What the service hands to the gateway's user hooks: the saved user or
      the removed id, with the id of the request's store when it has one. */
  datatype UserNotice =
    | UserUpdated(user: User, clientId: Option<string>)
    | UserRemoved(userId: string, clientId: Option<string>)

  /** `repository.create({...dto, password: hashed})`: `isActive` defaults
      to true and `role` to "user". */
  function NewUser(id: string, dto: CreateUserDto, hashed: string): (u: User)
    ensures u.id == id && u.email == dto.email && u.name == dto.name && u.clientId == dto.clientId
    ensures u.password == hashed && u.isActive
    ensures u.role == (if dto.role.Some? then dto.role.value else "user")
  {
    User(id, dto.email, dto.name, hashed, true,
         if dto.role.Some? then dto.role.value else "user", dto.clientId)
  }

  /** `if (dto.password) delete dto.password` as written: only a truthy
      password is dropped; an empty one stays in the update. */
  function DropPassword(dto: UpdateUserDto): (r: UpdateUserDto)
    ensures r.password.Some? <==> dto.password == Some("")
    ensures r.(password := dto.password) == dto
  {
    if Truthy(dto.password) then dto.(password := None) else dto
  }

  /** The update the password guard is meant to produce: it never carries
      a password, whatever the request sent. */
  function WithoutPassword(dto: UpdateUserDto): (r: UpdateUserDto)
    ensures r.password.None?
    ensures r.(password := dto.password) == dto
  {
    dto.(password := None)
  }

  /** `Object.assign(user, dto)`. */
  function Assign(u: User, dto: UpdateUserDto): (r: User)
    ensures r.id == u.id && r.isActive == u.isActive
    ensures r.password == (if dto.password.Some? then dto.password.value else u.password)
    ensures r.email == (if dto.email.Some? then dto.email.value else u.email)
    ensures r.name == (if dto.name.Some? then dto.name.value else u.name)
    ensures r.role == (if dto.role.Some? then dto.role.value else u.role)
    ensures r.clientId == (if dto.clientId.Some? then dto.clientId.value else u.clientId)
    ensures dto == UpdateUserDto(None, None, None, None, None) ==> r == u
  {
    User(
      u.id,
      if dto.email.Some? then dto.email.value else u.email,
      if dto.name.Some? then dto.name.value else u.name,
      if dto.password.Some? then dto.password.value else u.password,
      u.isActive,
      if dto.role.Some? then dto.role.value else u.role,
      if dto.clientId.Some? then dto.clientId.value else u.clientId)
  }

  /** As written, an update whose password is the empty string gets past
      the guard and replaces the stored hash with "". */
  lemma EmptyPasswordOverwritesHash(u: User)
    requires u.password != ""
    ensures var dto := UpdateUserDto(None, None, Some(""), None, None);
      && Assign(u, DropPassword(dto)).password == ""
      && Assign(u, DropPassword(dto)).password != u.password
  {
  }

  /** With the guard as intended, no update changes the stored password,
      and every other field the update carries is applied. */
  lemma UpdateKeepsPassword(u: User, dto: UpdateUserDto)
    ensures Assign(u, WithoutPassword(dto)).password == u.password
    ensures Assign(u, WithoutPassword(dto)) == Assign(u, dto).(password := u.password)
  {
  }

  predicate EmailTaken(table: map<string, User>, email: string) {
    exists k :: k in table && table[k].email == email
  }

  /** Saving `u` would break the unique `email` column. */
  predicate ClashesWithOthers(table: map<string, User>, u: User) {
    exists k :: k in table && k != u.id && table[k].email == u.email
  }

  /** Rows are keyed by id and emails are unique. */
  ghost predicate WellFormed(table: map<string, User>) {
    && (forall k :: k in table ==> table[k].id == k)
    && (forall a, b :: a in table && b in table && table[a].email == table[b].email ==> a == b)
  }

  lemma StorePreservesWellFormed(table: map<string, User>, u: User)
    requires WellFormed(table)
    requires !ClashesWithOthers(table, u)
    ensures WellFormed(table[u.id := u])
  {
  }

  /** A merged update breaks the unique `email` column exactly when it
      carries an email that differs from the user's own and that another
      user already has. */
  lemma UpdateClashIff(table: map<string, User>, id: string, dto: UpdateUserDto)
    requires WellFormed(table) && id in table
    ensures ClashesWithOthers(table, Assign(table[id], WithoutPassword(dto))) <==>
      dto.email.Some? && dto.email.value != table[id].email && EmailTaken(table, dto.email.value)
  {
    var u := Assign(table[id], WithoutPassword(dto));
    if dto.email.Some? && dto.email.value != table[id].email && EmailTaken(table, dto.email.value) {
      var k :| k in table && table[k].email == dto.email.value;
      assert k != u.id;
    }
  }

  const EmailInUse := Conflict("Email já está em uso")
  const WrongPassword := BadRequest("Senha atual incorreta")
  const SamePassword := BadRequest("A nova senha deve ser diferente da senha atual")
  const PasswordChanged := "Senha alterada com sucesso"
  const UniqueViolation := QueryFailed("duplicate key value violates unique constraint")

  function UserNotFound(id: string): HttpError {
    NotFound("Usuário com ID " + id + " não encontrado")
  }

  class UsersService {
    /** The `users` table, by id. */
    var table: map<string, User>
    /** The user notifications handed to the gateway, in order. */
    var hooks: seq<UserNotice>
    /** `request.client?.id` of the request the service serves. */
    const requestClientId: Option<string>

    ghost predicate Valid()
      reads this
    {
      WellFormed(table)
    }

    constructor (rows: map<string, User>, requestClientId: Option<string>)
      requires WellFormed(rows)
      ensures Valid() && table == rows && hooks == [] && this.requestClientId == requestClientId
    {
      table := rows;
      hooks := [];
      this.requestClientId := requestClientId;
    }

    /** `create`: a taken email is refused and nothing changes; otherwise
        one new row is stored, holding the hash of the password. */
    method Create(dto: CreateUserDto, hash: string -> string) returns (r: Result<User>)
      requires Valid()
      modifies this
      ensures Valid() && hooks == old(hooks)
      ensures EmailTaken(old(table), dto.email) ==> r == Err(EmailInUse) && table == old(table)
      ensures !EmailTaken(old(table), dto.email) ==>
        && r.Ok? && r.value == NewUser(r.value.id, dto, hash(dto.password))
        && r.value.id !in old(table)
        && table == old(table)[r.value.id := r.value]
    {
      var existing := FindByEmail(dto.email);
      if existing.Some? {
        return Err(EmailInUse);
      }
      var hashed := hash(dto.password);
      FreshKeyExists(table.Keys);
      var id :| id !in table;
      var saved := NewUser(id, dto, hashed);
      StorePreservesWellFormed(table, saved);
      table := table[id := saved];
      r := Ok(saved);
    }

    /** `findOne`: the row with that id, or NotFound. */
    method FindOne(id: string) returns (r: Result<User>)
      ensures r.Ok? <==> id in table
      ensures r.Ok? ==> r.value == table[id]
      ensures r.Err? ==> r.error == UserNotFound(id)
    {
      if id in table {
        r := Ok(table[id]);
      } else {
        r := Err(UserNotFound(id));
      }
    }

    /** `findByEmail`: the user with that email, or None; emails being
        unique, it is the only one. */
    method FindByEmail(email: string) returns (r: Option<User>)
      requires Valid()
      ensures r.Some? <==> EmailTaken(table, email)
      ensures r.Some? ==> r.value.id in table && table[r.value.id] == r.value && r.value.email == email
      ensures r.Some? ==> forall k :: k in table && table[k].email == email ==> k == r.value.id
    {
      if EmailTaken(table, email) {
        var k :| k in table && table[k].email == email;
        r := Some(table[k]);
      } else {
        r := None;
      }
    }

    /** `update`: NotFound for an unknown id; otherwise the update, without
        its password, is merged into the row and saved, unless that would
        duplicate another user's email (the save then fails), and the saved user is handed to the user
        hook. The stored password never changes. */
    method Update(id: string, dto: UpdateUserDto) returns (r: Result<User>)
      requires Valid()
      modifies this
      ensures Valid()
      ensures r.Err? ==> table == old(table) && hooks == old(hooks)
      ensures id !in old(table) ==> r == Err(UserNotFound(id))
      ensures r.Ok? ==>
        && id in old(table)
        && r.value == Assign(old(table)[id], WithoutPassword(dto))
        && table == old(table)[id := r.value]
        && hooks == old(hooks) + [UserUpdated(r.value, requestClientId)]
      ensures r.Ok? ==> r.value.password == old(table)[id].password
      ensures id in old(table) && ClashesWithOthers(old(table), Assign(old(table)[id], WithoutPassword(dto))) ==>
        r == Err(UniqueViolation)
      ensures r.Ok? <==>
        id in old(table) && !ClashesWithOthers(old(table), Assign(old(table)[id], WithoutPassword(dto)))
      ensures id in old(table) && dto.email.None? ==> r.Ok?
    {
      var found := FindOne(id);
      if found.Err? {
        return Err(found.error);
      }
      var updated := Assign(found.value, WithoutPassword(dto));
      if ClashesWithOthers(table, updated) {
        return Err(UniqueViolation);
      }
      StorePreservesWellFormed(table, updated);
      table := table[id := updated];
      hooks := hooks + [UserUpdated(updated, requestClientId)];
      r := Ok(updated);
    }

    /** `changePassword`: NotFound for an unknown id; a wrong current
        password, then a new password that matches the current one, is
        refused without saving; otherwise the hash of the new password
        replaces the stored one and nothing else changes. */
    method ChangePassword(userId: string, oldPassword: string, newPassword: string,
                          compare: (string, string) -> bool, hash: string -> string)
      returns (r: Result<string>)
      requires Valid()
      modifies this
      ensures Valid() && hooks == old(hooks)
      ensures r.Err? ==> table == old(table)
      ensures userId !in old(table) ==> r == Err(UserNotFound(userId))
      ensures userId in old(table) && !compare(oldPassword, old(table)[userId].password) ==>
        r == Err(WrongPassword)
      ensures (&& userId in old(table) && compare(oldPassword, old(table)[userId].password)
               && compare(newPassword, old(table)[userId].password)) ==> r == Err(SamePassword)
      ensures r.Ok? <==>
        (&& userId in old(table) && compare(oldPassword, old(table)[userId].password)
         && !compare(newPassword, old(table)[userId].password))
      ensures r.Ok? ==>
        && r.value == PasswordChanged
        && table == old(table)[userId := old(table)[userId].(password := hash(newPassword))]
    {
      var found := FindOne(userId);
      if found.Err? {
        return Err(found.error);
      }
      var user := found.value;
      if !compare(oldPassword, user.password) {
        return Err(WrongPassword);
      }
      if compare(newPassword, user.password) {
        return Err(SamePassword);
      }
      var changed := user.(password := hash(newPassword));
      StorePreservesWellFormed(table, changed);
      table := table[userId := changed];
      r := Ok(PasswordChanged);
    }

    /** `remove`: NotFound for an unknown id; otherwise exactly that row is
        deleted and its id is handed to the user hook. */
    method Remove(id: string) returns (r: Result<()>)
      requires Valid()
      modifies this
      ensures Valid()
      ensures r.Ok? <==> id in old(table)
      ensures r.Err? ==> r.error == UserNotFound(id) && table == old(table) && hooks == old(hooks)
      ensures r.Ok? ==>
        table == old(table) - {id} && hooks == old(hooks) + [UserRemoved(id, requestClientId)]
    {
      var found := FindOne(id);
      if found.Err? {
        return Err(found.error);
      }
      table := table - {id};
      hooks := hooks + [UserRemoved(id, requestClientId)];
      r := Ok(());
    }
  }
}
