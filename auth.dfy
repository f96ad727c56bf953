/** Sign-in and sign-up: checking a password, issuing a token for a user of
    the store a domain belongs to, and registering a user under that store.
    `compare`, `hash` and `sign` stand for bcrypt's and the JWT service's
    and are parameters. */
module Auth {
  import opened Common
  import Users
  import Clients
  import Events

  /** A user without its password, as `validateUser` and `register`
      return it. */
  datatype PublicUser = PublicUser(
    id: string,
    email: string,
    name: string,
    isActive: bool,
    role: string,
    clientId: string)

  function Public(u: Users.User): PublicUser {
    PublicUser(u.id, u.email, u.name, u.isActive, u.role, u.clientId)
  }

  /** The user part of the login response. */
  datatype LoginUser = LoginUser(id: string, email: string, name: string, role: string, clientId: string)

  datatype LoginResponse = LoginResponse(accessToken: string, user: LoginUser)

  datatype RegisterDto = RegisterDto(email: string, password: string, name: string, role: Option<string>)

  const NotMember := Unauthorized("User does not belong to this client")
  const EmailRegistered := BadRequest("E-mail já cadastrado")

  /** The payload a login signs: email, subject and store, and no role. */
  function LoginPayload(u: PublicUser): (p: Events.JwtPayload)
    ensures p.sub == u.id && p.email == Some(u.email) && p.clientId == Some(u.clientId)
    ensures p.role.None?
  {
    Events.JwtPayload(u.id, Some(u.email), Some(u.clientId), None)
  }

  /** A socket presenting a login token joins its user's room, its store's
      room when the store id is not empty, and never `admins`. */
  lemma LoginTokenRooms(u: PublicUser)
    ensures Events.User(u.id) in Events.RoomsToJoin(LoginPayload(u))
    ensures Events.Client(u.clientId) in Events.RoomsToJoin(LoginPayload(u)) <==> u.clientId != ""
    ensures Events.Admins !in Events.RoomsToJoin(LoginPayload(u))
  {
  }

  /** With a `verify` that accepts what `sign` produced, the token a login
      returns authenticates a socket with the login payload, whether it is
      given as `auth.token` or as `Authorization: Bearer <token>`. */
  lemma LoginTokenAuthenticates(u: PublicUser, sign: Events.JwtPayload -> string,
                                verify: string -> Option<Events.JwtPayload>)
    requires forall p :: verify(sign(p)) == Some(p)
    requires sign(LoginPayload(u)) != "" && ' ' !in sign(LoginPayload(u))
    ensures Events.Authenticate(Some(sign(LoginPayload(u))), None, verify) == Some(LoginPayload(u))
    ensures Events.Authenticate(None, Some("Bearer " + sign(LoginPayload(u))), verify)
            == Some(LoginPayload(u))
  {
    Events.BearerToken(None, sign(LoginPayload(u)));
  }

  /** There is an active store with that domain. */
  predicate ActiveDomain(table: map<string, Clients.Client>, domain: string) {
    exists k :: k in table && table[k].domain == domain && table[k].isActive
  }

  /** The active store with that domain is the one with id `clientId`. */
  predicate ActiveDomainOf(table: map<string, Clients.Client>, domain: string, clientId: string) {
    clientId in table && table[clientId].domain == domain && table[clientId].isActive
  }

  class AuthService {
    const users: Users.UsersService
    const clients: Clients.ClientsService

    constructor (users: Users.UsersService, clients: Clients.ClientsService)
      ensures this.users == users && this.clients == clients
    {
      this.users := users;
      this.clients := clients;
    }

    /** `validateUser`: the user with that email, without its password,
        exactly when there is one and the password matches its hash. */
    method ValidateUser(email: string, password: string, compare: (string, string) -> bool)
      returns (r: Option<PublicUser>)
      requires users.Valid()
      ensures r.Some? <==>
        exists k :: k in users.table && users.table[k].email == email
                    && compare(password, users.table[k].password)
      ensures r.Some? ==>
        && r.value.id in users.table
        && r.value == Public(users.table[r.value.id])
        && r.value.email == email
    {
      var user := users.FindByEmail(email);
      if user.Some? && compare(password, user.value.password) {
        r := Some(Public(user.value));
      } else {
        r := None;
      }
    }

    /** `login`: NotFound when no active store has the domain, Unauthorized
        when the user belongs to another store; otherwise the signed login
        payload and the user's public fields. */
    method Login(user: PublicUser, domain: string, sign: Events.JwtPayload -> string)
      returns (r: Result<LoginResponse>)
      requires clients.Valid()
      ensures !ActiveDomain(clients.table, domain) ==> r == Err(Clients.DomainNotFound(domain))
      ensures ActiveDomain(clients.table, domain) && !ActiveDomainOf(clients.table, domain, user.clientId) ==>
        r == Err(NotMember)
      ensures r.Ok? <==> ActiveDomainOf(clients.table, domain, user.clientId)
      ensures r.Ok? ==>
        && r.value.accessToken == sign(LoginPayload(user))
        && r.value.user == LoginUser(user.id, user.email, user.name, user.role, user.clientId)
    {
      var client := clients.FindByDomain(domain);
      if client.Err? {
        return Err(client.error);
      }
      var k :| k in clients.table && clients.table[k] == client.value;
      if user.clientId != client.value.id {
        assert !ActiveDomainOf(clients.table, domain, user.clientId);
        return Err(NotMember);
      }
      var token := sign(LoginPayload(user));
      r := Ok(LoginResponse(token, LoginUser(user.id, user.email, user.name, user.role, user.clientId)));
    }

    /** `register`: NotFound when no active store has the domain (the
        lookup throws, so no store is created), BadRequest for a taken
        email; otherwise a new user of that store, stored with the hash of
        its password, is returned without it. Its store is the one a login
        on the same domain accepts. */
    method Register(dto: RegisterDto, domain: string, hash: string -> string)
      returns (r: Result<PublicUser>)
      requires users.Valid() && clients.Valid()
      modifies users
      ensures users.Valid() && users.hooks == old(users.hooks)
      ensures r.Err? ==> users.table == old(users.table)
      ensures !ActiveDomain(clients.table, domain) ==> r == Err(Clients.DomainNotFound(domain))
      ensures ActiveDomain(clients.table, domain) && Users.EmailTaken(old(users.table), dto.email) ==>
        r == Err(EmailRegistered)
      ensures r.Ok? <==> ActiveDomain(clients.table, domain) && !Users.EmailTaken(old(users.table), dto.email)
      ensures r.Ok? ==>
        && ActiveDomainOf(clients.table, domain, r.value.clientId)
        && r.value.id !in old(users.table) && r.value.id in users.table
        && users.table == old(users.table)[r.value.id := users.table[r.value.id]]
        && users.table[r.value.id] == Users.NewUser(r.value.id,
             Users.CreateUserDto(dto.email, dto.name, dto.password, dto.role, r.value.clientId),
             hash(dto.password))
        && r.value == Public(users.table[r.value.id])
    {
      var client := clients.FindByDomain(domain);
      if client.Err? {
        return Err(client.error);
      }
      var existing := users.FindByEmail(dto.email);
      if existing.Some? {
        return Err(EmailRegistered);
      }
      var created := users.Create(
        Users.CreateUserDto(dto.email, dto.name, dto.password, dto.role, client.value.id), hash);
      r := Ok(Public(created.value));
    }
  }
}
