/** The store ("client") table and the service that creates, finds,
    updates and removes stores, notifying the gateway of each change. */
module Clients {
  import opened Common
  import opened Strings
  import Events

  /** A row of the `clients` table. */
  datatype Client = Client(
    id: string,
    name: string,
    domain: string,
    logo: Option<string>,
    primaryColor: Option<string>,
    secondaryColor: Option<string>,
    isActive: bool)

  datatype CreateClientDto = CreateClientDto(
    name: string,
    domain: string,
    logo: Option<string>,
    primaryColor: Option<string>,
    secondaryColor: Option<string>)

  /** A partial update: None leaves the field as it is. */
  datatype UpdateClientDto = UpdateClientDto(
    name: Option<string>,
    domain: Option<string>,
    logo: Option<string>,
    primaryColor: Option<string>,
    secondaryColor: Option<string>)

  /** `repository.create(dto)`: a new row; `isActive` defaults to true. */
  function NewClient(id: string, dto: CreateClientDto): Client {
    Client(id, dto.name, dto.domain, dto.logo, dto.primaryColor, dto.secondaryColor, true)
  }

  /** `Object.assign(client, dto)`: every field the update carries
      overwrites the row's, the others are kept. */
  function Assign(c: Client, dto: UpdateClientDto): (r: Client)
    ensures r.id == c.id && r.isActive == c.isActive
    ensures r.name == (if dto.name.Some? then dto.name.value else c.name)
    ensures r.domain == (if dto.domain.Some? then dto.domain.value else c.domain)
    ensures r.logo == (if dto.logo.Some? then dto.logo else c.logo)
    ensures r.primaryColor == (if dto.primaryColor.Some? then dto.primaryColor else c.primaryColor)
    ensures r.secondaryColor == (if dto.secondaryColor.Some? then dto.secondaryColor else c.secondaryColor)
    ensures dto == UpdateClientDto(None, None, None, None, None) ==> r == c
  {
    Client(
      c.id,
      if dto.name.Some? then dto.name.value else c.name,
      if dto.domain.Some? then dto.domain.value else c.domain,
      if dto.logo.Some? then dto.logo else c.logo,
      if dto.primaryColor.Some? then dto.primaryColor else c.primaryColor,
      if dto.secondaryColor.Some? then dto.secondaryColor else c.secondaryColor,
      c.isActive)
  }

  /** The row as the gateway receives it (`savedClient as ClientEvent`). */
  function ToEvent(c: Client): Events.ClientEvent {
    Events.ClientEvent(c.id, Some(c.name), Some(c.domain), c.logo, c.primaryColor,
                       c.secondaryColor, Some(c.isActive))
  }

  predicate NameTaken(table: map<string, Client>, name: string) {
    exists k :: k in table && table[k].name == name
  }

  predicate DomainTaken(table: map<string, Client>, domain: string) {
    exists k :: k in table && table[k].domain == domain
  }

  /** Saving `c` would break the unique `name` or `domain` column. */
  predicate ClashesWithOthers(table: map<string, Client>, c: Client) {
    exists k :: k in table && k != c.id && (table[k].name == c.name || table[k].domain == c.domain)
  }

  /** Rows are keyed by id, and names and domains are unique columns. */
  ghost predicate WellFormed(table: map<string, Client>) {
    && (forall k :: k in table ==> table[k].id == k)
    && (forall a, b :: a in table && b in table && table[a].name == table[b].name ==> a == b)
    && (forall a, b :: a in table && b in table && table[a].domain == table[b].domain ==> a == b)
  }

  /** Storing a row that clashes with no other row keeps the table
      well formed. */
  lemma StorePreservesWellFormed(table: map<string, Client>, c: Client)
    requires WellFormed(table)
    requires !ClashesWithOthers(table, c)
    ensures WellFormed(table[c.id := c])
  {
  }

  /** `update` refuses a truthy name that differs from the store's own and
      that some store already has. */
  predicate NameRefused(table: map<string, Client>, c: Client, dto: UpdateClientDto) {
    Truthy(dto.name) && dto.name.value != c.name && NameTaken(table, dto.name.value)
  }

  /** The same check for the domain. */
  predicate DomainRefused(table: map<string, Client>, c: Client, dto: UpdateClientDto) {
    Truthy(dto.domain) && dto.domain.value != c.domain && DomainTaken(table, dto.domain.value)
  }

  /** An update that passes both checks and gives no empty name or domain
      is saved: keeping the store's own name or domain, or taking a free
      one, never breaks a unique column. */
  lemma UnrefusedUpdateSaves(table: map<string, Client>, id: string, dto: UpdateClientDto)
    requires WellFormed(table) && id in table
    requires !NameRefused(table, table[id], dto) && !DomainRefused(table, table[id], dto)
    requires dto.name != Some("") && dto.domain != Some("")
    ensures !ClashesWithOthers(table, Assign(table[id], dto))
  {
    var merged := Assign(table[id], dto);
    forall k | k in table && k != id
      ensures table[k].name != merged.name && table[k].domain != merged.domain
    {
      if table[k].name == merged.name {
        if dto.name.Some? && dto.name.value != table[id].name {
          assert NameTaken(table, dto.name.value);
        }
      }
      if table[k].domain == merged.domain {
        if dto.domain.Some? && dto.domain.value != table[id].domain {
          assert DomainTaken(table, dto.domain.value);
        }
      }
    }
  }

  function NameInUse(name: string): HttpError {
    Conflict("Nome '" + name + "' já está em uso")
  }

  function DomainInUse(domain: string): HttpError {
    Conflict("Domínio '" + domain + "' já está em uso")
  }

  function ClientNotFound(id: string): HttpError {
    NotFound("Cliente com ID " + id + " não encontrado")
  }

  function DomainNotFound(domain: string): HttpError {
    NotFound("Cliente com domínio " + domain + " não encontrado")
  }

  const UniqueViolation := QueryFailed("duplicate key value violates unique constraint")

  class ClientsService {
    /** The `clients` table, by id. */
    var table: map<string, Client>
    /** Everything this service has pushed to the gateway, in order. */
    var outbox: seq<Events.Emission>

    ghost predicate Valid()
      reads this
    {
      WellFormed(table)
    }

    constructor (rows: map<string, Client>)
      requires WellFormed(rows)
      ensures Valid() && table == rows && outbox == []
    {
      table := rows;
      outbox := [];
    }

    /** `create`: a taken name is refused before the domain is looked at,
        then a taken domain; a refusal changes nothing. Otherwise one new
        row is stored and `client:created` is sent. */
    method Create(dto: CreateClientDto) returns (r: Result<Client>)
      requires Valid()
      modifies this
      ensures Valid()
      ensures NameTaken(old(table), dto.name) ==>
        r == Err(NameInUse(dto.name)) && table == old(table) && outbox == old(outbox)
      ensures !NameTaken(old(table), dto.name) && DomainTaken(old(table), dto.domain) ==>
        r == Err(DomainInUse(dto.domain)) && table == old(table) && outbox == old(outbox)
      ensures !NameTaken(old(table), dto.name) && !DomainTaken(old(table), dto.domain) ==>
        && r.Ok? && r.value == NewClient(r.value.id, dto)
        && r.value.id !in old(table)
        && table == old(table)[r.value.id := r.value]
        && outbox == old(outbox) + Events.NotifyClientCreated(ToEvent(r.value))
    {
      if NameTaken(table, dto.name) {
        return Err(NameInUse(dto.name));
      }
      if DomainTaken(table, dto.domain) {
        return Err(DomainInUse(dto.domain));
      }
      FreshKeyExists(table.Keys);
      var id :| id !in table;
      var saved := NewClient(id, dto);
      StorePreservesWellFormed(table, saved);
      table := table[id := saved];
      outbox := outbox + Events.NotifyClientCreated(ToEvent(saved));
      r := Ok(saved);
    }

    /** `findOne`: the row with that id, or NotFound. */
    method FindOne(id: string) returns (r: Result<Client>)
      ensures r.Ok? <==> id in table
      ensures r.Ok? ==> r.value == table[id]
      ensures r.Err? ==> r.error == ClientNotFound(id)
    {
      if id in table {
        r := Ok(table[id]);
      } else {
        r := Err(ClientNotFound(id));
      }
    }

    /** `findByDomain`: only an ACTIVE store with that domain is found. */
    method FindByDomain(domain: string) returns (r: Result<Client>)
      ensures r.Ok? <==> exists k :: k in table && table[k].domain == domain && table[k].isActive
      ensures r.Ok? ==> r.value in table.Values && r.value.domain == domain && r.value.isActive
      ensures r.Err? ==> r.error == DomainNotFound(domain)
    {
      if exists k :: k in table && table[k].domain == domain && table[k].isActive {
        var k :| k in table && table[k].domain == domain && table[k].isActive;
        r := Ok(table[k]);
      } else {
        r := Err(DomainNotFound(domain));
      }
    }

    /** `update`: NotFound for an unknown id; then Conflict for a refused
        name, then for a refused domain; a merged row that would still break
        a unique column fails at save. Otherwise the update is merged into
        the row, saved and `client:updated` is sent. */
    method Update(id: string, dto: UpdateClientDto) returns (r: Result<Client>)
      requires Valid()
      modifies this
      ensures Valid()
      ensures r.Err? ==> table == old(table) && outbox == old(outbox)
      ensures id !in old(table) ==> r == Err(ClientNotFound(id))
      ensures id in old(table) && NameRefused(old(table), old(table)[id], dto) ==>
        r == Err(NameInUse(dto.name.value))
      ensures (&& id in old(table) && !NameRefused(old(table), old(table)[id], dto)
               && DomainRefused(old(table), old(table)[id], dto)) ==> r == Err(DomainInUse(dto.domain.value))
      ensures (&& id in old(table) && !NameRefused(old(table), old(table)[id], dto)
               && !DomainRefused(old(table), old(table)[id], dto)
               && ClashesWithOthers(old(table), Assign(old(table)[id], dto))) ==> r == Err(UniqueViolation)
      ensures r.Ok? <==>
        && id in old(table)
        && !NameRefused(old(table), old(table)[id], dto)
        && !DomainRefused(old(table), old(table)[id], dto)
        && !ClashesWithOthers(old(table), Assign(old(table)[id], dto))
      ensures r.Ok? ==>
        && r.value == Assign(old(table)[id], dto)
        && table == old(table)[id := r.value]
        && outbox == old(outbox) + Events.NotifyClientUpdated(ToEvent(r.value))
      ensures id in old(table) && !dto.name.Some? && !dto.domain.Some? ==> r.Ok?
    {
      var found := FindOne(id);
      if found.Err? {
        return Err(found.error);
      }
      var client := found.value;
      if NameRefused(table, client, dto) {
        return Err(NameInUse(dto.name.value));
      }
      if DomainRefused(table, client, dto) {
        return Err(DomainInUse(dto.domain.value));
      }
      var updated := Assign(client, dto);
      if ClashesWithOthers(table, updated) {
        return Err(UniqueViolation);
      }
      StorePreservesWellFormed(table, updated);
      table := table[id := updated];
      outbox := outbox + Events.NotifyClientUpdated(ToEvent(updated));
      r := Ok(updated);
    }

    /** `remove`: NotFound for an unknown id; otherwise exactly that row is
        deleted and `client:removed` is sent with its id. */
    method Remove(id: string) returns (r: Result<()>)
      requires Valid()
      modifies this
      ensures Valid()
      ensures r.Ok? <==> id in old(table)
      ensures r.Err? ==> r.error == ClientNotFound(id) && table == old(table) && outbox == old(outbox)
      ensures r.Ok? ==>
        table == old(table) - {id} && outbox == old(outbox) + Events.NotifyClientRemoved(id)
    {
      var found := FindOne(id);
      if found.Err? {
        return Err(found.error);
      }
      table := table - {id};
      outbox := outbox + Events.NotifyClientRemoved(id);
      r := Ok(());
    }

    /** `createIfNotExists`: a store with that domain is returned as stored
        and nothing is inserted; otherwise a new store is saved. No event is
        sent either way. */
    method CreateIfNotExists(data: CreateClientDto) returns (r: Result<Client>)
      requires Valid()
      modifies this
      ensures Valid()
      ensures outbox == old(outbox)
      ensures DomainTaken(old(table), data.domain) ==>
        r.Ok? && r.value in old(table).Values && r.value.domain == data.domain && table == old(table)
      ensures !DomainTaken(old(table), data.domain) && !NameTaken(old(table), data.name) ==>
        && r.Ok? && r.value == NewClient(r.value.id, data) && r.value.id !in old(table)
        && table == old(table)[r.value.id := r.value]
      ensures !DomainTaken(old(table), data.domain) && NameTaken(old(table), data.name) ==>
        r == Err(UniqueViolation) && table == old(table)
      ensures r.Ok? ==> DomainTaken(table, data.domain)
    {
      if DomainTaken(table, data.domain) {
        var k :| k in table && table[k].domain == data.domain;
        return Ok(table[k]);
      }
      FreshKeyExists(table.Keys);
      var id :| id !in table;
      var client := NewClient(id, data);
      if ClashesWithOthers(table, client) {
        return Err(UniqueViolation);
      }
      StorePreservesWellFormed(table, client);
      table := table[id := client];
      assert table[id].domain == data.domain;
      r := Ok(client);
    }
  }
}
