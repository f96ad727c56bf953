/** The supplier table and the service that creates, finds, updates and
    removes suppliers. No supplier change is announced to the gateway. */
module Suppliers {
  import opened Common
  import opened Strings

  /** A row of the `suppliers` table; `kind` is the `type` column
      ("brazilian" or "european"). */
  datatype Supplier = Supplier(
    id: string,
    name: string,
    kind: string,
    apiUrl: string,
    isActive: bool)

  datatype CreateSupplierDto = CreateSupplierDto(name: string, kind: string, apiUrl: string)

  /** A partial update, `isActive` included: None leaves the field as it is. */
  datatype UpdateSupplierDto = UpdateSupplierDto(
    name: Option<string>,
    kind: Option<string>,
    apiUrl: Option<string>,
    isActive: Option<bool>)

  /** `repository.create(dto)`: `isActive` defaults to true. */
  function NewSupplier(id: string, dto: CreateSupplierDto): Supplier {
    Supplier(id, dto.name, dto.kind, dto.apiUrl, true)
  }

  /** `Object.assign(supplier, dto)`: every field the update carries
      overwrites the row's, the others are kept. */
  function Assign(s: Supplier, dto: UpdateSupplierDto): (r: Supplier)
    ensures r.id == s.id
    ensures r.name == (if dto.name.Some? then dto.name.value else s.name)
    ensures r.kind == (if dto.kind.Some? then dto.kind.value else s.kind)
    ensures r.apiUrl == (if dto.apiUrl.Some? then dto.apiUrl.value else s.apiUrl)
    ensures r.isActive == (if dto.isActive.Some? then dto.isActive.value else s.isActive)
    ensures dto == UpdateSupplierDto(None, None, None, None) ==> r == s
  {
    Supplier(
      s.id,
      if dto.name.Some? then dto.name.value else s.name,
      if dto.kind.Some? then dto.kind.value else s.kind,
      if dto.apiUrl.Some? then dto.apiUrl.value else s.apiUrl,
      if dto.isActive.Some? then dto.isActive.value else s.isActive)
  }

  /** Merging the same update twice is merging it once. */
  lemma AssignIdempotent(s: Supplier, dto: UpdateSupplierDto)
    ensures Assign(Assign(s, dto), dto) == Assign(s, dto)
  {
  }

  predicate NameTaken(table: map<string, Supplier>, name: string) {
    exists k :: k in table && table[k].name == name
  }

  /** Saving `s` would break the unique `name` column. */
  predicate ClashesWithOthers(table: map<string, Supplier>, s: Supplier) {
    exists k :: k in table && k != s.id && table[k].name == s.name
  }

  /** Rows are keyed by id and names are unique. */
  ghost predicate WellFormed(table: map<string, Supplier>) {
    && (forall k :: k in table ==> table[k].id == k)
    && (forall a, b :: a in table && b in table && table[a].name == table[b].name ==> a == b)
  }

  lemma StorePreservesWellFormed(table: map<string, Supplier>, s: Supplier)
    requires WellFormed(table)
    requires !ClashesWithOthers(table, s)
    ensures WellFormed(table[s.id := s])
  {
  }

  const NameInUse := Conflict("Nome já está em uso")
  const UniqueViolation := QueryFailed("duplicate key value violates unique constraint")

  function SupplierNotFound(id: string): HttpError {
    NotFound("Fornecedor com ID " + id + " não encontrado")
  }

  class SuppliersService {
    /** The `suppliers` table, by id. */
    var table: map<string, Supplier>

    ghost predicate Valid()
      reads this
    {
      WellFormed(table)
    }

    constructor (rows: map<string, Supplier>)
      requires WellFormed(rows)
      ensures Valid() && table == rows
    {
      table := rows;
    }

    /** `create`: a taken name is refused and nothing is stored; otherwise
        exactly one new row is stored. */
    method Create(dto: CreateSupplierDto) returns (r: Result<Supplier>)
      requires Valid()
      modifies this
      ensures Valid()
      ensures NameTaken(old(table), dto.name) ==> r == Err(NameInUse) && table == old(table)
      ensures !NameTaken(old(table), dto.name) ==>
        && r.Ok? && r.value == NewSupplier(r.value.id, dto)
        && r.value.id !in old(table)
        && table == old(table)[r.value.id := r.value]
    {
      if NameTaken(table, dto.name) {
        return Err(NameInUse);
      }
      FreshKeyExists(table.Keys);
      var id :| id !in table;
      var saved := NewSupplier(id, dto);
      StorePreservesWellFormed(table, saved);
      table := table[id := saved];
      r := Ok(saved);
    }

    /** `findOne`: the row with that id, or NotFound. */
    method FindOne(id: string) returns (r: Result<Supplier>)
      ensures r.Ok? <==> id in table
      ensures r.Ok? ==> r.value == table[id]
      ensures r.Err? ==> r.error == SupplierNotFound(id)
    {
      if id in table {
        r := Ok(table[id]);
      } else {
        r := Err(SupplierNotFound(id));
      }
    }

    /** `update`: NotFound for an unknown id; otherwise the update is merged
        into the row and saved. The service checks no name: only the
        unique column refuses a name another supplier has. */
    method Update(id: string, dto: UpdateSupplierDto) returns (r: Result<Supplier>)
      requires Valid()
      modifies this
      ensures Valid()
      ensures r.Err? ==> table == old(table)
      ensures id !in old(table) ==> r == Err(SupplierNotFound(id))
      ensures id in old(table) ==>
        var merged := Assign(old(table)[id], dto);
        if ClashesWithOthers(old(table), merged) then r == Err(UniqueViolation)
        else r == Ok(merged) && table == old(table)[id := merged]
    {
      var found := FindOne(id);
      if found.Err? {
        return Err(found.error);
      }
      var updated := Assign(found.value, dto);
      if ClashesWithOthers(table, updated) {
        return Err(UniqueViolation);
      }
      StorePreservesWellFormed(table, updated);
      table := table[id := updated];
      r := Ok(updated);
    }

    /** `remove`: NotFound for an unknown id; otherwise exactly that row is
        deleted. */
    method Remove(id: string) returns (r: Result<()>)
      requires Valid()
      modifies this
      ensures Valid()
      ensures r.Ok? <==> id in old(table)
      ensures r.Err? ==> r.error == SupplierNotFound(id) && table == old(table)
      ensures r.Ok? ==> table == old(table) - {id}
    {
      var found := FindOne(id);
      if found.Err? {
        return Err(found.error);
      }
      table := table - {id};
      r := Ok(());
    }
  }

  /** Renaming a supplier to a name nobody else has, or changing only its
      other fields, always succeeds. */
  lemma UpdateWithoutClashSucceeds(table: map<string, Supplier>, id: string, dto: UpdateSupplierDto)
    requires WellFormed(table) && id in table
    requires dto.name.None? || !NameTaken(table - {id}, dto.name.value)
    ensures !ClashesWithOthers(table, Assign(table[id], dto))
  {
    if dto.name.Some? {
      forall k | k in table && k != id
        ensures table[k].name != dto.name.value
      {
        assert k in table - {id};
      }
    }
  }
}
