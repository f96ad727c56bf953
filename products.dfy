/** The product service: create, find, update and remove products, each
    change announced to the gateway, and the synchronisation that pulls
    every active supplier's catalogue into the product table.

    A record is kept when it is an object with a usable external id and a
    name; it then updates the product with the same (external id,
    supplier) key or creates one. The loops of the synchronisation are
    proved against `SyncAll`, a fold over the suppliers, whose counters are
    related to the suppliers and records by the lemmas below. */
module Products {
  import opened Common
  import opened JsValue
  import opened ProductMapping
  import Strings
  import Suppliers
  import Events

  /** A stored product: its generated id and its properties. */
  datatype Product = Product(id: string, fields: Row)

  /** What looks a product up during a synchronisation. */
  datatype ProductKey = ProductKey(externalId: string, supplierId: string)

  function KeyOf(row: Row): Option<ProductKey> {
    if Field(row, "externalId").Str? && Field(row, "supplierId").Str?
    then Some(ProductKey(Field(row, "externalId").s, Field(row, "supplierId").s))
    else None
  }

  /** The keys present in a product table. */
  ghost function Keys(table: map<string, Row>): set<ProductKey> {
    set id | id in table && KeyOf(table[id]).Some? :: KeyOf(table[id]).value
  }

  lemma KeyInKeys(table: map<string, Row>, id: string, key: ProductKey)
    requires id in table && KeyOf(table[id]) == Some(key)
    ensures key in Keys(table)
  {
  }

  lemma KeyNotInKeys(table: map<string, Row>, key: ProductKey)
    requires forall id :: id in table ==> KeyOf(table[id]) != Some(key)
    ensures key !in Keys(table)
  {
  }

  lemma KeysAfterReplace(table: map<string, Row>, id: string, row: Row)
    requires id in table && KeyOf(row) == KeyOf(table[id])
    ensures Keys(table[id := row]) == Keys(table)
  {
    var t := table[id := row];
    forall key | key in Keys(table) ensures key in Keys(t) {
      var j :| j in table && KeyOf(table[j]) == Some(key);
      assert KeyOf(t[j]) == Some(key);
    }
    forall key | key in Keys(t) ensures key in Keys(table) {
      var j :| j in t && KeyOf(t[j]) == Some(key);
      assert KeyOf(table[j]) == Some(key);
    }
  }

  lemma KeysAfterInsert(table: map<string, Row>, id: string, row: Row, key: ProductKey)
    requires id !in table && KeyOf(row) == Some(key)
    ensures Keys(table[id := row]) == Keys(table) + {key}
  {
    var t := table[id := row];
    assert KeyOf(t[id]) == Some(key);
    forall k | k in Keys(table) ensures k in Keys(t) {
      var j :| j in table && KeyOf(table[j]) == Some(k);
      assert KeyOf(t[j]) == Some(k);
    }
    forall k | k in Keys(t) ensures k in Keys(table) + {key} {
      var j :| j in t && KeyOf(t[j]) == Some(k);
      if j != id {
        assert KeyOf(table[j]) == Some(k);
      }
    }
  }

  /** What a synchronisation keeps of the table it started from: no row
      is deleted, a row without a key is left exactly as it was, and a row
      with a key keeps that key. */
  ghost predicate KeepsRows(before: map<string, Row>, after: map<string, Row>) {
    && before.Keys <= after.Keys
    && (forall id :: id in before && KeyOf(before[id]).None? ==> after[id] == before[id])
    && (forall id :: id in before ==> KeyOf(after[id]) == KeyOf(before[id]))
  }

  lemma KeepsRowsTransitive(a: map<string, Row>, b: map<string, Row>, c: map<string, Row>)
    requires KeepsRows(a, b) && KeepsRows(b, c)
    ensures KeepsRows(a, c)
  {
  }

  // ---------------------------------------------------------------------
  // One record

  /** The key a supplier's record is stored under, or None when the record
      is skipped: not an object, no truthy external id, or no name. */
  function RecordKey(record: Value, supplier: Suppliers.Supplier,
                     parseFloat: string -> Option<real>, numberToString: real -> string)
    : (key: Option<ProductKey>)
    ensures key.Some? ==> key.value.supplierId == supplier.id && key.value.externalId != ""
  {
    if !IsTruthy(record) || !IsObject(record) then None
    else
      var id := ExternalId(record, numberToString);
      if !Truthy(id) then None
      else if !IsTruthy(MapRecord(record, supplier.kind, supplier.id, id.value, parseFloat)["name"]) then None
      else Some(ProductKey(id.value, supplier.id))
  }

  /** The row a kept record maps to. */
  function RecordRow(record: Value, supplier: Suppliers.Supplier,
                     parseFloat: string -> Option<real>, numberToString: real -> string): (row: Row)
    requires RecordKey(record, supplier, parseFloat, numberToString).Some?
    ensures KeyOf(row) == RecordKey(record, supplier, parseFloat, numberToString)
    ensures "name" in row && IsTruthy(row["name"])
    ensures "price" in row && row["price"].Num?
  {
    MapRecord(record, supplier.kind, supplier.id, ExternalId(record, numberToString).value, parseFloat)
  }

  /** A record is kept exactly when it is an object whose id is a string
      or a number with a non-empty rendering, and which has a truthy name
      (`nome` or `name` for a Brazilian supplier, `name` otherwise). */
  lemma RecordKeptIff(record: Value, supplier: Suppliers.Supplier,
                      parseFloat: string -> Option<real>, numberToString: real -> string)
    ensures RecordKey(record, supplier, parseFloat, numberToString).Some? <==>
      && record.Obj?
      && Truthy(ExternalId(record, numberToString))
      && (if supplier.kind == "brazilian"
          then IsTruthy(Get(record, "nome")) || IsTruthy(Get(record, "name"))
          else IsTruthy(Get(record, "name")))
  {
    if record.Obj? && Truthy(ExternalId(record, numberToString)) {
      MappedName(record, supplier.kind, supplier.id, ExternalId(record, numberToString).value, parseFloat);
    }
  }

  datatype Step = Skip | UpdateExisting(key: ProductKey) | CreateNew(key: ProductKey)

  /** What `syncSingleProduct` does with a record, given the keys present. */
  function StepOf(present: set<ProductKey>, record: Value, supplier: Suppliers.Supplier,
                  parseFloat: string -> Option<real>, numberToString: real -> string): Step
  {
    match RecordKey(record, supplier, parseFloat, numberToString)
    case None => Skip
    case Some(key) => if key in present then UpdateExisting(key) else CreateNew(key)
  }

  /** The counters of a synchronisation. */
  datatype Stats = Stats(
    totalSuppliers: nat,
    successfulSuppliers: nat,
    failedSuppliers: nat,
    productsCreated: nat,
    productsUpdated: nat,
    productsSkipped: nat)

  /** A step bumps exactly one of the three product counters. */
  function Bump(s: Stats, step: Step): Stats {
    match step
    case Skip => s.(productsSkipped := s.productsSkipped + 1)
    case UpdateExisting(_) => s.(productsUpdated := s.productsUpdated + 1)
    case CreateNew(_) => s.(productsCreated := s.productsCreated + 1)
  }

  function NextKeys(present: set<ProductKey>, step: Step): set<ProductKey> {
    if step.CreateNew? then present + {step.key} else present
  }

  /** The records of one supplier, in order. */
  function SyncRecords(s: Stats, present: set<ProductKey>, records: seq<Value>, supplier: Suppliers.Supplier,
                       parseFloat: string -> Option<real>, numberToString: real -> string)
    : (Stats, set<ProductKey>)
    decreases |records|
  {
    if |records| == 0 then (s, present)
    else
      var step := StepOf(present, records[0], supplier, parseFloat, numberToString);
      SyncRecords(Bump(s, step), NextKeys(present, step), records[1..], supplier, parseFloat, numberToString)
  }

  // ---------------------------------------------------------------------
  // All suppliers

  /** What fetching a supplier's catalogue gave: an error, or the response
      body. */
  datatype FetchResult = FetchFailed | Fetched(body: Value)

  /** How one supplier is accounted for. */
  datatype Fate = Inactive | FetchError | NothingFetched | Synced

  function FateOf(supplier: Suppliers.Supplier, fetched: FetchResult): Fate {
    if !supplier.isActive then Inactive
    else if fetched.FetchFailed? then FetchError
    else if !fetched.body.Arr? || |fetched.body.items| == 0 then NothingFetched
    else Synced
  }

  /** One supplier: an inactive one counts as a skipped product, a failed
      fetch as a failed supplier, an empty or non-array body as nothing,
      and a catalogue is synchronised record by record and then counts as
      a successful supplier. */
  function SyncSupplier(s: Stats, present: set<ProductKey>, supplier: Suppliers.Supplier, fetched: FetchResult,
                        parseFloat: string -> Option<real>, numberToString: real -> string)
    : (Stats, set<ProductKey>)
  {
    match FateOf(supplier, fetched)
    case Inactive => (s.(productsSkipped := s.productsSkipped + 1), present)
    case FetchError => (s.(failedSuppliers := s.failedSuppliers + 1), present)
    case NothingFetched => (s, present)
    case Synced =>
      var r := SyncRecords(s, present, fetched.body.items, supplier, parseFloat, numberToString);
      (r.0.(successfulSuppliers := r.0.successfulSuppliers + 1), r.1)
  }

  /** The suppliers, in order. */
  function SyncAll(s: Stats, present: set<ProductKey>, suppliers: seq<Suppliers.Supplier>,
                   fetch: Suppliers.Supplier -> FetchResult,
                   parseFloat: string -> Option<real>, numberToString: real -> string)
    : (Stats, set<ProductKey>)
    decreases |suppliers|
  {
    if |suppliers| == 0 then (s, present)
    else
      var r := SyncSupplier(s, present, suppliers[0], fetch(suppliers[0]), parseFloat, numberToString);
      SyncAll(r.0, r.1, suppliers[1..], fetch, parseFloat, numberToString)
  }

  /** The number of suppliers with a given fate. */
  function CountFate(suppliers: seq<Suppliers.Supplier>, fetch: Suppliers.Supplier -> FetchResult, fate: Fate): nat
    decreases |suppliers|
  {
    if |suppliers| == 0 then 0
    else (if FateOf(suppliers[0], fetch(suppliers[0])) == fate then 1 else 0)
         + CountFate(suppliers[1..], fetch, fate)
  }

  /** The number of records in the catalogues that are synchronised. */
  function SyncedRecords(suppliers: seq<Suppliers.Supplier>, fetch: Suppliers.Supplier -> FetchResult): nat
    decreases |suppliers|
  {
    if |suppliers| == 0 then 0
    else (if FateOf(suppliers[0], fetch(suppliers[0])) == Synced then |fetch(suppliers[0]).body.items| else 0)
         + SyncedRecords(suppliers[1..], fetch)
  }

  const Summary := "Sincronização concluída: "

  /** The message of a finished synchronisation. */
  function SummaryMessage(s: Stats): string {
    Summary + Strings.NatToString(s.productsCreated) + " criados, "
    + Strings.NatToString(s.productsUpdated) + " atualizados, "
    + Strings.NatToString(s.productsSkipped) + " ignorados"
  }

  datatype SyncResult = SyncResult(success: bool, message: string, stats: Stats)

  // ---------------------------------------------------------------------
  // What a synchronisation counts

  /** Every record of a catalogue bumps exactly one product counter; only
      the product counters change; the keys only grow, by exactly one new
      key per created product. */
  lemma {:induction false} RecordsCounted(s: Stats, present: set<ProductKey>, records: seq<Value>,
                                          supplier: Suppliers.Supplier,
                                          parseFloat: string -> Option<real>, numberToString: real -> string)
    ensures var r := SyncRecords(s, present, records, supplier, parseFloat, numberToString);
      && r.0.productsCreated + r.0.productsUpdated + r.0.productsSkipped
         == s.productsCreated + s.productsUpdated + s.productsSkipped + |records|
      && r.0.productsCreated >= s.productsCreated
      && r.0.productsUpdated >= s.productsUpdated
      && r.0.productsSkipped >= s.productsSkipped
      && r.0.totalSuppliers == s.totalSuppliers
      && r.0.successfulSuppliers == s.successfulSuppliers
      && r.0.failedSuppliers == s.failedSuppliers
      && present <= r.1
      && |r.1| == |present| + r.0.productsCreated - s.productsCreated
    decreases |records|
  {
    if |records| > 0 {
      var step := StepOf(present, records[0], supplier, parseFloat, numberToString);
      RecordsCounted(Bump(s, step), NextKeys(present, step), records[1..], supplier, parseFloat, numberToString);
      if step.CreateNew? {
        assert |present + {step.key}| == |present| + 1;
      }
    }
  }

  /** After a catalogue is synchronised, the key of every kept record of
      it is present. */
  lemma {:induction false} RecordsLeaveKeys(s: Stats, present: set<ProductKey>, records: seq<Value>,
                                            supplier: Suppliers.Supplier,
                                            parseFloat: string -> Option<real>, numberToString: real -> string)
    ensures var r := SyncRecords(s, present, records, supplier, parseFloat, numberToString);
      && present <= r.1
      && forall i :: 0 <= i < |records| && RecordKey(records[i], supplier, parseFloat, numberToString).Some? ==>
           RecordKey(records[i], supplier, parseFloat, numberToString).value in r.1
    decreases |records|
  {
    if |records| > 0 {
      var step := StepOf(present, records[0], supplier, parseFloat, numberToString);
      RecordsLeaveKeys(Bump(s, step), NextKeys(present, step), records[1..], supplier, parseFloat, numberToString);
      forall i | 1 <= i < |records|
        ensures records[i] == records[1..][i - 1]
      {
      }
    }
  }

  /** A catalogue whose kept records are all present already creates
      nothing and adds no key: every such record updates. */
  lemma {:induction false} PresentRecordsCreateNothing(s: Stats, present: set<ProductKey>, records: seq<Value>,
                                                       supplier: Suppliers.Supplier,
                                                       parseFloat: string -> Option<real>,
                                                       numberToString: real -> string)
    requires forall i :: 0 <= i < |records| && RecordKey(records[i], supplier, parseFloat, numberToString).Some? ==>
               RecordKey(records[i], supplier, parseFloat, numberToString).value in present
    ensures var r := SyncRecords(s, present, records, supplier, parseFloat, numberToString);
      r.1 == present && r.0.productsCreated == s.productsCreated
    decreases |records|
  {
    if |records| > 0 {
      var step := StepOf(present, records[0], supplier, parseFloat, numberToString);
      assert !step.CreateNew?;
      forall i | 0 <= i < |records| - 1
        ensures records[1..][i] == records[i + 1]
      {
      }
      PresentRecordsCreateNothing(Bump(s, step), present, records[1..], supplier, parseFloat, numberToString);
    }
  }

  /** Synchronising the same catalogue a second time creates no product. */
  lemma ResyncCreatesNothing(s: Stats, present: set<ProductKey>, records: seq<Value>,
                             supplier: Suppliers.Supplier,
                             parseFloat: string -> Option<real>, numberToString: real -> string)
    ensures var first := SyncRecords(s, present, records, supplier, parseFloat, numberToString);
      var second := SyncRecords(first.0, first.1, records, supplier, parseFloat, numberToString);
      second.1 == first.1 && second.0.productsCreated == first.0.productsCreated
  {
    var first := SyncRecords(s, present, records, supplier, parseFloat, numberToString);
    RecordsLeaveKeys(s, present, records, supplier, parseFloat, numberToString);
    PresentRecordsCreateNothing(first.0, first.1, records, supplier, parseFloat, numberToString);
  }

  /** The supplier counters of a synchronisation: the total is untouched,
      a successful supplier is one whose catalogue was fetched and
      non-empty, a failed one one whose fetch failed. The product counters
      grow by one per inactive supplier and one per record of every
      synchronised catalogue, and the skipped ones include every inactive
      supplier. */
  lemma {:induction false} SuppliersCounted(s: Stats, present: set<ProductKey>, suppliers: seq<Suppliers.Supplier>,
                                            fetch: Suppliers.Supplier -> FetchResult,
                                            parseFloat: string -> Option<real>, numberToString: real -> string)
    ensures var r := SyncAll(s, present, suppliers, fetch, parseFloat, numberToString);
      && r.0.totalSuppliers == s.totalSuppliers
      && r.0.successfulSuppliers == s.successfulSuppliers + CountFate(suppliers, fetch, Synced)
      && r.0.failedSuppliers == s.failedSuppliers + CountFate(suppliers, fetch, FetchError)
      && r.0.productsSkipped >= s.productsSkipped + CountFate(suppliers, fetch, Inactive)
      && r.0.productsCreated + r.0.productsUpdated + r.0.productsSkipped
         == s.productsCreated + s.productsUpdated + s.productsSkipped
            + CountFate(suppliers, fetch, Inactive) + SyncedRecords(suppliers, fetch)
      && present <= r.1
    decreases |suppliers|
  {
    if |suppliers| > 0 {
      var sup := suppliers[0];
      var fetched := fetch(sup);
      var r := SyncSupplier(s, present, sup, fetched, parseFloat, numberToString);
      if FateOf(sup, fetched) == Synced {
        RecordsCounted(s, present, fetched.body.items, sup, parseFloat, numberToString);
      }
      SuppliersCounted(r.0, r.1, suppliers[1..], fetch, parseFloat, numberToString);
    }
  }

  /** Each supplier has exactly one fate. */
  lemma {:induction false} FatesPartition(suppliers: seq<Suppliers.Supplier>, fetch: Suppliers.Supplier -> FetchResult)
    ensures CountFate(suppliers, fetch, Inactive) + CountFate(suppliers, fetch, FetchError)
            + CountFate(suppliers, fetch, NothingFetched) + CountFate(suppliers, fetch, Synced)
            == |suppliers|
    decreases |suppliers|
  {
    if |suppliers| > 0 {
      FatesPartition(suppliers[1..], fetch);
    }
  }

  /** The counters a whole synchronisation reports, starting from zero
      with the supplier count: `totalSuppliers` is the number of suppliers;
      the successful and failed suppliers are exactly those that are
      neither inactive nor fetched empty; and the products counted are one
      per inactive supplier and one per synchronised record. */
  lemma ReportedTotals(present: set<ProductKey>, suppliers: seq<Suppliers.Supplier>,
                       fetch: Suppliers.Supplier -> FetchResult,
                       parseFloat: string -> Option<real>, numberToString: real -> string)
    ensures var r := SyncAll(Stats(|suppliers|, 0, 0, 0, 0, 0), present, suppliers, fetch, parseFloat, numberToString);
      && r.0.totalSuppliers == |suppliers|
      && r.0.successfulSuppliers + r.0.failedSuppliers
         + CountFate(suppliers, fetch, Inactive) + CountFate(suppliers, fetch, NothingFetched)
         == |suppliers|
      && r.0.productsSkipped >= CountFate(suppliers, fetch, Inactive)
      && r.0.productsCreated + r.0.productsUpdated + r.0.productsSkipped
         == CountFate(suppliers, fetch, Inactive) + SyncedRecords(suppliers, fetch)
  {
    SuppliersCounted(Stats(|suppliers|, 0, 0, 0, 0, 0), present, suppliers, fetch, parseFloat, numberToString);
    FatesPartition(suppliers, fetch);
  }

  // ---------------------------------------------------------------------
  // The service

  const ProductNotFoundPrefix := "Produto com ID "

  function ProductNotFound(id: string): HttpError {
    NotFound(ProductNotFoundPrefix + id + " não encontrado")
  }

  /** The counters record a synchronisation updates in place. */
  class SyncStats {
    var totalSuppliers: nat
    var successfulSuppliers: nat
    var failedSuppliers: nat
    var productsCreated: nat
    var productsUpdated: nat
    var productsSkipped: nat

    function Snapshot(): Stats
      reads this
    {
      Stats(totalSuppliers, successfulSuppliers, failedSuppliers, productsCreated, productsUpdated, productsSkipped)
    }

    constructor ()
      ensures Snapshot() == Stats(0, 0, 0, 0, 0, 0)
    {
      totalSuppliers := 0;
      successfulSuppliers := 0;
      failedSuppliers := 0;
      productsCreated := 0;
      productsUpdated := 0;
      productsSkipped := 0;
    }

    /** `stats.productsSkipped++`, `productsUpdated++` or `productsCreated++`
        as the step says: exactly that counter moves. */
    method Count(step: Step)
      modifies this
      ensures Snapshot() == Bump(old(Snapshot()), step)
    {
      match step
      case Skip => productsSkipped := productsSkipped + 1;
      case UpdateExisting(_) => productsUpdated := productsUpdated + 1;
      case CreateNew(_) => productsCreated := productsCreated + 1;
    }
  }

  class ProductsService {
    /** The `products` table, by id. */
    var table: map<string, Row>
    /** Everything this service has pushed to the gateway, in order. */
    var outbox: seq<Events.Emission>
    /** `request.client?.id` of the request the service serves. */
    const requestClientId: Option<string>

    constructor (rows: map<string, Row>, requestClientId: Option<string>)
      ensures table == rows && outbox == [] && this.requestClientId == requestClientId
    {
      table := rows;
      outbox := [];
      this.requestClientId := requestClientId;
    }

    /** `{id, name, price, clientId}` of a saved product, the store being
        the request's. */
    function EventOf(id: string, row: Row): Events.ProductEvent {
      Events.ProductEvent(id, Field(row, "name"), Field(row, "price"), requestClientId)
    }

    /** `create`: one new row holding the body, announced as created. */
    method Create(dto: Row) returns (r: Product)
      modifies this
      ensures r.id !in old(table) && r.fields == dto
      ensures table == old(table)[r.id := dto]
      ensures outbox == old(outbox) + Events.NotifyProductCreated(EventOf(r.id, dto))
    {
      Strings.FreshKeyExists(table.Keys);
      var id :| id !in table;
      table := table[id := dto];
      outbox := outbox + Events.NotifyProductCreated(EventOf(id, dto));
      r := Product(id, dto);
    }

    /** `findOne`: the product with that id, or NotFound. */
    method FindOne(id: string) returns (r: Result<Product>)
      ensures r.Ok? <==> id in table
      ensures r.Ok? ==> r.value == Product(id, table[id])
      ensures r.Err? ==> r.error == ProductNotFound(id)
    {
      if id in table {
        r := Ok(Product(id, table[id]));
      } else {
        r := Err(ProductNotFound(id));
      }
    }

    /** `update`: NotFound for an unknown id; otherwise the body's
        properties overwrite the row's, the others are kept, and the saved
        row is announced as updated. */
    method Update(id: string, dto: Row) returns (r: Result<Product>)
      modifies this
      ensures r.Ok? <==> id in old(table)
      ensures r.Err? ==> r.error == ProductNotFound(id) && table == old(table) && outbox == old(outbox)
      ensures r.Ok? ==>
        && r.value == Product(id, old(table)[id] + dto)
        && (forall key :: key in dto ==> r.value.fields[key] == dto[key])
        && (forall key :: key in old(table)[id] && key !in dto ==> r.value.fields[key] == old(table)[id][key])
        && table == old(table)[id := r.value.fields]
        && outbox == old(outbox) + Events.NotifyProductUpdated(EventOf(id, r.value.fields))
    {
      var found := FindOne(id);
      if found.Err? {
        return Err(found.error);
      }
      var saved := SaveMerged(id, dto);
      r := Ok(saved);
    }

    /** `Object.assign(product, dto)`, `save` and `notifyProductUpdated`:
        the properties given overwrite the row's, the others are kept, and
        the saved row is announced as updated. */
    method SaveMerged(id: string, dto: Row) returns (saved: Product)
      requires id in table
      modifies this
      ensures saved == Product(id, old(table)[id] + dto)
      ensures forall key :: key in dto ==> saved.fields[key] == dto[key]
      ensures forall key :: key in old(table)[id] && key !in dto ==> saved.fields[key] == old(table)[id][key]
      ensures table == old(table)[id := saved.fields]
      ensures outbox == old(outbox) + Events.NotifyProductUpdated(EventOf(id, saved.fields))
    {
      var updated := table[id] + dto;
      table := table[id := updated];
      outbox := outbox + Events.NotifyProductUpdated(EventOf(id, updated));
      saved := Product(id, updated);
    }

    /** `remove`: NotFound for an unknown id; otherwise exactly that row is
        deleted and its removal announced to the request's store. */
    method Remove(id: string) returns (r: Result<()>)
      modifies this
      ensures r.Ok? <==> id in old(table)
      ensures r.Err? ==> r.error == ProductNotFound(id) && table == old(table) && outbox == old(outbox)
      ensures r.Ok? ==>
        table == old(table) - {id} && outbox == old(outbox) + Events.NotifyProductRemoved(id, requestClientId)
    {
      var found := FindOne(id);
      if found.Err? {
        return Err(found.error);
      }
      table := table - {id};
      outbox := outbox + Events.NotifyProductRemoved(id, requestClientId);
      r := Ok(());
    }

    /** `findOne({where: {externalId, supplierId}})`: the id of a product
        with that key, when the table has one. */
    method FindByKey(key: ProductKey) returns (r: Option<string>)
      ensures r.Some? <==> key in Keys(table)
      ensures r.Some? ==> r.value in table && KeyOf(table[r.value]) == Some(key)
    {
      if exists id :: id in table && KeyOf(table[id]) == Some(key) {
        var id :| id in table && KeyOf(table[id]) == Some(key);
        KeyInKeys(table, id, key);
        r := Some(id);
      } else {
        KeyNotInKeys(table, key);
        r := None;
      }
    }

    /** `syncSingleProduct`: a skipped record changes nothing but the
        skipped counter; a kept record whose key is present is merged into
        a row with that key and announced as updated; any other kept record
        becomes a new row announced as created. Exactly one counter moves. */
    method SyncSingleProduct(record: Value, supplier: Suppliers.Supplier, stats: SyncStats,
                             parseFloat: string -> Option<real>, numberToString: real -> string)
      returns (ghost savedId: Option<string>)
      modifies this, stats
      ensures KeepsRows(old(table), table)
      ensures stats.Snapshot() == Bump(old(stats.Snapshot()), StepOf(Keys(old(table)), record, supplier, parseFloat, numberToString))
      ensures Keys(table) == NextKeys(Keys(old(table)), StepOf(Keys(old(table)), record, supplier, parseFloat, numberToString))
      ensures StepOf(Keys(old(table)), record, supplier, parseFloat, numberToString).Skip? ==>
        table == old(table) && outbox == old(outbox)
      ensures StepOf(Keys(old(table)), record, supplier, parseFloat, numberToString).Skip? <==> savedId.None?
      ensures StepOf(Keys(old(table)), record, supplier, parseFloat, numberToString).UpdateExisting? ==>
        && savedId.Some? && savedId.value in old(table)
        && KeyOf(old(table)[savedId.value]) == RecordKey(record, supplier, parseFloat, numberToString)
        && table == old(table)[savedId.value := old(table)[savedId.value]
                                               + RecordRow(record, supplier, parseFloat, numberToString)]
        && outbox == old(outbox) + Events.NotifyProductUpdated(EventOf(savedId.value, table[savedId.value]))
      ensures StepOf(Keys(old(table)), record, supplier, parseFloat, numberToString).CreateNew? ==>
        && savedId.Some? && savedId.value !in old(table)
        && table == old(table)[savedId.value := RecordRow(record, supplier, parseFloat, numberToString)]
        && outbox == old(outbox) + Events.NotifyProductCreated(EventOf(savedId.value, table[savedId.value]))
    {
      ghost var step := StepOf(Keys(table), record, supplier, parseFloat, numberToString);
      savedId := None;
      if !IsTruthy(record) || !IsObject(record) {
        assert step == Skip;
        stats.Count(Skip);
        return;
      }
      var externalId := ExternalId(record, numberToString);
      if !Truthy(externalId) {
        assert step == Skip;
        stats.Count(Skip);
        return;
      }
      var key := ProductKey(externalId.value, supplier.id);
      var data := MapRecord(record, supplier.kind, supplier.id, externalId.value, parseFloat);
      if !IsTruthy(data["name"]) {
        assert step == Skip;
        stats.Count(Skip);
        return;
      }
      assert RecordKey(record, supplier, parseFloat, numberToString) == Some(key);
      assert data == RecordRow(record, supplier, parseFloat, numberToString);
      var id := StoreRecord(key, data, stats);
      savedId := Some(id);
    }

    /** The kept half of `syncSingleProduct`: the row with the record's key
        is merged with the mapped record and announced as updated, or, when
        there is none, the mapped record becomes a new row announced as
        created; the matching counter moves and the key is then present. */
    method StoreRecord(key: ProductKey, data: Row, stats: SyncStats) returns (id: string)
      requires KeyOf(data) == Some(key)
      modifies this, stats
      ensures Keys(table) == Keys(old(table)) + {key}
      ensures KeepsRows(old(table), table)
      ensures key in Keys(old(table)) ==>
        && stats.Snapshot() == Bump(old(stats.Snapshot()), UpdateExisting(key))
        && id in old(table) && KeyOf(old(table)[id]) == Some(key)
        && table == old(table)[id := old(table)[id] + data]
        && outbox == old(outbox) + Events.NotifyProductUpdated(EventOf(id, table[id]))
      ensures key !in Keys(old(table)) ==>
        && stats.Snapshot() == Bump(old(stats.Snapshot()), CreateNew(key))
        && id !in old(table)
        && table == old(table)[id := data]
        && outbox == old(outbox) + Events.NotifyProductCreated(EventOf(id, data))
    {
      var existing := FindByKey(key);
      if existing.Some? {
        id := existing.value;
        assert KeyOf(table[id] + data) == Some(key);
        KeysAfterReplace(table, id, table[id] + data);
        assert Keys(table) + {key} == Keys(table);
        var saved := SaveMerged(id, data);
        stats.Count(UpdateExisting(key));
      } else {
        ghost var before := table;
        var saved := Create(data);
        KeysAfterInsert(before, saved.id, data, key);
        stats.Count(CreateNew(key));
        id := saved.id;
      }
    }

    /** `syncProductsFromSuppliers` over the suppliers `findAll` returned,
        in order, with `fetch` standing for the supplier's HTTP fetch: the
        counters and the keys left in the table are those of `SyncAll`, the
        message reports the product counters, and notifications are only
        appended. */
    method SyncProductsFromSuppliers(suppliers: seq<Suppliers.Supplier>, fetch: Suppliers.Supplier -> FetchResult,
                                     parseFloat: string -> Option<real>, numberToString: real -> string)
      returns (result: SyncResult)
      modifies this
      ensures var r := SyncAll(Stats(|suppliers|, 0, 0, 0, 0, 0), Keys(old(table)), suppliers, fetch,
                               parseFloat, numberToString);
        && result == SyncResult(true, SummaryMessage(r.0), r.0)
        && Keys(table) == r.1
      ensures KeepsRows(old(table), table)
      ensures old(outbox) <= outbox
    {
      ghost var initial := table;
      var stats := new SyncStats();
      stats.totalSuppliers := |suppliers|;
      ghost var goal := SyncAll(stats.Snapshot(), Keys(table), suppliers, fetch, parseFloat, numberToString);
      for i := 0 to |suppliers|
        invariant SyncAll(stats.Snapshot(), Keys(table), suppliers[i..], fetch, parseFloat, numberToString) == goal
        invariant KeepsRows(initial, table)
        invariant old(outbox) <= outbox
      {
        var supplier := suppliers[i];
        assert suppliers[i..][0] == supplier && suppliers[i..][1..] == suppliers[i + 1..];
        if !supplier.isActive {
          stats.Count(Skip);
        } else {
          var fetched := fetch(supplier);
          if fetched.FetchFailed? {
            stats.failedSuppliers := stats.failedSuppliers + 1;
          } else if fetched.body.Arr? && |fetched.body.items| > 0 {
            var items := fetched.body.items;
            ghost var catalogue := SyncRecords(stats.Snapshot(), Keys(table), items, supplier, parseFloat, numberToString);
            for j := 0 to |items|
              invariant SyncRecords(stats.Snapshot(), Keys(table), items[j..], supplier, parseFloat, numberToString)
                        == catalogue
              invariant KeepsRows(initial, table)
              invariant old(outbox) <= outbox
            {
              assert items[j..][0] == items[j] && items[j..][1..] == items[j + 1..];
              ghost var before := table;
              ghost var _ := SyncSingleProduct(items[j], supplier, stats, parseFloat, numberToString);
              KeepsRowsTransitive(initial, before, table);
            }
            stats.successfulSuppliers := stats.successfulSuppliers + 1;
          }
        }
      }
      var final := stats.Snapshot();
      result := SyncResult(true, SummaryMessage(final), final);
    }
  }
}
