/** The pure part of the product service: reading a supplier's record (its
    external id, its price) and mapping it to a product row, and turning
    the listing filters into repository options. `parseFloat` and
    `String(number)` are parameters. */
module ProductMapping {
  import opened Common
  import opened JsValue

  /** A product as a bag of properties, as `Partial<Product>` and
      `Object.assign` see it. */
  type Row = map<string, Value>

  /** `row.key`: `undefined` for a property the row lacks. */
  function Field(row: Row, key: string): Value {
    if key in row then row[key] else Undefined
  }

  /** `getExternalProductId`: a string id as it is, a numeric id rendered
      by `numberToString`; no id for a value that is not an object, for a
      null or missing id and for an id of any other type. */
  function ExternalId(record: Value, numberToString: real -> string): (r: Option<string>)
    ensures !IsTruthy(record) || !IsObject(record) ==> r.None?
    ensures r.Some? <==> record.Obj? && (Get(record, "id").Str? || Get(record, "id").Num?)
    ensures record.Obj? && Get(record, "id").Str? ==> r == Some(Get(record, "id").s)
    ensures record.Obj? && Get(record, "id").Num? ==> r == Some(numberToString(Get(record, "id").n))
  {
    if !IsTruthy(record) || !IsObject(record) then None
    else
      var id := Get(record, "id");
      if id.Undefined? || id.Null? then None
      else if id.Str? then Some(id.s)
      else if id.Num? then Some(numberToString(id.n))
      else None
  }

  /** `parsePrice`: a number as it is, a string through `parseFloat` with
      NaN (None) read as 0, anything else 0. */
  function ParsePrice(price: Value, parseFloat: string -> Option<real>): (p: real)
    ensures price.Num? ==> p == price.n
    ensures price.Str? ==> p == (if parseFloat(price.s).Some? then parseFloat(price.s).value else 0.0)
    ensures !price.Num? && !price.Str? ==> p == 0.0
  {
    match price
    case Str(s) => if parseFloat(s).None? then 0.0 else parseFloat(s).value
    case Num(n) => n
    case _ => 0.0
  }

  const BrazilianKeys: set<string> :=
    {"name", "description", "price", "image", "category", "material", "department", "externalId", "supplierId"}

  const EuropeanKeys: set<string> :=
    {"name", "description", "price", "image", "gallery", "hasDiscount", "discountValue", "externalId", "supplierId"}

  /** `gallery && gallery.length > 0 ? gallery[0] : undefined`. */
  function FirstOfGallery(gallery: Value): (image: Value)
    ensures gallery.Arr? && |gallery.items| > 0 ==> image == gallery.items[0]
    ensures gallery.Arr? && |gallery.items| == 0 ==> image.Undefined?
    ensures gallery.Str? ==> image == (if |gallery.s| > 0 then Str([gallery.s[0]]) else Undefined)
    ensures !gallery.Arr? && !gallery.Str? ==> image.Undefined?
    ensures !IsTruthy(gallery) ==> image.Undefined?
  {
    match gallery
    case Arr(items) => if |items| > 0 then items[0] else Undefined
    case Str(s) => if |s| > 0 then Str([s[0]]) else Undefined
    case _ => Undefined
  }

  /** A record of a supplier whose `type` is "brazilian". */
  function MapBrazilian(record: Value, supplierId: string, externalId: string,
                        parseFloat: string -> Option<real>): (row: Row)
    ensures row.Keys == BrazilianKeys
    ensures row["externalId"] == Str(externalId) && row["supplierId"] == Str(supplierId)
    ensures row["price"] == Num(ParsePrice(Get(record, "preco"), parseFloat))
  {
    map[
      "name" := Or(Or(Get(record, "nome"), Get(record, "name")), Str("")),
      "description" := Get(record, "descricao"),
      "image" := Get(record, "imagem"),
      "category" := Get(record, "categoria"),
      "material" := Get(record, "material"),
      "department" := Get(record, "departamento"),
      "price" := Num(ParsePrice(Get(record, "preco"), parseFloat)),
      "externalId" := Str(externalId),
      "supplierId" := Str(supplierId)]
  }

  /** A record of any other supplier. */
  function MapEuropean(record: Value, supplierId: string, externalId: string,
                       parseFloat: string -> Option<real>): (row: Row)
    ensures row.Keys == EuropeanKeys
    ensures row["externalId"] == Str(externalId) && row["supplierId"] == Str(supplierId)
    ensures row["price"] == Num(ParsePrice(Get(record, "price"), parseFloat))
    ensures row["image"] == FirstOfGallery(Get(record, "gallery"))
  {
    map[
      "name" := Or(Get(record, "name"), Str("")),
      "description" := Get(record, "description"),
      "gallery" := Get(record, "gallery"),
      "hasDiscount" := Get(record, "hasDiscount"),
      "discountValue" := Get(record, "discountValue"),
      "image" := FirstOfGallery(Get(record, "gallery")),
      "price" := Num(ParsePrice(Get(record, "price"), parseFloat)),
      "externalId" := Str(externalId),
      "supplierId" := Str(supplierId)]
  }

  /** The properties copied from a record, each under its internal name:
      the Portuguese names of a Brazilian record are translated, and a
      European record's are kept. */
  lemma RenamedFields(record: Value, supplierId: string, externalId: string,
                      parseFloat: string -> Option<real>)
    ensures var b := MapBrazilian(record, supplierId, externalId, parseFloat);
      && b["description"] == Get(record, "descricao")
      && b["image"] == Get(record, "imagem")
      && b["category"] == Get(record, "categoria")
      && b["material"] == Get(record, "material")
      && b["department"] == Get(record, "departamento")
    ensures var e := MapEuropean(record, supplierId, externalId, parseFloat);
      && e["description"] == Get(record, "description")
      && e["gallery"] == Get(record, "gallery")
      && e["hasDiscount"] == Get(record, "hasDiscount")
      && e["discountValue"] == Get(record, "discountValue")
  {
  }

  /** `mapExternalProductToInternal`: the Brazilian layout for a supplier of
      type "brazilian", the European one for every other type. Either way
      the row has a fixed set of properties, a numeric price, the external
      id and the supplier's id. */
  function MapRecord(record: Value, supplierKind: string, supplierId: string, externalId: string,
                     parseFloat: string -> Option<real>): (row: Row)
    ensures row.Keys == if supplierKind == "brazilian" then BrazilianKeys else EuropeanKeys
    ensures row["externalId"] == Str(externalId) && row["supplierId"] == Str(supplierId)
    ensures row["price"].Num?
    ensures supplierKind == "brazilian" ==>
      row["price"] == Num(ParsePrice(Get(record, "preco"), parseFloat))
    ensures supplierKind != "brazilian" ==>
      && row["price"] == Num(ParsePrice(Get(record, "price"), parseFloat))
      && row["image"] == FirstOfGallery(Get(record, "gallery"))
  {
    if supplierKind == "brazilian" then MapBrazilian(record, supplierId, externalId, parseFloat)
    else MapEuropean(record, supplierId, externalId, parseFloat)
  }

  /** The mapped price, read from `preco` for a Brazilian supplier and from
      `price` otherwise: a number passes through, a string is parsed with
      an unparseable one read as 0, and any other value is 0. */
  lemma MappedPrice(record: Value, supplierKind: string, supplierId: string, externalId: string,
                    parseFloat: string -> Option<real>)
    ensures var p := Get(record, if supplierKind == "brazilian" then "preco" else "price");
      var price := MapRecord(record, supplierKind, supplierId, externalId, parseFloat)["price"];
      && (p.Num? ==> price == p)
      && (p.Str? && parseFloat(p.s).Some? ==> price == Num(parseFloat(p.s).value))
      && (p.Str? && parseFloat(p.s).None? ==> price == Num(0.0))
      && (!p.Num? && !p.Str? ==> price == Num(0.0))
  {
  }

  /** The mapped name is the first truthy candidate (`nome`, then `name`
      for a Brazilian record; `name` for any other), and it is falsy only
      when no candidate is truthy, in which case it is "". */
  lemma MappedName(record: Value, supplierKind: string, supplierId: string, externalId: string,
                   parseFloat: string -> Option<real>)
    ensures var name := MapRecord(record, supplierKind, supplierId, externalId, parseFloat)["name"];
      && (supplierKind == "brazilian" ==>
            && (IsTruthy(Get(record, "nome")) ==> name == Get(record, "nome"))
            && (!IsTruthy(Get(record, "nome")) && IsTruthy(Get(record, "name")) ==> name == Get(record, "name"))
            && (!IsTruthy(name) <==> !IsTruthy(Get(record, "nome")) && !IsTruthy(Get(record, "name"))))
      && (supplierKind != "brazilian" ==>
            && (IsTruthy(Get(record, "name")) ==> name == Get(record, "name"))
            && (!IsTruthy(name) <==> !IsTruthy(Get(record, "name"))))
      && (!IsTruthy(name) ==> name == Str(""))
  {
  }

  // ---------------------------------------------------------------------
  // Listing filters

  /** The query of a listing; None is an absent parameter. */
  datatype Filters = Filters(
    name: Option<string>,
    category: Option<string>,
    minPrice: Option<real>,
    maxPrice: Option<real>,
    supplierId: Option<string>,
    limit: Option<int>,
    offset: Option<int>)

  /** The repository's price operators. */
  datatype PriceFilter = Between(low: real, high: real) | AtLeast(low: real) | AtMost(high: real)

  /** The `where` object: each field is a condition, None one not set. */
  datatype Where = Where(
    namePattern: Option<string>,
    category: Option<string>,
    price: Option<PriceFilter>,
    supplierId: Option<string>)

  datatype FindOptions = FindOptions(take: int, skip: int, where: Option<Where>)

  /** `x || fallback` for a numeric query parameter. */
  function OrDefault(x: Option<int>, fallback: int): int {
    if x.Some? && x.value != 0 then x.value else fallback
  }

  function PriceCondition(minPrice: Option<real>, maxPrice: Option<real>): Option<PriceFilter> {
    if minPrice.Some? && maxPrice.Some? then Some(Between(minPrice.value, maxPrice.value))
    else if minPrice.Some? then Some(AtLeast(minPrice.value))
    else if maxPrice.Some? then Some(AtMost(maxPrice.value))
    else None
  }

  /** The options of `findAll`: `take` is the limit (10 when absent or 0),
      `skip` the offset (0 by default); the name matches anywhere
      (`%name%`); a truthy name, category and supplier each add a condition,
      and so does any given price bound; `where` is left out exactly when
      no condition is set. */
  function FindAllOptions(filters: Option<Filters>): (o: FindOptions)
    ensures filters.None? ==> o == FindOptions(10, 0, None)
    ensures filters.Some? ==>
      var f := filters.value;
      && o.take == (if f.limit.Some? && f.limit.value != 0 then f.limit.value else 10)
      && o.skip == (if f.offset.Some? then f.offset.value else 0)
      && (o.where.None? <==>
            !Truthy(f.name) && !Truthy(f.category) && f.minPrice.None? && f.maxPrice.None?
            && !Truthy(f.supplierId))
      && (o.where.Some? ==>
            && (o.where.value.namePattern.Some? <==> Truthy(f.name))
            && (Truthy(f.name) ==> o.where.value.namePattern == Some("%" + f.name.value + "%"))
            && o.where.value.category == (if Truthy(f.category) then f.category else None)
            && (o.where.value.price.Some? <==> f.minPrice.Some? || f.maxPrice.Some?)
            && o.where.value.supplierId == (if Truthy(f.supplierId) then f.supplierId else None))
  {
    if filters.None? then FindOptions(10, 0, None)
    else
      var f := filters.value;
      var w := Where(
        if Truthy(f.name) then Some("%" + f.name.value + "%") else None,
        if Truthy(f.category) then f.category else None,
        PriceCondition(f.minPrice, f.maxPrice),
        if Truthy(f.supplierId) then f.supplierId else None);
      var empty := w == Where(None, None, None, None);
      FindOptions(OrDefault(f.limit, 10), OrDefault(f.offset, 0), if empty then None else Some(w))
  }

  /** What a price operator admits; Between includes both bounds. */
  predicate PriceAdmits(c: Option<PriceFilter>, price: real) {
    match c
    case None => true
    case Some(Between(low, high)) => low <= price <= high
    case Some(AtLeast(low)) => low <= price
    case Some(AtMost(high)) => price <= high
  }

  /** The price condition of a listing admits exactly the prices within
      the bounds given. */
  lemma PriceFilterMeaning(f: Filters, price: real)
    requires FindAllOptions(Some(f)).where.Some?
    ensures PriceAdmits(FindAllOptions(Some(f)).where.value.price, price) <==>
      (f.minPrice.None? || f.minPrice.value <= price) && (f.maxPrice.None? || price <= f.maxPrice.value)
  {
  }
}
