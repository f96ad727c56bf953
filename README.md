# White-label catalogue back end: a verified model

This project models the core of a multi-store ("white-label") product
catalogue back end, written in Dafny. The back end has four parts:

- **Store resolution.** An HTTP middleware finds the store ("client") a
  request belongs to from its `x-forwarded-host` or `host` header.
- **Catalogue synchronisation.** A product service pulls the catalogues of
  Brazilian and European suppliers into one product table. It counts what
  was created, updated and skipped.
- **Socket gateway.** A socket gateway authenticates connections with a
  token and joins each one to its `user:`, `client:` and `admins` rooms.
  It fans every change out to those rooms.
- **Entity services.** Services for stores, users, suppliers and
  authentication keep their tables' unique columns and answer NotFound,
  Conflict, BadRequest and Unauthorized as the code does.

Each service is a class over its table, a `map` from id to row. Methods
change the table in place and state the new table in their `ensures`.
Notifications a service sends are appended to an `outbox` sequence of
emissions `(room, event, {message, data})`. The gateway's `notify*` methods
are pure functions that return those emissions.

The synchronisation is a pair of nested loops that update a `stats` object.
They are proved against `SyncAll`, a fold over the suppliers and their
records. The lemmas about that fold state what the counters mean.

bcrypt, JWT signing and verification, `parseFloat`, `String(number)` and
the supplier HTTP fetch are function parameters. JavaScript truthiness is
written out where the code relies on it: `""` is falsy, and arrays and
objects are truthy.

Modules, one file each:
- `Common`: Option, Result and the HTTP errors.
- `Strings`: `indexOf`, `split`, `join`, and number rendering.
- `JsValue`: untyped supplier records.
- `Events`: the gateway.
- `TenantMiddleware`: the middleware.
- `Clients`, `Users`, `Suppliers`, `Auth`: the entity and authentication
  services.
- `ProductMapping`: record mapping and the listing filters.
- `Products`: the product service and the synchronisation.

## Model

| member | source | states |
|---|---|---|
| Events.RoomNameInjective | src/events/events.gateway.ts:70-78 | Two rooms have the same `user:`/`client:`/`admins` name exactly when they are the same room, so joining by name never confuses rooms. |
| Events.ParseRoomName | src/events/events.gateway.ts:70-78 | Every room name reads back as the room it names. |
| Events.ExtractToken | src/events/events.gateway.ts:46-50 | A truthy `auth.token` is the token. Otherwise it is the second space-separated word of `Authorization`. A header with no space, or an empty word, gives no token. |
| Events.HeaderTokenShape | src/events/events.gateway.ts:48 | A token taken from the header is the text after the first space, up to the next space or the end. |
| Events.HeaderToken | src/events/events.gateway.ts:46-48 | For any scheme, the word after the first space is the token, whether or not more words follow, unless `auth.token` is truthy, which wins. |
| Events.BearerToken | src/events/events.gateway.ts:46-48 | `Bearer <t>` yields `t` unless `auth.token` is truthy, which wins. |
| Events.RoomsToJoin | src/events/events.gateway.ts:70-79 | `user:<sub>` always; `client:<id>` exactly when the payload's clientId is truthy, and only that id; `admins` exactly when role is `"admin"`; no other room. |
| Events.JoinedRoomsAreAuthorized | src/events/events.gateway.ts:70-79 | A socket is in a `client:` room only for its token's non-empty clientId, in `admins` only with role `"admin"`, and in a `user:` room only for its own sub. |
| Events.Socket.Join | src/events/events.gateway.ts:70 | A connected socket joins exactly that room; a disconnected one joins nothing. The connection state is kept. |
| Events.Socket.Disconnect | src/events/events.gateway.ts:54 | Disconnecting marks the socket disconnected and leaves every room. |
| Events.Gateway.HandleConnection | src/events/events.gateway.ts:43-95 | With no token, or one that does not verify, the socket is disconnected and in no room, and the registry is unchanged. Otherwise exactly one entry `(socket, sub, clientId)` is stored under the socket id. A connected socket joins exactly `RoomsToJoin`. The registry stays keyed by socket id. |
| Events.Gateway.HandleDisconnect | src/events/events.gateway.ts:97-99 | Only that socket id is removed; an unknown id leaves the registry as it was. |
| Events.NotifySupplierCreated | src/events/events.gateway.ts:104-111 | One emission, to `admins` only, `supplier:created` carrying the supplier. |
| Events.NotifySupplierUpdated | src/events/events.gateway.ts:113-120 | One emission, to `admins` only, `supplier:updated` carrying the supplier. |
| Events.NotifySupplierRemoved | src/events/events.gateway.ts:122-129 | One emission, to `admins` only, `supplier:removed` carrying only `{id}`. |
| Events.NotifyProductCreated | src/events/events.gateway.ts:133-149 | `admins` always and `client:<clientId>` exactly when the clientId is truthy; one emission per room; the same event name and product data in each; "Novo produto criado" to admins and "Novo produto disponível" to the store. |
| Events.NotifyProductUpdated | src/events/events.gateway.ts:151-167 | Same rooms as creation, one emission per room, `product:updated` with the product data and "Produto atualizado" in each. |
| Events.NotifyProductRemoved | src/events/events.gateway.ts:169-185 | `admins` always and `client:<clientId>` exactly when the argument is truthy; every copy carries only `{id}`; the store copy says "Produto não está mais disponível". |
| Events.NotifyClientCreated | src/events/events.gateway.ts:189-196 | One emission, to `admins` only, carrying the store. |
| Events.NotifyClientUpdated | src/events/events.gateway.ts:198-217 | Exactly `admins` and `client:<id>`; admins get the store's columns, the store's room only name, domain, logo and the two colours. |
| Events.NotifyClientRemoved | src/events/events.gateway.ts:219-226 | One emission, to `admins` only, carrying only `{id}`. |
| Events.TenantIsolation | src/events/events.gateway.ts:133-226 | A `client:<id>` room only ever hears about store `id`. |
| Events.NoUserRoomNotified | src/events/events.gateway.ts:104-226 | No notification goes to a `user:` room. |
| Events.AdminsHearEveryNoticeOnce | src/events/events.gateway.ts:104-226 | `admins` hears every notification, and no room receives the same notification twice. |
| Events.OneEventNamePerNotice | src/events/events.gateway.ts:104-226 | Every copy of a notification carries that notification's event name. |
| Events.TenantRoomsGetReducedData | src/events/events.gateway.ts:141-145 | A store room only receives product data of its own store, bare ids or branding, never supplier records or a full store record. |
| Events.RemovalCarriesOnlyId | src/events/events.gateway.ts:122-129 | Every `*:removed` emission carries only the removed id. |
| Events.HandshakeBoundsAudience | src/events/events.gateway.ts:70-79 | A socket hears `admins` emissions only with role `"admin"`, and a store's emissions only when its token carries that store's truthy id. |
| TenantMiddleware.SelectHost | src/clients/middleware/client.middleware.ts:16-25 | BadRequest "Host header not found" exactly when neither header is truthy. Otherwise `x-forwarded-host` is preferred over `host`, and a single value is used as is. A chosen empty array header gives the TypeError that `split` on undefined raises. |
| TenantMiddleware.ForwardedHostWins | src/clients/middleware/client.middleware.ts:16 | With a truthy `x-forwarded-host`, the `host` header does not matter. |
| TenantMiddleware.ArrayHeaderUsesFirst | src/clients/middleware/client.middleware.ts:22 | An array header contributes its first element. |
| TenantMiddleware.StripPort | src/clients/middleware/client.middleware.ts:25 | The domain is the prefix of the host before its first `:`. It has no `:`, and a host without `:` is unchanged. |
| TenantMiddleware.StripPortIdempotent | src/clients/middleware/client.middleware.ts:25 | Stripping twice is stripping once. |
| TenantMiddleware.StripPortOfHostAndPort | src/clients/middleware/client.middleware.ts:25 | `name:port` is stripped to `name` whatever the port. |
| TenantMiddleware.Use | src/clients/middleware/client.middleware.ts:15-37 | A host error is returned and `next` is not called. An unknown domain gives Unauthorized "Client not found for host: d". Otherwise a store with that domain, active or not, is attached and `next` is called exactly once. |
| Strings.Split | src/clients/middleware/client.middleware.ts:25 | `split` gives at least one piece; no piece holds the separator; the first piece is the prefix before the first separator. |
| Strings.JoinSplit | src/events/events.gateway.ts:48 | Joining the pieces of a split gives back the string. |
| Strings.SplitJoin | src/events/events.gateway.ts:48 | Splitting a join of separator-free pieces gives back the pieces. |
| Strings.SecondPieceShape | src/events/events.gateway.ts:48 | The second piece of a split starts after the first separator and ends at the next one or at the end. |
| Clients.Assign | src/clients/clients.service.ts:116 | Each of name, domain, logo and the two colours takes the update's value when the update carries it and keeps the store's otherwise. The id and `isActive` are never changed, and an empty update is the identity. |
| Clients.StorePreservesWellFormed | src/clients/clients.service.ts:117 | Saving a row that clashes with no other keeps ids as keys and names and domains unique. |
| Clients.ClientsService.Create | src/clients/clients.service.ts:22-54 | A taken name gives Conflict before the domain is looked at; then a taken domain gives Conflict; a refusal changes nothing. Otherwise exactly one new row and one `client:created` notification. |
| Clients.ClientsService.FindOne | src/clients/clients.service.ts:60-71 | The row with that id, or NotFound exactly when there is none. |
| Clients.ClientsService.FindByDomain | src/clients/clients.service.ts:73-85 | Found exactly when an ACTIVE store has the domain; otherwise NotFound. |
| Clients.ClientsService.Update | src/clients/clients.service.ts:87-125 | NotFound for an unknown id. Then Conflict for a truthy new name, different from the current one, that a store already has. Then the same for the domain. A merged row that still breaks a unique column fails at save. Success happens exactly when none of these applies: the merged row is stored and `client:updated` is sent. An update touching neither name nor domain always succeeds. |
| Clients.UnrefusedUpdateSaves | src/clients/clients.service.ts:90-117 | An update that passes the name and domain checks, and sets neither to "", is saved: keeping the store's own name or domain is never refused. |
| Clients.ClientsService.Remove | src/clients/clients.service.ts:127-133 | NotFound exactly for an unknown id; otherwise exactly that row is deleted and `client:removed` sent with its id. |
| Clients.ClientsService.CreateIfNotExists | src/clients/clients.service.ts:135-144 | A store with that domain is returned as stored and nothing is inserted; otherwise one new row is stored. No event is sent; afterwards the domain is taken. |
| Users.DropPassword | src/users/users.service.ts:69-71 | As written: the guard drops the password exactly when it is truthy, so an empty one stays in the update. |
| Users.EmptyPasswordOverwritesHash | src/users/users.service.ts:68-73 | As written, an update carrying `password: ""` replaces the stored hash with "". |
| Users.WithoutPassword | src/users/users.service.ts:68-71 | The intended guard: the update never carries a password, and nothing else in it changes. |
| Users.UpdateKeepsPassword | src/users/users.service.ts:68-73 | With the intended guard, merging any update keeps the stored password and applies every other field. |
| Users.Assign | src/users/users.service.ts:73 | Each of email, name, password, role and clientId takes the update's value when the update carries it and keeps the user's otherwise, so an update can move a user to another store or role. The id and `isActive` are never changed, and an empty update is the identity. |
| Users.StorePreservesWellFormed | src/users/users.service.ts:44 | Saving a row whose email no other row has keeps ids as keys and emails unique. |
| Users.UsersService.Create | src/users/users.service.ts:27-47 | A taken email gives Conflict and nothing changes. Otherwise exactly one new row holding `hash(password)`. |
| Users.UsersService.FindOne | src/users/users.service.ts:53-59 | The row with that id, or NotFound exactly when there is none. |
| Users.UsersService.FindByEmail | src/users/users.service.ts:61-63 | The user with that email exactly when there is one; it is the only one. |
| Users.UsersService.Update | src/users/users.service.ts:65-81 | NotFound for an unknown id. A merged row whose email another user already has fails at save. Success happens exactly otherwise: the update without its password is merged, saved and handed to the user hook. The stored password never changes, and an update without an email always succeeds. |
| Users.UpdateClashIff | src/users/users.service.ts:73-74 | A merged update duplicates an email exactly when it carries an email that differs from the user's own and that another user already has. |
| Users.UsersService.ChangePassword | src/users/users.service.ts:83-111 | NotFound, then a wrong current password, then a new password matching the current one, is refused with nothing saved. Success happens exactly otherwise, and only that user's password becomes `hash(new)`. |
| Users.UsersService.Remove | src/users/users.service.ts:113-120 | NotFound exactly for an unknown id; otherwise only that row is deleted and its id handed to the user hook. |
| Suppliers.AssignIdempotent | src/suppliers/suppliers.service.ts:66 | Merging the same update twice is merging it once, so a repeated update request leaves the supplier as one request does. |
| Suppliers.StorePreservesWellFormed | src/suppliers/suppliers.service.ts:67 | Saving a row whose name no other row has keeps ids as keys and names unique. |
| Suppliers.UpdateWithoutClashSucceeds | src/suppliers/suppliers.service.ts:61-72 | An update that keeps the name, or renames to a name no other supplier has, never clashes. |
| Suppliers.SuppliersService.Create | src/suppliers/suppliers.service.ts:30-47 | A taken name gives Conflict and nothing is stored. Otherwise exactly one new row; no notification exists. |
| Suppliers.SuppliersService.FindOne | src/suppliers/suppliers.service.ts:53-59 | The row with that id, or NotFound exactly when there is none. |
| Suppliers.SuppliersService.Update | src/suppliers/suppliers.service.ts:61-72 | NotFound for an unknown id. Otherwise the merged row is saved; the service checks no name, so only the unique column refuses a duplicate. |
| Suppliers.SuppliersService.Remove | src/suppliers/suppliers.service.ts:74-79 | NotFound exactly for an unknown id; otherwise only that row is deleted. |
| Auth.LoginPayload | src/auth/auth.service.ts:46-50 | The signed payload is `{email, sub: id, clientId}` and carries no role. |
| Auth.LoginTokenRooms | src/auth/auth.service.ts:46-50 | A login token joins its user's room, its store's room when the store id is non-empty, and never `admins`. |
| Auth.LoginTokenAuthenticates | src/auth/auth.service.ts:52-53 | With a `verify` that accepts what `sign` made, the login token authenticates a socket as `auth.token` or as `Bearer`. |
| Auth.AuthService.ValidateUser | src/auth/auth.service.ts:20-29 | The user without its password exactly when a user has that email and the password matches its hash; otherwise none. |
| Auth.AuthService.Login | src/auth/auth.service.ts:31-62 | NotFound when no active store has the domain; Unauthorized when the user belongs to another store; success exactly otherwise, with `sign(payload)` and `{id, email, name, role, clientId}`. |
| Auth.AuthService.Register | src/auth/auth.service.ts:64-97 | NotFound when no active store has the domain, and no store is created. A taken email gives BadRequest. Success exactly otherwise: one new user of that store with the hashed password, returned without it; a login on the same domain accepts its store. |
| ProductMapping.ExternalId | src/products/products.service.ts:451-468 | None for a non-object or a falsy record. A string id as is, a number through `String`, and none for any other id, exactly. |
| ProductMapping.MappedPrice | src/products/products.service.ts:407-446 | The mapped price, from `preco` for a Brazilian supplier and from `price` otherwise: a number passes through unchanged, a parseable string gives its value, and an unparseable string or any other value gives 0. |
| ProductMapping.FirstOfGallery | src/products/products.service.ts:421-424 | A non-empty gallery array gives its first item. An empty array, a falsy gallery, or any value without a length gives undefined. A string gives its first character, as indexing does. |
| ProductMapping.MapBrazilian | src/products/products.service.ts:402-414 | Exactly the Brazilian properties, `preco` parsed as the price, and the external and supplier ids. |
| ProductMapping.MapEuropean | src/products/products.service.ts:415-431 | Exactly the European properties, the parsed price, the first gallery item as image, and the ids. |
| ProductMapping.RenamedFields | src/products/products.service.ts:402-431 | The copied properties and the record fields they come from: `descricao`, `imagem`, `categoria`, `material` and `departamento` for a Brazilian record, and `description`, `gallery`, `hasDiscount` and `discountValue` for a European one. |
| ProductMapping.MapRecord | src/products/products.service.ts:397-432 | The layout is chosen by supplier type: Brazilian for "brazilian", European for any other. The price is always a number, and the external and supplier ids are always set. |
| ProductMapping.MappedName | src/products/products.service.ts:405-418 | The name is `nome`, then `name`, then ""; it is falsy exactly when no candidate is truthy. |
| ProductMapping.FindAllOptions | src/products/products.service.ts:83-117 | `take` is `limit` or 10, and `skip` is `offset` or 0. The name condition is `%name%`; the category and supplier conditions are the filter's own value when it is truthy and absent otherwise. A price condition is present exactly when a bound is given. `where` is left out exactly when no condition is set. |
| ProductMapping.PriceFilterMeaning | src/products/products.service.ts:102-108 | The price condition admits exactly the prices within the bounds given: Between, at least min, or at most max. |
| Products.RecordKey | src/products/products.service.ts:327-358 | A kept record's key is its non-empty external id under the supplier's id. |
| Products.RecordRow | src/products/products.service.ts:346-350 | A kept record maps to a row with its key, a truthy name and a numeric price. |
| Products.RecordKeptIff | src/products/products.service.ts:327-358 | A record is kept exactly when it is an object with a usable id and a truthy name candidate. |
| Products.SyncStats.Count | src/products/products.service.ts:327-391 | Exactly the counter of the step moves, by one. |
| Products.RecordsCounted | src/products/products.service.ts:274-284 | Each record of a catalogue bumps exactly one product counter; the supplier counters stay; the keys grow by exactly the products created. |
| Products.RecordsLeaveKeys | src/products/products.service.ts:339-391 | After a catalogue, every kept record's key is in the table. |
| Products.PresentRecordsCreateNothing | src/products/products.service.ts:363-376 | When every kept record's key is already present, nothing is created. |
| Products.ResyncCreatesNothing | src/products/products.service.ts:339-391 | Synchronising the same catalogue again creates no product and adds no key. |
| Products.SuppliersCounted | src/products/products.service.ts:250-296 | The total is untouched. Successful suppliers are those fetched non-empty, and failed ones those whose fetch failed. The product counters grow by exactly one per inactive supplier plus one per record of every synchronised catalogue, and the skipped ones include each inactive supplier. |
| Products.FatesPartition | src/products/products.service.ts:252-296 | Each supplier is inactive, failed, fetched empty, or synchronised: exactly one of them. |
| Products.ReportedTotals | src/products/products.service.ts:239-306 | From zero, `totalSuppliers` is the number of suppliers. Successful plus failed plus inactive plus empty suppliers make that number. Created plus updated plus skipped products are the inactive suppliers plus the synchronised records. |
| Products.ProductsService.Create | src/products/products.service.ts:50-74 | One new row holding the body, and `product:created` with `{id, name, price, clientId}` of the request's store. |
| Products.ProductsService.FindOne | src/products/products.service.ts:139-161 | The product with that id, or NotFound exactly when there is none. |
| Products.ProductsService.Update | src/products/products.service.ts:166-198 | NotFound exactly for an unknown id. Otherwise the body's properties overwrite the row's, the others are kept, and `product:updated` is sent. |
| Products.ProductsService.SaveMerged | src/products/products.service.ts:171-185 | `Object.assign`, save and notify: given properties overwrite, the others stay, and one `product:updated` is sent. |
| Products.ProductsService.Remove | src/products/products.service.ts:203-220 | NotFound exactly for an unknown id; otherwise only that row is deleted and its removal sent to the request's store. |
| Products.ProductsService.FindByKey | src/products/products.service.ts:339-344 | The id of a row with that (externalId, supplierId), found exactly when the table has one. |
| Products.ProductsService.SyncSingleProduct | src/products/products.service.ts:322-392 | A skipped record moves only the skipped counter and saves nothing. Otherwise the row with its key is merged and announced as updated, or a new row is created and announced. Exactly one counter moves, as `StepOf` says. |
| Products.ProductsService.StoreRecord | src/products/products.service.ts:363-391 | The kept branch: an existing key is merged and counted as updated, a new one is created and counted as created; either way the key is then present. |
| Products.ProductsService.SyncProductsFromSuppliers | src/products/products.service.ts:225-317 | The counters, the message and the keys in the table are exactly those of `SyncAll` over the suppliers in order. No row is deleted, a row without an (externalId, supplierId) key is left as it was, and a keyed row keeps its key. Notifications are only appended. |

## Left out

- The socket transport, CORS and the gateway decorators are not modelled. Emissions are returned values, not deliveries, and the socket's rooms are a set of names. Two rules about rooms are assumptions of the model, not shown by the gateway. The first is socket.io's: a disconnected socket leaves every room. The second is that joining has no effect on a disconnected socket; the gateway only joins a socket that has just connected.
- bcrypt hash and compare, JWT sign and verify, `parseFloat` and `String(number)` are parameters. A `verify` that throws is None, and a NaN from `parseFloat` is None.
- Logging and `console.log` are left out; they change nothing.
- The database is a map per table. TypeORM's SQL, `Like` matching, `findAndCount`, ordering and relations are not modelled. `findAll` of the product listing is modelled up to the options it builds. The suppliers' `findAll` is the sequence the synchronisation receives.
- Unique columns are enforced when a row is saved, as a query failure. Foreign keys are not modelled.
- Column defaults other than `isActive` and `role` are not modelled. A `save` that ignores undefined properties is not modelled either.
- The supplier HTTP fetches are left out as network I/O. The synchronisation takes `fetch` as a parameter that yields a body or a failure.
- A database error while one product is synchronised is not modelled; the code counts it as skipped. The outer catch that turns a failure of the supplier lookup into BadRequest is not modelled either.
- The product lookup in `syncSingleProduct` happens before the name check in the code and after it in the model. A lookup has no effect, so the order does not change any result.
- Users.UsersService.Update: applies the intended password guard, so an update carrying `password: ""` keeps the stored hash. The code as written stores "" (see Findings).
- Products.ProductsService.SyncProductsFromSuppliers: states the notifications only as appended, not one by one; each one is stated by SyncSingleProduct. Keyed rows are stated only to keep their key, not field by field; each merge is stated by SyncSingleProduct.
- User notifications go to a hook sequence, `hooks`, because the gateway has no `notifyUserUpdated` or `notifyUserRemoved`. The extra argument the product service passes to `notifyProduct*` is ignored, as the gateway's signatures ignore it.
- The gateway code has no tenant-scoped admin rooms and no tenant check at connection. The model follows the code: `user:`, `client:` and `admins`.
- Events.NotifyClientUpdated: the admins' copy is the store's columns. The code emits the saved entity, which still holds the `users` relation that `findOne` loads, with each user's password hash. The model does not carry relations, so it does not show that payload.
- The `client` relation `validateUser` loads is not modelled. `login` receives the user that validation returned.
- The `!client` fallback in `register` cannot be reached, because `findByDomain` throws NotFound first. The model returns that NotFound.
- A gallery given as an object with a `length` is not modelled. A gallery is an array, a string, or something without items.
- The DTO classes are not part of this model. Their fields are taken from what the services read.
- An update body that carries an `id` is not modelled: ids are never overwritten.

## Findings

| source | as written | input that shows it | evidently intended | confidence | as-written member | corrected member |
|---|---|---|---|---|---|---|
| src/users/users.service.ts:68-73 | `if (updateUserDto.password) delete updateUserDto.password` drops only a truthy password, and `Object.assign` then copies the rest | `update(id, { password: "" })` on a user whose stored hash is not empty: the stored password becomes "" | the comment at line 68 says this method must not change the password, so any password in the update should be dropped | medium: not executed; validation of the update body is not part of this model | Users.EmptyPasswordOverwritesHash (with Users.DropPassword) | Users.UpdateKeepsPassword (with Users.WithoutPassword, used by Users.UsersService.Update) |
