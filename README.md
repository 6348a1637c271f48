# Request binding and method dispatch of gotodoc_openapi's `server` package

This project models the core of `server/router.go` in Dafny: a small layer over
Go's `net/http` that registers typed handlers for a path and an HTTP method and
serves them. The model covers four parts:

- **The parameter binder** (`manageParameters`). It walks the request record's
  fields in declaration order. Each field is bound from the first non-empty tag
  among `path`, `query`, `cookie` and `header`. The `required` tag decides whether
  an absent value is an error, and the first missing required field stops the
  walk. Module `Binder`: a specification function `BindFrom`, the in-place method
  `ManageParameters` over an `array<string>` (one slot per field), and lemmas on
  which fields end up written.
- **The decisions of `runHandler`**. Binding runs unless the request type is
  `struct{}`. The body is decoded only when some field has a `json` tag. The
  status is 400, 500, 204 or 200 (RFC 9110 sections 15.5.1, 15.6.1, 15.3.5 and
  15.3.1). Module `Handler`: the specification function `Exchange` and the method
  `RunHandler`, which allocates a fresh record, binds it and scans for `json` tags.
- **The route registry** (`paths`, `AddHanler`). It maps each path pattern to a
  chain of `methodFunc` entries, most recent first. Every chain ends in the
  `&methodFunc{}` sentinel, whose method is "". Module `Server`: the class
  `Registry`, and the function `Push` and its fold `RegisterAll`.
- **The dispatcher** (`checkMethod` and the handler `Serve` installs per path).
  It tries the head first. On a miss, `OPTIONS` (RFC 9110 section 9.3.7) gets 204
  with an `Allow` header (section 10.2.1). Any other method walks the chain and
  falls back to 405 (section 15.5.6). Module `Routes`. `Serve` then empties the
  registry (`Server.Registry.Serve`).

`Chain = Sentinel | Entry(verb, handler, next)` stands for the linked
`methodFunc` values. An `Entry`'s `next` is never nil. The `Sentinel` is the
only node whose `next` is nil, so the Go walk `for p != nil` becomes a walk over
`Option<Chain>`. A `HandlerId` stands for the application handler that an entry
wraps. A request method equal to "" that reaches the sentinel calls its nil
function. That call panics, and the model represents it as the `NilHandlerPanic`
outcome. net/http's server rejects a request with an empty method before any
handler runs, so this outcome is reachable only when the installed handler is
called directly.

Behaviours of the code that the model keeps as written:

- Binding is not field-independent. It stops at the first required absent field
  in declaration order, and the fields bound before it stay written.
- A path variable that is present with an empty value is accepted, even when the
  field is required. For query parameters and headers, "" means absent.
- Only `required:""` and `required:"true"` make a field required. Every other
  value makes it optional, not only `"false"`.
- A cookie-bound field receives the cookie's name, which is the tag itself, not
  the cookie's value.
- The `Allow` header keeps duplicate registrations whenever the reflector has
  accepted them (see `Server.Registry.AddHandler` under "## Left out"). It also ends with the
  sentinel's empty method, so a single GET route answers `OPTIONS, GET, `.
- A registered `OPTIONS` handler runs only while it is the chain head. Once
  another method is registered after it, `OPTIONS` requests get the 204 Allow
  reply instead.

## Model

| member | source | states |
|---|---|---|
| `Binder.StepByTag` | server/router.go:36-84 | a field is bound from the first non-empty tag among path, query, cookie, header, and a field with such a tag is never skipped; it fails exactly when required (`required` is "" or "true") and absent by its source's test (path key missing, query/header value "", no such cookie); a present path variable is written even if empty; a present cookie writes the tag; an optional absent field of each source is written ""; no tag leaves the field alone |
| `Binder.BindFrom` | server/router.go:33-87 | binding from field i keeps the record's length and never touches fields before i |
| `Binder.BindFromMissing` | server/router.go:34-86 | binding fails exactly when some field from i on is required and absent |
| `Binder.BindFromValue` | server/router.go:34-86 | field j holds its own step's value if no field from i through j failed, and its earlier value otherwise (partial mutation) |
| `Binder.BindOutcome` | server/router.go:33-87 | on a whole record: failure iff some required field is absent; fields before the first failure are bound, the rest untouched |
| `Binder.ManageParameters` | server/router.go:33-87 | the in-place loop leaves the array and the error flag exactly as `BindFrom` from field 0 says |
| `Handler.RunHandler` | server/router.go:89-134 | the method (fresh zeroed record, bind, `json`-tag scan with early break, status choice) computes exactly `Exchange`, the decision function whose status and body-reading rules the next lemmas state |
| `Handler.StatusMapping` | server/router.go:102-133 | status is one of 200/204/400/500; 400 iff the handler is not called iff a struct record has a required parameter missing or a `json`-tagged record fails to decode; then 500 iff handler error or failed encoding, 204 iff nil response, 200 iff encoded value |
| `Handler.BodyReadOnlyWhenTagged` | server/router.go:106-118 | the body is read iff the record is a struct with a `json` tag whose binding succeeded; without such a tag the run is the same for any body |
| `Handler.EmptyStructSkipsBinding` | server/router.go:93-96 | with `struct{}` the run does not depend on the request, the path variables or the body, and the handler is always called |
| `Routes.ServeRequest` | server/router.go:185-217 | the installed path handler, whose Allow loop walks `next` until nil, gives exactly `PathHandler`: head match runs the head, else OPTIONS gets 204 with `OPTIONS` plus every chain method, else `checkMethod` |
| `Routes.MethodsOfChain` | server/router.go:206-211 | the chain of a registration log lists its methods latest first and ends with the sentinel's "" |
| `Routes.CheckMethodFindsLatest` | server/router.go:174-182 | `checkMethod` runs the most recent registration of the method; with none it answers 405, or hits the sentinel's nil function when the method is "" |
| `Routes.DispatchOnRegistrations` | server/router.go:200-216 | on a registered path, dispatch is keyed by method (latest registration wins, else 405); `OPTIONS`, unless it is the head, gets 204 with Allow = OPTIONS, every registered method latest first, then "" |
| `Routes.NotAllowedOnlyWhenUnregistered` | server/router.go:140-146 | a 405 from a path handler means no entry has the method, so an entry closure's own 405 never answers; an invoked handler's method is in the chain |
| `Routes.CheckMethodAgrees` | server/router.go:174-182 | `checkMethod` gives 405 only when the method is not in the chain, and invokes only a method that is |
| `Server.RegisterAllBuildsChain` | server/router.go:167-170 | successive registrations on a new pattern give it the chain of those registrations and leave every other pattern unchanged |
| `Server.PushOntoRegistrations` | server/router.go:147-170 | one more registration puts a new head in front of the pattern's existing chain |
| `Server.Registry.constructor` | server/router.go:24 | the registry starts empty |
| `Server.Registry.AddHandler` | server/router.go:137-172 | a reflector error leaves `paths` unchanged; otherwise the normalised pattern's head is the new entry, whose `next` is the old head or the sentinel; other patterns are unchanged; heads stay entries |
| `Server.Registry.Serve` | server/router.go:184-229 | every registered chain is installed for its path, no installed head is the sentinel (so the `v.next == nil` branch never runs), `paths` ends empty, and the error is the YAML rendering's |
| `Server.ServeTwice` | server/router.go:220-222 | a second `Serve` installs nothing |
| `Scenarios.GetExample` | examples/get.go:12-36 | `GetStructTest`: GET with id 12 and cookie `who` binds ["12", "", "who", ""] and gives 204; when `runHandler` is called with path variables lacking `id` it gives 400 (the mux route `/test/{id}` itself never matches such a request); `OPTIONS` answers `OPTIONS, GET, `; POST gets 405 |
| `Scenarios.PostExample` | examples/post.go:13-28 | `StructTest` (json tags only): a failed decode gives 400 with the decoder's message and no handler call; a decoded body and an encoded result give 200 |
| `Scenarios.DuplicateRegistration` | server/router.go:167-170 | GET registered twice: the later handler runs and the Allow header lists GET twice |

## Left out

- Reflection: a record is a sequence of string fields. Several source behaviours are not represented: `SetString` panics on a non-string or unexported tagged field; `FieldByName` resolves embedded fields; `runHandler` panics when the request type is not a struct, and such a type cannot be expressed in `RequestType`.
- JSON: decoding and encoding are inputs (`Decoding`, `encodes`). What the decoder merges into the record, and so the record the handler finally sees, is not modelled.
- The `Content-Type` header, which is set after the body is written, is not modelled.
- Header lookup uses the tag as the header-map key, because `http.Header.Get`'s canonicalisation of the key is not modelled. The cookies are given as a name-to-value map, because parsing the `Cookie` header is not modelled.
- gorilla/mux: route matching and `mux.Vars` are inputs. `router.HandleFunc` is modelled as the `installed` map, where path k dispatches on chain k.
- The OpenAPI reflector is foreign. `NewOperationContext` with `PathPattern` is an input function that returns None on error. `AddOperation`'s success and `MarshalYAML`'s success are input flags. The request and response structures it records, and the printing of the YAML document, are not modelled.
- Server.Registry.AddHandler: whether `AddOperation` refuses an operation whose (method, normalised path) pair it already holds is the foreign library's behaviour and is not modelled; `added` is a free input, so `Scenarios.DuplicateRegistration` and the duplicate entries in the Allow list assume a reflector that accepted the second registration. With a refusing reflector, the second registration returns before the push and leaves `paths` unchanged, as the `err` branch of `AddHandler` states.
- `Init` only sets document metadata, so it is not modelled.
- Concurrency and Go's loop-variable capture in `Serve`: the model assumes each path's handler sees its own chain.
- The handler's `context.Context` argument and the 400 reply's trailing newline from `http.Error` are not modelled.
