# Pet server request router, modelled in Dafny

The example server's OpenAPI router is generated code. Its two routes are:

- `/pet`: POST goes to `AddPet`.
- `/pet/{petId}`: DELETE goes to `DeletePet`, GET to `GetPetById` and POST to `UpdatePet`.

The router has two entry points that walk the same unrolled structure. Each one cuts literals off a cursor string `elem`.

- `Server.ServeHTTP` first cuts off the configured path prefix. It then decides how to answer: call one of the four handlers with the path arguments, answer "method not allowed" with the allowed methods, or answer "not found".
- `Server.FindRoute` ignores the prefix. It reports the route's name, operationId and arguments, or the zero route and `false`.

The project has two modules:

- `RouteTable` (routes.dfy) is the reference. It holds the route templates as a declarative table and defines routing against any table: the first template whose literal shape fits the path decides, and its method table picks between dispatch and "not allowed". `MatchIn` and `Lookup` state that first-match semantics in their postconditions, and `MatchInUnique` shows that when only one template fits, its place in the table does not matter. The router's promised properties are proved against the pet table.
- `Router` (router.dfy) holds the `Route` value and its accessors, prefix stripping, and a `Server` class whose `ServeHTTP` and `FindRoute` methods follow the generated code step by step. The cursor is reassigned as literals are consumed, and the one-slot argument array is a real `array<string>`. Each method's postcondition equates its result with the reference: `ServeHTTP` with `Serve`, `FindRoute` with `Metadata` of the routing outcome. The `Agreement` lemma relates those two references. Together with the two postconditions it gives agreement between the methods themselves.

Go strings are byte strings. Here a Dafny `string` stands for one, one char per byte. Every literal compared against is ASCII, so prefix and equality tests behave the same. Both entry points are functions of their inputs: the methods change no state, so routing the same request twice gives the same result.

The `petId` parameter captures the whole rest of the path (internal/oas/oas_router_gen.go:72-73). So `/pet/42/extra` with GET reaches `GetPetById` with the argument `42/extra`, as `RouteTable.PetWithId` and `RouteTable.DispatchExamples` prove.

## Model

| member | source | states |
|---|---|---|
| RouteTable.Captures | internal/oas/oas_router_gen.go:44-73 | A template fits exactly `/pet` when it has no parameter, and any path starting with its literal when it has one. The captured parameter is the whole rest of the path: literal + value rebuilds the path |
| RouteTable.Lookup | internal/oas/oas_router_gen.go:77-92 | Method names are compared exactly. No operation is found exactly when no listed method equals the request's method. Otherwise the found operation is the one listed under the first entry for that method |
| RouteTable.MatchIn | internal/oas/oas_router_gen.go:39-99 | Not found exactly when no template fits the path. Otherwise the outcome is the method switch of the first template that fits |
| RouteTable.MatchInUnique | internal/oas/oas_router_gen.go:39-99 | When exactly one template fits the path, that template decides the outcome wherever it sits in the table |
| RouteTable.PetAllowed | internal/oas/oas_router_gen.go:53-91 | The allowed values of the two leaves are exactly "POST" and "DELETE,GET,POST" |
| RouteTable.PetRoutesDisjoint | internal/oas/oas_router_gen.go:52-64 | No path fits both `/pet` and `/pet/{petId}` |
| RouteTable.Match | internal/oas/oas_router_gen.go:53-89 | A dispatch carries as many arguments as its operation takes: none for AddPet, one for the others |
| RouteTable.EmptyPathNotFound | internal/oas/oas_router_gen.go:32-35 | The empty path is not found, never "not allowed" |
| RouteTable.ExactPet | internal/oas/oas_router_gen.go:52-61 | On exactly `/pet`, POST dispatches AddPet with no arguments. Any other method gets "not allowed" with "POST" |
| RouteTable.PetWithId | internal/oas/oas_router_gen.go:63-92 | On `/pet/` + r, for any r, DELETE, GET and POST dispatch DeletePet, GetPetById and UpdatePet with the single argument r, unchanged. Any other method gets "not allowed" with "DELETE,GET,POST" |
| RouteTable.NotFoundExactly | internal/oas/oas_router_gen.go:44-99 | A path is not found if and only if it is neither `/pet` nor starts with `/pet/` |
| RouteTable.NotAllowedExactly | internal/oas/oas_router_gen.go:52-92 | "Not allowed" if and only if the path has a leaf's shape and the method is not one that leaf lists (case-sensitive) |
| RouteTable.DispatchExamples | internal/oas/oas_router_gen.go:70-89 | `/pet/42`, `/pet/abc`, `/pet/` and `/pet/42/extra` dispatch with "42", "abc", "" and "42/extra" |
| RouteTable.RefusalExamples | internal/oas/oas_router_gen.go:53-91 | PUT and lower-case get on `/pet/42`, and GET on `/pet`, are "not allowed" with the leaf's exact allowed value |
| RouteTable.NotFoundExamples | internal/oas/oas_router_gen.go:44-64 | `/pets`, `/PET/42` and `x` are not found |
| RouteTable.NamesUnique | internal/oas/oas_router_gen.go:110-120 | Operation names and operation ids are non-empty, and no two operations share one |
| Router.Route.Args | internal/oas/oas_router_gen.go:103-125 | Args() has count elements and is a prefix of the one-slot argument array; the Route type keeps count at 0 or 1 |
| Router.StripPrefix | internal/oas/oas_router_gen.go:22-31 | Fails exactly when the path does not start with the prefix. Otherwise prefix + result rebuilds the path, and an empty prefix leaves it alone |
| Router.Serve | internal/oas/oas_router_gen.go:20-35 | A path not starting with the prefix is not found. Otherwise only the part after the prefix is routed against the table |
| Router.Metadata | internal/oas/oas_router_gen.go:129-207 | A route is found exactly on dispatch. Its Name(), OperationID() and Args() are the dispatched operation's name, operationId and arguments. Every miss reports the zero route `ZeroRoute`, with an empty argument slot (lines 129-135, 161, 201, 207) |
| Router.FoundRouteNamesUnique | internal/oas/oas_router_gen.go:110-120 | Name() and OperationID() of a found route are non-empty, and two found routes sharing either one route to the same operation |
| Router.ServeUnderPrefix | internal/oas/oas_router_gen.go:22-31 | Serving prefix + r is routing r |
| Router.ServeBarePrefix | internal/oas/oas_router_gen.go:22-35 | A path equal to the prefix is not found, never "not allowed" |
| Router.Agreement | internal/oas/oas_router_gen.go:128-207 | With no prefix, FindRoute finds a route exactly when ServeHTTP dispatches. The route's name, operationId and count belong to the dispatched operation, and Args() equals the handler's arguments. Otherwise the route is the zero route |
| Router.Server.ServeHTTP | internal/oas/oas_router_gen.go:20-100 | The unrolled traversal with prefix stripping decides exactly what the reference routing of the stripped path decides |
| Router.Server.FindRoute | internal/oas/oas_router_gen.go:128-208 | The unrolled traversal returns exactly the metadata of the reference routing outcome, or the zero route and false |

## Left out

- The handler bodies (`handle*Request`) and the not-found and method-not-allowed responders live outside the router file. Here they are the `Outcome` constructors `Dispatch`, `NotFound` and `NotAllowed`, and no response is written.
- HTTP request parsing is not modelled. The method and the already decoded `r.URL.Path` are taken as given strings.
- Unreachable checks are not modelled as branches; comments in the methods mark where they sit. These are the second empty-path test, the failure branch of cutting the `/` literal, and the empty test right after the parameter is captured (lines 41, 67, 75, 141, 169, 177).
- Concurrency is not modelled because the router keeps no mutable state.
- The rest of the repository is out of scope: telemetry setup, process lifecycle, CLI flags, the API client, the middleware adapter and the demonstration handler. None of it is routing logic.
