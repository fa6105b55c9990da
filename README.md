# Users resource of a tutorial CRUD server

This project models the users resource of a small Express server (`src/index.js`).
The server keeps one process-wide, ordered list of user names. It starts as
`['Camila', 'Silva', 'Sales']` and is addressed by position. Five routes read or
change the list:

- `GET /users` lists it.
- `GET /users/:index` describes one element.
- `POST /users` appends a name.
- `PUT /users/:index` overwrites a name.
- `DELETE /users/:index` removes an element and shifts the later ones down.

Two middlewares guard the routes. `checkUserExists` refuses a body without a
non-empty `name`. `checkUserInArray` refuses an `index` whose element is missing
or falsy, and otherwise hands that element on as the request's user. Each
refusal is a 400 response carrying `{ error }`. The list is left as it was.

Files:

- `users_api.dfy`, module `UsersApi`: the data model, the two middlewares as
  functions, `Handle` (one request through its route's middlewares and handler,
  used as the specification), and the class `UserStore`. The class holds the
  list as a `seq<string>` field and has one method per route. Where the source
  changes the array with `push`, index assignment or `splice`, the mutating
  method assigns the field a new sequence value holding the same elements.
  Each method is proved equal to `Handle` and states the new list outright.
- `users_properties.dfy`, module `UsersProperties`: the properties of one
  request and of a run of requests. `Run` serves a sequence of requests one
  after another against the one module-level list.

`Truthy` (JavaScript's `!` on the optional name or looked-up element, at
src/index.js:43 and 53), `AllNamed`, `InRange`, `Run`, `Creates` and `Deletes`
are helpers used by the contracts below.

The invariant that matters is that every stored name is non-empty. In the
model it holds at start and every route keeps it, so on every list the model
can reach the index middleware's truthiness test is exactly the bounds check
`0 <= i < |users|`. This holds for the model's requests, whose index is a
decimal position; the server itself can break it through non-numeric keys, as
"## Left out" says.

The route's `index` parameter is modelled as already parsed: `Some(i)` for a
canonical decimal numeral, `None` for anything else. The body's `name` is an
optional string.

## Model

| member | source | states |
|---|---|---|
| `UsersApi.Lookup` | src/index.js:51 | reading the index gives the element at that position exactly when the index is inside the list, and nothing otherwise |
| `UsersApi.CheckUserExists` | src/index.js:42-48 | the request passes exactly when the body has a non-empty name, and that name is handed on; otherwise 400 `User name is required` |
| `UsersApi.CheckUserInArray` | src/index.js:50-60 | the request passes exactly when the index names a non-empty element, and that element is handed on as the user; otherwise 400 `User does not exists`; when every stored name is non-empty, passing is exactly the bounds check |
| `UsersApi.Handle` | src/index.js:71-104 | every response is 200 or 400; a 400 carries an error body and leaves the list unchanged; no request stores an empty name |
| `UsersApi.UserStore.constructor` | src/index.js:31 | the list starts as `['Camila', 'Silva', 'Sales']`, all non-empty |
| `UsersApi.UserStore.List` | src/index.js:76-78 | answers 200 with every element of the list, in order, and changes nothing |
| `UsersApi.UserStore.Show` | src/index.js:71-74 | an index inside the list answers `Buscando o usuário <name>` with that element; any other index answers 400 `User does not exists`; nothing changes |
| `UsersApi.UserStore.Create` | src/index.js:80-86 | a non-empty name is appended and the answer is the whole new list; a missing or empty name answers 400 `User name is required` with the list unchanged; the invariant is kept |
| `UsersApi.UserStore.Update` | src/index.js:88-95 | name error first, then index error, each with the list unchanged; otherwise only the slot at the index takes the new name and the answer is the whole new list |
| `UsersApi.UserStore.Delete` | src/index.js:97-104 | an index inside the list removes that element, joins the parts before and after it, and answers 200 with an empty body; any other index answers 400 with the list unchanged |
| `UsersProperties.InitialUsersNamed` | src/index.js:31 | the initial list is the three names, all non-empty |
| `UsersProperties.RunKeepsNamed` | src/index.js:80-104 | serving any sequence of requests keeps every stored name non-empty |
| `UsersProperties.ReachableUsersNamed` | src/index.js:50-60 | on every list reachable from the initial one, the index middleware passes exactly for indices inside the list |
| `UsersProperties.HandleSize` | src/index.js:80-104 | one request grows the list by at most one, and only a creation does; it shrinks it by at most one, and only a deletion does |
| `UsersProperties.RunSize` | src/index.js:80-104 | over a run, the list grows by at most the number of creations and shrinks by at most the number of deletions, hence by at most one per request either way |
| `UsersProperties.ReadsLeaveUsers` | src/index.js:71-78 | listing and showing never change the list |
| `UsersProperties.ShowDescribes` | src/index.js:71-74 | showing an index inside the list answers with that element's name |
| `UsersProperties.IndexOutsideRefused` | src/index.js:50-60 | show, update with a valid name, and delete all refuse an index outside the list with 400 `User does not exists` and leave the list unchanged |
| `UsersProperties.NameCheckedFirst` | src/index.js:80-95 | a missing or empty name makes create and update answer 400 `User name is required` whatever the index, with the list unchanged |
| `UsersProperties.CreateAppends` | src/index.js:80-86 | creation grows the list by one, keeps every earlier element, puts the name last and answers with the whole list |
| `UsersProperties.UpdateReplacesSlot` | src/index.js:88-95 | update keeps the length, puts the name at the index, keeps every other element and answers with the whole list |
| `UsersProperties.DeleteShifts` | src/index.js:97-104 | deletion shortens the list by one, keeps the elements before the index, moves each later element down one position and answers with an empty body |
| `UsersProperties.CreateThenDeleteLast` | src/index.js:80-104 | deleting the last position after a creation gives back the original list |
| `UsersProperties.UpdateThenRestore` | src/index.js:88-95 | writing the old name back after an update gives back the original list |
| `UsersProperties.DeleteShiftsIdentity` | src/index.js:97-104 | after a deletion at an index, the same index describes the user that used to follow the deleted one |
| `UsersProperties.CreateAnaExample` | src/index.js:80-86 | creating `Ana` on the initial list answers `['Camila', 'Silva', 'Sales', 'Ana']` |
| `UsersProperties.DeleteOneExample` | src/index.js:97-104 | deleting index 1 of the initial list leaves `['Camila', 'Sales']` and answers with an empty body |
| `UsersProperties.UpdateOrderExample` | src/index.js:88 | an update with no name at index 99 gets the name error, not the index error |

## Left out

- Express setup, JSON body parsing, route registration and `server.listen` (src/index.js:1-5, 106-108): framework wiring and network I/O. Routing is modelled by the `Request` datatype, one constructor per route.
- The request logger (src/index.js:33-40): it only writes to the console and never changes a request or a response.
- The `/teste` query echo (src/index.js:64-67): a string template over a query parameter that touches no state.
- JavaScript property lookup on `users[req.params.index]` for non-canonical keys: `"01"` or `"1.0"` read `undefined`, which the model's `None` index covers. Keys such as `length` or prototype method names read truthy values; the model does not capture these.
- Writes through such keys (src/index.js:88-104) are not modelled, and they break the non-empty invariant and the bounds-check equivalence on the real server: `PUT /users/length` with name `"2"` cuts the list to two names; with `"10"` it extends the list with empty slots, after which `GET /users/5` is refused although 5 is below the length; with `"abc"` it throws a RangeError and the server answers 500; `PUT /users/push` hides `push`, so every later POST throws; `DELETE /users/length` runs `splice(NaN, 1)`, which removes the first user.
- Names that are not strings (numbers, objects) in the request body: the model takes `name` as an optional string.
- Serialisation of responses to JSON text: a response is a status and a structured body.
- Concurrency: requests are served one at a time, as the single-threaded runtime does.
- The projects resource: its source is not part of this model.
