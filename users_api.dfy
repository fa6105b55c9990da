/** The users resource of a small HTTP CRUD server.

    The server keeps one process-wide, ordered list of user names, addressed
    by position, and serves five routes over it. Two validation middlewares
    guard the routes: one demands a non-empty `name` in the request body, the
    other demands that the route's `index` parameter name an element of the
    list. A middleware either passes control to the next stage or ends the
    request with a 400 response.

    The route's `index` parameter arrives already parsed: `Some(i)` for a
    canonical decimal numeral `i`, `None` for anything else (which the list
    never has an element for). The body's `name` is `None` when absent.
 */
module UsersApi {

  datatype Option<T> = None | Some(value: T)

  /** What a response carries: a JSON array of names, a `{ message }` object,
      an `{ error }` object, or nothing at all. */
  datatype Body =
    | Names(names: seq<string>)
    | Message(message: string)
    | Failure(error: string)
    | NoBody

  datatype Response = Response(status: nat, body: Body)

  const OK: nat := 200
  const BAD_REQUEST: nat := 400
  const NAME_REQUIRED: string := "User name is required"
  const USER_NOT_FOUND: string := "User does not exists"
  const LOOKUP_PREFIX: string := "Buscando o usuário "

  /** The list the process starts with. */
  const INITIAL_USERS: seq<string> := ["Camila", "Silva", "Sales"]

  /** The five routes of the users resource, with the request data each reads. */
  datatype Request =
    | ListUsers                                           // GET /users
    | ShowUser(index: Option<nat>)                        // GET /users/:index
    | CreateUser(name: Option<string>)                    // POST /users
    | UpdateUser(index: Option<nat>, name: Option<string>) // PUT /users/:index
    | DeleteUser(index: Option<nat>)                      // DELETE /users/:index

  /** The list after a request, and the response sent for it. */
  datatype Outcome = Outcome(users: seq<string>, response: Response)

  /** What a middleware does: hand on what it resolved to the next stage, or
      end the request with a response. */
  datatype Gate<T> = Next(value: T) | Halt(response: Response)

  /** The JavaScript truthiness of an optional string: present and non-empty. */
  predicate Truthy(s: Option<string>) {
    s.Some? && s.value != ""
  }

  /** Every stored name is non-empty. */
  predicate AllNamed(users: seq<string>) {
    forall i :: 0 <= i < |users| ==> users[i] != ""
  }

  /** The index names a position of the list. */
  predicate InRange(users: seq<string>, index: Option<nat>) {
    index.Some? && index.value < |users|
  }

  /** Looking the index up in the list; `None` where JavaScript reads `undefined`. */
  function Lookup(users: seq<string>, index: Option<nat>): (u: Option<string>)
    ensures u.Some? <==> InRange(users, index)
    ensures u.Some? ==> u.value == users[index.value]
  {
    if InRange(users, index) then Some(users[index.value]) else None
  }

  /** The `checkUserExists` middleware: lets the request through exactly when
      its body carries a non-empty name, and hands that name on. */
  function CheckUserExists(name: Option<string>): (g: Gate<string>)
    ensures g.Next? <==> name.Some? && name.value != ""
    ensures g.Next? ==> g.value == name.value && g.value != ""
    ensures g.Halt? ==> g.response == Response(BAD_REQUEST, Failure(NAME_REQUIRED))
  {
    if !Truthy(name) then Halt(Response(BAD_REQUEST, Failure(NAME_REQUIRED)))
    else Next(name.value)
  }

  /** The `checkUserInArray` middleware: looks the index up and lets the
      request through when the element found is truthy, handing that element
      on as the request's resolved user. While every stored name is non-empty
      this is exactly a bounds check. */
  function CheckUserInArray(users: seq<string>, index: Option<nat>): (g: Gate<string>)
    ensures g.Next? <==> InRange(users, index) && users[index.value] != ""
    ensures g.Next? ==> g.value == users[index.value]
    ensures g.Halt? ==> g.response == Response(BAD_REQUEST, Failure(USER_NOT_FOUND))
    ensures AllNamed(users) ==> (g.Next? <==> InRange(users, index))
  {
    var user := Lookup(users, index);
    if !Truthy(user) then Halt(Response(BAD_REQUEST, Failure(USER_NOT_FOUND)))
    else Next(user.value)
  }

  /** One request through its route: the route's middlewares in the order the
      route lists them, then its handler. A request that a middleware stops
      leaves the list as it was, and no request ever stores an empty name. */
  function Handle(users: seq<string>, req: Request): (o: Outcome)
    ensures o.response.status == OK || o.response.status == BAD_REQUEST
    ensures o.response.status == BAD_REQUEST ==> o.users == users
    ensures o.response.status == BAD_REQUEST <==> o.response.body.Failure?
    ensures AllNamed(users) ==> AllNamed(o.users)
  {
    match req
    case ListUsers =>
      Outcome(users, Response(OK, Names(users)))
    case ShowUser(index) =>
      (match CheckUserInArray(users, index)
       case Halt(resp) => Outcome(users, resp)
       case Next(user) => Outcome(users, Response(OK, Message(LOOKUP_PREFIX + user))))
    case CreateUser(name) =>
      (match CheckUserExists(name)
       case Halt(resp) => Outcome(users, resp)
       case Next(n) =>
         var after := users + [n];
         Outcome(after, Response(OK, Names(after))))
    case UpdateUser(index, name) =>
      (match CheckUserExists(name)
       case Halt(resp) => Outcome(users, resp)
       case Next(n) =>
         (match CheckUserInArray(users, index)
          case Halt(resp) => Outcome(users, resp)
          case Next(_) =>
            var after := users[index.value := n];
            Outcome(after, Response(OK, Names(after)))))
    case DeleteUser(index) =>
      (match CheckUserInArray(users, index)
       case Halt(resp) => Outcome(users, resp)
       case Next(_) =>
         var i := index.value;
         Outcome(users[..i] + users[i + 1..], Response(OK, NoBody)))
  }

  /** The process-wide users list and the five route handlers that read or
      change it in place. */
  class UserStore {
    var users: seq<string>

    /** The invariant every handler keeps: no stored name is empty. */
    ghost predicate Valid()
      reads this
    {
      AllNamed(users)
    }

    constructor ()
      ensures Valid()
      ensures users == ["Camila", "Silva", "Sales"]
    {
      users := INITIAL_USERS;
    }

    /** GET /users: the whole list, in order. */
    method List() returns (resp: Response)
      requires Valid()
      ensures resp.status == OK && resp.body.Names?
      ensures |resp.body.names| == |users|
      ensures forall i :: 0 <= i < |users| ==> resp.body.names[i] == users[i]
      ensures Outcome(users, resp) == Handle(users, ListUsers)
    {
      resp := Response(OK, Names(users));
    }

    /** GET /users/:index, behind `checkUserInArray`. */
    method Show(index: Option<nat>) returns (resp: Response)
      requires Valid()
      ensures InRange(users, index) ==>
                resp == Response(OK, Message(LOOKUP_PREFIX + users[index.value]))
      ensures !InRange(users, index) ==>
                resp == Response(BAD_REQUEST, Failure(USER_NOT_FOUND))
      ensures Outcome(users, resp) == Handle(users, ShowUser(index))
    {
      var gate := CheckUserInArray(users, index);
      if gate.Halt? {
        return gate.response;
      }
      resp := Response(OK, Message(LOOKUP_PREFIX + gate.value));
    }

    /** POST /users, behind `checkUserExists`: appends the name. */
    method Create(name: Option<string>) returns (resp: Response)
      requires Valid()
      modifies this
      ensures Valid()
      ensures Truthy(name) ==>
                users == old(users) + [name.value] && resp == Response(OK, Names(users))
      ensures !Truthy(name) ==>
                users == old(users) && resp == Response(BAD_REQUEST, Failure(NAME_REQUIRED))
      ensures Outcome(users, resp) == Handle(old(users), CreateUser(name))
    {
      var gate := CheckUserExists(name);
      if gate.Halt? {
        return gate.response;
      }
      users := users + [gate.value];
      resp := Response(OK, Names(users));
    }

    /** PUT /users/:index, behind `checkUserExists` and then
        `checkUserInArray`: overwrites the name at the index. */
    method Update(index: Option<nat>, name: Option<string>) returns (resp: Response)
      requires Valid()
      modifies this
      ensures Valid()
      ensures !Truthy(name) ==>
                users == old(users) && resp == Response(BAD_REQUEST, Failure(NAME_REQUIRED))
      ensures Truthy(name) && !InRange(old(users), index) ==>
                users == old(users) && resp == Response(BAD_REQUEST, Failure(USER_NOT_FOUND))
      ensures Truthy(name) && InRange(old(users), index) ==>
                users == old(users)[index.value := name.value] && resp == Response(OK, Names(users))
      ensures Outcome(users, resp) == Handle(old(users), UpdateUser(index, name))
    {
      var named := CheckUserExists(name);
      if named.Halt? {
        return named.response;
      }
      var found := CheckUserInArray(users, index);
      if found.Halt? {
        return found.response;
      }
      users := users[index.value := named.value];
      resp := Response(OK, Names(users));
    }

    /** DELETE /users/:index, behind `checkUserInArray`: removes one element,
        shifting the later ones down, and answers with an empty body. */
    method Delete(index: Option<nat>) returns (resp: Response)
      requires Valid()
      modifies this
      ensures Valid()
      ensures !InRange(old(users), index) ==>
                users == old(users) && resp == Response(BAD_REQUEST, Failure(USER_NOT_FOUND))
      ensures InRange(old(users), index) ==>
                users == old(users)[..index.value] + old(users)[index.value + 1..] &&
                resp == Response(OK, NoBody)
      ensures Outcome(users, resp) == Handle(old(users), DeleteUser(index))
    {
      var found := CheckUserInArray(users, index);
      if found.Halt? {
        return found.response;
      }
      var i := index.value;
      users := users[..i] + users[i + 1..];
      resp := Response(OK, NoBody);
    }
  }
}
