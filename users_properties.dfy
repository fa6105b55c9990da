/** What the users routes promise, stated over `Handle` (one request) and
    `Run` (a sequence of requests served one after another). */
module UsersProperties {
  import opened UsersApi

  /** The list after serving the requests in order, starting from `users`. */
  function Run(users: seq<string>, reqs: seq<Request>): seq<string>
    decreases |reqs|
  {
    if reqs == [] then users else Run(Handle(users, reqs[0]).users, reqs[1..])
  }

  /** How many of the requests are creations. */
  function Creates(reqs: seq<Request>): (n: nat)
    ensures n <= |reqs|
  {
    if reqs == [] then 0 else (if reqs[0].CreateUser? then 1 else 0) + Creates(reqs[1..])
  }

  /** How many of the requests are deletions. */
  function Deletes(reqs: seq<Request>): (n: nat)
    ensures n <= |reqs|
  {
    if reqs == [] then 0 else (if reqs[0].DeleteUser? then 1 else 0) + Deletes(reqs[1..])
  }

  /** The names the process starts with are all non-empty. */
  lemma InitialUsersNamed()
    ensures INITIAL_USERS == ["Camila", "Silva", "Sales"]
    ensures AllNamed(INITIAL_USERS)
  {
  }

  /** Whatever requests the process serves, every stored name stays non-empty,
      so the index middleware never rejects an index inside the list. */
  lemma {:induction false} RunKeepsNamed(users: seq<string>, reqs: seq<Request>)
    requires AllNamed(users)
    ensures AllNamed(Run(users, reqs))
    decreases |reqs|
  {
    if reqs != [] {
      RunKeepsNamed(Handle(users, reqs[0]).users, reqs[1..]);
    }
  }

  /** Every list the process can reach from its initial one holds only
      non-empty names, and on it the index middleware is a bounds check. */
  lemma ReachableUsersNamed(reqs: seq<Request>, index: Option<nat>)
    ensures AllNamed(Run(INITIAL_USERS, reqs))
    ensures CheckUserInArray(Run(INITIAL_USERS, reqs), index).Next? <==>
              InRange(Run(INITIAL_USERS, reqs), index)
  {
    InitialUsersNamed();
    RunKeepsNamed(INITIAL_USERS, reqs);
  }

  /** A single request grows the list only if it is a creation, by one, and
      shrinks it only if it is a deletion, by one. */
  lemma HandleSize(users: seq<string>, req: Request)
    ensures |Handle(users, req).users| <= |users| + (if req.CreateUser? then 1 else 0)
    ensures |users| <= |Handle(users, req).users| + (if req.DeleteUser? then 1 else 0)
  {
  }

  /** Over any run, the list grows by at most the number of creations and
      shrinks by at most the number of deletions, so by at most one per
      request either way. */
  lemma {:induction false} RunSize(users: seq<string>, reqs: seq<Request>)
    ensures |Run(users, reqs)| <= |users| + Creates(reqs)
    ensures |users| <= |Run(users, reqs)| + Deletes(reqs)
    ensures |users| - |reqs| <= |Run(users, reqs)| <= |users| + |reqs|
    decreases |reqs|
  {
    if reqs != [] {
      HandleSize(users, reqs[0]);
      RunSize(Handle(users, reqs[0]).users, reqs[1..]);
    }
  }

  /** Listing and showing never change the list. */
  lemma ReadsLeaveUsers(users: seq<string>, req: Request)
    requires req.ListUsers? || req.ShowUser?
    ensures Handle(users, req).users == users
  {
  }

  /** Showing an index of the list answers with that element's name. */
  lemma ShowDescribes(users: seq<string>, i: nat)
    requires AllNamed(users) && i < |users|
    ensures Handle(users, ShowUser(Some(i))) ==
              Outcome(users, Response(OK, Message(LOOKUP_PREFIX + users[i])))
  {
  }

  /** An index outside the list is refused by every route that takes one, and
      the list is left as it was. */
  lemma IndexOutsideRefused(users: seq<string>, index: Option<nat>, name: string)
    requires !InRange(users, index) && name != ""
    ensures Handle(users, ShowUser(index)) == Outcome(users, Response(BAD_REQUEST, Failure(USER_NOT_FOUND)))
    ensures Handle(users, UpdateUser(index, Some(name))) == Outcome(users, Response(BAD_REQUEST, Failure(USER_NOT_FOUND)))
    ensures Handle(users, DeleteUser(index)) == Outcome(users, Response(BAD_REQUEST, Failure(USER_NOT_FOUND)))
  {
  }

  /** A missing or empty name is refused by creation and by update, whatever
      the index: the name middleware runs before the index middleware. */
  lemma NameCheckedFirst(users: seq<string>, index: Option<nat>, name: Option<string>)
    requires !Truthy(name)
    ensures Handle(users, CreateUser(name)) == Outcome(users, Response(BAD_REQUEST, Failure(NAME_REQUIRED)))
    ensures Handle(users, UpdateUser(index, name)) == Outcome(users, Response(BAD_REQUEST, Failure(NAME_REQUIRED)))
  {
  }

  /** Creation puts exactly the submitted name after the existing ones and
      answers with the whole new list. */
  lemma CreateAppends(users: seq<string>, name: string)
    requires name != ""
    ensures var o := Handle(users, CreateUser(Some(name)));
            |o.users| == |users| + 1 &&
            (forall j :: 0 <= j < |users| ==> o.users[j] == users[j]) &&
            o.users[|users|] == name &&
            o.response == Response(OK, Names(o.users))
  {
  }

  /** Update at an index of the list replaces that slot only and answers with
      the whole new list. */
  lemma UpdateReplacesSlot(users: seq<string>, i: nat, name: string)
    requires AllNamed(users) && i < |users| && name != ""
    ensures var o := Handle(users, UpdateUser(Some(i), Some(name)));
            |o.users| == |users| &&
            o.users[i] == name &&
            (forall j :: 0 <= j < |users| && j != i ==> o.users[j] == users[j]) &&
            o.response == Response(OK, Names(o.users))
  {
  }

  /** Deletion at an index of the list removes that element, moves every later
      one down a position, and answers with an empty body. */
  lemma DeleteShifts(users: seq<string>, i: nat)
    requires AllNamed(users) && i < |users|
    ensures var o := Handle(users, DeleteUser(Some(i)));
            |o.users| == |users| - 1 &&
            (forall j :: 0 <= j < i ==> o.users[j] == users[j]) &&
            (forall j :: i <= j < |o.users| ==> o.users[j] == users[j + 1]) &&
            o.response == Response(OK, NoBody)
  {
  }

  /** Deleting the last position undoes a creation. */
  lemma CreateThenDeleteLast(users: seq<string>, name: string)
    requires AllNamed(users) && name != ""
    ensures Handle(Handle(users, CreateUser(Some(name))).users, DeleteUser(Some(|users|))).users == users
  {
    var after := Handle(users, CreateUser(Some(name))).users;
    assert after[..|users|] == users;
  }

  /** Writing the old name back undoes an update. */
  lemma UpdateThenRestore(users: seq<string>, i: nat, name: string)
    requires AllNamed(users) && i < |users| && name != ""
    ensures var after := Handle(users, UpdateUser(Some(i), Some(name))).users;
            Handle(after, UpdateUser(Some(i), Some(users[i]))).users == users
  {
  }

  /** Users are identified by position only: after a deletion, the same index
      describes the user that followed the deleted one. */
  lemma DeleteShiftsIdentity(users: seq<string>, i: nat)
    requires AllNamed(users) && i + 1 < |users|
    ensures var after := Handle(users, DeleteUser(Some(i))).users;
            Handle(after, ShowUser(Some(i))).response ==
              Response(OK, Message(LOOKUP_PREFIX + users[i + 1]))
  {
    DeleteShifts(users, i);
  }

  /** Creating "Ana" on the initial list answers with the four names. */
  lemma CreateAnaExample()
    ensures Handle(INITIAL_USERS, CreateUser(Some("Ana"))) ==
              Outcome(["Camila", "Silva", "Sales", "Ana"],
                      Response(OK, Names(["Camila", "Silva", "Sales", "Ana"])))
  {
    assert INITIAL_USERS + ["Ana"] == ["Camila", "Silva", "Sales", "Ana"];
  }

  /** Deleting index 1 of the initial list leaves the first and the third
      name, with an empty answer. */
  lemma DeleteOneExample()
    ensures Handle(INITIAL_USERS, DeleteUser(Some(1))) ==
              Outcome(["Camila", "Sales"], Response(OK, NoBody))
  {
  }

  /** An update with no name and an index far outside the list gets the name
      error, not the index error. */
  lemma UpdateOrderExample()
    ensures Handle(INITIAL_USERS, UpdateUser(Some(99), None)).response ==
              Response(BAD_REQUEST, Failure(NAME_REQUIRED))
  {
  }
}
