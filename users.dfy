/** The users router: login, lookup by id, and create / update / delete
    over the users collection. */
module Users {
  import opened Json
  import opened Store

  /** `u.email === email && u.password === password`, with the two inputs
      read from the request body (either may be undefined). */
  predicate HasCredentials(u: Record, body: Record) {
    && StrictEquals(Get(u, "email"), Get(body, "email"))
    && StrictEquals(Get(u, "password"), Get(body, "password"))
  }

  /** `const { password, ...userWithoutPassword } = user`. */
  function WithoutPassword(u: Record): (r: Record)
    ensures "password" !in r
    ensures r.Keys == u.Keys - {"password"}
    ensures forall k :: k in r ==> r[k] == u[k]
  {
    u - {"password"}
  }

  /** POST /login: the first user whose email and password both match the
      body, returned without its password, or AuthFailure. */
  function Login(users: seq<Record>, body: Record): (r: Response<Record>)
    ensures r.Ok? || r.AuthFailure?
    ensures r.AuthFailure? <==> forall j :: 0 <= j < |users| ==> !HasCredentials(users[j], body)
    ensures r.Ok? ==> "password" !in r.value
    ensures r.Ok? ==> exists i :: && 0 <= i < |users|
                                  && HasCredentials(users[i], body)
                                  && (forall j :: 0 <= j < i ==> !HasCredentials(users[j], body))
                                  && r.value == WithoutPassword(users[i])
  {
    var i := FindIndex(users, u => HasCredentials(u, body));
    if i < 0 then AuthFailure else Ok(WithoutPassword(users[i]))
  }

  /** GET /:id: the first user whose `id` is the number `id`, or NotFound. */
  function GetById(users: seq<Record>, id: int): (r: Response<Record>)
    ensures r.Ok? || r.NotFound?
    ensures r.NotFound? <==> forall j :: 0 <= j < |users| ==> !HasKey(users[j], "id", id)
    ensures r.Ok? ==> "id" in r.value && r.value["id"] == Num(id)
    ensures r.Ok? ==> exists i :: && 0 <= i < |users|
                                  && users[i] == r.value
                                  && forall j :: 0 <= j < i ==> !HasKey(users[j], "id", id)
  {
    match Find(users, u => HasKey(u, "id", id))
    case None => NotFound
    case Some(u) => Ok(u)
  }

  /** After an update whose body keeps the id, looking the user up by that
      id finds the merged record. */
  lemma UpdatedUserIsFound(users: seq<Record>, id: int, body: Record)
    requires IndexWith(users, "id", id) >= 0
    requires "id" in body ==> body["id"] == Num(id)
    ensures var i := IndexWith(users, "id", id);
      GetById(users[i := Spread(users[i], body)], id) == Ok(Spread(users[i], body))
  {
    var i := IndexWith(users, "id", id);
    ReplacedIsFoundAgain(users, "id", id, Spread(users[i], body));
  }

  /** The contents of the users file, and the handlers that change it. */
  class UserStore {
    var users: seq<Record>

    constructor (initial: seq<Record>)
      ensures users == initial
    {
      users := initial;
    }

    /** POST /: append `{ id: last id + 1 (or 1), ...body }` and return it. */
    method Create(body: Record) returns (created: Record)
      modifies this
      ensures created == NewRecord(old(users), body)
      ensures users == old(users) + [created]
    {
      created := NewRecord(users, body);
      users := users + [created];
    }

    /** PUT /:id: shallow merge of the body over the first user with that
        id; the body's fields win and the user's other fields stay. */
    method Update(id: int, body: Record) returns (r: Response<Record>)
      modifies this
      ensures r.Ok? || r.NotFound?
      ensures var i := IndexWith(old(users), "id", id);
        if i < 0 then r == NotFound && users == old(users)
        else r == Ok(Spread(old(users)[i], body)) && users == old(users)[i := r.value]
    {
      var index := IndexWith(users, "id", id);
      if index != -1 {
        var updated := Spread(users[index], body);
        users := users[index := updated];
        r := Ok(updated);
      } else {
        r := NotFound;
      }
    }

    /** DELETE /:id: splice out the first user with that id. */
    method Delete(id: int) returns (r: Response<()>)
      modifies this
      ensures r == Ok(()) || r == NotFound
      ensures var i := IndexWith(old(users), "id", id);
        if i < 0 then r == NotFound && users == old(users)
        else r == Ok(()) && users == RemoveAt(old(users), i)
    {
      var index := IndexWith(users, "id", id);
      if index != -1 {
        users := RemoveAt(users, index);
        r := Ok(());
      } else {
        r := NotFound;
      }
    }
  }
}
