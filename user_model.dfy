/** The user collection as the auth and profile services use it: the
    fields they read and write, and the store operations they call
    (`findOne({email})`, `findById`, `create`, `findByIdAndUpdate`). The
    user schema file itself is not part of this model; the fields below are
    the ones the two controllers touch. */
module UserModel {
  import opened Common

  /** A stored user. `passwordHash` is what the store keeps for the
      password; the two timestamps are milliseconds. */
  datatype User = User(
    id: UserId,
    name: string,
    email: string,
    passwordHash: string,
    avatar: Option<string>,
    createdAt: int,
    updatedAt: int)

  /** No two rows share an id. */
  ghost predicate DistinctIds(rows: seq<User>)
  {
    forall i, j :: 0 <= i < j < |rows| ==> rows[i].id != rows[j].id
  }

  /** At most one user per email. */
  ghost predicate UniqueEmails(rows: seq<User>)
  {
    forall i, j :: 0 <= i < j < |rows| ==> rows[i].email != rows[j].email
  }

  /** `User.findOne({email})`: the position of the user with this email. */
  function FindByEmail(rows: seq<User>, email: string): (r: Option<nat>)
    ensures r.Some? ==> r.value < |rows| && rows[r.value].email == email
    ensures r.None? <==> forall i :: 0 <= i < |rows| ==> rows[i].email != email
  {
    if rows == [] then None
    else if rows[0].email == email then Some(0)
    else
      var r := FindByEmail(rows[1..], email);
      if r.Some? then Some(r.value + 1) else None
  }

  /** `User.findById(id)`: the position of the user with this id. */
  function FindById(rows: seq<User>, id: UserId): (r: Option<nat>)
    ensures r.Some? ==> r.value < |rows| && rows[r.value].id == id
    ensures r.None? <==> forall i :: 0 <= i < |rows| ==> rows[i].id != id
  {
    if rows == [] then None
    else if rows[0].id == id then Some(0)
    else
      var r := FindById(rows[1..], id);
      if r.Some? then Some(r.value + 1) else None
  }

  /** With unique emails, the lookup finds the one user holding the email. */
  lemma FindByEmailExact(rows: seq<User>, email: string, i: nat)
    requires UniqueEmails(rows)
    requires i < |rows| && rows[i].email == email
    ensures FindByEmail(rows, email) == Some(i)
  {
    var r := FindByEmail(rows, email);
    assert r.Some?;
  }

  /** The user collection in insertion order; `nextId` is the id the store
      hands out next. */
  class UserTable {
    var rows: seq<User>
    var nextId: UserId

    ghost predicate Valid()
      reads this
    {
      && (forall i :: 0 <= i < |rows| ==> rows[i].id < nextId)
      && DistinctIds(rows)
      && UniqueEmails(rows)
    }

    constructor ()
      ensures Valid() && rows == [] && nextId == 0
    {
      rows := [];
      nextId := 0;
    }

    /** `User.create`: stores a user with an email no one holds under the
        next id. */
    method Insert(u: User)
      requires Valid() && u.id == nextId
      requires forall i :: 0 <= i < |rows| ==> rows[i].email != u.email
      modifies this
      ensures Valid()
      ensures rows == old(rows) + [u] && nextId == old(nextId) + 1
    {
      rows := rows + [u];
      nextId := nextId + 1;
    }

    /** `findByIdAndUpdate`: the row at `i` becomes `u`, which keeps its id
        and whose email no other user holds. */
    method Replace(i: nat, u: User)
      requires Valid() && i < |rows| && u.id == rows[i].id
      requires forall j :: 0 <= j < |rows| && j != i ==> rows[j].email != u.email
      modifies this
      ensures Valid()
      ensures rows == old(rows)[i := u] && nextId == old(nextId)
    {
      rows := rows[i := u];
    }
  }
}
