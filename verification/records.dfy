/**
 * The stored records (users, projects, resources), the public view of a user,
 * request fields with Python's truthiness, and the lookups the endpoints make.
 */
module Records {
  import opened Options

  /** A point in time from the server clock, kept opaque. */
  type Timestamp = int

  datatype Date = Date(year: int, month: int, day: int)

  datatype User = User(
    id: int,
    name: string,
    email: string,
    passwordHash: string,
    position: string,
    createdAt: Timestamp)

  datatype Project = Project(
    id: int,
    name: string,
    manager: Option<string>,
    startDate: Option<Date>,
    endDate: Option<Date>,
    status: string,
    updatedAt: Timestamp)

  datatype Resource = Resource(
    id: int,
    name: string,
    position: string,
    availability: int,
    currentProject: Option<string>)

  /** What a user endpoint sends back: every column except the password hash. */
  datatype UserView = UserView(
    id: int,
    name: string,
    email: string,
    position: string,
    createdAt: Timestamp)

  /** `User.to_dict`: id, name, email, position and creation time; the type has no hash field. */
  function ToDict(u: User): (v: UserView)
    ensures v.id == u.id && v.name == u.name && v.email == u.email
    ensures v.position == u.position && v.createdAt == u.createdAt
  {
    UserView(u.id, u.name, u.email, u.position, u.createdAt)
  }

  /**
   * Two users have the same view exactly when they agree on everything but
   * the hash: the view keeps every other column and reveals nothing of the hash.
   */
  lemma ViewIsUserWithoutHash(u: User, w: User)
    ensures ToDict(u) == ToDict(w) <==> u.(passwordHash := "") == w.(passwordHash := "")
  {
  }

  /** A JSON request field: missing, or a string. */
  type Field = Option<string>

  /** Python truthiness of a field: neither missing (None) nor the empty string. */
  predicate Present(f: Field) {
    f.Some? && f.value != ""
  }

  const DefaultPosition: string := "Developer"

  /** `data.get('position') or 'Developer'`. */
  function PositionOrDefault(position: Field): (p: string)
    ensures Present(position) ==> p == position.value
    ensures !Present(position) ==> p == DefaultPosition
    ensures p != ""
  {
    if Present(position) then position.value else DefaultPosition
  }

  predicate DistinctEmails(users: seq<User>) {
    forall i, j :: 0 <= i < j < |users| ==> users[i].email != users[j].email
  }

  predicate DistinctIds(users: seq<User>) {
    forall i, j :: 0 <= i < j < |users| ==> users[i].id != users[j].id
  }

  predicate HasEmail(users: seq<User>, email: string) {
    exists i :: 0 <= i < |users| && users[i].email == email
  }

  predicate HasId(users: seq<User>, id: int) {
    exists i :: 0 <= i < |users| && users[i].id == id
  }

  /** `User.query.filter_by(email=email).first()`: the first user with that email, if any. */
  function FindByEmail(users: seq<User>, email: string): (r: Option<User>)
    ensures r.Some? <==> HasEmail(users, email)
    ensures r.Some? ==> r.value in users && r.value.email == email
    ensures r.Some? && DistinctEmails(users) ==>
      forall u :: u in users && u.email == email ==> u == r.value
  {
    if users == [] then None
    else if users[0].email == email then Some(users[0])
    else
      assert forall i :: 1 <= i < |users| ==> users[i] == users[1..][i - 1];
      FindByEmail(users[1..], email)
  }

  /** `User.query.get(uid)`: the user with that primary key, if any. */
  function FindById(users: seq<User>, id: int): (r: Option<User>)
    ensures r.Some? <==> HasId(users, id)
    ensures r.Some? ==> r.value in users && r.value.id == id
    ensures r.Some? && DistinctIds(users) ==>
      forall u :: u in users && u.id == id ==> u == r.value
  {
    if users == [] then None
    else if users[0].id == id then Some(users[0])
    else
      assert forall i :: 1 <= i < |users| ==> users[i] == users[1..][i - 1];
      FindById(users[1..], id)
  }

  /** How many stored users carry a given email. */
  function EmailCount(users: seq<User>, email: string): nat {
    if users == [] then 0
    else (if users[0].email == email then 1 else 0) + EmailCount(users[1..], email)
  }

  lemma {:induction false} EmailCountZero(users: seq<User>, email: string)
    requires !HasEmail(users, email)
    ensures EmailCount(users, email) == 0
  {
    if users != [] {
      EmailCountZero(users[1..], email);
    }
  }

  /** The unique-email constraint: a stored email belongs to exactly one record. */
  lemma {:induction false} EmailCountOne(users: seq<User>, email: string)
    requires DistinctEmails(users) && HasEmail(users, email)
    ensures EmailCount(users, email) == 1
  {
    var rest := users[1..];
    assert DistinctEmails(rest) by {
      forall i, j | 0 <= i < j < |rest| ensures rest[i].email != rest[j].email {
        assert rest[i] == users[i + 1] && rest[j] == users[j + 1];
      }
    }
    if users[0].email == email {
      assert !HasEmail(rest, email);
      EmailCountZero(rest, email);
    } else {
      var i :| 0 <= i < |users| && users[i].email == email;
      assert rest[i - 1].email == email;
      EmailCountOne(rest, email);
    }
  }

  /** Appending a user whose email is not yet stored keeps emails unique. */
  lemma AppendKeepsEmailsDistinct(users: seq<User>, u: User)
    requires DistinctEmails(users) && !HasEmail(users, u.email)
    ensures DistinctEmails(users + [u])
  {
    var t := users + [u];
    forall i, j | 0 <= i < j < |t| ensures t[i].email != t[j].email {
      if j == |users| {
        assert t[i] == users[i];
      } else {
        assert t[i] == users[i] && t[j] == users[j];
      }
    }
  }
}
