/**
 * The application's server-side state: the user, project and resource tables
 * (the database, held in memory) and one client's session slot, with the
 * register, login, "me" and logout endpoints and the seeding done at start-up.
 * One request is handled at a time.
 */
module Accounts {
  import opened Options
  import opened Records
  import opened Utilization

  /** What an endpoint answers: 200 with an optional user view, or an error status and message. */
  datatype Response = Ok(data: Option<UserView>) | Fail(status: int, message: string)

  const MissingRegistrationFields := "Name, email and password are required"
  const EmailTaken := "Email already registered"
  const MissingCredentials := "Email and password required"
  const InvalidCredentials := "Invalid credentials"
  const NotAuthenticated := "Not authenticated"
  const UserNotFound := "User not found"

  /** The default account created on an empty user table (its password is "password"). */
  function SeedUser(id: int, passwordHash: string, now: Timestamp): User {
    User(id, "Babafemi Oyindamola", "john@example.com", passwordHash, "Project Manager", now)
  }

  function SeedProjects(now: Timestamp): seq<Project> {
    [ Project(1, "E-commerce Platform", Some("Babafemi Oyindamola"),
              Some(Date(2023, 3, 15)), Some(Date(2023, 9, 30)), "active", now),
      Project(2, "Mobile Banking App", Some("Akinleye Tolu"),
              Some(Date(2023, 5, 1)), Some(Date(2023, 11, 15)), "active", now),
      Project(3, "CRM System", Some("Oluleye Philip"),
              Some(Date(2023, 1, 10)), Some(Date(2023, 7, 31)), "completed", now) ]
  }

  function SeedResources(): seq<Resource> {
    [ Resource(1, "Benjamin Godswill", "Project Manager", 0, Some("E-commerce Platform")),
      Resource(2, "Akinleye Tolu", "Senior Developer", 20, Some("Mobile Banking App")),
      Resource(3, "Oluleye Philip", "UX Designer", 0, Some("CRM System")) ]
  }

  /** A table is seeded only while it is empty. */
  function SeedIfEmpty<T>(table: seq<T>, rows: seq<T>): (r: seq<T>)
    ensures table != [] ==> r == table
    ensures table == [] ==> r == rows
  {
    if table == [] then rows else table
  }

  /** Seeding twice gives what seeding once gives, whatever the second call would insert. */
  lemma SeedIfEmptyIdempotent<T>(table: seq<T>, rows: seq<T>, later: seq<T>)
    requires rows != []
    ensures SeedIfEmpty(SeedIfEmpty(table, rows), later) == SeedIfEmpty(table, rows)
  {
  }

  function Availabilities(resources: seq<Resource>): (s: seq<int>)
    ensures |s| == |resources|
    ensures forall i :: 0 <= i < |s| ==> s[i] == resources[i].availability
  {
    seq(|resources|, i requires 0 <= i < |resources| => resources[i].availability)
  }

  class AppState {
    /** Password hashing, kept abstract; `check(hash(p), p)` is all the model relies on. */
    const hash: string -> string
    const check: (string, string) -> bool

    var users: seq<User>
    var nextId: int
    var projects: seq<Project>
    var resources: seq<Resource>
    /** The `user_id` entry of the client's session, if set. */
    var session: Option<int>

    ghost predicate Valid()
      reads this
    {
      && 1 <= nextId
      && (forall i :: 0 <= i < |users| ==> 1 <= users[i].id < nextId)
      && DistinctIds(users)
      && DistinctEmails(users)
      && (forall p :: check(hash(p), p))
    }

    /** Empty tables; the session slot holds whatever the client's cookie carried. */
    constructor (hash: string -> string, check: (string, string) -> bool, cookie: Option<int>)
      requires forall p :: check(hash(p), p)
      ensures Valid()
      ensures this.hash == hash && this.check == check
      ensures users == [] && projects == [] && resources == [] && nextId == 1
      ensures session == cookie
    {
      this.hash := hash;
      this.check := check;
      users := [];
      nextId := 1;
      projects := [];
      resources := [];
      session := cookie;
    }

    /** `init_db`: seed each table that is still empty. */
    method InitDb(now: Timestamp)
      requires Valid()
      modifies this`users, this`nextId, this`projects, this`resources
      ensures Valid()
      ensures users == SeedIfEmpty(old(users), [SeedUser(old(nextId), hash("password"), now)])
      ensures nextId == if old(users) == [] then old(nextId) + 1 else old(nextId)
      ensures projects == SeedIfEmpty(old(projects), SeedProjects(now))
      ensures resources == SeedIfEmpty(old(resources), SeedResources())
    {
      if users == [] {
        users := [SeedUser(nextId, hash("password"), now)];
        nextId := nextId + 1;
      }
      if projects == [] {
        projects := SeedProjects(now);
      }
      if resources == [] {
        resources := SeedResources();
      }
    }

    /** `api_register`: validate, reject a known email, otherwise store a new user. */
    method Register(name: Field, email: Field, password: Field, position: Field, now: Timestamp)
      returns (resp: Response)
      requires Valid()
      modifies this`users, this`nextId
      ensures Valid()
      ensures !(Present(name) && Present(email) && Present(password)) ==>
        resp == Fail(400, MissingRegistrationFields)
        && users == old(users) && nextId == old(nextId)
      ensures Present(name) && Present(email) && Present(password) && HasEmail(old(users), email.value) ==>
        resp == Fail(400, EmailTaken)
        && users == old(users) && nextId == old(nextId)
        && EmailCount(users, email.value) == 1
      ensures Present(name) && Present(email) && Present(password) && !HasEmail(old(users), email.value) ==>
        var u := User(old(nextId), name.value, email.value, hash(password.value),
                      PositionOrDefault(position), now);
        && users == old(users) + [u]
        && !HasId(old(users), u.id)
        && nextId == old(nextId) + 1
        && resp == Ok(Some(ToDict(u)))
    {
      if !(Present(name) && Present(email) && Present(password)) {
        return Fail(400, MissingRegistrationFields);
      }
      if FindByEmail(users, email.value).Some? {
        EmailCountOne(users, email.value);
        return Fail(400, EmailTaken);
      }
      var user := User(nextId, name.value, email.value, hash(password.value),
                       PositionOrDefault(position), now);
      AppendKeepsEmailsDistinct(users, user);
      users := users + [user];
      nextId := nextId + 1;
      resp := Ok(Some(ToDict(user)));
    }

    /** `api_login`: on correct credentials, remember the user's id in the session. */
    method Login(email: Field, password: Field) returns (resp: Response)
      requires Valid()
      modifies this`session
      ensures Valid()
      ensures !(Present(email) && Present(password)) ==>
        resp == Fail(400, MissingCredentials) && session == old(session)
      ensures Present(email) && Present(password) && !HasEmail(users, email.value) ==>
        resp == Fail(401, InvalidCredentials) && session == old(session)
      ensures Present(email) && Present(password) ==>
        forall u :: u in users && u.email == email.value ==>
          if check(u.passwordHash, password.value)
          then resp == Ok(Some(ToDict(u))) && session == Some(u.id)
          else resp == Fail(401, InvalidCredentials) && session == old(session)
    {
      if !(Present(email) && Present(password)) {
        return Fail(400, MissingCredentials);
      }
      var found := FindByEmail(users, email.value);
      if found.None? || !check(found.value.passwordHash, password.value) {
        return Fail(401, InvalidCredentials);
      }
      session := Some(found.value.id);
      resp := Ok(Some(ToDict(found.value)));
    }

    /** A session identifies someone when its user id is set and truthy (not 0). */
    predicate SignedIn()
      reads this
    {
      session.Some? && session.value != 0
    }

    /** Stored ids start at 1, so the truthiness test never turns away a session naming a stored user. */
    lemma StoredUserIsSignedIn()
      requires Valid() && session.Some? && HasId(users, session.value)
      ensures SignedIn()
    {
    }

    /** `api_me`: the user the session names. */
    method Me() returns (resp: Response)
      requires Valid()
      ensures !SignedIn() ==> resp == Fail(401, NotAuthenticated)
      ensures SignedIn() && !HasId(users, session.value) ==> resp == Fail(404, UserNotFound)
      ensures SignedIn() ==>
        forall u :: u in users && u.id == session.value ==> resp == Ok(Some(ToDict(u)))
      ensures resp.Ok? ==> resp.data.Some? && resp.data.value.id == session.value
    {
      if !SignedIn() {
        return Fail(401, NotAuthenticated);
      }
      var found := FindById(users, session.value);
      if found.None? {
        return Fail(404, UserNotFound);
      }
      resp := Ok(Some(ToDict(found.value)));
    }

    /** `api_logout`: forget the session's user, whatever it was. */
    method Logout() returns (resp: Response)
      requires Valid()
      modifies this`session
      ensures Valid()
      ensures session == None
      ensures resp == Ok(None)
    {
      session := None;
      resp := Ok(None);
    }

    /** `api_resource_stats` over the current tables. */
    function Report(): (r: Stats)
      reads this
      ensures r.totalResources == |resources| && r.totalProjects == |projects|
    {
      UtilizationStats(Availabilities(resources), |projects|)
    }
  }

  /** Logging out twice leaves the same state as once, and "me" then answers 401. */
  method LogoutTwiceThenMe(app: AppState) returns (first: Response, second: Response, resp: Response)
    requires app.Valid()
    modifies app`session
    ensures app.Valid() && app.session == None
    ensures first == second == Ok(None)
    ensures resp == Fail(401, NotAuthenticated)
  {
    first := app.Logout();
    second := app.Logout();
    resp := app.Me();
  }

  /** A fresh registration can log in with the same credentials and "me" returns it. */
  method RegisterThenLogin(app: AppState, name: string, email: string, password: string, now: Timestamp)
    returns (login: Response, me: Response)
    requires app.Valid()
    requires name != "" && email != "" && password != ""
    requires !HasEmail(app.users, email)
    modifies app`users, app`nextId, app`session
    ensures app.Valid()
    ensures login == Ok(Some(UserView(old(app.nextId), name, email, DefaultPosition, now)))
    ensures app.session == Some(old(app.nextId))
    ensures me == login
  {
    var id := app.nextId;
    var registered := app.Register(Some(name), Some(email), Some(password), None, now);
    var u := User(id, name, email, app.hash(password), DefaultPosition, now);
    assert u in app.users;
    login := app.Login(Some(email), Some(password));
    assert app.session == Some(id);
    me := app.Me();
  }

  /** From any state, a second seeding changes nothing that the first left. */
  method InitDbTwice(app: AppState, t1: Timestamp, t2: Timestamp)
    requires app.Valid()
    modifies app`users, app`nextId, app`projects, app`resources
    ensures app.Valid()
    ensures app.session == old(app.session)
    ensures app.users == SeedIfEmpty(old(app.users), [SeedUser(old(app.nextId), app.hash("password"), t1)])
    ensures app.nextId == if old(app.users) == [] then old(app.nextId) + 1 else old(app.nextId)
    ensures app.projects == SeedIfEmpty(old(app.projects), SeedProjects(t1))
    ensures app.resources == SeedIfEmpty(old(app.resources), SeedResources())
  {
    app.InitDb(t1);
    app.InitDb(t2);
  }

  /** A second seeding adds nothing, and the seeded statistics are those of availabilities 0, 20, 0. */
  method SeedTwice(app: AppState, t1: Timestamp, t2: Timestamp) returns (stats: Stats)
    requires app.Valid()
    requires app.users == [] && app.projects == [] && app.resources == []
    modifies app`users, app`nextId, app`projects, app`resources
    ensures |app.users| == 1 && app.projects == SeedProjects(t1) && app.resources == SeedResources()
    ensures stats == Stats(3, 3, 1, 93, 2, 3)
  {
    app.InitDb(t1);
    app.InitDb(t2);
    assert Availabilities(app.resources) == [0, 20, 0];
    SeededStats();
    stats := app.Report();
  }
}
