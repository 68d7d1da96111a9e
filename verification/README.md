# HR allocation app: utilization statistics and session authentication

A Dafny model of the logic inside the single-file Flask application
`hr_allocation_flask_app.py`, an HR / resource-allocation dashboard.
Two pieces are modelled and proved:

* **Utilization statistics** (`/api/resources/stats/utilization`): from the
  availability percentages of all resources and the number of projects, the
  endpoint reports `totalResources`, `allocatedResources` (availability < 100),
  `availableResources` (> 0), `overallocated` (<= 0), `averageUtilization`
  (Python's `round` of the mean of `100 - availability`, 0 for no resources)
  and `totalProjects`. Availability is an unchecked integer, so negative values
  and values above 100 are allowed throughout. Python 3's `round` rounds ties
  to the even integer; the model computes it exactly on the rational
  `sum / n` (`Rounding.RoundHalfEven`) and proves that this is the unique
  nearest-integer-ties-to-even rounding.
* **Accounts and the session** (`/api/auth/register`, `/login`, `/me`,
  `/logout`) and the start-up seeding `init_db`: a class `AppState` holds the
  user, project and resource tables as sequences, the next user id, and one
  client's session slot (`Option<int>`, the `user_id` entry). Each endpoint is
  a method returning either `Ok` (status 200) with an optional public user
  view, or `Fail(status, message)` with the source's status code and message.
  A request field is an `Option<string>`; it counts as given only when it is
  truthy in Python, i.e. neither missing nor the empty string. Password
  hashing is abstract: the class carries a `hash` function and a `check`
  predicate, and relies only on `check(hash(p), p)`.

Modules: `Options` (options.dfy), `Rounding` (rounding.dfy), `Utilization`
(utilization.dfy), `Records` (records.dfy: rows, the user view, lookups),
`Accounts` (app_state.dfy: the class and its endpoints).

Three consequences of the code are worth stating plainly:

* Availability 100 counts as available (the filter is `> 0`), so
  availabilities `[0, 20, 100]` give `availableResources = 2`
  (`Utilization.MixedStats`).
* Python 3's `round` sends ties to the even integer: a mean utilization of
  `0.5` is reported as 0 (`Utilization.TieRoundsToEven`).
* The three bands `<= 0`, `1..99` and `== 100` cover every resource only when
  no availability exceeds 100 (`Utilization.ThreeBands`); availability 150
  falls into none of them (`Utilization.AboveHundredInNoBand`).

## Model

| member | source | states |
|---|---|---|
| `Rounding.RoundHalfEven` | hr_allocation_flask_app.py:199 | the result is a nearest integer to num/den, and on an exact tie it is even (Python 3 `round`) |
| `Rounding.RoundsToUnique` | hr_allocation_flask_app.py:199 | any integer that is a nearest, ties-to-even rounding of num/den equals `RoundHalfEven`: the rounding is determined |
| `Rounding.RoundingBetween` | hr_allocation_flask_app.py:199 | if lo <= num/den <= hi then lo <= round(num/den) <= hi |
| `Utilization.Count` | hr_allocation_flask_app.py:193-200 | a filtered count is at most the list length; it is 0 exactly when no element passes and the length exactly when all pass |
| `Utilization.UtilizationStats` | hr_allocation_flask_app.py:192-201 | total is the number of resources and totalProjects the project count; overallocated + available = total; allocated <= total; the average is 0 on an empty list and otherwise the ties-to-even rounding of sum(100 - a) / n |
| `Utilization.Overallocated` | hr_allocation_flask_app.py:200 | definition: the `availability <= 0` filter |
| `Utilization.Allocated` | hr_allocation_flask_app.py:194 | definition: the `availability < 100` filter; `AllocatedComplement` relates its count to the `>= 100` filter |
| `Utilization.Available` | hr_allocation_flask_app.py:195 | the `availability > 0` filter: true exactly for the resources that are not overallocated |
| `Utilization.TotalUtilization` | hr_allocation_flask_app.py:199 | the generator sum of 100 - a: 0 when every resource is fully free, 100 per resource when every one is fully allocated; its closed form is `TotalUtilizationIsComplement` |
| `Utilization.CountComplement` | hr_allocation_flask_app.py:195-200 | elements passing a filter plus elements passing its negation make up the whole list (`> 0` versus `<= 0`) |
| `Utilization.CountAppend` | hr_allocation_flask_app.py:193-200 | counting a concatenation is the sum of counting the parts |
| `Utilization.TotalUtilizationIsComplement` | hr_allocation_flask_app.py:199 | sum(100 - a) equals 100 times the number of resources minus the sum of availabilities |
| `Utilization.TotalUtilizationBounds` | hr_allocation_flask_app.py:199 | with every availability in 0..100 the utilization sum lies in 0..100 n |
| `Utilization.AverageIsPercentage` | hr_allocation_flask_app.py:196-199 | with every availability in 0..100 the reported average utilization lies in 0..100 |
| `Utilization.ThreeBands` | hr_allocation_flask_app.py:195-200 | with no availability above 100, overallocated + partly free (1..99) + fully free (100) equals the total |
| `Utilization.AboveHundredInNoBand` | hr_allocation_flask_app.py:193-200 | an availability of 150 is counted in none of those three bands |
| `Utilization.AllocatedComplement` | hr_allocation_flask_app.py:194 | allocated resources are all resources minus those with availability >= 100 |
| `Utilization.EmptyStats` | hr_allocation_flask_app.py:196-198 | with no resources every count and the average are 0 (no division by zero) |
| `Utilization.SeededStats` | hr_allocation_flask_app.py:192-201 | availabilities 0, 20, 0 with 3 projects give total 3, allocated 3, available 1, average 93, overallocated 2 |
| `Utilization.MixedStats` | hr_allocation_flask_app.py:192-201 | availabilities 0, 20, 100 give allocated 2, available 2, average 60, overallocated 1 |
| `Utilization.TieRoundsToEven` | hr_allocation_flask_app.py:199 | availabilities 99, 100 give average 0 (a tie at 0.5) and 97, 100 give 2 (a tie at 1.5) |
| `Utilization.NegativeTies` | hr_allocation_flask_app.py:199 | availabilities above 100 give negative utilization; -0.5 rounds to 0 and -1.5 to -2 |
| `Records.ToDict` | hr_allocation_flask_app.py:43-50 | the view carries the user's id, name, email, position and createdAt and has no hash field; its partner is `ViewIsUserWithoutHash` |
| `Records.Present` | hr_allocation_flask_app.py:129 | definition: Python truthiness of a missing-or-string field (neither missing nor empty); `Register`'s and `Login`'s ensures split on it (also line 145) |
| `Records.ViewIsUserWithoutHash` | hr_allocation_flask_app.py:43-50 | two users have equal public views exactly when they agree on every column but the password hash |
| `Records.PositionOrDefault` | hr_allocation_flask_app.py:127 | a truthy position is kept, a missing or empty one becomes "Developer" |
| `Records.FindByEmail` | hr_allocation_flask_app.py:147 | finds a user exactly when one has that email; the found user is stored and has it; with unique emails it is the only such user |
| `Records.FindById` | hr_allocation_flask_app.py:158 | finds a user exactly when one has that id; with unique ids it is the only such user |
| `Records.EmailCountOne` | hr_allocation_flask_app.py:38 | under the unique-email constraint a stored email belongs to exactly one record |
| `Records.AppendKeepsEmailsDistinct` | hr_allocation_flask_app.py:132-136 | appending a user whose email is not stored keeps emails unique |
| `Accounts.SeedIfEmpty` | hr_allocation_flask_app.py:94-106 | a table is replaced by the seed rows only when it is empty and is otherwise left as it is |
| `Accounts.SeedIfEmptyIdempotent` | hr_allocation_flask_app.py:94-106 | seeding a second time changes nothing, whatever rows it would insert |
| `Accounts.Availabilities` | hr_allocation_flask_app.py:197-199 | the availability column of the resource table, in table order |
| `Accounts.AppState.constructor` | hr_allocation_flask_app.py:91-92 | a fresh database (no existing tables, so `create_all` leaves them empty), next id 1, the session slot as the client's cookie carried it |
| `Accounts.AppState.InitDb` | hr_allocation_flask_app.py:89-107 | the default user (password "password", hashed), the three projects and the three resources are inserted each only into an empty table |
| `Accounts.AppState.Register` | hr_allocation_flask_app.py:122-138 | a missing name, email or password gives 400 with the table unchanged; a known email gives 400, table unchanged, still one record with it; otherwise exactly one user with a fresh id and the hashed password is appended and its view returned; the session is untouched |
| `Accounts.AppState.Login` | hr_allocation_flask_app.py:141-151 | missing fields give 400; an unknown email and a wrong password both give the same 401 and leave the session; correct credentials set the session to that user's id and return its view |
| `Accounts.AppState.SignedIn` | hr_allocation_flask_app.py:156 | definition: the `if not uid` test, a session user id that is set and not 0; `Me`'s ensures split on it |
| `Accounts.AppState.StoredUserIsSignedIn` | hr_allocation_flask_app.py:156-161 | stored ids start at 1, so a session naming a stored user always passes the `if not uid` test |
| `Accounts.AppState.Me` | hr_allocation_flask_app.py:154-161 | no session (or user id 0) gives 401; an id with no user gives 404; otherwise the view of the user with that id |
| `Accounts.AppState.Logout` | hr_allocation_flask_app.py:164-166 | always succeeds and leaves the session empty, whatever it held |
| `Accounts.AppState.Report` | hr_allocation_flask_app.py:192-201 | the statistics of the current tables: totalResources is the size of the resource table, totalProjects that of the project table, the other fields as `UtilizationStats` states them for the availability column |
| `Accounts.LogoutTwiceThenMe` | hr_allocation_flask_app.py:154-166 | two logouts both answer `Ok(None)`, keep the invariant and leave the session empty; "me" then gives 401 |
| `Accounts.RegisterThenLogin` | hr_allocation_flask_app.py:122-161 | after registering with a fresh email and no position, logging in with the same credentials succeeds with the view (next id, name, email, "Developer", the registration time), the session holds that id, "me" returns the same view, and the invariant holds |
| `Accounts.InitDbTwice` | hr_allocation_flask_app.py:89-107 | from any valid state, seeding twice leaves all three tables, the next id and the session exactly as the first seeding left them |
| `Accounts.SeedTwice` | hr_allocation_flask_app.py:89-107 | seeding an empty store twice leaves one user, the three seed projects and resources, and statistics 3, 3, 1, 93, 2, 3 |

## Left out

- HTML, CSS and JavaScript templates and the pages serving them: presentation only, no logic of the core.
- The reports endpoint, project and resource listings: fixed or pass-through data. The listing order by `updated_at` is left to the database.
- Flask routing, JSON parsing and response building, and the signed session cookie: only the status code, the message, the returned user view and the session's `user_id` slot are modelled. A request field of a non-string JSON type is not modelled; a field is missing or a string.
- Database configuration and the `postgres://` URL rewrite: environment set-up. The tables are in-memory sequences.
- Password hashing with werkzeug: abstract `hash` and `check`, without salting; only `check(hash(p), p)` is assumed of them.
- Clock reads (`datetime.utcnow`) become a `Timestamp` parameter; `isoformat` serialisation is not modelled.
- The repeated seeding under `__main__` and `app.run`: start-up code; seeding is modelled once, as `InitDb`.
- Concurrent requests: one request at a time.
- Accounts.AppState.Register: column length limits (`String(120)`, `String(200)`) are not modelled; a database that enforces them would reject over-long names, emails or positions, which the model accepts.
- Accounts.AppState.InitDb: the `print` confirming initialisation is a logging effect and is dropped.
- Accounts.AppState.InitDb: project and resource ids of seeded rows are fixed to 1, 2, 3, as the database assigns them to an empty table.
- Utilization.UtilizationStats: the mean is computed exactly, while the source divides in floating point; for sums beyond 2^53 the float may round differently. A NULL availability (the column is nullable) is not modelled; every availability is an integer.
