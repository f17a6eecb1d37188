# Cutlery requirement service: requirement store, user store and request lookup

This project models the core of a small FastAPI backend that keeps
cutlery-customisation "requirement" records for authenticated users. The
records live in a module-level list that the handlers change in place:

- `create` appends a record whose id is the list length plus one;
- `update` overwrites a record's fields but keeps its id and its owner;
- `delete` removes a record and renumbers the remaining ones 1..N.

The handlers check their input as follows:

- create and update validate the metal, handle and cutlery type against
  three reference lists;
- get, update and delete let only the record's owner or an admin through;
- listing shows a non-admin only their own records.

The image URL is not a check: create and update derive it from the
(metal, handle, cutlery type) triple through a fixed table.

Beside the requirement store the project models:

- the user store: the credential scan, token claims, resolving a token's
  `id` claim back to a user, and registration;
- the read-only request listing, with its first-match lookup by id.

Layout, one module per source file plus two shared ones:

- `http.dfy`, module `Http`: `Option`, `Result`, `Outcome`, and the HTTP
  errors. Each error carries the detail text it is raised with, so the order
  in which checks fire can be seen in the model.
- `search.dfy`, module `Search`: the first-match scan behind every
  `next(...)` and every early-return loop.
- `requirements.dfy`, module `Requirements`: `routes/requirements.py`. Pure
  decision functions say what each handler returns. The class
  `RequirementStore` holds the list as a `seq<Req>`; its methods append,
  overwrite in place, remove and renumber, and their postconditions tie the
  new list to those functions.
- `auth.dfy`, module `Auth`: `routes/auth.py`. The class `UserStore` holds
  `users_data`.
- `requests.dfy`, module `Requests`: `routes/requests.py`.

Foreign calls are inputs to the model:

- `bcrypt.verify` is the function parameter `verify`;
- `bcrypt.hash(password)` is the input `passwordHash`;
- `jwt.decode` is an input `Option<Claims>`, where `None` means decoding
  failed; the token `jwt.encode` produces is represented by its claim set;
- each partner HTTP call is its status code, and the token call also supplies
  the `access_token` it returned.

Requirement ids are dense (1..N) after every delete, and `create` keeps them
dense. This is why the id rule `len + 1` does not collide with an existing
id, provided the loaded file starts dense. User ids are assigned the same
way, and `Auth.DenseIdsUnique` plus `Auth.IssuedTokenResolves` show what
follows from that: a token issued at login resolves back to the same user.

Two behaviours differ from the usual REST conventions; the model follows the
code:

- `delete` answers 403, not 404, for a missing id;
- `update` validates the payload before it looks the id up, so a bad choice
  gives 422 even for an unknown id.

## Model

| member | source | states |
|---|---|---|
| Search.FirstIndex | routes/requirements.py:48 | the index of the first element satisfying the predicate: it satisfies it, no earlier one does, and None exactly when none does |
| Requirements.GetImageUrl | routes/requirements.py:213-234 | a URL is returned for exactly the 12 triples {Silver, Stainless Steel} x {Plastic, Wood} x {Spoon, Fork, Knife}, and it is that triple's table entry; every other triple gives None |
| Requirements.ValidateInput | routes/requirements.py:206-211 | passes iff the value equals the `name` of some entry of the list; otherwise fails with 422 "<field> not found in the list" |
| Requirements.ValidateChoices | routes/requirements.py:141-143 | passes iff all three choices are listed; otherwise the 422 names the first failing field in the order handle, metal, cutlery_type |
| Requirements.Find | routes/requirements.py:145 | the position of the first record with that id, and None iff no record has it |
| Requirements.OwnedBy | routes/requirements.py:42 | the filter keeps only records of that username, and they come from the list |
| Requirements.OwnedByConcat | routes/requirements.py:42 | filtering a concatenation is the concatenation of the filtered parts, so storage order is kept |
| Requirements.OwnedByComplete | routes/requirements.py:42 | every record the user owns is in the filtered list |
| Requirements.OwnedByAllOwned | routes/requirements.py:42 | a list the user owns entirely is returned whole |
| Requirements.RetrieveAllRequirements | routes/requirements.py:35-43 | an admin gets the whole list; a non-admin gets only records whose owner is them, never another user's, and all of their own |
| Requirements.RetrieveRequirement | routes/requirements.py:45-55 | the intended lookup: returns the first record with the id only to its owner or an admin; a non-admin gets 404 for a missing id and for another user's record alike; an admin asking for a missing id gets a 500 |
| Requirements.RetrieveRequirementAsWritten | routes/requirements.py:48-55 | the code as written: the same as the intended lookup for an admin and for a missing id; a non-admin asking for any id that exists gets a 500 |
| Requirements.OwnRecordAsWritten | routes/requirements.py:49 | an owner asking for their own record gets it from the intended lookup and a 500 from the code as written |
| Requirements.NewRequirement | routes/requirements.py:67-121 | a missing role-shaped payload gives 422 before any validation; an invalid choice gives the 422 of `ValidateChoices`; otherwise the record has id count+1, the owner is the admin payload's username for an admin and the caller's own for anyone else, payload fields are copied, and `image_url` is `GetImageUrl` of the triple |
| Requirements.RequirementStore.Create | routes/requirements.py:123 | on success the new record is appended at the end and earlier records are untouched; on error the list is unchanged; ids 1..N before become 1..N+1 after |
| Requirements.Edited | routes/requirements.py:159-166 | the edited record keeps its id and owner, takes the payload's metal, handle, cutlery type and quantity, and gets the image URL of the new triple |
| Requirements.UpdateTarget | routes/requirements.py:141-157 | an invalid choice gives 422 even for an unknown id; then an unknown id gives 404; then a caller who is neither owner nor admin gets 403; otherwise the first record with that id is the target |
| Requirements.RequirementStore.Update | routes/requirements.py:135-173 | on error the list is unchanged; on success only the target position changes, to `Edited` of the old record, the length stays, dense ids stay dense, and the edited record is returned |
| Requirements.DeleteTarget | routes/requirements.py:183-189 | a missing id and a caller who is neither owner nor admin both give 403; otherwise the first record with that id is the target |
| Requirements.RemoveFirst | routes/requirements.py:191 | `list.remove`: the first element equal to the value is the one removed, and the others keep their order; a list that lacks the value is left alone |
| Requirements.RemoveFirstFound | routes/requirements.py:183-191 | removing the record found by id removes exactly that position |
| Requirements.Renumbered | routes/requirements.py:236-238 | same length, ids 1..N by position, every other field unchanged |
| Requirements.AfterDelete | routes/requirements.py:191-192 | one record fewer, ids 1..N-1, survivors in their old relative order with their other fields unchanged |
| Requirements.RequirementStore.Delete | routes/requirements.py:178-201 | on error the list is unchanged; on success the list is `AfterDelete` of the old list at the target position, and the confirmation message is returned |
| Requirements.RequirementStore.ReassignIds | routes/requirements.py:236-238 | the loop leaves exactly `Renumbered` of the old list |
| Requirements.RequirementStore.constructor | routes/requirements.py:13-16 | the store starts with the loaded records and reference lists |
| Auth.Authenticate | routes/auth.py:28-32 | the first user in list order whose username matches and whose hash verifies the password; None iff no user qualifies |
| Auth.GenerateToken | routes/auth.py:46-57 | 401 iff no user qualifies; otherwise token type "bearer" and exactly the claims `sub` = the username and `id` = the id of the first qualifying user, the one `Authenticate` returns |
| Auth.CurrentUser | routes/auth.py:60-75 | the intended resolution: 401 "Invalid token" when decoding fails; otherwise the first user whose id equals the `id` claim, and 401 "Invalid user" iff there is none |
| Auth.CurrentUserAsWritten | routes/auth.py:60-75 | the code as written: the same user whenever the intended resolution finds one, and a 500 on both paths where 401 is intended |
| Auth.UndecodableTokenAsWritten | routes/auth.py:71-75 | an undecodable token gives a 500 as written and a 401 "Invalid token" as intended |
| Auth.IssuedTokenResolves | routes/auth.py:54-64 | with unique user ids, the claims issued at login resolve back to the user that logged in |
| Auth.DenseIdsUnique | routes/auth.py:86 | ids 1..N by position are unique |
| Auth.NewUser | routes/auth.py:84-108 | succeeds iff both partner calls return 200, whatever users already exist, duplicate names included; a failed call passes its status code through, the registration call checked first; the new user has id count+1, `is_admin` iff the username is exactly "jazmy", and the given hash and partner token |
| Auth.UserStore.Register | routes/auth.py:108-109 | on success exactly one user is appended at the end and existing users are untouched; on a partner error the list is unchanged; dense ids stay dense |
| Auth.UserStore.constructor | routes/auth.py:14-15 | the store starts with the loaded users |
| Requests.RetrieveAllRequests | routes/requests.py:15-17 | the loaded list is returned itself, unchanged |
| Requests.RetrieveRequestAsWritten | routes/requests.py:20-27 | the code as written: the first record with that id, and a NameError for `status` iff there is none |
| Requests.RetrieveRequest | routes/requests.py:20-27 | the intended lookup: the first record, in list order, whose id equals the argument; 404 iff there is none |
| Requests.MissingIdIsNameError | routes/requests.py:24-27 | both versions agree whenever the id is present; for a missing id the code as written answers 500 where 404 is intended |
| Requests.EmptyListLookup | routes/requests.py:24-27 | looking up id 1 in an empty list gives a NameError as written and a 404 as intended |

## Findings

| source | as written | input that shows it | evidently intended | confidence | as-written member | corrected member |
|---|---|---|---|---|---|---|
| routes/requests.py:24-27 | the 404 branch refers to `status.HTTP_404_NOT_FOUND`, but the module imports only `APIRouter` and `HTTPException` from fastapi (line 1), so evaluating it raises a NameError and the client gets a 500 | any id that no request has, e.g. id 1 on an empty list | a 404 "Request with supplied ID does not exist" | high; not executed | Requests.RetrieveRequestAsWritten (with Requests.MissingIdIsNameError, Requests.EmptyListLookup) | Requests.RetrieveRequest |
| routes/auth.py:71 | `except jwt.JWTError` names an attribute the PyJWT module does not have (its errors derive from `PyJWTError`). Any exception leaving the `try` therefore raises AttributeError while the clause is evaluated. That covers a failed decode and also the "Invalid user" 401 raised at lines 66-69. | a token that does not decode, or a valid token whose `id` claim matches no user | 401 "Invalid token" / 401 "Invalid user" | medium, assuming `import jwt` is PyJWT, as its `encode`/`decode(..., algorithms=...)` calls suggest; not executed | Auth.CurrentUserAsWritten (with Auth.UndecodableTokenAsWritten) | Auth.CurrentUser |
| routes/requirements.py:49 | for a non-admin caller with an existing record, the test evaluates `user["username"]`. The caller is the pydantic model `UserJSON` built at routes/auth.py:70, and such a model cannot be indexed, so a TypeError results. | a non-admin asking for the id of their own record | the owner gets the record; anyone else gets 404 | medium, because models/users.py is not part of this model; not executed | Requirements.RetrieveRequirementAsWritten (with Requirements.OwnRecordAsWritten) | Requirements.RetrieveRequirement |

## Left out

- JSON persistence is file I/O and is not modelled. This covers the loads
  (routes/requirements.py:9-16, routes/auth.py:14-15) and the whole-file
  rewrites after every change. As a quirk, the requirement writes go to
  `requirement.json`, not the `data/requirement.json` that is loaded, and
  under the key `requirements` after create and update but `requirement`
  after delete.
- bcrypt, JWT and the partner HTTP API are foreign calls; they are
  parameters or inputs as described above.
- Token signing itself is not modelled: the signing secret, the encoded
  string, and whether a token was forged or tampered with.
- routes/homeDesign.py is a network proxy to the partner service and is not
  part of this model.
- The choice endpoints (`retrieve_all_metals`, `retrieve_all_handles`,
  `retrieve_all_cutlery_types`) only return the loaded reference lists. These
  lists appear solely as the `Catalog` that validation reads.
- Framework wiring is not modelled: routing, dependency injection, pydantic
  coercion of payloads and responses, the login template and main.py.
  "Payload missing" is modelled as an `Option` argument.
- The user and admin payload shapes (`ReqInUser`, `ReqInAdmin`) are not
  defined in the model files present. The user payload is modelled as metal,
  handle, cutlery type and quantity; the admin payload adds the owner's
  username. `image_url` is `Option<string>` because unmapped triples store
  None.
- models/users.py is not part of this model. The caller is taken to be a
  pydantic model read by attribute, as every other handler reads it.
  Indexing it at routes/requirements.py:49 fails (see "## Findings").
- Requirements.RequirementStore.Update: when the new triple is not in the
  image table, `image_url` is None. Building the response
  `Requirement(**...)` at routes/requirements.py:173 then fails, because
  models/requirements.py:27 declares `image_url: str`. The record has
  already been changed at that point, and the client gets a 500. The model
  returns the edited record.
- Requirements.RetrieveRequirement: a record whose `image_url` is None fails
  the same conversion at routes/requirements.py:50 (a 500). The model returns
  the record.
- Requirements.RequirementStore.Create: a record whose `image_url` is None is
  appended, but the framework's response check against `Requirement` fails.
  The same happens in the listing whenever such a record is in it. The model
  leaves these framework errors out.
- Requirements.RetrieveRequirement: for an admin asking for a missing id the
  code evaluates `Requirement(**None)`, which raises; the model gives only
  that outcome (an unclassified 500), not its exception type.
- Requirements.RequirementStore.Update: the source's loop over the payload's
  keys is written as one assignment per key, because the keys are fixed by
  the payload model (`id` and `username` never occur among them).
- Concurrency is not modelled: the lists are shared by async handlers with
  no locking, and every operation here is sequential.
- The records are modelled as complete: a stored requirement that lacks
  `id` or `username` (such as a hand-edited file) is outside the model.
  Stored request records keep an optional id, as their model declares.
