# Authentication helpers of the Divisadero API, modelled in Dafny

The API backend authenticates callers and decides their access to an organisation in
`backend/auth_utils.py`. This project models the two parts of that file that hold logic:

- **Bearer-token reading** (`get_current_user`), in module `BearerAuth`. The header must be
  present and start with `"Bearer "`. The token is the second field of the header split on single
  spaces. It must have exactly three `.`-separated parts. The middle part is padded with `=`,
  base64url-decoded and parsed as JSON, and `sub`, `email` and `user_metadata` are read from the
  claims. Every failure is an HTTP 401. Its detail is one of three fixed messages, or
  `"Token validation failed: "` followed by the message of an exception that is not an
  `HTTPException`. The JWT
  signature is never checked, and nothing here claims that it is.
- **The org/profile permission decision** (`check_user_permission`), in module `OrgPermission`.
  The `orgs` and `profiles` tables are two maps held by the class `PermissionTables`. The check
  creates a missing org and creates a missing profile bound to that org. It then returns
  `(has_permission, org_id)`, and it may bind a profile that has no org to this one. Every
  database call can fail; a `Faults` value says which calls do. The method is proved equal to the
  specification function `Decide`, and the lemmas state what the check promises.

Supporting modules:
- `PyText` gives Python's `str.split` with a one-character separator, `str.join`,
  `startswith` and `ch * n`. Splitting is characterised by its inverse, `Join`.
- `Json` gives the values `json.loads` returns, with Python truthiness and `dict.get`.
- `Wrappers` gives `Option` and `Result`.

`get_current_user` decodes the token's payload locally. It does not ask the identity provider
who owns the token, and it checks no signature.

## Model

| member | source | states |
|---|---|---|
| `Json.Truthy` | backend/auth_utils.py:51 | Python truthiness: a JSON value is falsy exactly when it is None, False, 0, 0.0, `""`, `[]` or `{}` |
| `Json.Get` | backend/auth_utils.py:47-49 | `dict.get(key, default)`: the key's value when the key is present, and otherwise the default |
| `PyText.Split` | backend/auth_utils.py:37 | `str.split(sep)`: one field more than there are separators in the string, and no field holds the separator |
| `PyText.JoinSplit` | backend/auth_utils.py:37 | joining the fields of a split with the separator gives back the string |
| `PyText.SplitJoin` | backend/auth_utils.py:37 | splitting the join of separator-free fields gives back the fields; together with `JoinSplit`, this fully determines `Split` |
| `Json.TypeName` | backend/auth_utils.py:47 | Python's `type(value).__name__` for a parsed JSON value, as quoted in the `AttributeError` of `.get`: non-empty, `dict` exactly for objects, `NoneType` exactly for null |
| `PyText.StartsWith` | backend/auth_utils.py:22 | `str.startswith`: the string is at least as long as the prefix and agrees with it at every position of the prefix |
| `PyText.Repeat` | backend/auth_utils.py:43 | `'=' * n` has length `n` and holds only that character |
| `BearerAuth.PadPayload` | backend/auth_utils.py:42-43 | the padded payload keeps the payload as its prefix, adds only `=`, has a length that is a multiple of 4, and is 1 to 4 characters longer (4 when the payload was already aligned) |
| `BearerAuth.HasBearerPrefix` | backend/auth_utils.py:22 | the header guard holds exactly when the header is present and starts with `"Bearer "`; the emptiness test adds nothing |
| `BearerAuth.Token` | backend/auth_utils.py:28 | `authorization.split(" ")[1]` is the space-free run that starts right after `"Bearer "` and ends at the next space or at the end of the header |
| `BearerAuth.DoubleSpaceGivesEmptyToken` | backend/auth_utils.py:28 | a header that starts with `"Bearer  "` (two spaces) yields the empty token |
| `BearerAuth.NoGetMessage` | backend/auth_utils.py:47 | the message of the `AttributeError` raised by `.get` on a JSON value that is not an object: the value's Python type name in quotes, then `object has no attribute 'get'` |
| `BearerAuth.UserOf` | backend/auth_utils.py:47-58 | the returned user holds the `sub`, `email` and `user_metadata` claims; a missing `sub` or `email` gives None, a missing `user_metadata` gives `{}` |
| `BearerAuth.ParseToken` | backend/auth_utils.py:30-58 | the `try` body: the only `HTTPException`s it raises are 401 "Invalid token format" and 401 "Invalid token: no user ID", and a user it returns has a truthy id |
| `BearerAuth.Rewrap` | backend/auth_utils.py:60-63 | an `HTTPException` passes through unchanged; any other exception becomes a 401 whose detail is `"Token validation failed: "` followed by the exception's message |
| `BearerAuth.GetCurrentUser` | backend/auth_utils.py:14-63 | every failure is a 401 with one of the known details; the failure is "Missing or invalid authorization header" exactly when the header is absent, empty or lacks the `"Bearer "` prefix; a returned user has a truthy id |
| `BearerAuth.HeaderCheckedFirst` | backend/auth_utils.py:22-26 | a missing or non-Bearer header is rejected whatever the decoder would do |
| `BearerAuth.TokenFormatError` | backend/auth_utils.py:37-39 | once the prefix is accepted, the result is 401 "Invalid token format" exactly when the token does not hold exactly two dots |
| `BearerAuth.ClaimExtraction` | backend/auth_utils.py:47-58 | for a claims object, success holds exactly when `sub` is present and truthy; the user is `sub`, `email` (default None) and `user_metadata` (default `{}`); otherwise the result is 401 "Invalid token: no user ID" |
| `BearerAuth.OtherExceptionsWrapped` | backend/auth_utils.py:60-63 | a decoding or parsing error, or JSON that is not an object, becomes 401 with detail "Token validation failed: " followed by the exception's message |
| `BearerAuth.SignatureIgnored` | backend/auth_utils.py:36-45 | two three-part tokens whose payloads decode alike give the same result, whatever their JWT header and signature parts hold |
| `OrgPermission.Decide` | backend/auth_utils.py:89-215 | a denial never names an org; a returned org id is the slug's id in the resulting tables; `orgs` only gains the requested slug, only when it was missing, with the id the insert returned; no profile but the user's changes; a created profile is activated, not a superuser, and bound to the returned org; an existing profile keeps its flags, and its org changes only from falsy to the org |
| `OrgPermission.Falsy` | backend/auth_utils.py:186 | `not user_org_id`: a profile's org is falsy exactly when it is None or 0 |
| `OrgPermission.NewProfile` | backend/auth_utils.py:156-161 | the inserted profile is bound to the org, activated and not a superuser; it still counts as unbound exactly when the org id is 0 |
| `OrgPermission.DecideForProfile` | backend/auth_utils.py:140-209 | once the org id is known, the check never writes `orgs` and writes no profile but the user's; it answers with no org or with this org, and with this org whenever it grants without `require_superuser` |
| `OrgPermission.PermissionTables.CheckUserPermission` | backend/auth_utils.py:89-215 | the method that updates the two tables in place returns the pair and leaves the tables exactly as `Decide` says for the tables before the call |
| `OrgPermission.EarlyFailureDenies` | backend/auth_utils.py:103-114 | if getting the client or selecting the org fails, the result is `(False, None)` and neither table changes |
| `OrgPermission.MissingOrgIsCreated` | backend/auth_utils.py:116-134 | a missing slug is inserted and bound to the returned id, which is the id used afterwards; an insert that raises or returns no row gives `(False, None)` and no change |
| `OrgPermission.ProfileSelectFailureDenies` | backend/auth_utils.py:142-149 | a failed profile select gives `(False, None)` and leaves the profiles unchanged |
| `OrgPermission.NewProfileIsCreated` | backend/auth_utils.py:151-168 | a user without a profile gets exactly one new profile (activated, not a superuser, bound to the org) and `(True, org_id)`; a failed insert gives `(False, None)` and no profile |
| `OrgPermission.RequireSuperuserReportsFlag` | backend/auth_utils.py:174-175 | with `require_superuser`, an existing profile gets `(is_superuser, None)` and no profile is written |
| `OrgPermission.ExistingProfileIsGranted` | backend/auth_utils.py:177-209 | without `require_superuser`, every existing profile gets `(True, org_id)`: a superuser, a profile without an org (even if the update fails), a member, and a member of another org |
| `OrgPermission.UnboundProfileIsAdopted` | backend/auth_utils.py:183-199 | a non-superuser profile with a falsy `org_id` (None or 0) is bound to the org unless the update fails; every other existing profile is left as it was |
| `OrgPermission.RepeatedCheckIsStable` | backend/auth_utils.py:116-209 | without `require_superuser` and with no failing call, repeating the check gives the same pair and writes nothing more |
| `OrgPermission.FreshProfileBypassesSuperuserRequirement` | backend/auth_utils.py:151-175 | a user with no profile is granted the org even under `require_superuser`, though the created profile is not a superuser's; the same check repeated then gives `(False, None)` |

## Left out

- `backend/database.py`: reading settings from the environment and creating the database clients. Obtaining the client is modelled only as a call that may fail (`Faults.clientFails`).
- `backend/main.py` and `main.py`: the web application setup, CORS settings and the constant `/` and `/health` answers. They hold no logic.
- `get_current_user_from_session` (backend/auth_utils.py:66-86): it hands the token to the identity provider's `auth.get_user`, which is not part of this model.
- Base64url decoding and JSON parsing (backend/auth_utils.py:44-45) are library calls. They are one abstract `Decoder` parameter that returns the parsed value or the exception's message. Those messages are not modelled.
- JSON `NaN` and `Infinity` (which Python's parser accepts) have no counterpart in `Json.JFloat`, which holds a real number.
- JWT signature verification: the source performs none. The `jwt` import and `SUPABASE_JWT_SECRET` (backend/auth_utils.py:7, 11) are unused.
- Logging (`print`, `traceback`), `async`, and the framework's `Header` injection are left out. The header is a plain `Option<string>` argument.
- The database query builder is replaced by the two maps. A select returns at most one row because slugs and profile ids are unique keys.
- The database assigns the id of a new org. Here that id is an input: the `InsertReturns` value of `Faults.orgInsert`.
- An org insert that raises or returns no row is modelled as writing nothing.
- A failed profile insert or update is modelled as writing nothing.
- User ids are strings. The source reads `user["id"]`, which comes from `get_current_user` and is always present, so the `KeyError` path of a user record without `id` is not modelled.
- Profile columns are typed. `is_superuser` is a boolean that is always present, so the default in `profile.get("is_superuser", False)` is never used. `org_id` is an optional integer.
- Concurrent checks on the same tables are not modelled: each check runs alone.
