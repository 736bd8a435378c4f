# Spending backend: permission check, document queries, audio record builder

This project models three parts of an Express/Vercel expense backend and
proves properties about them.

- **The role-scoped permission middleware** (`middleware/auth.js`).
  `requirePermission(resource, action, scope)` looks up the caller's role in
  the company. It reads `permissions[resource][action]` from the role's JSON
  permission table and compares the requested scope with the resource's
  configured scope. Then it either sends exactly one error reply or calls
  `next` exactly once.
  - `Auth.Decide` is the decision as a total function.
  - `Auth.PermissionGuard.Handle` is the middleware as an imperative method
    over request, response and `next` objects, proved against `Decide`.
  - `requireSuperAdmin` and `requireAdminAzienda` are guards for fixed pairs.
  - `getUserPermissions` returns a role and its permissions, or a fallback.
- **The document queries** (`db.js`). `addSpesa`, `updateSpesa`,
  `deleteSpesa` and `saveDocumento` are pure builders of a
  `(sql, params)` pair.
  - Today's date is an input.
  - The UPDATE statement is read back by a small parser (`Db.ParseUpdate`).
    For a non-empty record whose keys are plain identifiers, this proves
    that every `$k` placeholder binds the value it is meant to.
  - An empty record gives `UPDATE documents SET  WHERE numero_fattura = $1`,
    with nothing to set. SQL rejects this statement, and so does the parser
    (`Db.EmptyUpdateIsRejected`). The code does not guard against it.
- **The audio upload handler** (`api/upload-audio.js`). It checks the method,
  then builds the `spesa` record: split on commas, trim, take per-field
  defaults, strip non-numeric characters, then `parseFloat(...) || 0`.
  - The transcript is a parameter. The source uses one fixed simulated text,
    whose record is proved as a lemma.
  - `parseFloat` returns an exact decimal (mantissa and scale), not a double.

Supporting modules:

- `Js`: JavaScript values (JSON-like, with objects as ordered property
  lists), truthiness and property access.
- `Text`: `trim`, `split`, `join` and decimal rendering of naturals.
- `ParseFloat`: `parseFloat` on strings of digits and dots, which are the
  only strings the handler passes to it.

Choices worth knowing about:

- **The scope rule follows the code.** One could read the scopes as a
  breadth order (own < company < global, where a broader role scope covers a
  narrower request). The code does not do that. It admits a mismatch only in
  two cases: `own` asked of a `company` role, and `company` asked of a
  `global` role. So a `global` role asked for `own` is refused.
  `Auth.ScopeRuleAgainstBreadth` proves that this is the only request the
  breadth order would admit and the code refuses.
- **The role is stored before the permission check.**
  `req.userRole` and `req.userPermissions` are assigned before
  `permissions[resource]` is read, so they are also set when the reply is a
  403 or a 500.
- **The upload handler stores almost nothing.** Its record has the keys
  `data`, `prodotto`, `luogo`, `importo`, `quantita`, `unita_misura` and
  `audio_url`. `addSpesa` reads `numero_fattura` … `utente_id`, and only
  `importo` is in both lists. So the INSERT binds `$3` to the amount and
  every other placeholder to `undefined`.
  `UploadAudio.StoredRecordBindsOnlyAmount` proves this.
- **A null permission table gives 500, not 403.** It reaches the catch
  block, because `null[resource]` throws.
- **A truthy non-string `data_fattura` makes `saveDocumento` fail.** Calling
  `.trim()` on it throws.
- **`updateSpesa` with an empty record issues an invalid statement.** The
  SET list is then empty; the database rejects the statement and the
  returned promise rejects.

## Model

| member | source | states |
|---|---|---|
| Auth.Decide | middleware/auth.js:14-61 | 401 exactly when the user id is falsy; 500 when the role query fails; 403 "not a member" exactly when it returns no row. A decision reached after the row carries the first row. 500 exactly when the permission table is null/undefined. A permission denial means `permissions[resource][action]` is not truthy. A scope denial means the permission holds, a scope was asked for, and the resource's scope does not admit it. The check passes exactly when the permission holds and the scope admits the request |
| Auth.FirstRow | middleware/auth.js:28-32 | the first row exists exactly when the query succeeded with at least one row, and it is `rows[0]` |
| Auth.UnauthenticatedIgnoresRoles | middleware/auth.js:16-18 | with a falsy user id the outcome is 401, and it is the same whatever the role tables hold |
| Auth.NonMemberReply | middleware/auth.js:28-30 | a user with no membership row gets 403 "not authorised for this company", which is distinct from the permission-denied reply |
| Auth.MissingPermissionDeniesAnyScope | middleware/auth.js:37-43 | a missing resource entry or a falsy action flag is a permission denial carrying the row, whatever scope is requested |
| Auth.NoMismatchNoScopeDenial | middleware/auth.js:46 | no requested scope, an empty one, an unset role scope, or equal scopes always pass the scope check |
| Auth.ScopeMismatchTable | middleware/auth.js:46-57 | between two different non-empty scope names, the check passes exactly for (own, company) and (company, global) |
| Auth.ScopeOnlyRestricts | middleware/auth.js:46-58 | a check that passes with a scope also passes without one; without a scope there is never a scope denial; leaving aside scope denials, the outcome is the same as without a scope |
| Auth.ScopeRuleAgainstBreadth | middleware/auth.js:46-57 | on own/company/global, every pair the code admits is admitted by the breadth order; the only breadth-admitted pair the code refuses is own asked of global |
| Auth.ReplyFor | middleware/auth.js:16-66 | status 401 exactly for unauthenticated; 500 exactly for a query failure or an unreadable table; 403 exactly for a non-member, a permission denial or a scope denial; the role's name is in the reply exactly for the last two, and it is the row's name; each decision carries its own error text, the permission denial naming the action and resource and the scope denial naming the requested and available scopes |
| Auth.GetUserPermissions | middleware/auth.js:87-108 | the first row's name and permissions, or `{ role: 'none', permissions: {} }` when there is no row or the query fails |
| Auth.GetUserPermissionsAgreesWithDecide | middleware/auth.js:87-108 | when the middleware read a role row, `getUserPermissions` returns that row's role and permissions; for a non-member or a failed query it returns the fallback |
| Auth.SuperAdminMeansCompaniesCreate | middleware/auth.js:73-75 | `requireSuperAdmin` lets through exactly the authenticated members whose role grants `companies.create`, and never refuses on scope |
| Auth.AdminAziendaMeansAssignRoles | middleware/auth.js:80-82 | `requireAdminAzienda` lets through exactly the authenticated members whose role grants `users.assign_roles`, and never refuses on scope |
| Auth.PermissionGuard.constructor | middleware/auth.js:11-12 | the guard keeps the resource, action and scope it was made with |
| Auth.PermissionGuard.Handle | middleware/auth.js:12-67 | `next` is called once exactly when `Decide` allows, and otherwise the one reply `ReplyFor` gives is sent; exactly one of the two happens. `userRole` and `userPermissions` are set to the row's values exactly when the row was read, and nothing else about the request changes |
| Auth.RequireSuperAdmin | middleware/auth.js:73-75 | behaves as the guard for (`companies`, `create`, no scope) |
| Auth.RequireAdminAzienda | middleware/auth.js:80-82 | behaves as the guard for (`users`, `assign_roles`, no scope) |
| Js.Get | middleware/auth.js:37-38 | a property read gives the value of an entry with that key, or `undefined` when no entry has it; the first entry wins |
| Js.Member | middleware/auth.js:37-46 | reading from a readable non-object gives `undefined`; reading from an object looks up its entries |
| Js.Keys | db.js:52 | `Object.keys`: one key per entry, in entry order |
| Js.Values | db.js:53 | `Object.values`: one value per entry, in the same order as the keys |
| Text.Trim | db.js:84 | `trim()` is an infix of its input, starting where the leading whitespace ends |
| Text.TrimDropsOnlyWhitespace | api/upload-audio.js:32 | what `trim()` drops at either end is whitespace, and what it keeps neither starts nor ends with whitespace |
| Text.TrimIdempotent | api/upload-audio.js:37-38 | trimming twice is trimming once |
| Text.TrimEmptyIffBlank | db.js:84 | `trim() !== ''` fails exactly for strings made only of whitespace |
| Text.TrimKeepsAbsent | api/upload-audio.js:37-38 | trimming never introduces a character, so a trimmed piece of a comma split contains no comma |
| Text.Join | db.js:55 | `join(sep)` of no parts is empty and of one part is that part; as the inverse of `split` it is characterised by `Text.Split` and `Text.SplitJoin` |
| Text.Split | api/upload-audio.js:29 | `split(',')` always gives at least one piece, no piece contains the separator, and joining the pieces with the separator gives the input back |
| Text.SplitJoin | api/upload-audio.js:29 | splitting a join of separator-free pieces gives exactly those pieces |
| Text.NatToString | db.js:55-56 | a placeholder number renders as a non-empty run of digits with no leading zero |
| Text.NatToStringRoundTrip | db.js:55-56 | reading back the digits of a rendered number gives the number |
| Text.NatToStringInjective | db.js:55-56 | different numbers render differently, so different placeholders are never confused |
| ParseFloat.Parse | api/upload-audio.js:33 | on a string of digits and dots (all the handler passes it), `parseFloat` reads the longest prefix that is a decimal literal and returns its exact value; it is NaN exactly when no non-empty prefix is a literal |
| ParseFloat.NumberOrZero | api/upload-audio.js:33 | on a string of digits and dots, `parseFloat(s)` with the or-zero fallback is never negative, and is 0 exactly when nothing parses or the parsed value is zero |
| Db.ColumnValues | db.js:14-27 | the destructuring reads twelve values, the `i`-th being the record's value for the `i`-th insert column, `undefined` when it lacks that column |
| Db.AddSpesa | db.js:13-48 | the fixed INSERT with twelve parameters; parameter `i` is the record's value for the `i`-th column, or `undefined` when the record lacks that column |
| Db.DeleteSpesa | db.js:62-64 | one parameter, the id; the statement is a DELETE on `documents` whose WHERE placeholder reads back as `$1`, the number of parameters |
| Db.Assignments | db.js:55 | `fields.map((f, i) => ...)` gives one assignment per key, the `i`-th setting key `i` to the placeholder numbered from the start plus `i` |
| Db.UpdateSpesa | db.js:51-59 | one parameter per record entry, in key order, then the id last |
| Db.UpdateSpesaBindsEachColumn | db.js:51-59 | for a non-empty record whose keys are plain column names, the statement reads back (with `Db.ParseUpdate`) as: each key assigned a placeholder in range that stands for that key's value, and the WHERE placeholder in range and standing for the id |
| Db.UpdateSpesaParses | db.js:55-56 | for a non-empty record whose keys are plain identifiers, the statement reads back as each key numbered `i + 1`, followed by the WHERE placeholder `n + 1` |
| Db.EmptyUpdateIsRejected | db.js:51-59 | an empty record gives `UPDATE documents SET ` followed directly by ` WHERE numero_fattura = $1`, with the id as the one parameter; the parser, like SQL, rejects it |
| Db.ParseRenderedSetList | db.js:55-56 | the joined assignments followed by the WHERE condition read back as their columns and numbers |
| Db.SafeDataFattura | db.js:84 | it throws exactly for a truthy non-string; it keeps a string that is not blank, and otherwise gives today's date |
| Db.SaveDocumento | db.js:67-106 | it fails exactly when `data_fattura` is a truthy non-string. Otherwise it is the same INSERT as `addSpesa`, with every column other than the date bound to the document's value |
| Db.SaveDocumentoIsAddSpesaWithFallback | db.js:84-103 | with a non-blank string date `saveDocumento` issues exactly what `addSpesa` issues; with a falsy or blank date it issues the same statement with `$2` bound to today's date |
| UploadAudio.StripNonNumeric | api/upload-audio.js:33 | `replace(/[^\d.]/g, '')` keeps only digits and dots and never lengthens its input |
| UploadAudio.StripKeepsExactlyNumeric | api/upload-audio.js:33 | a character is in the result exactly when it is in the input and is a digit or a dot |
| UploadAudio.StripConcat | api/upload-audio.js:33 | stripping a concatenation strips each part, so the kept characters stay in input order |
| UploadAudio.StripIdempotent | api/upload-audio.js:33 | stripping twice is stripping once |
| UploadAudio.Amount | api/upload-audio.js:33 | the amount is never negative; a missing fourth piece gives 0; otherwise it is the parsed value of the stripped piece, and 0 exactly when nothing parses or the value is zero |
| UploadAudio.Piece | api/upload-audio.js:29 | array destructuring gives the `i`-th piece, or `undefined` past the end |
| UploadAudio.TrimmedOr | api/upload-audio.js:31-38 | `p?.trim()` with its fallback: the trimmed piece when it is present and not blank, otherwise the fallback |
| UploadAudio.BuildSpesa | api/upload-audio.js:29-43 | whatever the transcript: the amount is never negative; `quantita` and `unita_misura` are null and `audio_url` is empty; product and place are never empty and contain no comma; the date is not empty when today is not empty |
| UploadAudio.PiecesToRecord | api/upload-audio.js:29-43 | for any number of comma-free pieces: date, product and place are the trimmed first three pieces, or today, `Prodotto` and `Luogo` when a piece is blank or missing; the amount is read from the fourth piece, and is 0 with fewer than four; quantity and unit are null and the audio URL empty |
| UploadAudio.FourPieces | api/upload-audio.js:29-38 | for four or more comma-free pieces: the date, product and place are the trimmed first three pieces, or today, `Prodotto` and `Luogo` when blank; the amount is read from the fourth; later pieces are ignored; the date stays text |
| UploadAudio.NoCommaDefaults | api/upload-audio.js:29-38 | a transcript without commas is all date; product, place and amount take their defaults |
| UploadAudio.SimulatedTranscriptRecord | api/upload-audio.js:28-43 | the handler's own transcript gives `{ data: "12 giugno", prodotto: "pizza", luogo: "Milano", importo: 11 }`, with `quantita` and `unita_misura` null and `audio_url` empty |
| UploadAudio.SpesaObject | api/upload-audio.js:35-43 | the record as an object has the keys of the literal, in its order |
| UploadAudio.Handler | api/upload-audio.js:16-51 | a method other than POST gives 405 with no insert. A failed upload gives 500 with no insert. Otherwise the built record goes to `addSpesa`: 200 with the record when the insert succeeds, 500 when it throws |
| UploadAudio.StoredRecordBindsOnlyAmount | api/upload-audio.js:35-46 | the INSERT issued for the record binds `$3` to the amount and every other placeholder to `undefined` |

## Left out

- Database access is not executed. The role query is a function from (user, company) to rows, or to a failure.
- `db.js` statements are produced as `(sql, params)` pairs and never run.
- `getAllSpese` is a fixed parameterless SELECT whose rows come from the database, so there is nothing to model beyond the constant.
- `testDB` only logs.
- `console` logging is not modelled.
- The clock is an input: `new Date().toISOString().split("T")[0]` is the `today` parameter.
- The multer upload is reduced to a flag saying whether it failed.
- Transcription is reduced to the transcript text.
- A rejected `addSpesa` is reduced to a flag.
- Async ordering is not modelled: each `await` is one sequential call.
- JSON serialisation of replies is not modelled.
- Other exceptions in the middleware reach the 500 reply but are not modelled. The model covers the query failure and `null`/`undefined` permissions.
- `api/index.js`, `pg.js` and `server.js` are not part of this model.
- Numbers are exact reals: IEEE doubles, rounding and NaN as a stored value are not modelled.
- `parseFloat` is modelled only on strings of digits and dots. Signs, exponents, `Infinity` and leading whitespace cannot occur after the strip.
- JavaScript objects are ordered property lists. `Object.keys` ordering of integer-like keys is not modelled.
- JSON arrays are not modelled.
- Property reads on a non-object primitive give `undefined`. This misses, for example, the `length` or index properties of a string used as a permission entry.
- Js.Get: property reads see own properties only. Properties inherited from `Object.prototype` are not modelled. So a resource or action named `constructor`, `toString`, `valueOf` or the like, which the code finds truthy on any object, reads as `undefined` and is refused in the model. No caller in the source passes such a name.
- Js.Get: an object may list a key twice, which no JavaScript object does. `Get` then answers from the first entry while `Keys` and `Values` list every entry. Values built from JSON or object literals carry each key once.
- `req.method` is a string; an absent method is not modelled.
- The role name is modelled as a string; other JSON values in the name column are not.
- Db.AddSpesa: `InsertSql` is built from the column list and placeholders `$1 .. $12` in the source's 5/5/2 layout. Equality with the source's literal, character for character, is not proved.
- Db.UpdateSpesaBindsEachColumn, Db.UpdateSpesaParses: proved only for non-empty records whose keys are plain identifiers. The code splices any key into the statement; what other keys do to the statement is not characterised. `Db.EmptyUpdateIsRejected` covers the empty record.
- Db.ParseUpdate: accepts any identifier not starting with a digit as a column name, reserved words included; SQL keyword rules are not modelled.
- Db.AddSpesa, Db.UpdateSpesa, Db.SaveDocumento: the record is always an object. In the code, destructuring `null` or `undefined` (and `Object.keys` of either) throws a TypeError, so the call rejects before any query; this error path is not modelled. It matters for `saveDocumento`, whose argument is unchecked `JSON.parse` output.
