# Custom authorization groups for SAS Viya 3.4, modelled in Dafny

The repository maintains "auto-maintained" groups in the SAS Identities service. A definition
file has a header line, then one row per derived group: its name, its id, and the ids of the
input groups. For each row the reconciler does four things:

- it probes the derived group and creates it when it is missing;
- it lists the members of every input group and intersects them;
- it diffs that target against the derived group's current members;
- it issues every addition, then every removal.

The directory client sends each request to the Identities REST API. It caches a bearer token
in a module global and requires one specific status code per operation.

The model has these modules:

- `Outcomes` (outcomes.dfy): the exceptions the core raises, as an `Error` datatype, plus
  `Result` and `Option`.
- `Text` (text.dfy): the Python string operations the parser uses.
  - `file.readlines()` becomes `ReadLines`, with its inverse `Concat`.
  - `str.strip()` becomes `Strip`.
  - `str.split(',')` becomes `Split`, with its inverse `Join`.
- `IdentityService` (identity_service.dfy): the remote service, reduced to a state machine.
  - A `Service` object holds a directory (a map from group id to a set of member ids) and the
    sequence of requests it has received.
  - The status and text of the n-th response come from an oracle, `answer`, which is a
    parameter of the model.
  - A request takes effect only when its status is its verb's success code: 201 for post and
    put, 204 for delete, 200 otherwise. A post creates an empty group, a put adds a member and
    a delete removes one.
  - A successful member listing returns the stored members, in an order the service chooses.
- `RestApiHelper` (rest_api_helper.dfy): the client of custom_auth/rest_api_helper.py, as a
  class `Client`. Its fields are the state the module shares with config.py:
  - the cached token (`config.OATH_TOKEN`);
  - the default request options (`config.DEFAULT_REST_KWARGS`);
  - the audit log that `logger.log` appends to.

  The module also holds the failure discipline of a run: `StopsAtFirstFailure` says that every
  request was accepted, except possibly the last one. That last one raised, and nothing was sent
  after it.
- `RootRestApiHelper` (root_rest_api_helper.dfy): the operation only the root rest_api_helper.py
  has, `get_ldap_group`. Its `create_group`, `get_all_ldap_group_users`,
  `modify_group_membership` and `call_rest_api` are statement for statement those of the
  custom_auth client, so `RestApiHelper.Client` models both. In the root file these are:
  - `CreateGroup` at rest_api_helper.py:18-23;
  - `GetAllLdapGroupUsers` at rest_api_helper.py:34-39;
  - `ModifyGroupMembership` at rest_api_helper.py:69-84;
  - `CallRestApi` at rest_api_helper.py:104-117.
- `CustomizeAuthorization` (customize_authorization.dfy): the `main` of
  custom_auth/customize_authorization.py. It has the pure parts (row parsing, the target as an
  intersection, the add/remove plan) and the imperative loops over rows, inputs and users, proved
  against them.
- `RootCustomizeAuthorization` (root_customize_authorization.dfy): the `main` of the root
  customize_authorization.py. It unpacks a row by indexing, so a short row raises `IndexError`
  instead of `ValueError`, and otherwise reuses the per-row reconciliation.

The root customize_authorization.py:3 imports `check_ldap_group_existence` from its own
rest_api_helper.py, which does not define it. So the root reconciler is modelled against the
custom_auth client, which does define it.

The main results:

- **One row.** `ReconcileDefinition` proves what one row does when every mutation succeeds:
  - the derived group's membership equals the target;
  - no other group changes;
  - the target is unchanged by the writes, even when the derived group is one of its own inputs.

  On failure it proves the run stopped at the first rejected request, with no rollback. The
  directory is the probed one with exactly the accepted additions and removals applied, and the log
  holds exactly their events. The requests follow the row's script: the probe, the creation or
  listing, one listing per input, all puts, then all deletes.
- **Re-running a row.** `ConvergedRowWritesNothing`, `SecondPassIsNoOp` and `RerunPlanIsEmpty`
  prove that a second pass over a converged row makes no mutation.
- **The whole file.** `Run` and `RunRoot` process the rows in file order. Row i's requests are a
  contiguous segment of the request sequence, and that segment carries row i's full one-row
  guarantee, starting from the directory and log that row i-1 left. The run stops at the first row
  that does not unpack or whose client call raises. Nothing is undone: the final directory and log
  are the ones the last row left.
- **Endpoints.** `PathInjective` proves that distinct routes with plain group ids have distinct
  endpoint strings. So the model can address requests by route without losing anything.

## Model

| member | source | states |
|---|---|---|
| Text.ReadLines | custom_auth/customize_authorization.py:56-58 | the lines concatenate back to the file text; each is non-empty and contains '\n' only as its last character; every line but the last ends in '\n' |
| Text.Strip | custom_auth/customize_authorization.py:61 | the result is the input between its leading and trailing whitespace runs, and its ends are not whitespace; an all-whitespace line strips to "" |
| Text.StripIdempotent | custom_auth/customize_authorization.py:61 | stripping twice is stripping once |
| Text.Split | custom_auth/customize_authorization.py:61 | at least one piece, none containing the separator, and the pieces joined with the separator give the input back |
| Text.SplitJoin | custom_auth/customize_authorization.py:61 | splitting a join of separator-free pieces returns the pieces, so Split and Join are inverse |
| IdentityService.IdSet | custom_auth/customize_authorization.py:76 | the id set of a listing holds exactly the ids of its items, and has no more elements than the listing has items |
| IdentityService.IdSetIgnoresDuplicates | custom_auth/customize_authorization.py:87 | a repeated item does not change the member set |
| IdentityService.IdSetIgnoresOrder | custom_auth/customize_authorization.py:87 | two listings with the same items in any order give the same member set |
| IdentityService.Service.Handle | custom_auth/rest_api_helper.py:145 | the remote stand-in records the request, answers with the oracle's status and text, applies the request's effect only on its success code, and returns the stored members of a successful listing |
| RestApiHelper.Path | custom_auth/rest_api_helper.py:59-96 | every endpoint is "/identities/groups/" followed by the route's resource, built by concatenation |
| RestApiHelper.PathInjective | custom_auth/rest_api_helper.py:59-96 | two routes whose group ids are non-empty and hold no '/' or '?' have equal endpoints only when they are the same route, so the endpoint determines the group, the user or the searched name |
| RestApiHelper.Expect | custom_auth/rest_api_helper.py:43-44 | a response passes exactly when its status is the expected code; otherwise the error carries the response text |
| RestApiHelper.Client.constructor | custom_auth/config.py:19-24 | a fresh client has no token, the default request options and an empty log |
| RestApiHelper.Client.CallRestApi | custom_auth/rest_api_helper.py:132-145 | the token is fetched only when none is cached and is kept afterwards; exactly one request is sent, with the kwargs' headers and body and the cached token as Authorization; every request sent so far carries that token |
| RestApiHelper.Client.CreateGroup | custom_auth/rest_api_helper.py:40-45 | {id, name} is written into the shared defaults and stays there; one post is sent; success exactly on 201, which creates the empty group and appends one creation event; any other status raises the response text and changes neither the directory nor the log |
| RestApiHelper.Client.GetAllLdapGroupUsers | custom_auth/rest_api_helper.py:59-64 | one recursive member listing is sent; success exactly on 200, and then the items' ids are the group's members; any other status raises the response text; directory, defaults and log unchanged |
| RestApiHelper.Client.CheckLdapGroupExistence | custom_auth/rest_api_helper.py:77-81 | one head request is sent; the result is true exactly when the status is 200; nothing raises and nothing else changes |
| RestApiHelper.Client.ModifyGroupMembership | custom_auth/rest_api_helper.py:94-109 | a verb other than put or delete raises before any request and changes nothing; otherwise one request is sent; put succeeds exactly on 201 and delete exactly on 204, which add or remove the user and append one event naming group and user; any other status raises the response text and leaves directory and log unchanged |
| RootRestApiHelper.GroupLookup | rest_api_helper.py:51-57 | anything but 200 raises the response text; on 200 the group is found exactly when the items are non-empty, and then it is the first item; otherwise the result is (None, False) |
| RootRestApiHelper.GroupLookupFirstOnly | rest_api_helper.py:54-55 | two successful answers with the same first item give the same lookup, whatever follows it |
| RootRestApiHelper.GetLdapGroup | rest_api_helper.py:42-57 | one name-prefix search is sent with the cached token; the directory is unchanged; the result is the lookup of that request's answer |
| CustomizeAuthorization.Columns | custom_auth/customize_authorization.py:61 | at least one column, none containing ',', and the columns joined with ',' are the stripped line |
| CustomizeAuthorization.DefinitionRows | custom_auth/customize_authorization.py:56-61 | one row per line after the header and none for an empty file; row i joined with ',' is line i+1 stripped |
| CustomizeAuthorization.ParseRow | custom_auth/customize_authorization.py:67-68 | a row unpacks exactly when it has at least two columns, into name, id and the remaining columns as inputs, which together rebuild the row; shorter rows raise the unpacking error |
| CustomizeAuthorization.BlankLineFails | custom_auth/customize_authorization.py:61-67 | a blank or whitespace-only line becomes the row [""] and fails to unpack |
| CustomizeAuthorization.Intersection | custom_auth/customize_authorization.py:84-91 | the running intersection holds exactly the users in every set, and nobody when there are no sets |
| CustomizeAuthorization.Target | custom_auth/customize_authorization.py:84-91 | a user is in the target exactly when there is at least one input and the user is a member of every input group |
| CustomizeAuthorization.TargetStep | custom_auth/customize_authorization.py:85-91 | the target of the first i+1 inputs is the first input's members when i = 0, and otherwise the i-th input's members intersected with the target so far |
| CustomizeAuthorization.SingleInputTarget | custom_auth/customize_authorization.py:84-91 | with exactly one input group the target is that group's membership |
| CustomizeAuthorization.NoInputsRemovesAll | custom_auth/customize_authorization.py:84-99 | a row without input groups plans no addition and the removal of every current member |
| CustomizeAuthorization.Diff | custom_auth/customize_authorization.py:94-95 | additions and removals are disjoint; additions are new users and removals current ones; their union is the symmetric difference; applying them yields the target; the plan is empty exactly when current equals target |
| CustomizeAuthorization.DiffIsMinimal | custom_auth/customize_authorization.py:94-95 | any additions and removals that turn current into target include the planned ones |
| CustomizeAuthorization.AfterProbe | custom_auth/customize_authorization.py:71-81 | after the probe the derived group has its listed members when present and none when freshly created; no other group differs |
| CustomizeAuthorization.AbsentGroupAddsTarget | custom_auth/customize_authorization.py:71-81 | when the derived group is reported absent the plan adds the whole target and removes nobody |
| CustomizeAuthorization.TargetStable | custom_auth/customize_authorization.py:84-99 | writing the target into the derived group leaves the target unchanged, even when the derived group is one of the inputs |
| CustomizeAuthorization.RerunPlanIsEmpty | custom_auth/customize_authorization.py:94-99 | once a row has converged, planning it again gives nothing to add and nothing to remove |
| CustomizeAuthorization.FetchCurrent | custom_auth/customize_authorization.py:70-81 | the requests are the probe, then a listing of the derived group when it is present or its creation otherwise; on success the result is its current members (none after creation) and the directory is as probed; a failure raises the service error, stops there and changes nothing; the creation event is logged only when the group was created |
| CustomizeAuthorization.IntersectInputs | custom_auth/customize_authorization.py:84-91 | one listing per input group, in file order, stopping at the first that fails; on success the result is the target of those inputs; directory and log unchanged |
| CustomizeAuthorization.IssueAll | custom_auth/customize_authorization.py:98-99 | one membership request per user, each user once, in some order, stopping at the first error; on success every user was sent; the directory and log reflect exactly the requests that succeeded before the stop |
| CustomizeAuthorization.PlanRow | custom_auth/customize_authorization.py:70-95 | the requests are the probe phase and then the listings of the inputs; success means every input was listed, and then the plan is the diff between the probed members and the target; failure stops at the first error; a failed fetch changes neither directory nor log, and a failed input listing leaves the directory as probed (the derived group created empty when it was absent) and the log with just the creation |
| CustomizeAuthorization.ApplyPlan | custom_auth/customize_authorization.py:97-99 | all additions are sent before any removal, each user once, stopping at the first error; a removal is sent only after every addition succeeded; success or failure, the directory has exactly the accepted additions and removals applied and the log gains exactly their events, in order; on success those are the whole plan |
| CustomizeAuthorization.ReconcileDefinition | custom_auth/customize_authorization.py:64-99 | the requests follow the row's script and stop at the first failure; mutations are sent only after every input was listed; whenever the row got past its fetch, the directory is the probed one with exactly the accepted additions and removals applied and the log is the creation (if any) then those events, so nothing is undone; a failed fetch changes nothing; success means every write was accepted, and then the derived group's members equal the target, both before and after the writes |
| CustomizeAuthorization.RowIsLocal | custom_auth/customize_authorization.py:64-99 | a row changes no group but its derived group and only appends to the log |
| CustomizeAuthorization.ConvergedRowWritesNothing | custom_auth/customize_authorization.py:94-99 | when the derived group already holds its target and is present, a pass issues no addition and no removal and changes neither directory nor log |
| CustomizeAuthorization.SecondPassIsNoOp | custom_auth/customize_authorization.py:94-99 | after a row completed, a second pass over it whose probe finds the group sends no write and changes neither directory nor log |
| CustomizeAuthorization.RunRow | custom_auth/customize_authorization.py:66-99 | a row that does not unpack raises the unpacking error before any request and changes nothing; otherwise the row's requests, directory and log are exactly as ReconcileDefinition states |
| CustomizeAuthorization.RunStep | custom_auth/customize_authorization.py:64-99 | one turn of the loop over rows: a row that does not unpack changes nothing; otherwise the row's record is appended to the run, its segment of requests and its effect as ReconcileDefinition states, starting from where the earlier rows left the directory and log |
| CustomizeAuthorization.Run | custom_auth/customize_authorization.py:56-99 | rows run in file order: row i's requests are one contiguous segment, reconciled as ReconcileDefinition states, from the directory and log row i-1 left; every row but the last done completed; the run stops at the first row that does not unpack or whose call raises, and the final directory and log are those the last row left, so nothing is undone; success means every row ran |
| RootCustomizeAuthorization.ParseRowIndexed | customize_authorization.py:41-43 | a row unpacks exactly when it has at least two columns, into row[0], row[1] and row[2:]; shorter rows raise IndexError |
| RootCustomizeAuthorization.ParseVariantsAgree | customize_authorization.py:41-43 | indexing and slice unpacking accept the same rows with the same definition and reject the same rows |
| RootCustomizeAuthorization.IndexedRowUnpacks | customize_authorization.py:41-43 | a row that unpacks by indexing unpacks by slicing to the same definition |
| RootCustomizeAuthorization.RunRootRow | customize_authorization.py:41-74 | a row with fewer than two columns raises IndexError before any request and changes nothing; otherwise the row's requests, directory and log are exactly as ReconcileDefinition states |
| RootCustomizeAuthorization.RunRootStep | customize_authorization.py:38-74 | one turn of the loop over rows: a short row changes nothing; otherwise the row's record is appended to the run, its segment of requests and its effect as ReconcileDefinition states, starting from where the earlier rows left the directory and log |
| RootCustomizeAuthorization.RunRoot | customize_authorization.py:30-74 | rows run in file order: row i's requests are one contiguous segment, reconciled as ReconcileDefinition states, from the directory and log row i-1 left; the run stops at the first short row or raised call, and the final directory and log are those the last row left, so nothing is undone; success means every row ran |

## Left out

- The HTTP transport, JSON serialisation and the `BASE_URL` prefix are left out because they are network I/O. A response is a status, a text and an item list, taken from the oracle `answer`.
- The `getattr(requests, request_type)` check in `call_rest_api` is left out because it depends on a library's attributes. Every verb the core passes exists there.
- `get_oauth_token` is a foreign call. Its token is the client's opaque `credential`. The model assumes it never raises and never returns None. In the source, a None would be fetched again on every call, and an exception would propagate out of `main`.
- `parse_arguments` is left out. Its only effect is on configuration, and the definition file comes in as the text `file`.
- Opening and reading the definition file is left out as I/O. `Run` takes the file's text.
- Text.ReadLines: Python's universal-newline translation is not modelled. The file is split on '\n' only, so a file that ends its lines with a lone '\r' is read differently.
- Text.Strip: removes only the ASCII whitespace `str.strip()` removes, not the other Unicode whitespace characters.
- Requests carry a route rather than an endpoint string. `PathInjective` shows that nothing is lost when group ids are non-empty and hold no '/' or '?'. With other ids, two routes can share an endpoint, and the model would still tell them apart.
- The logger modules, message texts and timestamps are left out. The audit log is a sequence of (action, group, user) events.
- The `KeyError` raised when a 200 response has no "items" key is not modelled. A response always has an item list.
- Server-side semantics are taken as given: the name-prefix `startsWith` filter, `depth=-1` flattening, and which groups a search returns. Only a member listing is tied to the stored members.
- Set iteration order in the two mutation phases is a nondeterministic choice, so only "each user once, all additions before any removal" is stated.
- Whole-file idempotence is not stated, because it does not hold. A later row may change a group that an earlier row uses as an input. Idempotence is stated per row.
- The root client's `get_ldap_group` is not used by the root reconciler, which calls `check_ldap_group_existence`, so it is modelled as a standalone operation.
