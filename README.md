# Session and permission core of the jimu-admin front end

This project models the client-side session and authorization logic of the jimu-admin Vue admin front end, and proves properties of the model:

- **Token helpers** (`AuthShared`, `auth_shared.dfy`): `getToken` and `clearAuthStorage` over the key/value local storage. The storage is a `Storage` object whose `entries: map<string, string>` the helpers read and change in place.
- **Auth store** (`Auth`, `auth.dfy`): the `AuthStore` class holds the in-memory `token`, the `userInfo` record, the login loading flag and an event log. Its methods are `Login`, `LoginByToken`, `GetUserInfo`, `InitUserInfo`, `ResetStore` (with `Reset` for `$reset`) and `Logout`. Each request the source awaits is a `Result` parameter. Router navigation, the success notification and the tab/route store calls are appended to `events` in the order they happen. The predicates `isOrdinaryUser`, `isAdmin` and `isSuperAdmin` are functions of the `UserInfo` value. `isLogin`, `isAdminRole` and `isSuperAdminRole` are functions of the store.
- **Permission directive** (`Permission`, `permission.dfy`): `Mounted` is the directive's `mounted` hook. It decides once whether to keep an `Element` and calls `Remove` otherwise. `Keeps` is the decision it implements. `HasIndexRole` is its `for...in` loop.
- **Dictionary store** (`Dict`, `dict.dfy`): `InitDictMapping` folds the fetched dictionaries into a code-to-details map and installs it. `Snapshot` is the fold it is proved against.
- **Client runs** (`Scenarios`, `scenarios.dfy`): login followed by a resume on a fresh store, a login followed by two gated buttons, and a resume with a stale token. Each is checked against the contracts alone.

The model follows the code, including where its behaviour departs from what a session manager is usually expected to do:
- a profile response is merged into `userInfo` (`Object.assign`); it does not replace it;
- a failed profile fetch during login resets nothing, and the four credential keys stay in storage;
- `logout` only raises and lowers the loading flag;
- a dictionary fetch without data installs an empty mapping;
- `$reset` restores the state the store was created with, including the token read from storage at that moment, so a reset store can still report `isLogin` (`Scenarios.StaleTokenResume`).

`$reset` is taken to restore a snapshot of the store's state taken at creation. Pinia setup stores get `$reset` from a plugin, and that plugin is not part of this model.

## Model

| member | source | states |
|---|---|---|
| `AuthShared.Storage.Get` | src/store/modules/auth/shared.ts:5 | `localStg.get` gives the stored value of a key, or nothing when the key is absent |
| `AuthShared.Storage.Set` | src/store/modules/auth/index.ts:101-104 | `localStg.set` maps the key to the value and leaves every other key as it was |
| `AuthShared.Storage.Remove` | src/store/modules/auth/shared.ts:10-11 | `localStg.remove` drops exactly that key |
| `AuthShared.TokenOf` | src/store/modules/auth/shared.ts:4-6 | the token read is either '' or the stored `accessToken`, and it is non-empty iff a non-empty access token is stored |
| `AuthShared.Cleared` | src/store/modules/auth/shared.ts:9-12 | the keys after a clear are the old keys minus `accessToken` and `refreshToken`, each surviving key with its old value |
| `AuthShared.GetToken` | src/store/modules/auth/shared.ts:4-6 | returns the stored access token when present and non-empty, '' otherwise |
| `AuthShared.ClearAuthStorage` | src/store/modules/auth/shared.ts:9-12 | the storage afterwards is the old contents with exactly the two token keys removed |
| `AuthShared.ClearedHasNoToken` | src/store/modules/auth/shared.ts:4-12 | after a clear, `getToken` yields '' |
| `AuthShared.ClearIdempotent` | src/store/modules/auth/shared.ts:9-12 | a second clear changes nothing |
| `AuthShared.ClearKeepsOtherKeys` | src/store/modules/auth/shared.ts:9-12 | every other key, `expireTime` and `header` included, keeps its presence and value |
| `AuthShared.TokenAfterWrite` | src/store/modules/auth/shared.ts:4-6 | writing an access token and reading it back yields that token ('' reads as '') |
| `Auth.IsAdmin` | src/store/modules/auth/index.ts:33-35 | the user is admin iff `admin` is `true`; `null` and `false` read as not admin |
| `Auth.IsSuperAdmin` | src/store/modules/auth/index.ts:38-40 | the user is super-admin iff `superAdmin` is `true`; `null` and `false` read as not super-admin |
| `Auth.IsOrdinaryUser` | src/store/modules/auth/index.ts:145-147 | a user is ordinary iff neither `admin` nor `superAdmin` is `true`; `null` counts as not set |
| `Auth.WithLoginToken` | src/store/modules/auth/index.ts:100-104 | after the four writes, storage holds `accessToken`, `refreshToken`, `expireTime` and `header` from the login token, and every other key is unchanged |
| `Auth.ResetEvents` | src/store/modules/auth/index.ts:53-58 | a reset navigates to login iff the route is not constant, and always ends by caching tabs and resetting the route store |
| `Auth.AuthStore.constructor` | src/store/modules/auth/index.ts:21-30 | a new store takes its token from storage and starts with the default profile, not loading, with no events |
| `Auth.AuthStore.IsLogin` | src/store/modules/auth/index.ts:43 | logged in iff the in-memory token is a non-empty string |
| `Auth.AuthStore.IsAdminRole` | src/store/modules/auth/index.ts:155-158 | true exactly for the configured admin role code, never when it is undefined; reads no store state |
| `Auth.AuthStore.IsSuperAdminRole` | src/store/modules/auth/index.ts:166-169 | true exactly for the configured super-admin role code, never when it is undefined; reads no store state |
| `Auth.RoleCodesAreUnique` | src/store/modules/auth/index.ts:155-169 | at most one code is the admin role and at most one the super-admin role |
| `Auth.AuthStore.Reset` | src/store/modules/auth/index.ts:51 | `$reset` restores the token the store was created with, the default profile and loading false |
| `Auth.AuthStore.ResetStore` | src/store/modules/auth/index.ts:46-59 | the two token keys leave storage, the state returns to its initial values, and the reset events are logged |
| `Auth.AuthStore.GetUserInfo` | src/store/modules/auth/index.ts:118-127 | returns whether the fetch succeeded; on success the profile is merged into `userInfo`, on error `userInfo` is untouched |
| `Auth.AuthStore.LoginByToken` | src/store/modules/auth/index.ts:99-116 | the four keys are written whatever the fetch gives; the token is adopted and the profile merged only when the fetch succeeds |
| `Auth.AuthStore.Login` | src/store/modules/auth/index.ts:68-90 | loading ends false. A failed exchange resets. Full success stores the credentials, adopts the access token, merges the profile and logs the redirect before the notification. A failed profile fetch leaves the four keys written and changes nothing else |
| `Auth.AuthStore.Logout` | src/store/modules/auth/index.ts:92-97 | loading ends false and nothing else may change |
| `Auth.AuthStore.InitUserInfo` | src/store/modules/auth/index.ts:129-139 | without a stored token nothing changes; with one, a successful fetch only merges `userInfo` and a failed one runs the reset |
| `Auth.Merge` | src/store/modules/auth/index.ts:123 | each property present in the response takes the response's value, and each absent one keeps the previous value |
| `Auth.MergeIdempotent` | src/store/modules/auth/index.ts:123 | merging the same response twice equals merging it once |
| `Auth.CompleteProfileReplaces` | src/store/modules/auth/index.ts:123 | a response carrying every property makes the result independent of the previous record |
| `Auth.IncompleteProfileKeepsPrevious` | src/store/modules/auth/index.ts:123 | a response missing any property gives different results for some two previous records |
| `Auth.MissingFlagsSurvive` | src/store/modules/auth/index.ts:121-124 | a response without `admin` and `superAdmin` keeps the previous classification |
| `Auth.DefaultIsOrdinary` | src/store/modules/auth/index.ts:23-30 | the initial record is an ordinary user |
| `Permission.Spread` | src/directive/permission.ts:19 | `[...value]` is the array itself, or one element per character of a string |
| `Permission.ArgOf` | src/directive/permission.ts:12 | a missing `arg` means `'button'` |
| `Permission.IndexKey` | src/directive/permission.ts:19 | every key `for...in` yields is a non-empty string of decimal digits |
| `Permission.Keeps` | src/directive/permission.ts:8-38 | admins and super-admins keep; any `arg` other than `'role'`/`'button'` keeps; for an ordinary user, role mode keeps iff the index-key check passes and button mode keeps iff the value is among the buttons |
| `Permission.HasIndexRole` | src/directive/permission.ts:19-23 | the loop finds a match iff the user has roles and one of them equals an index string "0".."n-1" |
| `Permission.Element.Remove` | src/directive/permission.ts:25 | `el.remove()` detaches the element and counts one removal |
| `Permission.Mounted` | src/directive/permission.ts:8-38 | the element stays attached iff it was attached and the decision keeps it; `remove` is called at most once, and only when the decision removes; nothing but the element changes |
| `Permission.PrivilegedAlwaysKept` | src/directive/permission.ts:10 | admins and super-admins keep every element |
| `Permission.MissingArgIsButton` | src/directive/permission.ts:12 | a binding without `arg` is decided exactly as button mode |
| `Permission.ButtonMode` | src/directive/permission.ts:29-37 | button mode keeps iff the value is one of the user's buttons; absent buttons remove |
| `Permission.RoleModeFalsyValue` | src/directive/permission.ts:15-26 | role mode with a falsy value removes |
| `Permission.RoleModeIndexKeys` | src/directive/permission.ts:15-26 | role mode with a truthy value keeps iff the user's roles contain one of the index strings of the spread value |
| `Permission.OtherArgKept` | src/directive/permission.ts:15-37 | any `arg` other than `'role'` and `'button'` keeps the element |
| `Permission.NonNumericRolesNeverGrant` | src/directive/permission.ts:19-20 | a user whose role codes are not numerals never passes role mode |
| `Permission.RoleNamedInBindingIsRemoved` | src/directive/permission.ts:19-25 | `{ value: ['admin'], arg: 'role' }` removes the element for an ordinary user who has role `admin`, where the corrected check keeps it |
| `Permission.KeepsIntended` | src/directive/permission.ts:15-26 | the corrected decision agrees with `Keeps` outside role mode; in role mode an ordinary user keeps iff a requested role code is among the user's roles |
| `Permission.HasRequestedRole` | src/directive/permission.ts:19-23 | the corrected loop finds a match iff some requested role code is one of the user's roles |
| `Permission.IntendedRoleModeIff` | src/directive/permission.ts:15-26 | the corrected role mode keeps iff the requested role set meets the user's role set; an empty request removes |
| `Dict.Insert` | src/store/modules/dict/index.ts:21-22 | a contributing dictionary adds its code with its details; every other key keeps its value; a non-contributing one changes nothing |
| `Dict.Snapshot` | src/store/modules/dict/index.ts:19-24 | the fold of an empty list is empty, and every key it holds is the code of some fetched dictionary with details |
| `Dict.CollectMapping` | src/store/modules/dict/index.ts:19-24 | the loop builds exactly the left-to-right fold `Snapshot` of the fetched list |
| `Dict.DictStore.constructor` | src/store/modules/dict/index.ts:13 | the mapping starts empty |
| `Dict.DictStore.InitDictMapping` | src/store/modules/dict/index.ts:15-26 | the new mapping is the snapshot of the fetched list, independent of the old one; no data gives the empty mapping |
| `Dict.SnapshotKeys` | src/store/modules/dict/index.ts:20-23 | a code is a key iff some fetched dictionary with that code has details (an empty array counts) |
| `Dict.SnapshotLastWins` | src/store/modules/dict/index.ts:20-24 | when codes repeat, the last dictionary with details supplies the value |
| `Dict.NoDetailsNoEffect` | src/store/modules/dict/index.ts:21 | a dictionary without details contributes nothing |
| `Dict.UnfetchedCodeAbsent` | src/store/modules/dict/index.ts:19-25 | a code no fetched dictionary contributes is not a key, whatever the old mapping held |
| `Scenarios.LoginThenResume` | src/store/modules/auth/index.ts:68-139 | a login on a fresh store and a resume on a second fresh store over the same storage end with the same `userInfo` |
| `Scenarios.AliceLogsIn` | src/store/modules/auth/index.ts:68-116 | after alice's login she is logged in, a `save` button is kept and a `delete` button removed |
| `Scenarios.StaleTokenResume` | src/store/modules/auth/index.ts:129-139 | a failed resume removes the stored access token but leaves the creation-time token in memory |

## Findings

| source | as written | input that shows it | evidently intended | confidence | as-written member | corrected member |
|---|---|---|---|---|---|---|
| src/directive/permission.ts:19 | `for (const role in [...value])` visits the index strings "0", "1", ... and tests those against the user's role codes | ordinary user with roles `['admin']`, binding `{ value: ['admin'], arg: 'role' }`: the element is removed | `for...of`: keep the element when one of the requested role codes is one of the user's roles | high, not executed | `Permission.RoleNamedInBindingIsRemoved` | `Permission.IntendedRoleModeIff` |

`Permission.Mounted` keeps the behaviour as written, because the model describes what the directive does. The corrected decision is `Permission.KeepsIntended`, with its loop `Permission.HasRequestedRole`.

## Left out

- HTTP transport: `fetchLogin`, `fetchGetUserInfo` and `allDictMapping` are not modelled. Their results are parameters.
- `Auth.AuthStore.Login`: a `fetchLogin` response that reports no error but carries no data makes the source throw when it reads `loginToken.accessToken`; that case is not modelled. (A user-info response without data merges nothing, which an all-`Absent` `Profile` models; a dictionary response without data is `None`.)
- `src/service/api/system-manage.ts` is not part of this model. It only builds request objects.
- `src/directive/index.ts` (directive registration) is not part of this model.
- Vue reactivity, Pinia `defineStore` and `useLoading` are not modelled. The loading flag is a plain field.
- Router navigation, the notification, i18n and the tab and route stores appear only as `Event` values in the log. The `$notification?.` guard is not modelled: the notification is always logged.
- `Auth.AuthStore.Login`: the user name and password are only passed to the credential request, so they are not parameters.
- `Auth.AuthStore.Login`, `Auth.AuthStore.InitUserInfo`: the source does not await `resetStore()`; the model runs it to completion before the caller continues. Only the loading flag could tell the orders apart, and it is false either way.
- Concurrent `login` calls and other interleavings at `await` points are not modelled. Each await is one sequential step.
- The local storage's serialisation and expiry are not modelled. Stored values are strings, `expireTime` included.
- `import.meta.env` lookup is not modelled. The two role codes are the store's `env` constant, `None` when undefined.
- `Auth.Merge` copies only the six `UserInfo` properties. Other properties that `Object.assign` would copy from a response are not modelled.
- `Auth.IsAdmin`, `Auth.IsSuperAdmin`: the computeds return the raw `bool | null`; the model gives their truthiness, which is how `isOrdinaryUser` uses them.
- `Permission.Mounted`: a `null` or `undefined` binding value throws in the source when it is destructured; that case is not modelled. A primitive binding value (such as `'save'`) destructures to an undefined `value` and `arg`, which is `Binding(Undefined, None)`. An `arg` that is not a string (null included) behaves like any other string that is neither `'role'` nor `'button'`. A `value` other than undefined, null, a string or a string array is not modelled.
- `Dict.Dictionary`: a detail entry keeps only its code and label; other entry fields are not modelled.
- `Dict.Insert`: a dictionary whose code is `"__proto__"` sets the prototype of the plain object instead of creating a key; the model adds it as an ordinary key.
