# FacebookConnect, modelled in Dafny

This project models the logic inside the SilverStripe `FacebookConnect` controller extension. The extension connects a site to Facebook's login. On every request, its `onBeforeInit` hook does four things:

- it reads the Facebook session and the `/me` profile;
- it finds the site Member with the profile's email, or starts a new one;
- it copies six profile fields onto that Member;
- when the `create_member` setting is on, it writes the Member, logs it in and adds it to the configured groups.

The extension also has process-wide settings: `create_member`, `member_groups`, `permissions` and the API credentials. Its `FacebookPermissions` helper builds the comma-separated scope list for the login button.

Files:

- `php.dfy` (module `Php`): the PHP semantics the extension depends on.
  - String truthiness: `""` and `"0"` are false.
  - `isset` on an array entry: false for a missing key and for a null value.
  - The array `+` operator on lists.
  - `implode`, together with `explode` as its inverse.
- `config.dfy` (module `Config`): class `Settings`, the static properties with their setters and getters.
- `permissions.dfy` (module `Permissions`): the scope list behind `FacebookPermissions`, plus a corrected variant (see Findings).
- `sync.dfy` (module `Sync`): the body of `onBeforeInit` as one function, `SyncStep`. Its inputs are whether there is a session, what `/me` returned, the stored members by email, and the two member policies. Its result is the member now held and the calls made to the ORM, the member session and the error handler, in order. The lemmas about that function are also here.
- `connect.dfy` (module `Connect`): class `FacebookConnect`, the extension instance.
  - `OnBeforeInit` looks the member up, assigns the fields one at a time, and then loops over the groups. It is proved to change exactly what `SyncStep` says.
  - `CurrentFacebookMember` and `FacebookPermissions` read the state.
  - Five client methods walk through concrete requests and settings changes.
- `wrappers.dfy`: `Option`. It stands for PHP's "value or `false`/`null`".

The getters `CreateMember`, `GetPermissions`, `GetAppId` and `GetApiSecret` simply return their field, so they have no row below.

The extension's own comments and its code disagree on one point, and the model follows the code. The comments at `code/FacebookConnect.php:21-22` and `code/FacebookConnect.php:40-41` say `"email"` is always requested when members are created. At `code/FacebookConnect.php:246`, `"email"` is added only when no scope is configured (see Findings). Scopes and groups are ordered lists, kept with their duplicates.

## Model

| member | source | states |
|---|---|---|
| Php.Truthy | code/FacebookConnect.php:145 | no ensures: a predicate, PHP truthiness of a string (`""` and `"0"` are false); used by `Sync.Resolve` |
| Php.IsSet | code/FacebookConnect.php:144-162 | no ensures: a predicate, `isset($a[$k])` (key present and value not null); its consequences are stated by `Php.ValueOrEmpty` and `Sync.MappedFields` |
| Php.Implode | code/FacebookConnect.php:249 | no ensures: `implode` for a one-character glue; its meaning is stated by the round trip `Php.ExplodeImplode` |
| Php.ValueOrEmpty | code/FacebookConnect.php:157-162 | `isset($a[$k]) ? $a[$k] : ""`: the value when the key is present and not null, `""` otherwise |
| Php.ListUnion | code/FacebookConnect.php:246 | `$left + $right` on lists: the left list is kept unchanged and in order; after it come only the right entries whose index is past the left list's end; the length is the larger of the two |
| Php.ListUnionIsKeyUnion | code/FacebookConnect.php:246 | the list union equals PHP's key-based array union, where the keys of both operands are kept and the left operand wins on a shared key |
| Php.ExplodeImplode | code/FacebookConnect.php:249 | when no piece contains the glue, splitting the `implode` result on the glue gives the pieces back, in order |
| Config.Settings.constructor | code/FacebookConnect.php:24-62 | defaults: members are created, no groups, no permissions, empty credentials |
| Config.Settings.SetCreateMember | code/FacebookConnect.php:71-73 | sets `create_member` and nothing else |
| Config.Settings.SetMemberGroups | code/FacebookConnect.php:79-86 | an array replaces the whole group list; a single code is appended at the end, and earlier entries stay unchanged |
| Config.Settings.GetMemberGroups | code/FacebookConnect.php:88-90 | `false` (None) exactly when the list is empty, otherwise the list unchanged |
| Config.Settings.SetPermissions | code/FacebookConnect.php:92-94 | replaces the permission list; its argument defaults to the empty list, as `$permissions = array()` does |
| Config.Settings.SetApiKey | code/FacebookConnect.php:100-102 | sets the API key and nothing else |
| Config.Settings.SetApiSecret | code/FacebookConnect.php:104-106 | sets the API secret and nothing else |
| Config.Settings.SetAppId | code/FacebookConnect.php:108-110 | sets the app id and nothing else |
| Permissions.PermissionScopes | code/FacebookConnect.php:243-247 | no member creation: the configured scopes as they are; member creation with no scopes: exactly `["email"]`; member creation with scopes: the configured scopes unchanged, with no `"email"` added |
| Permissions.EmailRequestedOnlyForEmptyList | code/FacebookConnect.php:245-247 | `"email"` is requested if and only if it is configured, or members are created and no scope is configured |
| Permissions.EmailMissingWithOneScope | code/FacebookConnect.php:246 | with `["user_likes"]` configured and members created, the request is `["user_likes"]`, which has no `"email"` |
| Permissions.IntendedScopes | code/FacebookConnect.php:38-46 | the documented intent: the configured scopes are kept in order as a prefix, `"email"` is present whenever members are created, it is added at most once and only at the end, and nothing changes when members are not created |
| Permissions.IntendedScopesKeepEmail | code/FacebookConnect.php:241-250 | the corrected scopes, joined by `,` and split again, still contain `"email"` |
| Sync.EmailOf | code/FacebookConnect.php:144 | no ensures: `$email`, the profile's email when set and `false` (None) otherwise; `Sync.Resolve` states how it is used |
| Sync.MapProfile | code/FacebookConnect.php:157-162 | no ensures: the six field assignments; `Sync.MappedFields` and `Sync.LastSyncWins` state its behaviour |
| Sync.PostSyncCalls | code/FacebookConnect.php:165-173 | no ensures: the write, log-in and enrollment calls; `Sync.SyncCallsFollowPolicy` states their order and condition |
| Sync.SyncStep | code/FacebookConnect.php:137-179 | no ensures: the whole `onBeforeInit` body as a function; `Sync.SyncStepShape`, `Sync.SyncCallsFollowPolicy` and `Sync.SyncedMemberIsResolvedRecord` state its behaviour, and `Connect.FacebookConnect.OnBeforeInit` is proved equal to it |
| Sync.Resolve | code/FacebookConnect.php:143-155 | a truthy email that matches a stored member gives that member; a missing, null, `""` or `"0"` email, or one with no match, gives `new Member()` |
| Sync.MappedFields | code/FacebookConnect.php:157-162 | each of Email, FirstName, Surname, FacebookLink, FacebookUID and FacebookTimezone equals the value of its profile key when that key is set, and `""` otherwise; the record's id is kept |
| Sync.SyncStepShape | code/FacebookConnect.php:137-179 | a member is held exactly when there is a session and a non-empty `/me` result; without one, the only possible call is the warning for a failed API call; with one, every call concerns that one member and it is written at most once |
| Sync.SyncCallsFollowPolicy | code/FacebookConnect.php:165-173 | once a member is mapped: without `create_member` there are no calls; with it the calls are: write, then log in, then one enrollment per configured group in list order, and nothing else (a failed `/me` call still gives its warning, see `Sync.SyncStepShape`) |
| Sync.SyncedMemberIsResolvedRecord | code/FacebookConnect.php:143-163 | the held member is the resolved record, either the stored one or a new one with id 0, carrying the profile's six fields; this holds whether or not members are created |
| Sync.LastSyncWins | code/FacebookConnect.php:157-162 | mapping a second profile overwrites everything the first mapping set |
| Sync.ResyncReusesWrittenMember | code/FacebookConnect.php:144-166 | once the written member is stored under its truthy email, syncing the same profile again reuses that record, with no field changed |
| Connect.FacebookConnect.constructor | code/FacebookConnect.php:48-56 | a new extension instance holds no Facebook member and has made no calls |
| Connect.FacebookConnect.OnBeforeInit | code/FacebookConnect.php:128-179 | changes exactly what `SyncStep` gives for the current settings: the held member when one is mapped (otherwise the member is unchanged), and the calls, appended in order |
| Connect.FacebookConnect.MemberFromProfile | code/FacebookConnect.php:143-162 | the lookup, then the six assignments one at a time, produce the resolved record mapped from the profile |
| Connect.FacebookConnect.AddToGroups | code/FacebookConnect.php:169-173 | the loop appends one enrollment call per group code, in list order |
| Connect.FacebookConnect.CurrentFacebookMember | code/FacebookConnect.php:223-225 | the member mapped on this request, whether or not it was written; `false` (None) when none was mapped |
| Connect.FacebookConnect.FacebookPermissions | code/FacebookConnect.php:241-250 | no member creation: the configured scopes joined by `,`; member creation with no scopes: `"email"`; member creation with scopes: the plain join, with nothing added |

## Findings

| source | as written | input that shows it | evidently intended | confidence | as-written member | corrected member |
|---|---|---|---|---|---|---|
| code/FacebookConnect.php:246 | `$permissions + array('email')` is a key union, so `'email'` (key 0) is dropped whenever a scope is configured | permissions `["user_likes"]`, `create_member` on: the button asks for `user_likes` only | the comments at lines 21-22 and 40-41 say `"email"` is required "no matter what you set here" | high (not executed) | Permissions.EmailMissingWithOneScope | Permissions.IntendedScopes |

The extension model, `FacebookConnect.FacebookPermissions`, keeps the behaviour as written, because that is the scope string the extension actually sends. `IntendedScopes` is the corrected definition, and `IntendedScopesKeepEmail` proves its property.

## Left out

- The Facebook SDK is not part of this model: client construction, `getSession`, `api('/me')`, `getFacebook` and `FacebookLogoutLink` (`getLogoutUrl`). `OnBeforeInit` takes their outcome as inputs:
  - whether a session exists;
  - `ApiError` for a thrown `FacebookApiException`, which `user_error` turns into a warning call;
  - otherwise the returned profile.
- The ORM is not part of this model: the SQL condition, `Convert::raw2sql`, collation, and which row `DataObject::get_one` picks. The lookup is an exact match in a map from email to stored member.
- `write`, `logIn`, `Group::add_to_group_by_code` and `user_error` are recorded as calls, in order, and not performed.
  - The ID that `write` assigns to a new member is not modelled, so the held member keeps id 0.
  - Errors raised by `write` or `logIn` are not modelled.
  - Whether an enrollment is idempotent is up to the group code and is not modelled.
- `Requirements::customScript` and `json_encode($session)` produce presentation output only.
- PHP values other than lists of strings are not modelled:
  - associative arrays passed to `set_permissions` or `set_member_groups`;
  - non-string profile values, such as Facebook's numeric timezone, which are taken in their string form.
- `implode` is modelled for the one-character glue `","` that the extension uses.
- The static properties are one `Settings` object per PHP process. Concurrent requests, such as two first logins with the same email, are not modelled.
