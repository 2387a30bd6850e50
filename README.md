# Limit Posts Per User — a Dafny model

The WordPress plugin "Limit Posts Per User" lets an administrator give each
user a maximum number of posts of one post type (`post` by default). It has a
single class, `k_limit_posts_per_user`, whose handlers are called by the host.
Each handler is a few comparisons against the user's stored limit and post
count:

- the profile screen shows a limit field to users who may `edit_users`;
- saving the profile validates and stores the limit, and re-arms the notice;
- saving a post of the limited type is stopped with `wp_die` while the acting
  user is at or over their limit (trashing is always allowed and re-arms the
  notice);
- on `init`, while the acting user is at or over their limit, the
  `create_posts` and `publish_posts` capabilities of the post type are
  switched off for that request;
- an admin notice is shown once per "limit reached" episode.

The class keeps seven private properties. One is `_post_type`, the limited
post type, which is set once. The other six are caches: `_post_limit`,
`_user_ID`, `_current_user_post_count`, `_user_has_post_limit`,
`_user_at_post_limit` and `_user_at_or_over_post_limit`. Its getters fill
them lazily, and a value is kept only when it is truthy.

The model has four modules:

- `Php` (php.dfy): the PHP semantics the decisions depend on. It covers
  properties that start as `null`, truthiness, `===` between a metadata string
  and an int, and `>=` between a count and a stored limit. It also defines the
  memoised-getter step `MemoRead`, and `MemoReads` for a run of successive
  calls, with lemmas about both.
- `HostApi` (host_api.dfy): the host as a `Host` class. It has three mutable
  fields: the per-user metadata map (`k_post_limit`, `k_post_limit_notice_shown`),
  the capability record of the limited post type, and the list of
  profile-update errors. Its constants are the current user, the permissions
  `edit_users` and `edit_user(target)`, and a post-count oracle per author and
  post type.
- `Quota` (quota.dfy): the decisions as functions of the values read. These
  are the quota predicates, the profile-save validator, the content-save gate,
  capability stripping and the notice latch, with their lemmas.
- `Enforcer` (enforcer.dfy): the class `LimitPostsPerUser`. `_post_type` is
  the constant `postType` and the six caches are mutable fields. The getters
  and handlers are methods with `modifies` frames that name single fields.
  Each method states the new value of every field it may change, in terms of
  the old fields. Three two-state predicates describe what the
  has-limit → count → limit sequence of line 124 leaves in the caches:
  `QuotaLoaded`, `QuotaReadsUserID` and `AtOrOverEvaluated`.
  The ghost predicate `CacheAgrees()` relates the caches to the host:
  - `_user_ID`, `_post_limit` and `_current_user_post_count`, once loaded,
    hold what the host would return now for the current user;
  - a cached `true` in `_user_has_post_limit` or `_user_at_or_over_post_limit`
    is what has-limit or at-or-over give now;
  - a cached `true` in `_user_at_post_limit` is only promised to agree with
    has-limit, because the as-written getter can cache a wrong `true`.
  Under `CacheAgrees()` the results of the has-limit and at-or-over getters,
  the corrected at-limit getter called with its property unset, and the
  handlers are also the `Quota` functions of the current host state. The
  exceptions:
  - the ID, limit and count getters return the host's current reads;
  - the as-written at-limit getter returns has-limit while both properties are
    unloaded (see Findings);
  - a cached `true` of the corrected at-limit getter is tied only to has-limit.

Modelling choices:

- A stored limit is a `MetaInt = Option<int>`. `None` is the empty string that
  `get_user_meta(..., true)` returns when there is no row or the row holds
  `null`. `Some(n)` is the decimal string of `n`.
- The count is `Host.postCount(author, postType)`.
- User ID 0 (nobody logged in) has no metadata. The store reads `false` for
  it, which the model treats like the empty value, and it ignores writes for
  it (`HostApi.MetaOf`, `WithLimit`, `WithNotice`). So the notice flag of
  user 0 never reads as `''` and the notice is never rendered for them. A
  logged-out request is never restricted (`Quota.LoggedOutUserIsNeverRestricted`).
- The parsed form input is `Missing | Malformed | Integer(n)`, the three
  results of `filter_input` with `FILTER_VALIDATE_INT`.
- `wp_die` is the outcome `Halt(message)`.
- The error callbacks that the profile save registers are modelled as appends
  to `Host.profileErrors`.

Where the code does something a reader of the plugin's description might not expect, the model follows the code:

- A profile form with no `k-post-limit` field gives `null`, and `null !== false`.
  So the save stores an empty limit (the user becomes unlimited) and re-arms
  the notice. It does not raise "the post limit isn't correct"
  (`Quota.ProfileSave`, `StoredForm`).
- `FILTER_VALIDATE_INT` accepts negative numbers. A negative limit is truthy,
  so every count is at or over it (`Quota.NegativeLimitAlwaysOver`).
- `wp_insert_post_data` runs for every save of the post type, including updates
  of existing posts. At or over the limit, every non-trash save is stopped.
- Trashing re-arms the notice flag of the acting user, not of the post's
  author.
- Nothing clears or invalidates a loaded value within a request: a getter
  overwrites only a falsy property. After the actor edits
  their own limit, the properties may be stale. `SavePostLimitFields` keeps
  `CacheAgrees()` only when the edited user is not the actor.
- `get_user_at_post_limit` does not compute what its name says (see Findings).

## Model

| member | source | states |
|---|---|---|
| `Php.StrictlyIdentical` | k_limit_posts_per_user.php:111 | `_post_limit === _current_user_post_count` holds exactly when both properties are still `null`: once loaded, a metadata string is never identical to an int |
| `Php.CountReaches` | k_limit_posts_per_user.php:124 | `count >= limit` is the numeric comparison for a stored number, and true against the empty value |
| `Php.MemoRead` | k_limit_posts_per_user.php:54-61 | one call of a memoised getter: a truthy cached value is returned unchanged, a falsy one is replaced by the host's current value |
| `Php.MemoReads` | k_limit_posts_per_user.php:54-61 | a run of calls of one memoised getter returns one value per call |
| `Php.TruthyValueIsSticky` | k_limit_posts_per_user.php:54-61 | once a getter's property holds a truthy value, every later call returns that value whatever the store holds |
| `Php.FalsyValuesAreReread` | k_limit_posts_per_user.php:78-85 | falsy results are never cached: while the host returns falsy values, every call returns the host's current value |
| `Php.FirstTruthyValueWins` | k_limit_posts_per_user.php:67-72 | from a falsy property, calls return the host's values up to the first truthy one, and that one ever after |
| `Quota.HasLimit` | k_limit_posts_per_user.php:94-99 | has-limit is false exactly when the stored limit is empty or 0 |
| `Quota.AtOrOverLimit` | k_limit_posts_per_user.php:124 | at-or-over is true exactly when the stored limit is a non-zero number that the count reaches; false for an empty or 0 limit |
| `Quota.AtLimit` | k_limit_posts_per_user.php:108-114 | the intended at-limit predicate: has-limit and count equal to the limit |
| `Quota.AtLimitIsExact` | k_limit_posts_per_user.php:104-127 | at-limit implies at-or-over, and at-limit never holds when the count exceeds the limit |
| `Quota.NegativeLimitAlwaysOver` | k_limit_posts_per_user.php:189-192 | a negative limit, which the parser accepts, is a limit every count is at or over |
| `Quota.ProfileSave` | k_limit_posts_per_user.php:182-208 | without `edit_users` nothing happens. Otherwise the limit is written, as the submitted value, exactly when the input is not malformed and the actor may edit the target. In every other case "isn't correct" is attached. The advisory is attached iff the input is a non-zero int below the target's count and the actor may edit the target, and it implies the write. At most one error is attached |
| `Quota.ProfileSaveMeta` | k_limit_posts_per_user.php:191-195 | a write for a real user sets the target's limit and clears its notice flag. Without a write, or for user 0, the map is unchanged. Other users' metadata never changes |
| `Quota.ContentGate` | k_limit_posts_per_user.php:216-236 | the data passes through unchanged unless the post type matches, the status is not `trash` and the actor is at or over the limit. In that case the save halts with the over-limit message |
| `Quota.LimitThreeScenario` | k_limit_posts_per_user.php:224-235 | with limit 3 and 3 posts a new save halts and a trash passes. With 2 posts a new save passes again |
| `Quota.StripCreation` | k_limit_posts_per_user.php:244-247 | `create_posts` and `publish_posts` become `false` and every other capability keeps its value |
| `Quota.NoticeRendered` | k_limit_posts_per_user.php:256 | the notice renders iff the flag is unset and the actor is at or over the limit |
| `Quota.OneNoticePerEpisode` | k_limit_posts_per_user.php:254-264 | between re-arms the notice renders at most once. It never renders with the flag set. With the flag unset it renders exactly once iff some page is shown while at or over the limit |
| `Quota.ReArmRendersAgain` | k_limit_posts_per_user.php:193-194 | a re-arm forgets the flag: whatever it was, the following pages render as from an unset flag, so a user still over the limit sees the notice again |
| `Quota.UnlimitedUserIsNeverRestricted` | k_limit_posts_per_user.php:91-127 | with an empty or 0 limit, at-or-over is false, the gate passes the data through and no notice renders |
| `Quota.LoggedOutUserIsNeverRestricted` | k_limit_posts_per_user.php:91-127 | user 0 has no limit in any metadata store, so the gate always passes a logged-out save through |
| `Enforcer.LimitPostsPerUser.constructor` | k_limit_posts_per_user.php:28-31 | a new object has every property `null`, which agrees with any host state |
| `Enforcer.LimitPostsPerUser.PostCountByUser` | k_limit_posts_per_user.php:135-142 | the count for an author is the host's count of that author's posts of the limited post type, whatever cache state the object is in |
| `Enforcer.LimitPostsPerUser.GetUserID` | k_limit_posts_per_user.php:67-72 | `_user_ID` is one memoised read of the current user; the result is the current user whenever the cache agrees |
| `Enforcer.LimitPostsPerUser.GetPostLimit` | k_limit_posts_per_user.php:54-61 | `_post_limit` is one memoised read of the actor's stored limit. A truthy cached value is returned without touching `_user_ID`. Nothing else changes |
| `Enforcer.LimitPostsPerUser.GetUserPostCount` | k_limit_posts_per_user.php:78-85 | `_current_user_post_count` is one memoised read of the actor's count. A truthy cached value is returned unchanged |
| `Enforcer.LimitPostsPerUser.GetUserHasPostLimit` | k_limit_posts_per_user.php:91-102 | a cached `true` is returned. Otherwise the property becomes `HasLimit` of the actor's stored limit, and `_post_limit` is not loaded |
| `Enforcer.LimitPostsPerUser.GetUserAtPostLimit` | k_limit_posts_per_user.php:108-114 | as written: the result is has-limit and the two raw properties strictly identical. The count and the limit are never loaded, and `_user_ID` is read only when has-limit misses its cache. From an agreeing cache the result means has-limit while both properties are unloaded |
| `Enforcer.LimitPostsPerUser.GetUserAtPostLimitCorrected` | k_limit_posts_per_user.php:108-114 | corrected: a cached `true` is returned with nothing changed. Otherwise has-limit, count and limit are loaded as `QuotaLoaded` states (the count and limit only under has-limit), and the result is has-limit and the loaded count equal to the loaded limit. From an agreeing cache with the property unset, the result is `Quota.AtLimit` of the actor's limit and count |
| `Enforcer.LimitPostsPerUser.GetUserAtOrOverPostLimit` | k_limit_posts_per_user.php:120-127 | a cached `true` is returned with nothing changed. Otherwise has-limit, then the count and the limit (each one memoised read of the actor's value, only under has-limit) are loaded, `_user_ID` is read when any of them misses its cache, and the result is has-limit and the loaded count reaching the loaded limit. From an agreeing cache the result is `Quota.AtOrOverLimit` |
| `Enforcer.LimitPostsPerUser.AddPostLimitSection` | k_limit_posts_per_user.php:150-161 | the section is shown iff the actor may `edit_users`, seeded with the stored limit when truthy and 0 otherwise |
| `Enforcer.LimitPostsPerUser.SavePostLimitFields` | k_limit_posts_per_user.php:182-208 | the metadata and the error list become exactly what `Quota.ProfileSave` decides for the target's own count. The cache still agrees when the target is not the actor |
| `Enforcer.LimitPostsPerUser.CheckPostLimit` | k_limit_posts_per_user.php:216-236 | the outcome is `Quota.ContentGate`. A trash save deletes only the actor's notice flag, reads `_user_ID` and no quota. Another post type changes nothing. Any other save leaves the caches as one call of the at-or-over getter does. From an agreeing cache the gate uses the actor's true at-or-over |
| `Enforcer.LimitPostsPerUser.RemoveAddNewButtons` | k_limit_posts_per_user.php:241-249 | the capability record becomes `StripCreation` of the old one exactly when at-or-over, and is unchanged otherwise. The caches are left as one call of the at-or-over getter leaves them. Metadata is untouched |
| `Enforcer.LimitPostsPerUser.ShowPostLimitMessage` | k_limit_posts_per_user.php:254-264 | it renders per `Quota.NoticeRendered` of the old flag and at-or-over, and sets the actor's flag exactly when it renders. `_user_ID` is always read. With the flag already set, no quota property changes; otherwise the caches are left as one call of the at-or-over getter leaves them |
| `Enforcer.AtLimitAsWrittenMisreports` | k_limit_posts_per_user.php:111 | a fresh object reports limit 3 with 0 posts as "at the limit". After at-or-over has run, limit 3 with 3 posts is reported as not at the limit |
| `Enforcer.AtLimitCorrectedOnSameInputs` | k_limit_posts_per_user.php:108-114 | the corrected getter answers both of those inputs correctly |
| `Enforcer.CorrectedAtLimitAfterAtOrOver` | k_limit_posts_per_user.php:120-127 | with limit 5 and 2 posts, at-or-over is false, and the corrected at-limit getter called after it is false too |

## Left out

- The HTML of the profile section (:162-174) and the markup and translation of the notice (:257-260): the model records only whether the section or notice is shown, and the seeded value.
- Hook registration in the constructor (:33-47) and the global instance (:268): the host calls the handlers directly.
- The `WP_Query` behind `_get_user_post_count_by_user` (:135-142): default status filtering and the page size that caps `post_count` are inside the host's count oracle.
- The parsing done by `filter_input` (:189): it is modelled by its three possible results.
- PHP loose typing of metadata: stored limits are integers or empty. The one place where their string type matters is kept: `===` at :111.
- Multi-row metadata semantics of `add_user_meta` and `delete_user_meta`: each key holds one value. `add_user_meta` is only reached when the flag is unset.
- `get_post_type_object` returning `null` for an unregistered post type: the capability record of the configured type is a host field.
- `wp_die` (:232): it is the `Halt` outcome, not control flow.
- The error callbacks registered by the profile save: they are appends to `Host.profileErrors`.
- Concurrent requests racing on count against limit: each request is one sequential run against a fixed host.
- Enforcer.LimitPostsPerUser.GetUserAtPostLimitCorrected: shares `_user_at_post_limit` with the as-written getter, so a cached `true` is promised only to be consistent with has-limit, not with count equal to limit.
- Enforcer.LimitPostsPerUser.SavePostLimitFields: promises nothing about a later getter result after the actor edits their own limit, because the source leaves the loaded properties stale.

## Findings

| source | as written | input that shows it | evidently intended | confidence | as-written member | corrected member |
|---|---|---|---|---|---|---|
| k_limit_posts_per_user.php:111 | at-limit is `has-limit && $this->_post_limit === $this->_current_user_post_count`. It compares raw properties: a metadata string against an int, either of which may still be `null` | a fresh object for a user with stored limit 3 and 0 posts returns `true`. After `get_user_at_or_over_post_limit` has loaded both properties, a user with limit 3 and 3 posts gets `false` | true exactly when the user has a limit and the post count equals it | high; not executed | `Enforcer.AtLimitAsWrittenMisreports` | `Enforcer.LimitPostsPerUser.GetUserAtPostLimitCorrected` |

Nothing else in the plugin calls the at-limit getter. The corrected getter is
specified by `Quota.AtLimit`, which `Quota.AtLimitIsExact` shows never holds
above the limit. `Enforcer.AtLimitCorrectedOnSameInputs` calls it on the same
two inputs.
