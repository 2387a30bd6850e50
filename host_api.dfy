/**
  The host platform as the plugin sees it: a per-user metadata store holding
  `k_post_limit` and `k_post_limit_notice_shown`, the current user, two
  permission checks, a post-count oracle, the capability record of the
  limited post type and the list of profile-update errors.
 */
module HostApi {
  import opened Php

  /** 0 is nobody: the metadata API reads `false` for it and ignores writes to it. */
  type UserId = nat

  /** The two metadata keys of one user. */
  datatype UserMeta = UserMeta(postLimit: MetaInt, noticeShown: bool)

  /** What the store holds for a user that has neither key. */
  const NoMeta := UserMeta(None, false)

  function MetaOf(m: map<UserId, UserMeta>, u: UserId): UserMeta {
    if u != 0 && u in m then m[u] else NoMeta
  }

  /** `update_user_meta($u, 'k_post_limit', $v)` */
  function WithLimit(m: map<UserId, UserMeta>, u: UserId, v: MetaInt): (r: map<UserId, UserMeta>)
    ensures u != 0 ==> MetaOf(r, u) == MetaOf(m, u).(postLimit := v)
    ensures u == 0 ==> r == m
    ensures forall w :: w != u ==> MetaOf(r, w) == MetaOf(m, w)
  {
    if u == 0 then m else m[u := MetaOf(m, u).(postLimit := v)]
  }

  /**
    `add_user_meta($u, 'k_post_limit_notice_shown', true)` when b holds,
    `delete_user_meta($u, 'k_post_limit_notice_shown')` when it does not.
   */
  function WithNotice(m: map<UserId, UserMeta>, u: UserId, b: bool): (r: map<UserId, UserMeta>)
    ensures u != 0 ==> MetaOf(r, u) == MetaOf(m, u).(noticeShown := b)
    ensures u == 0 ==> r == m
    ensures forall w :: w != u ==> MetaOf(r, w) == MetaOf(m, w)
  {
    if u == 0 then m else m[u := MetaOf(m, u).(noticeShown := b)]
  }

  /** The two messages attached under the code `post_limit_error`. */
  datatype ProfileError = LimitIncorrect | AlreadyOverLimit

  /** A capability of the post type's `cap` record: the primitive it maps to, or `false`. */
  datatype CapValue = Primitive(name: string) | Disabled

  const CreatePosts := "create_posts"
  const PublishPosts := "publish_posts"

  class Host {
    /** `get_current_user_id()`: 0 when nobody is logged in. */
    const currentUser: UserId
    /** `current_user_can('edit_users')` */
    const canEditUsers: bool
    /** `current_user_can('edit_user', $u)` */
    const canEditUser: UserId -> bool
    /** The number of posts a `WP_Query` by author and post type reports. */
    const postCount: (UserId, string) -> nat

    var meta: map<UserId, UserMeta>
    /** What the `user_profile_update_errors` callbacks will attach. */
    var profileErrors: seq<ProfileError>
    /** The `cap` record of the limited post type's object. */
    var caps: map<string, CapValue>

    constructor (currentUser: UserId, canEditUsers: bool, canEditUser: UserId -> bool,
                 postCount: (UserId, string) -> nat, meta: map<UserId, UserMeta>,
                 caps: map<string, CapValue>)
      ensures this.currentUser == currentUser && this.canEditUsers == canEditUsers
      ensures this.canEditUser == canEditUser && this.postCount == postCount
      ensures this.meta == meta && this.caps == caps && profileErrors == []
    {
      this.currentUser := currentUser;
      this.canEditUsers := canEditUsers;
      this.canEditUser := canEditUser;
      this.postCount := postCount;
      this.meta := meta;
      this.caps := caps;
      profileErrors := [];
    }

    /** `get_user_meta($u, 'k_post_limit', true)`; the `false` read for user 0 is falsy like the empty value. */
    function LimitOf(u: UserId): MetaInt
      reads this
    {
      MetaOf(meta, u).postLimit
    }

    /** `get_user_meta($u, 'k_post_limit_notice_shown', true) !== ''`: true for user 0, whose read is `false`. */
    function NoticeShown(u: UserId): bool
      reads this
    {
      u == 0 || MetaOf(meta, u).noticeShown
    }

    method UpdateLimit(u: UserId, v: MetaInt)
      modifies this`meta
      ensures meta == WithLimit(old(meta), u, v)
    {
      meta := WithLimit(meta, u, v);
    }

    method DeleteNoticeFlag(u: UserId)
      modifies this`meta
      ensures meta == WithNotice(old(meta), u, false)
    {
      meta := WithNotice(meta, u, false);
    }

    method AddNoticeFlag(u: UserId)
      modifies this`meta
      ensures meta == WithNotice(old(meta), u, true)
    {
      meta := WithNotice(meta, u, true);
    }

    method AddProfileError(e: ProfileError)
      modifies this`profileErrors
      ensures profileErrors == old(profileErrors) + [e]
    {
      profileErrors := profileErrors + [e];
    }
  }
}
