/**
  The class `k_limit_posts_per_user`: the limited post type and six private
  properties filled lazily by its getters, and the handlers the host calls on profile render, profile
  save, content save, `init` and admin-notice render.
 */
module Enforcer {
  import opened Php
  import opened HostApi
  import opened Quota

  /** The post type limited when none is given. */
  const DefaultPostType := "post"

  class LimitPostsPerUser {
    const host: Host
    const postType: string

    var postLimit: Field<MetaInt>
    /** 0 stands for both `null` and a logged-out user: the getter treats them alike. */
    var userID: UserId
    var currentUserPostCount: Field<nat>
    /** The three boolean properties merge `null` with `false`: both are falsy and never compared strictly. */
    var userAtPostLimit: bool
    var userAtOrOverPostLimit: bool
    var userHasPostLimit: bool

    constructor (host: Host, postType: string)
      ensures this.host == host && this.postType == postType
      ensures postLimit == Null && userID == 0 && currentUserPostCount == Null
      ensures !userAtPostLimit && !userAtOrOverPostLimit && !userHasPostLimit
      ensures CacheAgrees()
    {
      this.host := host;
      this.postType := postType;
      postLimit := Null;
      userID := 0;
      currentUserPostCount := Null;
      userAtPostLimit := false;
      userAtOrOverPostLimit := false;
      userHasPostLimit := false;
    }

    /** The user the getters act for: the cached ID, or the host's current user. */
    function Actor(): UserId
      reads this
    {
      if userID != 0 then userID else host.currentUser
    }

    /**
      `_get_user_post_count_by_user($u)`: the host's count of `u`'s posts of the
      limited type. It reads no property, so no cache state can change it.
     */
    function PostCountByUser(u: UserId): (n: nat)
      ensures n == host.postCount(u, postType)
    {
      host.postCount(u, postType)
    }

    /**
      The loaded ID, limit and count hold what the host would give now for the
      current user, and a cached `true` of has-limit or at-or-over is what the
      host state implies; a cached `true` at-limit is only tied to has-limit.
      It holds of a new object and is kept by every handler except a profile
      save of the actor's own limit.
     */
    ghost predicate CacheAgrees()
      reads this, host
    {
      && (userID != 0 ==> userID == host.currentUser)
      && (postLimit.Val? ==> postLimit.v == host.LimitOf(host.currentUser))
      && (currentUserPostCount.Val? ==> currentUserPostCount.v == PostCountByUser(host.currentUser))
      && (userHasPostLimit ==> HasLimit(host.LimitOf(host.currentUser)))
      && (userAtPostLimit ==> HasLimit(host.LimitOf(host.currentUser)))
      && (userAtOrOverPostLimit ==> AtOrOverLimit(host.LimitOf(host.currentUser), PostCountByUser(host.currentUser)))
    }

    /**
      What the has-limit, post-count and limit getters leave in their
      properties when a quota getter evaluates `get_user_has_post_limit() &&`
      followed by a comparison of the count with the limit (the at-or-over
      getter's `count >= limit`, and the corrected at-limit getter's
      `count == limit`): nothing is read when the quota property was already
      truthy (`skipped`), and the count and the limit are read only when the
      user has a limit.
     */
    twostate predicate QuotaLoaded(skipped: bool)
      reads this
    {
      var has := old(userHasPostLimit) || (!skipped && old(HasLimit(host.LimitOf(Actor()))));
      var loads := !skipped && has;
      && userHasPostLimit == has
      && currentUserPostCount ==
           (if loads then MemoRead(TruthyCountField, old(currentUserPostCount), Val(PostCountByUser(old(Actor()))))
            else old(currentUserPostCount))
      && postLimit ==
           (if loads then MemoRead(TruthyLimitField, old(postLimit), Val(old(host.LimitOf(Actor()))))
            else old(postLimit))
    }

    /** The user-ID property after the same evaluation: read whenever one of the three getters misses its cache. */
    twostate predicate QuotaReadsUserID(skipped: bool)
      reads this
    {
      var misses := !skipped &&
                    (!old(userHasPostLimit) || !TruthyCountField(old(currentUserPostCount)) || !TruthyLimitField(old(postLimit)));
      userID == if misses then MemoRead<UserId>(NonZero, old(userID), host.currentUser) else old(userID)
    }

    /** The properties after one call of the at-or-over getter, apart from the user ID. */
    twostate predicate AtOrOverEvaluated()
      reads this
    {
      && QuotaLoaded(old(userAtOrOverPostLimit))
      && userAtOrOverPostLimit ==
           (old(userAtOrOverPostLimit) ||
            (userHasPostLimit && currentUserPostCount.Val? && postLimit.Val? &&
             CountReaches(currentUserPostCount.v, postLimit.v)))
    }

    // -------------------------------------------------------------------------
    // Memoised getters

    method GetUserID() returns (id: UserId)
      modifies this`userID
      ensures userID == MemoRead(NonZero, old(userID), host.currentUser)
      ensures id == userID && id == old(Actor()) && Actor() == old(Actor())
      ensures old(CacheAgrees()) ==> CacheAgrees() && id == host.currentUser
    {
      if !NonZero(userID) {
        userID := host.currentUser;
      }
      id := userID;
    }

    method GetPostLimit() returns (limit: MetaInt)
      modifies this`postLimit, this`userID
      ensures postLimit == MemoRead(TruthyLimitField, old(postLimit), Val(host.LimitOf(old(Actor()))))
      ensures userID == if TruthyLimitField(old(postLimit)) then old(userID) else MemoRead(NonZero, old(userID), host.currentUser)
      ensures postLimit == Val(limit) && Actor() == old(Actor())
      ensures old(CacheAgrees()) ==> CacheAgrees() && limit == host.LimitOf(host.currentUser)
    {
      if !TruthyLimitField(postLimit) {
        var id := GetUserID();
        postLimit := Val(host.LimitOf(id));
      }
      limit := postLimit.v;
    }

    method GetUserPostCount() returns (count: nat)
      modifies this`currentUserPostCount, this`userID
      ensures currentUserPostCount == MemoRead(TruthyCountField, old(currentUserPostCount), Val(PostCountByUser(old(Actor()))))
      ensures userID == if TruthyCountField(old(currentUserPostCount)) then old(userID) else MemoRead(NonZero, old(userID), host.currentUser)
      ensures currentUserPostCount == Val(count) && Actor() == old(Actor())
      ensures old(CacheAgrees()) ==> CacheAgrees() && count == PostCountByUser(host.currentUser)
    {
      if !TruthyCountField(currentUserPostCount) {
        var id := GetUserID();
        currentUserPostCount := Val(PostCountByUser(id));
      }
      count := currentUserPostCount.v;
    }

    /** Reads the stored limit itself; it does not fill `_post_limit`. */
    method GetUserHasPostLimit() returns (has: bool)
      modifies this`userHasPostLimit, this`userID
      ensures userHasPostLimit == (old(userHasPostLimit) || HasLimit(host.LimitOf(old(Actor()))))
      ensures userID == if old(userHasPostLimit) then old(userID) else MemoRead(NonZero, old(userID), host.currentUser)
      ensures has == userHasPostLimit && Actor() == old(Actor())
      ensures old(CacheAgrees()) ==> CacheAgrees() && has == HasLimit(host.LimitOf(host.currentUser))
    {
      if !userHasPostLimit {
        var id := GetUserID();
        var stored := host.LimitOf(id);
        if !TruthyMeta(stored) || stored == Some(0) {
          userHasPostLimit := false;
        } else {
          userHasPostLimit := true;
        }
      }
      has := userHasPostLimit;
    }

    /**
      As written in `get_user_at_post_limit`: compares the raw `_post_limit` and
      `_current_user_post_count` properties, so it reports "at the limit" for a
      limited user exactly while neither property has been loaded.
     */
    method GetUserAtPostLimit() returns (atLimit: bool)
      modifies this`userAtPostLimit, this`userHasPostLimit, this`userID
      ensures old(userAtPostLimit) ==> atLimit && unchanged(this)
      ensures !old(userAtPostLimit) ==> atLimit == (userHasPostLimit && StrictlyIdentical(postLimit, currentUserPostCount))
      ensures !old(userAtPostLimit) ==> userHasPostLimit == (old(userHasPostLimit) || HasLimit(host.LimitOf(old(Actor()))))
      ensures userID == if !old(userAtPostLimit) && !old(userHasPostLimit) then MemoRead<UserId>(NonZero, old(userID), host.currentUser) else old(userID)
      ensures atLimit == userAtPostLimit && Actor() == old(Actor())
      ensures old(CacheAgrees()) ==> CacheAgrees()
      ensures old(CacheAgrees()) && !old(userAtPostLimit) ==>
                (atLimit <==> HasLimit(host.LimitOf(host.currentUser)) && postLimit.Null? && currentUserPostCount.Null?)
    {
      if !userAtPostLimit {
        var has := GetUserHasPostLimit();
        userAtPostLimit := has && StrictlyIdentical(postLimit, currentUserPostCount);
      }
      atLimit := userAtPostLimit;
    }

    /** The evidently intended at-limit getter: compares the loaded values through their getters. */
    method GetUserAtPostLimitCorrected() returns (atLimit: bool)
      modifies this`userAtPostLimit, this`userHasPostLimit, this`userID, this`currentUserPostCount, this`postLimit
      ensures old(userAtPostLimit) ==> atLimit && unchanged(this)
      ensures QuotaLoaded(old(userAtPostLimit)) && QuotaReadsUserID(old(userAtPostLimit))
      ensures !old(userAtPostLimit) ==>
                (atLimit <==> userHasPostLimit && currentUserPostCount.Val? && postLimit.Val? &&
                              postLimit.v == Some(currentUserPostCount.v))
      ensures atLimit == userAtPostLimit && Actor() == old(Actor())
      ensures old(CacheAgrees()) ==> CacheAgrees()
      ensures old(CacheAgrees()) && !old(userAtPostLimit) ==>
                atLimit == AtLimit(host.LimitOf(host.currentUser), PostCountByUser(host.currentUser))
    {
      if !userAtPostLimit {
        var has := GetUserHasPostLimit();
        if has {
          var count := GetUserPostCount();
          var limit := GetPostLimit();
          userAtPostLimit := limit.Some? && count == limit.value;
        } else {
          userAtPostLimit := false;
        }
      }
      atLimit := userAtPostLimit;
    }

    /** Reads the post count and the limit only when the user has a limit. */
    method GetUserAtOrOverPostLimit() returns (over: bool)
      modifies this`userAtOrOverPostLimit, this`userHasPostLimit, this`userID, this`currentUserPostCount, this`postLimit
      ensures old(userAtOrOverPostLimit) ==> over && unchanged(this)
      ensures AtOrOverEvaluated() && QuotaReadsUserID(old(userAtOrOverPostLimit))
      ensures over == userAtOrOverPostLimit && Actor() == old(Actor())
      ensures old(CacheAgrees()) ==> (CacheAgrees() &&
                over == AtOrOverLimit(host.LimitOf(host.currentUser), PostCountByUser(host.currentUser)))
    {
      if !userAtOrOverPostLimit {
        var has := GetUserHasPostLimit();
        if has {
          var count := GetUserPostCount();
          var limit := GetPostLimit();
          userAtOrOverPostLimit := CountReaches(count, limit);
        } else {
          userAtOrOverPostLimit := false;
        }
      }
      over := userAtOrOverPostLimit;
    }

    // -------------------------------------------------------------------------
    // Handlers

    /**
      The permission guard of the profile section and the value it seeds the
      input with; None when the section is not shown.
     */
    method AddPostLimitSection(user: UserId) returns (section: Option<int>)
      ensures section.None? <==> !host.canEditUsers
      ensures section.Some? && HasLimit(host.LimitOf(user)) ==> section.value == host.LimitOf(user).value
      ensures section.Some? && !HasLimit(host.LimitOf(user)) ==> section.value == 0
    {
      if !host.canEditUsers {
        return None;
      }
      var limit := 0;
      var stored := host.LimitOf(user);
      if TruthyMeta(stored) {
        limit := stored.value;
      }
      section := Some(limit);
    }

    /** The profile-save validator for the edited user `target`. */
    method SavePostLimitFields(target: UserId, input: LimitInput)
      modifies host`meta, host`profileErrors
      ensures var o := ProfileSave(host.canEditUsers, host.canEditUser(target), input, PostCountByUser(target));
              host.meta == ProfileSaveMeta(old(host.meta), target, o.write) &&
              host.profileErrors == old(host.profileErrors) + o.errors
      ensures old(CacheAgrees()) && target != host.currentUser ==> CacheAgrees()
    {
      if !host.canEditUsers {
        return;
      }
      if !input.Malformed? && host.canEditUser(target) {
        host.UpdateLimit(target, StoredForm(input));
        host.DeleteNoticeFlag(target);
      } else {
        host.AddProfileError(LimitIncorrect);
      }
      if TruthyInput(input) && input.n < PostCountByUser(target) && host.canEditUser(target) {
        host.AddProfileError(AlreadyOverLimit);
      }
    }

    /** The `wp_insert_post_data` filter. */
    method CheckPostLimit(data: PostData) returns (r: GateOutcome)
      modifies this`userAtOrOverPostLimit, this`userHasPostLimit, this`userID, this`currentUserPostCount, this`postLimit
      modifies host`meta
      ensures r == ContentGate(data, postType, userAtOrOverPostLimit)
      ensures host.meta == if ReArmsNotice(data, postType) then WithNotice(old(host.meta), old(Actor()), false) else old(host.meta)
      ensures data.postType != postType ==> unchanged(this)
      ensures ReArmsNotice(data, postType) ==>
                userAtOrOverPostLimit == old(userAtOrOverPostLimit) && userHasPostLimit == old(userHasPostLimit) &&
                currentUserPostCount == old(currentUserPostCount) && postLimit == old(postLimit) &&
                userID == MemoRead(NonZero, old(userID), host.currentUser)
      ensures data.postType == postType && !ReArmsNotice(data, postType) ==>
                AtOrOverEvaluated() && QuotaReadsUserID(old(userAtOrOverPostLimit))
      ensures Actor() == old(Actor())
      ensures old(CacheAgrees()) ==> (CacheAgrees() &&
                r == ContentGate(data, postType, AtOrOverLimit(host.LimitOf(host.currentUser), PostCountByUser(host.currentUser))))
    {
      if data.postType != postType {
        return Continue(data);
      }
      if data.postStatus == TrashStatus {
        var id := GetUserID();
        host.DeleteNoticeFlag(id);
        return Continue(data);
      }
      var over := GetUserAtOrOverPostLimit();
      if over {
        r := Halt(OverLimitMessage);
      } else {
        r := Continue(data);
      }
    }

    /** The `init` handler: hides the creation affordances for this request only. */
    method RemoveAddNewButtons()
      modifies this`userAtOrOverPostLimit, this`userHasPostLimit, this`userID, this`currentUserPostCount, this`postLimit
      modifies host`caps
      ensures host.caps == if userAtOrOverPostLimit then StripCreation(old(host.caps)) else old(host.caps)
      ensures AtOrOverEvaluated() && QuotaReadsUserID(old(userAtOrOverPostLimit))
      ensures Actor() == old(Actor())
      ensures old(CacheAgrees()) ==> (CacheAgrees() &&
                userAtOrOverPostLimit == AtOrOverLimit(host.LimitOf(host.currentUser), PostCountByUser(host.currentUser)))
    {
      var over := GetUserAtOrOverPostLimit();
      if over {
        host.caps := host.caps[CreatePosts := Disabled];
        host.caps := host.caps[PublishPosts := Disabled];
      }
    }

    /** The `admin_notices` handler: renders the warning once per episode and sets the flag. */
    method ShowPostLimitMessage() returns (rendered: bool)
      modifies this`userAtOrOverPostLimit, this`userHasPostLimit, this`userID, this`currentUserPostCount, this`postLimit
      modifies host`meta
      ensures rendered == NoticeRendered(old(host.NoticeShown(Actor())), userAtOrOverPostLimit)
      ensures host.meta == if rendered then WithNotice(old(host.meta), old(Actor()), true) else old(host.meta)
      ensures old(host.NoticeShown(Actor())) ==>
                userAtOrOverPostLimit == old(userAtOrOverPostLimit) && userHasPostLimit == old(userHasPostLimit) &&
                currentUserPostCount == old(currentUserPostCount) && postLimit == old(postLimit)
      ensures !old(host.NoticeShown(Actor())) ==> AtOrOverEvaluated()
      ensures userID == MemoRead(NonZero, old(userID), host.currentUser) && Actor() == old(Actor())
      ensures old(CacheAgrees()) ==> (CacheAgrees() &&
                rendered == NoticeRendered(old(host.NoticeShown(host.currentUser)),
                                           AtOrOverLimit(host.LimitOf(host.currentUser), PostCountByUser(host.currentUser))))
    {
      var id := GetUserID();
      rendered := false;
      if !host.NoticeShown(id) {
        var over := GetUserAtOrOverPostLimit();
        if over {
          rendered := true;
          id := GetUserID();
          host.AddNoticeFlag(id);
        }
      }
    }
  }

  /**
    The as-written at-limit comparison on two inputs. A fresh object for a user with limit 3 and no posts
    reports "exactly at the limit"; once the at-or-over getter has loaded both
    properties, a user with limit 3 and 3 posts is reported not at the limit.
   */
  method AtLimitAsWrittenMisreports() returns (freshReport: bool, loadedReport: bool)
    ensures freshReport && !AtLimit(Some(3), 0)
    ensures !loadedReport && AtLimit(Some(3), 3)
  {
    var idle := new Host(7, false, _ => false, (_, _) => 0, map[7 := UserMeta(Some(3), false)], map[]);
    var k := new LimitPostsPerUser(idle, DefaultPostType);
    freshReport := k.GetUserAtPostLimit();

    var full := new Host(7, false, _ => false, (_, _) => 3, map[7 := UserMeta(Some(3), false)], map[]);
    var k' := new LimitPostsPerUser(full, DefaultPostType);
    var over := k'.GetUserAtOrOverPostLimit();
    loadedReport := k'.GetUserAtPostLimit();
  }

  /**
    With limit 5 and 2 posts the corrected getter, run after the at-or-over
    getter has loaded both properties, reports "not at the limit".
   */
  method CorrectedAtLimitAfterAtOrOver() returns (over: bool, atLimit: bool)
    ensures !over && !atLimit
  {
    var h := new Host(7, false, _ => false, (_, _) => 2, map[7 := UserMeta(Some(5), false)], map[]);
    var k := new LimitPostsPerUser(h, DefaultPostType);
    over := k.GetUserAtOrOverPostLimit();
    atLimit := k.GetUserAtPostLimitCorrected();
  }

  /** The corrected getter on the same two inputs. */
  method AtLimitCorrectedOnSameInputs() returns (freshReport: bool, loadedReport: bool)
    ensures !freshReport && loadedReport
  {
    var idle := new Host(7, false, _ => false, (_, _) => 0, map[7 := UserMeta(Some(3), false)], map[]);
    var k := new LimitPostsPerUser(idle, DefaultPostType);
    freshReport := k.GetUserAtPostLimitCorrected();

    var full := new Host(7, false, _ => false, (_, _) => 3, map[7 := UserMeta(Some(3), false)], map[]);
    var k' := new LimitPostsPerUser(full, DefaultPostType);
    var over := k'.GetUserAtOrOverPostLimit();
    loadedReport := k'.GetUserAtPostLimitCorrected();
  }
}
