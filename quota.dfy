/**
  The decisions of the limiter as functions of the values it reads: the three
  quota predicates, the profile-save validator, the content-save gate, the
  capability stripping and the one-time notice latch.
 */
module Quota {
  import opened Php
  import opened HostApi

  // ---------------------------------------------------------------------------
  // Quota predicates

  /** An empty or zero stored limit means "unlimited". */
  function HasLimit(stored: MetaInt): (r: bool)
    ensures r <==> stored != None && stored != Some(0)
  {
    !(!TruthyMeta(stored) || stored == Some(0))
  }

  /** The user has a limit and has authored at least that many posts. */
  function AtOrOverLimit(stored: MetaInt, count: nat): (r: bool)
    ensures r <==> stored.Some? && stored.value != 0 && count >= stored.value
    ensures stored == None || stored == Some(0) ==> !r
  {
    HasLimit(stored) && CountReaches(count, stored)
  }

  /** The user has a limit and has authored exactly that many posts. */
  function AtLimit(stored: MetaInt, count: nat): (r: bool)
    ensures r <==> HasLimit(stored) && stored.value == count
  {
    HasLimit(stored) && stored.Some? && count == stored.value
  }

  /** Being exactly at the limit is a case of being at or over it, and never of being over it. */
  lemma AtLimitIsExact(stored: MetaInt, count: nat)
    ensures AtLimit(stored, count) ==> AtOrOverLimit(stored, count)
    ensures stored.Some? && count > stored.value ==> !AtLimit(stored, count)
  {
  }

  /**
    The numeric input in the profile form has `min="0"`, but
    `FILTER_VALIDATE_INT` accepts negative numbers: a negative limit is
    stored, and it holds its user over the limit whatever their count.
   */
  lemma NegativeLimitAlwaysOver(l: int, count: nat)
    requires l < 0
    ensures HasLimit(Some(l)) && AtOrOverLimit(Some(l), count)
  {
  }

  // ---------------------------------------------------------------------------
  // Profile save

  /** `filter_input(INPUT_POST, 'k-post-limit', FILTER_VALIDATE_INT)`: null, false or an int. */
  datatype LimitInput = Missing | Malformed | Integer(n: int)

  /** What `update_user_meta` stores for the input: an int, or the empty value for `null`. */
  function StoredForm(input: LimitInput): MetaInt {
    if input.Integer? then Some(input.n) else None
  }

  /** Truthiness of the parsed input: neither null, false nor 0. */
  predicate TruthyInput(input: LimitInput) {
    input.Integer? && input.n != 0
  }

  /** Whether the save writes the target's limit (and re-arms the target's notice). */
  datatype LimitWrite = Keep | Store(stored: MetaInt)

  datatype ProfileSaveOutcome = ProfileSaveOutcome(write: LimitWrite, errors: seq<ProfileError>)

  /**
    The profile-save validator, given the actor's permissions, the parsed
    input and the target's post count.
   */
  function ProfileSave(canEditUsers: bool, canEditTarget: bool, input: LimitInput, targetCount: nat): (o: ProfileSaveOutcome)
    // without edit_users nothing happens
    ensures !canEditUsers ==> o == ProfileSaveOutcome(Keep, [])
    // the limit is written exactly when the input parsed and the target may be edited
    ensures canEditUsers ==> (o.write.Store? <==> !input.Malformed? && canEditTarget)
    ensures o.write.Store? ==> o.write.stored == StoredForm(input)
    ensures o.write.Store? && input.Integer? ==> o.write.stored == Some(input.n)
    // otherwise "the post limit isn't correct"
    ensures canEditUsers ==> (LimitIncorrect in o.errors <==> o.write.Keep?)
    // the advisory, which never stands in the way of the write
    ensures AlreadyOverLimit in o.errors <==>
              canEditUsers && TruthyInput(input) && input.n < targetCount && canEditTarget
    ensures AlreadyOverLimit in o.errors ==> o.write.Store?
    ensures |o.errors| <= 1
  {
    if !canEditUsers then ProfileSaveOutcome(Keep, [])
    else
      var write := if !input.Malformed? && canEditTarget then Store(StoredForm(input)) else Keep;
      var incorrect := if write.Keep? then [LimitIncorrect] else [];
      var advisory := if TruthyInput(input) && input.n < targetCount && canEditTarget then [AlreadyOverLimit] else [];
      ProfileSaveOutcome(write, incorrect + advisory)
  }

  /** The metadata after a profile save: only the target's entry changes, and a write re-arms its notice. */
  function ProfileSaveMeta(m: map<UserId, UserMeta>, target: UserId, w: LimitWrite): (r: map<UserId, UserMeta>)
    ensures w.Keep? || target == 0 ==> r == m
    ensures w.Store? && target != 0 ==> MetaOf(r, target) == UserMeta(w.stored, false)
    ensures forall u :: u != target ==> MetaOf(r, u) == MetaOf(m, u)
  {
    match w
    case Keep => m
    case Store(v) => WithNotice(WithLimit(m, target, v), target, false)
  }

  // ---------------------------------------------------------------------------
  // Content save

  /** The fields of the post data array the gate looks at, and the rest. */
  datatype PostData = PostData(postType: string, postStatus: string, fields: map<string, string>)

  /** The filter returns the data, or `wp_die` ends the request. */
  datatype GateOutcome = Continue(data: PostData) | Halt(message: string)

  const TrashStatus := "trash"
  const OverLimitMessage := "You are over you post limit."

  /** A save of the limited type moving a post to the trash re-arms the actor's notice. */
  predicate ReArmsNotice(data: PostData, postType: string) {
    data.postType == postType && data.postStatus == TrashStatus
  }

  /** The content-save gate, given the actor's at-or-over predicate. */
  function ContentGate(data: PostData, postType: string, overLimit: bool): (r: GateOutcome)
    ensures r.Continue? ==> r.data == data
    ensures r.Halt? <==> data.postType == postType && data.postStatus != TrashStatus && overLimit
    ensures r.Halt? ==> r.message == OverLimitMessage
  {
    if data.postType != postType then Continue(data)
    else if data.postStatus == TrashStatus then Continue(data)
    else if overLimit then Halt(OverLimitMessage)
    else Continue(data)
  }

  /**
    A user with limit 3 and 3 posts cannot save a new post, can trash one, and
    with 2 posts left can save again.
   */
  lemma LimitThreeScenario(postType: string, draft: PostData, trashed: PostData)
    requires draft.postType == postType && draft.postStatus != TrashStatus
    requires trashed.postType == postType && trashed.postStatus == TrashStatus
    ensures ContentGate(draft, postType, AtOrOverLimit(Some(3), 3)) == Halt(OverLimitMessage)
    ensures ContentGate(trashed, postType, AtOrOverLimit(Some(3), 3)) == Continue(trashed)
    ensures ContentGate(draft, postType, AtOrOverLimit(Some(3), 2)) == Continue(draft)
  {
  }

  // ---------------------------------------------------------------------------
  // Capability stripping

  /** Sets the `create_posts` and `publish_posts` entries of the capability record to `Disabled`. */
  function StripCreation(caps: map<string, CapValue>): (r: map<string, CapValue>)
    ensures r.Keys == caps.Keys + {CreatePosts, PublishPosts}
    ensures r[CreatePosts] == Disabled && r[PublishPosts] == Disabled
    ensures forall k :: k in caps && k != CreatePosts && k != PublishPosts ==> r[k] == caps[k]
  {
    caps[CreatePosts := Disabled][PublishPosts := Disabled]
  }

  // ---------------------------------------------------------------------------
  // One-time notice

  /** Whether the admin notice is rendered, given the flag and the at-or-over predicate. */
  function NoticeRendered(shown: bool, overLimit: bool): (r: bool)
    ensures r ==> !shown
    ensures r <==> !shown && overLimit
  {
    if shown then false else overLimit
  }

  /** What happens to the actor's notice flag between requests. */
  datatype NoticeEvent = AdminNotices(overLimit: bool) | ReArm

  /**
    The number of notices rendered along a sequence of admin pages and
    re-arms, starting from the flag value `shown`.
   */
  function NoticeRenders(shown: bool, events: seq<NoticeEvent>): nat
    decreases |events|
  {
    if events == [] then 0
    else
      match events[0]
      case ReArm => NoticeRenders(false, events[1..])
      case AdminNotices(over) =>
        var r := NoticeRendered(shown, over);
        (if r then 1 else 0) + NoticeRenders(shown || r, events[1..])
  }

  /**
    Between two re-arms the notice is rendered at most once: never when the
    flag is already set, and otherwise exactly when some page is shown while
    the user is at or over the limit.
   */
  lemma {:induction false} OneNoticePerEpisode(shown: bool, events: seq<NoticeEvent>)
    requires forall i :: 0 <= i < |events| ==> events[i].AdminNotices?
    ensures NoticeRenders(shown, events) <= 1
    ensures shown ==> NoticeRenders(shown, events) == 0
    ensures !shown ==> (NoticeRenders(shown, events) == 1 <==>
                          exists i :: 0 <= i < |events| && events[i].overLimit)
    decreases |events|
  {
    if events != [] {
      var rest := events[1..];
      assert forall i :: 0 <= i < |rest| ==> rest[i] == events[i + 1];
      var over := events[0].overLimit;
      var r := NoticeRendered(shown, over);
      OneNoticePerEpisode(shown || r, rest);
      if !shown && !over {
        if exists i :: 0 <= i < |events| && events[i].overLimit {
          var i :| 0 <= i < |events| && events[i].overLimit;
          assert rest[i - 1].overLimit;
        }
        if exists i :: 0 <= i < |rest| && rest[i].overLimit {
          var i :| 0 <= i < |rest| && rest[i].overLimit;
          assert events[i + 1].overLimit;
        }
      }
    }
  }

  /**
    A re-arm forgets the flag: the pages after it render as from an unset
    flag, so the notice renders again while the user is still over the limit.
   */
  lemma ReArmRendersAgain(shown: bool, events: seq<NoticeEvent>)
    ensures NoticeRenders(shown, [ReArm] + events) == NoticeRenders(false, events)
    ensures NoticeRenders(shown, [ReArm, AdminNotices(true)] + events) >= 1
  {
    assert ([ReArm] + events)[1..] == events;
    assert ([ReArm, AdminNotices(true)] + events)[1..] == [AdminNotices(true)] + events;
    assert ([AdminNotices(true)] + events)[1..] == events;
  }

  /** A user with no limit is never stopped, never loses capabilities and never sees the notice. */
  lemma UnlimitedUserIsNeverRestricted(stored: MetaInt, count: nat, data: PostData, postType: string)
    requires stored == None || stored == Some(0)
    ensures !AtOrOverLimit(stored, count)
    ensures ContentGate(data, postType, AtOrOverLimit(stored, count)) == Continue(data)
    ensures !NoticeRendered(false, AtOrOverLimit(stored, count))
  {
  }

  /** User 0 reads no limit from any store, so a logged-out request is never stopped. */
  lemma LoggedOutUserIsNeverRestricted(m: map<UserId, UserMeta>, count: nat, data: PostData, postType: string)
    ensures !HasLimit(MetaOf(m, 0).postLimit)
    ensures ContentGate(data, postType, AtOrOverLimit(MetaOf(m, 0).postLimit, count)) == Continue(data)
  {
    UnlimitedUserIsNeverRestricted(MetaOf(m, 0).postLimit, count, data, postType);
  }
}
