/** The bot's view of Telegram. Calls whose answer feeds a decision (membership
    status, photo count, whether a restrict or unrestrict goes through, the id of
    a sent message) are read from a `Remote` record given to each handler; calls
    whose only job is to act are appended to an effect log. The `Bot` object holds
    that log and the job queue of python-telegram-bot. */
module Platform {
  import opened Base
  import opened Constants
  import opened Database

  /** telegram.constants.ChatMemberStatus. */
  datatype MemberStatus = Owner | Administrator | Member | Restricted | Left | Banned

  datatype ChatKind = PrivateChat | GroupChat | SupergroupChat | ChannelChat

  datatype Chat = Chat(id: int, kind: ChatKind)

  datatype User = User(id: int, isBot: bool, username: Option<string>, fullName: string)

  /** How a call to `unrestrict_user` ends. */
  datatype CallResult = Succeeded | BadRequest | OtherError

  /** The answers Telegram gives, per user where the call is about a user. */
  datatype Remote = Remote(
    status: int -> Option<MemberStatus>,   // get_user_status: None when the lookup fails
    photoCount: int -> int,                // get_user_profile_photos(...).total_count
    restrictOk: int -> bool,               // restrict_chat_member goes through
    unrestrict: int -> CallResult,         // unrestrict_user
    member: int -> Option<User>,           // get_chat_member: None when it raises
    defaultPermissions: Permissions,       // get_chat(group).permissions
    challengeMessageId: int -> int,        // id of the captcha message sent for a user
    editOk: bool,                          // edit_message_text goes through
    chatLookupOk: int -> bool,             // get_chat(user) goes through
    timeNoticeOk: int -> bool)             // the sweep's notice about a user is sent

  /** How a notice names its user. */
  datatype Mention = AtUsername(username: string) | NameLink(userId: int, fullName: string) | PlainText(text: string)

  /** Notices posted to the warning topic of the group. A notice records the
      missing profile items, which the text joins with " dan ", and the time
      threshold in minutes, which the text shows with `FormatThresholdDisplay`. */
  datatype NoticeKind =
    | WarningNoRestriction(userId: int, missing: seq<string>, thresholdMinutes: int)
    | WarningWithThreshold(userId: int, missing: seq<string>, threshold: int, thresholdMinutes: int)
    | RestrictedAfterMessages(userId: int, messageCount: int, missing: seq<string>)
    | RestrictedAfterTime(mention: Mention, thresholdMinutes: int)
    | CaptchaWelcome(userId: int, timeoutSeconds: int, callbackData: string)
    | VerificationClearance(userId: int)

  /** Replies to the sender of a private message or command. */
  datatype ReplyKind =
    | NotInGroup
    | IncompleteProfile(missing: seq<string>)
    | NoBotRestriction
    | AlreadyUnrestricted
    | UnrestrictionSuccess
    | PrivateChatOnly
    | NotAdmin
    | NotANumber
    | VerifyUsage
    | UnverifyUsage
    | Verified(userId: int)
    | AlreadyOnWhitelist(userId: int)
    | Unverified(userId: int)
    | NotOnWhitelist(userId: int)

  /** Answers to a callback query (the toast shown to the presser). */
  datatype AnswerKind = Acknowledged | WrongUser | VerificationFailed

  /** The new text of a captcha message, naming the user. */
  datatype EditKind = CaptchaVerified(userId: int, fullName: string) | CaptchaTimedOut(userId: int, fullName: string)

  /** One call to Telegram that took effect. */
  datatype Effect =
    | PhotoLookup(userId: int)
    | Restrict(chatId: int, userId: int, permissions: Permissions)
    | Unrestrict(chatId: int, userId: int)
    | Notice(chatId: int, topicId: int, notice: NoticeKind)
    | Reply(reply: ReplyKind)
    | Answer(answer: AnswerKind)
    | Edit(chatId: int, messageId: int, edit: EditKind)

  /** How a handler ends: normally, or with an exception that escapes it. */
  datatype Failure = RestrictFailed | UnrestrictFailed | BadCallbackData | StoreFailed | LookupFailed
  datatype Outcome = Completed | Raised(failure: Failure)

  /** What a handler does: the tables it leaves, the calls it makes in order,
      and how it ends. */
  datatype Reaction = Reaction(tables: Tables, emitted: seq<Effect>, outcome: Outcome)

  /** Some effect restricts the given user. */
  predicate RestrictsUser(es: seq<Effect>, userId: int) {
    exists i :: 0 <= i < |es| && es[i].Restrict? && es[i].userId == userId
  }

  predicate NoRestrict(es: seq<Effect>) {
    forall i :: 0 <= i < |es| ==> !es[i].Restrict?
  }

  predicate NoNotice(es: seq<Effect>) {
    forall i :: 0 <= i < |es| ==> !es[i].Notice?
  }

  lemma NoRestrictAppend(a: seq<Effect>, b: seq<Effect>)
    requires NoRestrict(a) && NoRestrict(b)
    ensures NoRestrict(a + b)
  {
    forall i | 0 <= i < |a + b|
      ensures !(a + b)[i].Restrict?
    {
      if i >= |a| {
        assert (a + b)[i] == b[i - |a|];
      }
    }
  }

  /** The data a captcha timeout job carries. */
  datatype JobData = JobData(userId: int, groupId: int, chatId: int, messageId: int, userFullName: string)

  /** A job scheduled with `run_once`: its name, its delay in seconds and its data. */
  datatype Job = Job(name: string, when: int, data: JobData)

  /** What a handler that also schedules or cancels jobs does: the tables and
      the job queue it leaves, the calls it makes, how it ends. */
  datatype QueueReaction = QueueReaction(tables: Tables, jobs: seq<Job>, emitted: seq<Effect>, outcome: Outcome)

  /** The jobs left after removing every job with the given name. */
  function JobsWithout(jobs: seq<Job>, name: string): (r: seq<Job>)
    ensures forall j :: j in r <==> j in jobs && j.name != name
    ensures |r| <= |jobs|
  {
    if jobs == [] then []
    else
      var rest := JobsWithout(jobs[..|jobs| - 1], name);
      assert forall j :: j in jobs <==> j in jobs[..|jobs| - 1] || j == jobs[|jobs| - 1];
      if jobs[|jobs| - 1].name == name then rest else rest + [jobs[|jobs| - 1]]
  }

  function CountReplies(es: seq<Effect>): (n: nat)
    ensures n <= |es|
  {
    if es == [] then 0 else CountReplies(es[..|es| - 1]) + (if es[|es| - 1].Reply? then 1 else 0)
  }

  lemma {:induction false} CountRepliesAppend(a: seq<Effect>, b: seq<Effect>)
    ensures CountReplies(a + b) == CountReplies(a) + CountReplies(b)
    decreases |b|
  {
    if b != [] {
      assert (a + b)[..|a + b| - 1] == a + b[..|b| - 1];
      CountRepliesAppend(a, b[..|b| - 1]);
    } else {
      assert a + b == a;
    }
  }

  /** The effect log and the job queue. */
  class Bot {
    var effects: seq<Effect>
    var jobs: seq<Job>

    constructor ()
      ensures effects == [] && jobs == []
    {
      effects, jobs := [], [];
    }

    method Emit(e: Effect)
      modifies this
      ensures effects == old(effects) + [e] && jobs == old(jobs)
    {
      effects := effects + [e];
    }

    method EmitAll(es: seq<Effect>)
      modifies this
      ensures effects == old(effects) + es && jobs == old(jobs)
    {
      effects := effects + es;
    }

    /** `job_queue.run_once`. */
    method RunOnce(j: Job)
      modifies this
      ensures jobs == old(jobs) + [j] && effects == old(effects)
    {
      jobs := jobs + [j];
    }

    /** `get_jobs_by_name(name)` followed by `schedule_removal()` on each job found. */
    method CancelJobsByName(name: string)
      modifies this
      ensures jobs == JobsWithout(old(jobs), name) && effects == old(effects)
    {
      var kept: seq<Job> := [];
      var i := 0;
      while i < |jobs|
        invariant 0 <= i <= |jobs|
        invariant kept == JobsWithout(jobs[..i], name)
      {
        assert jobs[..i + 1][..i] == jobs[..i];
        if jobs[i].name != name {
          kept := kept + [jobs[i]];
        }
        i := i + 1;
      }
      assert jobs[..|jobs|] == jobs;
      jobs := kept;
    }
  }
}
