/** The captcha handlers (src/bot/handlers/captcha.py): new members are muted
    and challenged with a button, with a timeout job per challenge; pressing the
    button as the challenged user lifts the mute; the timeout job expires the
    challenge. */
module Captcha {
  import opened Base
  import opened Text
  import opened Constants
  import opened Models
  import opened Database
  import opened Config
  import opened Platform
  import opened CaptchaNames
  import opened CaptchaRecovery

  /** A new-members update; `chat` is the effective chat, when there is one. */
  datatype NewMembersUpdate = NewMembersUpdate(members: seq<User>, chat: Option<Chat>)

  /** A press of an inline button: who pressed, the button's data, and the
      message the button is on. */
  datatype CallbackQuery = CallbackQuery(from: User, data: string, chatId: int, messageId: int)

  /** A member is challenged when it is not a bot and muting it goes through. */
  predicate Admitted(remote: Remote, m: User) {
    !m.isBot && remote.restrictOk(m.id)
  }

  /** The pending row recorded for a challenged member: the challenge message
      is posted in the group itself. */
  function Challenge(s: Settings, remote: Remote, now: int, m: User): (p: PendingCaptcha)
    ensures p.Key() == (m.id, s.groupId)
  {
    PendingCaptcha(m.id, s.groupId, s.groupId, remote.challengeMessageId(m.id), m.fullName, now)
  }

  /** The effects of challenging a member: the mute, then the welcome message
      with the member's own button. */
  function ChallengeEffects(s: Settings, m: User): seq<Effect> {
    [Restrict(s.groupId, m.id, RestrictedPermissions()),
     Notice(s.groupId, s.warningTopicId, CaptchaWelcome(m.id, s.captchaTimeoutSeconds, CallbackData(m.id)))]
  }

  /** One iteration of the loop of `new_member_handler`. */
  function AdmitMember(t: Tables, jobs: seq<Job>, s: Settings, remote: Remote, now: int, m: User)
    : (Tables, seq<Job>, seq<Effect>)
  {
    if m.isBot then (t, jobs, [])
    else if !remote.restrictOk(m.id) then (t, jobs, [])
    else
      var p := Challenge(s, remote, now, m);
      (AddPending(t, p), jobs + [TimeoutJob(p, s.captchaTimeoutSeconds)], ChallengeEffects(s, m))
  }

  function AdmitFold(t: Tables, jobs: seq<Job>, s: Settings, remote: Remote, now: int, members: seq<User>)
    : (Tables, seq<Job>, seq<Effect>)
    decreases |members|
  {
    if members == [] then (t, jobs, [])
    else
      var f := AdmitFold(t, jobs, s, remote, now, members[..|members| - 1]);
      var o := AdmitMember(f.0, f.1, s, remote, now, members[|members| - 1]);
      (o.0, o.1, f.2 + o.2)
  }

  /** `new_member_handler`. */
  function NewMembersStep(t: Tables, jobs: seq<Job>, s: Settings, remote: Remote, now: int, u: NewMembersUpdate)
    : QueueReaction
  {
    if |u.members| == 0 then QueueReaction(t, jobs, [], Completed)
    else if !s.captchaEnabled then QueueReaction(t, jobs, [], Completed)
    else if u.chat.Some? && u.chat.value.id != s.groupId then QueueReaction(t, jobs, [], Completed)
    else
      var f := AdmitFold(t, jobs, s, remote, now, u.members);
      QueueReaction(f.0, f.1, f.2, Completed)
  }

  /** `captcha_callback_handler`. */
  function CallbackStep(t: Tables, jobs: seq<Job>, s: Settings, remote: Remote, query: Option<CallbackQuery>)
    : QueueReaction
  {
    if query.None? || query.value.data == "" then QueueReaction(t, jobs, [], Completed)
    else
      var q := query.value;
      var ack := [Answer(Acknowledged)];
      match CallbackTarget(q.data)
      case None => QueueReaction(t, jobs, ack, Raised(BadCallbackData))
      case Some(target) =>
        if q.from.id != target then QueueReaction(t, jobs, ack + [Answer(WrongUser)], Completed)
        else
          var v := AcceptPress(t, jobs, s, remote, q);
          QueueReaction(v.tables, v.jobs, ack + v.emitted, v.outcome)
  }

  /** The challenged user's own press, after the acknowledgement: the timeout
      jobs are cancelled, then the unmute is tried; only when it goes through
      is the pending row removed and the message edited. */
  function AcceptPress(t: Tables, jobs: seq<Job>, s: Settings, remote: Remote, q: CallbackQuery): QueueReaction {
    var u := q.from.id;
    var kept := JobsWithout(jobs, JobName(s.groupId, u));
    if remote.unrestrict(u) != Succeeded then
      QueueReaction(t, kept, [Answer(VerificationFailed)], Completed)
    else
      var edit := if remote.editOk then [Edit(q.chatId, q.messageId, CaptchaVerified(u, q.from.fullName))] else [];
      QueueReaction(RemovePending(t, u, s.groupId), kept, [Unrestrict(s.groupId, u)] + edit, Completed)
  }

  /** `captcha_timeout_callback`: the expiry of the challenge the job names. */
  function TimeoutCallbackStep(t: Tables, remote: Remote, job: Option<Job>, now: int): Reaction {
    if job.None? then Reaction(t, [], Completed)
    else
      var d := job.value.data;
      ExpireStep(t, remote, d.userId, d.groupId, d.chatId, d.messageId, d.userFullName, now)
  }

  // ---------------------------------------------------------------------------
  // New members

  /** A one-member update is that member's iteration. */
  lemma AdmitFoldSingle(t: Tables, jobs: seq<Job>, s: Settings, remote: Remote, now: int, m: User)
    ensures AdmitFold(t, jobs, s, remote, now, [m]) == AdmitMember(t, jobs, s, remote, now, m)
  {
    assert [m][..0] == [];
    var o := AdmitMember(t, jobs, s, remote, now, m);
    assert [] + o.2 == o.2;
  }

  /** Nothing happens for an update without members, with captcha switched
      off, or from another chat. */
  lemma NewMembersIgnored(t: Tables, jobs: seq<Job>, s: Settings, remote: Remote, now: int, u: NewMembersUpdate)
    requires |u.members| == 0 || !s.captchaEnabled || (u.chat.Some? && u.chat.value.id != s.groupId)
    ensures NewMembersStep(t, jobs, s, remote, now, u) == QueueReaction(t, jobs, [], Completed)
  {
  }

  /** What the loop never touches: the warning rows and the whitelist; the
      store stays well formed, pending rows are only added, and jobs only
      appended. */
  lemma {:induction false} AdmitFoldKeeps(t: Tables, jobs: seq<Job>, s: Settings, remote: Remote, now: int,
                                          members: seq<User>)
    requires WellFormed(t)
    ensures var f := AdmitFold(t, jobs, s, remote, now, members);
      && WellFormed(f.0)
      && f.0.warnings == t.warnings && f.0.whitelist == t.whitelist
      && t.pending.Keys <= f.0.pending.Keys
      && |jobs| <= |f.1| && f.1[..|jobs|] == jobs
    decreases |members|
  {
    if members != [] {
      var front := members[..|members| - 1];
      var m := members[|members| - 1];
      AdmitFoldKeeps(t, jobs, s, remote, now, front);
      var f := AdmitFold(t, jobs, s, remote, now, front);
      PendingOpsPreserveWellFormed(f.0, Challenge(s, remote, now, m), m.id, s.groupId);
      var o := AdmitMember(f.0, f.1, s, remote, now, m);
      assert o.1[..|f.1|] == f.1;
      assert o.1[..|jobs|] == jobs;
    }
  }

  /** Every admitted member is challenged: a pending row for the group with
      the challenge message's id, a timeout job under its own name for the
      configured timeout, the mute and the welcome message with its button. */
  lemma {:induction false} AdmitFoldChallengesEach(t: Tables, jobs: seq<Job>, s: Settings, remote: Remote, now: int,
                                                   members: seq<User>)
    ensures var f := AdmitFold(t, jobs, s, remote, now, members);
      forall m :: m in members && Admitted(remote, m) ==>
        && (m.id, s.groupId) in f.0.pending
        && f.0.pending[(m.id, s.groupId)].messageId == remote.challengeMessageId(m.id)
        && TimeoutJob(Challenge(s, remote, now, m), s.captchaTimeoutSeconds) in f.1
        && Restrict(s.groupId, m.id, RestrictedPermissions()) in f.2
        && Notice(s.groupId, s.warningTopicId, CaptchaWelcome(m.id, s.captchaTimeoutSeconds, CallbackData(m.id))) in f.2
    decreases |members|
  {
    if members != [] {
      var front := members[..|members| - 1];
      var m := members[|members| - 1];
      assert forall x :: x in members <==> x in front || x == m;
      AdmitFoldChallengesEach(t, jobs, s, remote, now, front);
      var f := AdmitFold(t, jobs, s, remote, now, front);
      var o := AdmitMember(f.0, f.1, s, remote, now, m);
      assert forall e :: e in f.2 ==> e in f.2 + o.2;
      assert forall e :: e in o.2 ==> e in f.2 + o.2;
      assert forall j :: j in f.1 ==> j in o.1;
      forall x | x in members && Admitted(remote, x)
        ensures (x.id, s.groupId) in o.0.pending
        ensures o.0.pending[(x.id, s.groupId)].messageId == remote.challengeMessageId(x.id)
      {
      }
    }
  }

  /** Only admitted members are challenged: every job the loop adds, every
      pending row it adds and every mute it makes belong to one. */
  lemma {:induction false} AdmitFoldChallengesOnly(t: Tables, jobs: seq<Job>, s: Settings, remote: Remote, now: int,
                                                   members: seq<User>)
    ensures var f := AdmitFold(t, jobs, s, remote, now, members);
      && |jobs| <= |f.1|
      && (forall j :: j in f.1[|jobs|..] ==>
            exists m :: m in members && Admitted(remote, m) && j == TimeoutJob(Challenge(s, remote, now, m), s.captchaTimeoutSeconds))
      && (forall k :: k in f.0.pending && k !in t.pending ==>
            exists m :: m in members && Admitted(remote, m) && k == (m.id, s.groupId))
      && (forall e :: e in f.2 && e.Restrict? ==>
            exists m :: m in members && Admitted(remote, m) && e == Restrict(s.groupId, m.id, RestrictedPermissions()))
    decreases |members|
  {
    if members != [] {
      var front := members[..|members| - 1];
      var m := members[|members| - 1];
      assert forall x :: x in members <==> x in front || x == m;
      AdmitFoldChallengesOnly(t, jobs, s, remote, now, front);
      var f := AdmitFold(t, jobs, s, remote, now, front);
      var o := AdmitMember(f.0, f.1, s, remote, now, m);
      assert o.1 == f.1 || o.1 == f.1 + [TimeoutJob(Challenge(s, remote, now, m), s.captchaTimeoutSeconds)];
      forall j | j in o.1[|jobs|..]
        ensures exists x :: x in members && Admitted(remote, x) && j == TimeoutJob(Challenge(s, remote, now, x), s.captchaTimeoutSeconds)
      {
        var k :| |jobs| <= k < |o.1| && o.1[k] == j;
        if k < |f.1| {
          assert f.1[|jobs|..][k - |jobs|] == j;
          assert j in f.1[|jobs|..];
          var x :| x in front && Admitted(remote, x) && j == TimeoutJob(Challenge(s, remote, now, x), s.captchaTimeoutSeconds);
          assert x in members;
        } else {
          assert m in members;
        }
      }
      forall k | k in o.0.pending && k !in t.pending
        ensures exists x :: x in members && Admitted(remote, x) && k == (x.id, s.groupId)
      {
        if k in f.0.pending {
          var x :| x in front && Admitted(remote, x) && k == (x.id, s.groupId);
          assert x in members;
        } else {
          assert m in members;
        }
      }
      forall e | e in f.2 + o.2 && e.Restrict?
        ensures exists x :: x in members && Admitted(remote, x) && e == Restrict(s.groupId, x.id, RestrictedPermissions())
      {
        if e in f.2 {
          var x :| x in front && Admitted(remote, x) && e == Restrict(s.groupId, x.id, RestrictedPermissions());
          assert x in members;
        } else {
          assert m in members;
        }
      }
    }
  }

  // ---------------------------------------------------------------------------
  // The button

  /** The button a member was sent names that member, so the member's own
      press is never refused as someone else's. */
  lemma OwnButtonIsAccepted(t: Tables, jobs: seq<Job>, s: Settings, remote: Remote, q: CallbackQuery)
    requires q.data == CallbackData(q.from.id)
    ensures var r := CallbackStep(t, jobs, s, remote, Some(q));
      r.outcome == Completed && Answer(WrongUser) !in r.emitted
  {
    CallbackRoundTrip(q.from.id);
    OwnPressReaction(t, jobs, s, remote, q);
  }

  /** A press by the challenged user is answered, then handled by `AcceptPress`,
      which never answers that the button is someone else's. */
  lemma OwnPressReaction(t: Tables, jobs: seq<Job>, s: Settings, remote: Remote, q: CallbackQuery)
    requires CallbackTarget(q.data) == Some(q.from.id)
    ensures var v := AcceptPress(t, jobs, s, remote, q);
      var r := CallbackStep(t, jobs, s, remote, Some(q));
      && v.outcome == Completed
      && r == QueueReaction(v.tables, v.jobs, [Answer(Acknowledged)] + v.emitted, Completed)
      && Answer(WrongUser) !in r.emitted
  {
    assert CallbackTarget("") == None;
    var u := q.from.id;
    var r := CallbackStep(t, jobs, s, remote, Some(q));
    var edit := Edit(q.chatId, q.messageId, CaptchaVerified(u, q.from.fullName));
    if remote.unrestrict(u) != Succeeded {
      assert r.emitted == [Answer(Acknowledged), Answer(VerificationFailed)];
    } else if remote.editOk {
      assert r.emitted == [Answer(Acknowledged), Unrestrict(s.groupId, u), edit];
    } else {
      assert r.emitted == [Answer(Acknowledged), Unrestrict(s.groupId, u)];
    }
  }

  /** Data routed to the handler by its pattern always parses, so the handler
      never fails on it. */
  lemma RoutedCallbackNeverRaises(t: Tables, jobs: seq<Job>, s: Settings, remote: Remote, q: CallbackQuery)
    requires MatchesCallbackPattern(q.data)
    ensures CallbackStep(t, jobs, s, remote, Some(q)).outcome == Completed
  {
    PatternMatchParses(q.data);
  }

  /** Someone else's press is answered with an alert and changes nothing. */
  lemma WrongUserChangesNothing(t: Tables, jobs: seq<Job>, s: Settings, remote: Remote, q: CallbackQuery)
    requires q.data != ""
    requires CallbackTarget(q.data).Some? && CallbackTarget(q.data).value != q.from.id
    ensures CallbackStep(t, jobs, s, remote, Some(q))
            == QueueReaction(t, jobs, [Answer(Acknowledged), Answer(WrongUser)], Completed)
  {
  }

  /** A successful verification: the user's pending row is removed (and no
      other), every timeout job of the user is cancelled and every other job
      kept, the user is unmuted and the message edited when that goes through;
      the warning rows and the whitelist stay as they were. */
  lemma VerificationSucceeds(t: Tables, jobs: seq<Job>, s: Settings, remote: Remote, q: CallbackQuery)
    requires q.data != "" && CallbackTarget(q.data) == Some(q.from.id)
    requires remote.unrestrict(q.from.id) == Succeeded
    ensures var u := q.from.id;
      var r := CallbackStep(t, jobs, s, remote, Some(q));
      && r.outcome == Completed
      && r.tables == t.(pending := t.pending - {(u, s.groupId)})
      && (forall j :: j in r.jobs <==> j in jobs && j.name != JobName(s.groupId, u))
      && (forall j :: j in jobs && j.data.groupId == s.groupId && j.data.userId != u && j.name == JobName(j.data.groupId, j.data.userId)
            ==> j in r.jobs)
      && Unrestrict(s.groupId, u) in r.emitted
      && (Edit(q.chatId, q.messageId, CaptchaVerified(u, q.from.fullName)) in r.emitted <==> remote.editOk)
  {
    var u := q.from.id;
    OwnPressReaction(t, jobs, s, remote, q);
    var r := CallbackStep(t, jobs, s, remote, Some(q));
    assert r.tables == RemovePending(t, u, s.groupId);
    assert r.jobs == JobsWithout(jobs, JobName(s.groupId, u));
    forall j | j in jobs && j.data.groupId == s.groupId && j.data.userId != u && j.name == JobName(j.data.groupId, j.data.userId)
      ensures j in r.jobs
    {
      if j.name == JobName(s.groupId, u) {
        JobNameInjective(j.data.groupId, j.data.userId, s.groupId, u);
      }
    }
    var edit := Edit(q.chatId, q.messageId, CaptchaVerified(u, q.from.fullName));
    if remote.editOk {
      assert r.emitted == [Answer(Acknowledged), Unrestrict(s.groupId, u), edit];
    } else {
      assert r.emitted == [Answer(Acknowledged), Unrestrict(s.groupId, u)];
    }
  }

  /** A failed unmute keeps the pending row so that the user can press again,
      but the timeout jobs were already cancelled: until the user retries or
      the bot restarts, nothing expires this challenge. */
  lemma UnrestrictFailureKeepsPending(t: Tables, jobs: seq<Job>, s: Settings, remote: Remote, q: CallbackQuery)
    requires q.data != "" && CallbackTarget(q.data) == Some(q.from.id)
    requires remote.unrestrict(q.from.id) != Succeeded
    ensures var r := CallbackStep(t, jobs, s, remote, Some(q));
      && r.tables == t
      && (forall j :: j in r.jobs ==> j.name != JobName(s.groupId, q.from.id))
      && r.emitted == [Answer(Acknowledged), Answer(VerificationFailed)]
      && r.outcome == Completed
  {
  }

  // ---------------------------------------------------------------------------
  // One member from join to the end of the challenge

  /** A member who joins, is challenged and never presses is left restricted
      by the bot once the job the challenge scheduled runs. */
  lemma JoinThenTimeout(t: Tables, jobs: seq<Job>, s: Settings, remote: Remote, now: int, later: int, m: User,
                        chat: Option<Chat>)
    requires s.captchaEnabled && !(chat.Some? && chat.value.id != s.groupId)
    requires Admitted(remote, m)
    ensures var r := NewMembersStep(t, jobs, s, remote, now, NewMembersUpdate([m], chat));
      && |r.jobs| == |jobs| + 1
      && r.jobs[|jobs|].name == JobName(s.groupId, m.id)
      && r.jobs[|jobs|].when == s.captchaTimeoutSeconds
      && var e := TimeoutCallbackStep(r.tables, remote, Some(r.jobs[|jobs|]), later);
      && (m.id, s.groupId) !in e.tables.pending
      && IsRestrictedByBot(e.tables, m.id, s.groupId)
  {
    var r := NewMembersStep(t, jobs, s, remote, now, NewMembersUpdate([m], chat));
    AdmitFoldSingle(t, jobs, s, remote, now, m);
    var p := Challenge(s, remote, now, m);
    assert r.tables == AddPending(t, p) && r.jobs == jobs + [TimeoutJob(p, s.captchaTimeoutSeconds)];
    assert r.jobs[|jobs|] == TimeoutJob(p, s.captchaTimeoutSeconds);
    ExpiryRestrictsByBot(r.tables, remote, m.id, s.groupId, p.chatId, p.messageId, p.userFullName, later);
  }

  /** A member who joins and presses their own button in time is unmuted, the
      pending row goes, and the scheduled timeout job is cancelled. */
  lemma JoinThenVerify(t: Tables, jobs: seq<Job>, s: Settings, remote: Remote, now: int, m: User,
                       chat: Option<Chat>, chatId: int, messageId: int)
    requires s.captchaEnabled && !(chat.Some? && chat.value.id != s.groupId)
    requires Admitted(remote, m)
    requires remote.unrestrict(m.id) == Succeeded
    ensures var r := NewMembersStep(t, jobs, s, remote, now, NewMembersUpdate([m], chat));
      var c := CallbackStep(r.tables, r.jobs, s, remote, Some(CallbackQuery(m, CallbackData(m.id), chatId, messageId)));
      && c.outcome == Completed
      && (m.id, s.groupId) !in c.tables.pending
      && |r.jobs| == |jobs| + 1
      && r.jobs[|jobs|] !in c.jobs
      && Unrestrict(s.groupId, m.id) in c.emitted
  {
    var r := NewMembersStep(t, jobs, s, remote, now, NewMembersUpdate([m], chat));
    AdmitFoldSingle(t, jobs, s, remote, now, m);
    var p := Challenge(s, remote, now, m);
    var job := TimeoutJob(p, s.captchaTimeoutSeconds);
    assert r.tables == AddPending(t, p) && r.jobs == jobs + [job];
    var q := CallbackQuery(m, CallbackData(m.id), chatId, messageId);
    CallbackRoundTrip(m.id);
    OwnPressReaction(r.tables, r.jobs, s, remote, q);
    var c := CallbackStep(r.tables, r.jobs, s, remote, Some(q));
    assert c.tables == RemovePending(r.tables, m.id, s.groupId);
    assert c.jobs == JobsWithout(r.jobs, JobName(s.groupId, m.id));
    assert r.jobs[|jobs|] == job;
    assert c.emitted[1] == Unrestrict(s.groupId, m.id);
  }

  /** A timeout job that fires after a successful verification (it was already
      running, or the restart recovery rescheduled it) finds nothing pending and
      does nothing. */
  lemma VerifiedThenTimeoutIsNoOp(t: Tables, jobs: seq<Job>, s: Settings, remote: Remote, q: CallbackQuery,
                                  job: Job, now: int)
    requires q.data != "" && CallbackTarget(q.data) == Some(q.from.id)
    requires remote.unrestrict(q.from.id) == Succeeded
    requires job.data.userId == q.from.id && job.data.groupId == s.groupId
    ensures var r := CallbackStep(t, jobs, s, remote, Some(q));
      TimeoutCallbackStep(r.tables, remote, Some(job), now) == Reaction(r.tables, [], Completed)
  {
  }

  // ---------------------------------------------------------------------------
  // On the store object and the bot

  /** One member of the loop in `new_member_handler`. */
  method AdmitNewMember(db: DatabaseService, bot: Bot, s: Settings, remote: Remote, now: int, m: User)
    requires db.Valid()
    modifies db, bot
    ensures db.Valid()
    ensures var o := AdmitMember(old(db.State()), old(bot.jobs), s, remote, now, m);
      db.State() == o.0 && bot.jobs == o.1 && bot.effects == old(bot.effects) + o.2
  {
    if m.isBot {
      return;
    }
    if !remote.restrictOk(m.id) {
      return;
    }
    bot.Emit(Restrict(s.groupId, m.id, RestrictedPermissions()));
    bot.Emit(Notice(s.groupId, s.warningTopicId, CaptchaWelcome(m.id, s.captchaTimeoutSeconds, CallbackData(m.id))));
    var p := Challenge(s, remote, now, m);
    db.AddPendingCaptcha(p);
    bot.RunOnce(TimeoutJob(p, s.captchaTimeoutSeconds));
  }

  method AdmitNewMembers(db: DatabaseService, bot: Bot, s: Settings, remote: Remote, now: int, members: seq<User>)
    requires db.Valid()
    modifies db, bot
    ensures db.Valid()
    ensures var f := AdmitFold(old(db.State()), old(bot.jobs), s, remote, now, members);
      db.State() == f.0 && bot.jobs == f.1 && bot.effects == old(bot.effects) + f.2
  {
    ghost var t0 := db.State();
    ghost var j0 := bot.jobs;
    ghost var e0 := bot.effects;
    ghost var acc := (t0, j0, []);
    var i := 0;
    while i < |members|
      invariant 0 <= i <= |members|
      invariant db.Valid()
      invariant acc == AdmitFold(t0, j0, s, remote, now, members[..i])
      invariant db.State() == acc.0 && bot.jobs == acc.1 && bot.effects == e0 + acc.2
    {
      AdmitFoldSnoc(t0, j0, s, remote, now, members, i);
      ghost var o := AdmitMember(acc.0, acc.1, s, remote, now, members[i]);
      AdmitNewMember(db, bot, s, remote, now, members[i]);
      AppendAssoc(e0, acc.2, o.2);
      acc := (o.0, o.1, acc.2 + o.2);
      i := i + 1;
    }
    assert members[..|members|] == members;
  }

  lemma AdmitFoldSnoc(t: Tables, jobs: seq<Job>, s: Settings, remote: Remote, now: int, members: seq<User>, i: nat)
    requires i < |members|
    ensures var f := AdmitFold(t, jobs, s, remote, now, members[..i]);
      var o := AdmitMember(f.0, f.1, s, remote, now, members[i]);
      AdmitFold(t, jobs, s, remote, now, members[..i + 1]) == (o.0, o.1, f.2 + o.2)
  {
    assert members[..i + 1][..i] == members[..i];
  }

  /** `new_member_handler` on the store object and the bot. */
  method NewMemberHandler(db: DatabaseService, bot: Bot, s: Settings, remote: Remote, now: int, u: NewMembersUpdate)
    requires db.Valid()
    modifies db, bot
    ensures db.Valid()
    ensures var r := NewMembersStep(old(db.State()), old(bot.jobs), s, remote, now, u);
      db.State() == r.tables && bot.jobs == r.jobs && bot.effects == old(bot.effects) + r.emitted
  {
    if |u.members| == 0 || !s.captchaEnabled {
      return;
    }
    if u.chat.Some? && u.chat.value.id != s.groupId {
      return;
    }
    AdmitNewMembers(db, bot, s, remote, now, u.members);
  }

  /** `captcha_callback_handler` on the store object and the bot. */
  method CaptchaCallbackHandler(db: DatabaseService, bot: Bot, s: Settings, remote: Remote, query: Option<CallbackQuery>)
    returns (outcome: Outcome)
    requires db.Valid()
    modifies db, bot
    ensures db.Valid()
    ensures var r := CallbackStep(old(db.State()), old(bot.jobs), s, remote, query);
      db.State() == r.tables && bot.jobs == r.jobs && bot.effects == old(bot.effects) + r.emitted
      && outcome == r.outcome
  {
    ghost var r := CallbackStep(db.State(), bot.jobs, s, remote, query);
    if query.None? || query.value.data == "" {
      assert r.emitted == [] && r.outcome == Completed;
      return Completed;
    }
    var q := query.value;
    ghost var t0, j0, e0 := db.State(), bot.jobs, bot.effects;
    bot.Emit(Answer(Acknowledged));
    var target := CallbackTarget(q.data);
    if target.None? {
      assert r == QueueReaction(t0, j0, [Answer(Acknowledged)], Raised(BadCallbackData));
      return Raised(BadCallbackData);
    }
    if q.from.id != target.value {
      assert r == QueueReaction(t0, j0, [Answer(Acknowledged), Answer(WrongUser)], Completed);
      bot.Emit(Answer(WrongUser));
      AppendAssoc(e0, [Answer(Acknowledged)], [Answer(WrongUser)]);
      return Completed;
    }
    ghost var v := AcceptPress(t0, j0, s, remote, q);
    assert r == QueueReaction(v.tables, v.jobs, [Answer(Acknowledged)] + v.emitted, v.outcome);
    outcome := AcceptOwnPress(db, bot, s, remote, q);
    AppendAssoc(e0, [Answer(Acknowledged)], v.emitted);
  }

  /** The part of `captcha_callback_handler` after the presser is found to be
      the challenged user. */
  method AcceptOwnPress(db: DatabaseService, bot: Bot, s: Settings, remote: Remote, q: CallbackQuery)
    returns (outcome: Outcome)
    requires db.Valid()
    modifies db, bot
    ensures db.Valid()
    ensures var v := AcceptPress(old(db.State()), old(bot.jobs), s, remote, q);
      db.State() == v.tables && bot.jobs == v.jobs && bot.effects == old(bot.effects) + v.emitted
      && outcome == v.outcome
  {
    var u := q.from.id;
    bot.CancelJobsByName(JobName(s.groupId, u));
    if remote.unrestrict(u) != Succeeded {
      bot.Emit(Answer(VerificationFailed));
      return Completed;
    }
    ghost var e0 := bot.effects;
    bot.Emit(Unrestrict(s.groupId, u));
    db.RemovePendingCaptcha(u, s.groupId);
    if remote.editOk {
      bot.Emit(Edit(q.chatId, q.messageId, CaptchaVerified(u, q.from.fullName)));
      assert bot.effects == e0 + ([Unrestrict(s.groupId, u)] + [Edit(q.chatId, q.messageId, CaptchaVerified(u, q.from.fullName))]);
    }
    return Completed;
  }

  /** `captcha_timeout_callback` on the store object and the bot. */
  method CaptchaTimeoutCallback(db: DatabaseService, bot: Bot, remote: Remote, job: Option<Job>, now: int)
    returns (outcome: Outcome)
    requires db.Valid()
    modifies db, bot
    ensures db.Valid()
    ensures var r := TimeoutCallbackStep(old(db.State()), remote, job, now);
      db.State() == r.tables && bot.effects == old(bot.effects) + r.emitted && bot.jobs == old(bot.jobs)
      && outcome == r.outcome
  {
    if job.None? {
      return Completed;
    }
    var d := job.value.data;
    outcome := HandleCaptchaExpiration(db, bot, remote, d.userId, d.groupId, d.chatId, d.messageId, d.userFullName, now);
  }
}
