/** Group messages (src/bot/handlers/message.py): a sender with an incomplete
    profile is either warned on every message (warning-only mode) or counted and
    restricted once the count reaches the threshold (progressive mode). */
module MessageHandler {
  import opened Base
  import opened Constants
  import opened Models
  import opened Database
  import opened Config
  import opened Platform
  import opened UserChecker

  /** A message in a chat; `sender` is None when the update has no message or no
      sender, `chat` is None when the update has no effective chat. */
  datatype GroupMessage = GroupMessage(sender: Option<User>, chat: Option<Chat>)

  /** The message is one the handler acts on. */
  predicate Concerns(s: Settings, msg: GroupMessage) {
    && msg.sender.Some?
    && !(msg.chat.Some? && msg.chat.value.id != s.groupId)
    && !msg.sender.value.isBot
  }

  /** `handle_message`, as a function of the tables and Telegram's answers. */
  function HandleMessageStep(t: Tables, s: Settings, remote: Remote, msg: GroupMessage, now: int): (r: Reaction)
    ensures !Concerns(s, msg) ==> r == Reaction(t, [], Completed)
  {
    if msg.sender.None? then Reaction(t, [], Completed)
    else if msg.chat.Some? && msg.chat.value.id != s.groupId then Reaction(t, [], Completed)
    else if msg.sender.value.isBot then Reaction(t, [], Completed)
    else
      var user := msg.sender.value;
      var check := CheckUserProfile(t, user, remote);
      if check.result.IsComplete() then Reaction(t, check.emitted, Completed)
      else
        var missing := check.result.MissingItems();
        if !s.restrictFailedUsers then
          Reaction(t, check.emitted + [Notice(s.groupId, s.warningTopicId, WarningNoRestriction(user.id, missing, s.warningTimeThresholdMinutes))], Completed)
        else
          var p := ProgressiveStep(t, s, remote, user.id, missing, now);
          Reaction(p.tables, check.emitted + p.emitted, p.outcome)
  }

  /** Progressive mode, after the profile check: count the message, post the
      first warning on a count of one, restrict at the threshold. */
  /** The first warning, posted only while the active row counts one message. */
  function FirstWarning(s: Settings, userId: int, missing: seq<string>, count: int): (w: seq<Effect>)
    ensures NoRestrict(w)
    ensures count != 1 ==> w == []
    ensures count == 1 ==> |w| == 1 && w[0].Notice? && w[0].notice.WarningWithThreshold?
  {
    if count == 1
    then [Notice(s.groupId, s.warningTopicId, WarningWithThreshold(userId, missing, s.warningThreshold, s.warningTimeThresholdMinutes))]
    else []
  }

  function ProgressiveStep(t: Tables, s: Settings, remote: Remote, userId: int, missing: seq<string>, now: int)
    : (r: Reaction)
  {
    var got := GetOrCreate(t, userId, s.groupId, now);
    var record := got.1;
    var warned := FirstWarning(s, userId, missing, record.messageCount);
    if record.messageCount >= s.warningThreshold then
      if !remote.restrictOk(userId) then Reaction(got.0, warned, Raised(RestrictFailed))
      else
        var restrict := Restrict(s.groupId, userId, RestrictedPermissions());
        match MarkRestricted(got.0, userId, s.groupId, now)
        case Err(_) => Reaction(got.0, warned + [restrict], Raised(StoreFailed))
        case Ok(marked) =>
          Reaction(marked.0, warned + [restrict, Notice(s.groupId, s.warningTopicId,
            RestrictedAfterMessages(userId, record.messageCount, missing))], Completed)
    else
      match Increment(got.0, userId, s.groupId, now)
      case Err(_) => Reaction(got.0, warned, Raised(StoreFailed))
      case Ok(incremented) => Reaction(incremented.0, warned, Completed)
  }

  /** The count of the sender's active row as the handler sees it. */
  function CountSeen(t: Tables, s: Settings, userId: int, now: int): int {
    GetOrCreate(t, userId, s.groupId, now).1.messageCount
  }

  /** The common premise of the lemmas below: a message the handler acts on,
      from a sender whose profile is incomplete. */
  predicate Incomplete(t: Tables, s: Settings, remote: Remote, msg: GroupMessage) {
    Concerns(s, msg) && !CheckUserProfile(t, msg.sender.value, remote).result.IsComplete()
  }

  /** With restriction on and an incomplete profile, the handler is the profile
      check followed by the progressive step. */
  lemma ProgressiveReaction(t: Tables, s: Settings, remote: Remote, msg: GroupMessage, now: int)
    requires Incomplete(t, s, remote, msg) && s.restrictFailedUsers
    ensures var check := CheckUserProfile(t, msg.sender.value, remote);
      var p := ProgressiveStep(t, s, remote, msg.sender.value.id, check.result.MissingItems(), now);
      HandleMessageStep(t, s, remote, msg, now) == Reaction(p.tables, check.emitted + p.emitted, p.outcome)
  {
  }

  /** A complete profile changes nothing and posts nothing. */
  lemma CompleteProfileChangesNothing(t: Tables, s: Settings, remote: Remote, msg: GroupMessage, now: int)
    requires Concerns(s, msg) && CheckUserProfile(t, msg.sender.value, remote).result.IsComplete()
    ensures var r := HandleMessageStep(t, s, remote, msg, now);
      r.tables == t && r.outcome == Completed && NoRestrict(r.emitted) && NoNotice(r.emitted)
  {
  }

  /** Warning-only mode: one warning per message, and the store is not touched. */
  lemma WarningOnlyModeKeepsNoState(t: Tables, s: Settings, remote: Remote, msg: GroupMessage, now: int)
    requires Incomplete(t, s, remote, msg) && !s.restrictFailedUsers
    ensures var r := HandleMessageStep(t, s, remote, msg, now);
      && r.tables == t && r.outcome == Completed && NoRestrict(r.emitted)
      && r.emitted[|r.emitted| - 1].Notice?
      && r.emitted[|r.emitted| - 1].notice.WarningNoRestriction?
      && NoNotice(r.emitted[..|r.emitted| - 1])
  {
    var check := CheckUserProfile(t, msg.sender.value, remote);
    var notice := Notice(s.groupId, s.warningTopicId, WarningNoRestriction(msg.sender.value.id, check.result.MissingItems(), s.warningTimeThresholdMinutes));
    var r := HandleMessageStep(t, s, remote, msg, now);
    assert r == Reaction(t, check.emitted + [notice], Completed);
    assert r.emitted[..|r.emitted| - 1] == check.emitted;
    if IsPhotoWhitelisted(t, msg.sender.value.id) {
      assert r.emitted == [notice];
    } else {
      assert r.emitted == [PhotoLookup(msg.sender.value.id), notice];
    }
  }

  /** Progressive mode posts the first warning exactly when the sender's active
      row counts one message. */
  lemma FirstWarningIffCountOne(t: Tables, s: Settings, remote: Remote, msg: GroupMessage, now: int)
    requires Incomplete(t, s, remote, msg) && s.restrictFailedUsers
    ensures var r := HandleMessageStep(t, s, remote, msg, now);
      (exists i :: 0 <= i < |r.emitted| && r.emitted[i].Notice? && r.emitted[i].notice.WarningWithThreshold?)
      <==> CountSeen(t, s, msg.sender.value.id, now) == 1
  {
    var r := HandleMessageStep(t, s, remote, msg, now);
    var user := msg.sender.value;
    var check := CheckUserProfile(t, user, remote);
    if CountSeen(t, s, user.id, now) != 1 {
      forall i | 0 <= i < |r.emitted| && r.emitted[i].Notice?
        ensures !r.emitted[i].notice.WarningWithThreshold?
      {
      }
    } else {
      assert r.emitted[|check.emitted|].notice.WarningWithThreshold?;
    }
  }

  /** At or over the threshold: exactly one restriction followed by one notice,
      the active row marked restricted with its count left as it was, so the
      sender has no active row any more. When the restrict call fails the
      exception escapes, nothing is marked and no restriction is recorded. */
  lemma ThresholdRestrictsOnce(t: Tables, s: Settings, remote: Remote, msg: GroupMessage, now: int)
    requires WellFormed(t)
    requires Incomplete(t, s, remote, msg) && s.restrictFailedUsers
    requires CountSeen(t, s, msg.sender.value.id, now) >= s.warningThreshold
    ensures var u := msg.sender.value.id;
      var r := HandleMessageStep(t, s, remote, msg, now);
      var got := GetOrCreate(t, u, s.groupId, now);
      && (remote.restrictOk(u) ==>
            && r.outcome == Completed
            && |r.emitted| >= 2
            && r.emitted[|r.emitted| - 2] == Restrict(s.groupId, u, RestrictedPermissions())
            && r.emitted[|r.emitted| - 1].Notice?
            && r.emitted[|r.emitted| - 1].notice == RestrictedAfterMessages(u, got.1.messageCount, CheckUserProfile(t, msg.sender.value, remote).result.MissingItems())
            && NoRestrict(r.emitted[..|r.emitted| - 2])
            && !HasMatch(r.tables.warnings, Active, u, s.groupId)
            && (exists i :: 0 <= i < |r.tables.warnings| && r.tables.warnings[i].Key() == (u, s.groupId)
                  && r.tables.warnings[i].IsBotRestricted() && r.tables.warnings[i].messageCount == got.1.messageCount))
      && (!remote.restrictOk(u) ==>
            r.outcome == Raised(RestrictFailed) && r.tables == got.0 && NoRestrict(r.emitted))
  {
    var u := msg.sender.value.id;
    var check := CheckUserProfile(t, msg.sender.value, remote);
    var missing := check.result.MissingItems();
    ProgressiveReaction(t, s, remote, msg, now);
    ProgressiveAtThreshold(t, s, remote, u, missing, now);
    var got := GetOrCreate(t, u, s.groupId, now);
    var warned := FirstWarning(s, u, missing, got.1.messageCount);
    var r := HandleMessageStep(t, s, remote, msg, now);
    NoRestrictAppend(check.emitted, warned);
    if remote.restrictOk(u) {
      var pre := check.emitted + warned;
      var tail := [Restrict(s.groupId, u, RestrictedPermissions()),
                   Notice(s.groupId, s.warningTopicId, RestrictedAfterMessages(u, got.1.messageCount, missing))];
      AppendAssoc(check.emitted, warned, tail);
      assert r.emitted == pre + tail;
      assert r.emitted[..|r.emitted| - 2] == pre;
    }
  }

  /** The progressive step at or over the threshold. */
  lemma ProgressiveAtThreshold(t: Tables, s: Settings, remote: Remote, u: int, missing: seq<string>, now: int)
    requires WellFormed(t) && CountSeen(t, s, u, now) >= s.warningThreshold
    ensures var got := GetOrCreate(t, u, s.groupId, now);
      var p := ProgressiveStep(t, s, remote, u, missing, now);
      var warned := FirstWarning(s, u, missing, got.1.messageCount);
      && (remote.restrictOk(u) ==>
            && p.outcome == Completed
            && p.emitted == warned + [Restrict(s.groupId, u, RestrictedPermissions()),
                                     Notice(s.groupId, s.warningTopicId, RestrictedAfterMessages(u, got.1.messageCount, missing))]
            && !HasMatch(p.tables.warnings, Active, u, s.groupId)
            && (exists i :: 0 <= i < |p.tables.warnings| && p.tables.warnings[i].Key() == (u, s.groupId)
                  && p.tables.warnings[i].IsBotRestricted() && p.tables.warnings[i].messageCount == got.1.messageCount))
      && (!remote.restrictOk(u) ==> p == Reaction(got.0, warned, Raised(RestrictFailed)))
  {
    var got := GetOrCreate(t, u, s.groupId, now);
    GetOrCreatePreservesWellFormed(t, u, s.groupId, now);
    var i :| 0 <= i < |got.0.warnings| && got.0.warnings[i] == got.1;
    MarkRestrictedRetiresActiveRow(got.0, u, s.groupId, now, i);
    var p := ProgressiveStep(t, s, remote, u, missing, now);
    if remote.restrictOk(u) {
      assert p.tables.warnings[i].Key() == (u, s.groupId);
    }
  }

  /** Below the threshold: no restriction, and the sender's active row counts
      one more message; nothing is posted unless the count was one. */
  lemma BelowThresholdIncrements(t: Tables, s: Settings, remote: Remote, msg: GroupMessage, now: int)
    requires WellFormed(t)
    requires Incomplete(t, s, remote, msg) && s.restrictFailedUsers
    requires CountSeen(t, s, msg.sender.value.id, now) < s.warningThreshold
    ensures var u := msg.sender.value.id;
      var r := HandleMessageStep(t, s, remote, msg, now);
      && r.outcome == Completed
      && NoRestrict(r.emitted)
      && (CountSeen(t, s, u, now) != 1 ==> NoNotice(r.emitted))
      && CountSeen(r.tables, s, u, now) == CountSeen(t, s, u, now) + 1
  {
    var u := msg.sender.value.id;
    var check := CheckUserProfile(t, msg.sender.value, remote);
    var missing := check.result.MissingItems();
    ProgressiveReaction(t, s, remote, msg, now);
    ProgressiveBelow(t, s, remote, u, missing, now);
    var warned := FirstWarning(s, u, missing, CountSeen(t, s, u, now));
    NoRestrictAppend(check.emitted, warned);
    if CountSeen(t, s, u, now) != 1 {
      assert HandleMessageStep(t, s, remote, msg, now).emitted == check.emitted + [];
      assert check.emitted + [] == check.emitted;
    }
  }

  /** The progressive step below the threshold. */
  lemma ProgressiveBelow(t: Tables, s: Settings, remote: Remote, u: int, missing: seq<string>, now: int)
    requires WellFormed(t) && CountSeen(t, s, u, now) < s.warningThreshold
    ensures var p := ProgressiveStep(t, s, remote, u, missing, now);
      && p.outcome == Completed
      && p.emitted == FirstWarning(s, u, missing, CountSeen(t, s, u, now))
      && CountSeen(p.tables, s, u, now) == CountSeen(t, s, u, now) + 1
  {
    var got := GetOrCreate(t, u, s.groupId, now);
    GetOrCreatePreservesWellFormed(t, u, s.groupId, now);
    var i :| 0 <= i < |got.0.warnings| && got.0.warnings[i] == got.1;
    IncrementAddsOne(got.0, u, s.groupId, now, i);
    var p := ProgressiveStep(t, s, remote, u, missing, now);
    IncrementPreservesWellFormed(got.0, u, s.groupId, now);
    GetOrCreateReturnsTheActiveRow(p.tables, u, s.groupId, now);
  }

  lemma HandleMessagePreservesWellFormed(t: Tables, s: Settings, remote: Remote, msg: GroupMessage, now: int)
    requires WellFormed(t)
    ensures WellFormed(HandleMessageStep(t, s, remote, msg, now).tables)
  {
    if Incomplete(t, s, remote, msg) && s.restrictFailedUsers {
      var u := msg.sender.value.id;
      var got := GetOrCreate(t, u, s.groupId, now);
      GetOrCreatePreservesWellFormed(t, u, s.groupId, now);
      MarkRestrictedPreservesWellFormed(got.0, u, s.groupId, now);
      IncrementPreservesWellFormed(got.0, u, s.groupId, now);
    }
  }

  /** A message touches no row of any other user: rows already present keep
      their contents unless they are the sender's, and any row added is the
      sender's. */
  lemma OtherUsersUntouched(t: Tables, s: Settings, remote: Remote, msg: GroupMessage, now: int)
    requires WellFormed(t)
    ensures var r := HandleMessageStep(t, s, remote, msg, now);
      && |t.warnings| <= |r.tables.warnings|
      && (forall i :: 0 <= i < |t.warnings| && !(msg.sender.Some? && t.warnings[i].userId == msg.sender.value.id) ==>
            r.tables.warnings[i] == t.warnings[i])
      && (forall i :: |t.warnings| <= i < |r.tables.warnings| ==>
            msg.sender.Some? && r.tables.warnings[i].userId == msg.sender.value.id)
      && r.tables.whitelist == t.whitelist && r.tables.pending == t.pending
  {
    if Incomplete(t, s, remote, msg) && s.restrictFailedUsers {
      var u := msg.sender.value.id;
      var missing := CheckUserProfile(t, msg.sender.value, remote).result.MissingItems();
      ProgressiveReaction(t, s, remote, msg, now);
      ProgressiveOtherRows(t, s, remote, u, missing, now);
    }
  }

  /** The progressive step writes only the sender's rows. */
  lemma ProgressiveOtherRows(t: Tables, s: Settings, remote: Remote, u: int, missing: seq<string>, now: int)
    requires WellFormed(t)
    ensures var p := ProgressiveStep(t, s, remote, u, missing, now);
      && |t.warnings| <= |p.tables.warnings|
      && (forall i :: 0 <= i < |t.warnings| && t.warnings[i].userId != u ==> p.tables.warnings[i] == t.warnings[i])
      && (forall i :: |t.warnings| <= i < |p.tables.warnings| ==> p.tables.warnings[i].userId == u)
      && p.tables.whitelist == t.whitelist && p.tables.pending == t.pending
  {
    var got := GetOrCreate(t, u, s.groupId, now);
    GetOrCreatePreservesWellFormed(t, u, s.groupId, now);
    var i :| 0 <= i < |got.0.warnings| && got.0.warnings[i] == got.1;
    if got.1.messageCount >= s.warningThreshold {
      if remote.restrictOk(u) {
        MarkRestrictedRetiresActiveRow(got.0, u, s.groupId, now, i);
      }
    } else {
      IncrementAddsOne(got.0, u, s.groupId, now, i);
    }
  }

  /** The walk through progressive mode with a threshold of three, from an empty
      store, for a user without a profile photo: the first message warns, the
      second is silent, the third restricts and leaves one row counting three
      messages with both flags set. */
  lemma ThresholdThreeScenario(s: Settings, remote: Remote, user: User, now: int)
    requires s.restrictFailedUsers && s.warningThreshold == 3
    requires !user.isBot && remote.photoCount(user.id) == 0 && remote.restrictOk(user.id)
    ensures var msg := GroupMessage(Some(user), Some(Chat(s.groupId, SupergroupChat)));
      var r1 := HandleMessageStep(EmptyTables, s, remote, msg, now);
      var r2 := HandleMessageStep(r1.tables, s, remote, msg, now);
      var r3 := HandleMessageStep(r2.tables, s, remote, msg, now);
      && r1.outcome == Completed && r2.outcome == Completed && r3.outcome == Completed
      && |r1.emitted| == 2 && r1.emitted[1].Notice? && r1.emitted[1].notice.WarningWithThreshold?
      && r2.emitted == [PhotoLookup(user.id)]
      && |r3.emitted| == 3 && r3.emitted[1] == Restrict(s.groupId, user.id, RestrictedPermissions())
      && r3.emitted[2].Notice? && r3.emitted[2].notice.RestrictedAfterMessages?
      && r3.emitted[2].notice.messageCount == 3
      && |r3.tables.warnings| == 1
      && r3.tables.warnings[0].messageCount == 3
      && r3.tables.warnings[0].isRestricted && r3.tables.warnings[0].restrictedByBot
  {
    var msg := GroupMessage(Some(user), Some(Chat(s.groupId, SupergroupChat)));
    var r1 := HandleMessageStep(EmptyTables, s, remote, msg, now);
    assert r1.tables.warnings == [UserWarning(1, user.id, s.groupId, 2, now, now, false, false)];
    var r2 := HandleMessageStep(r1.tables, s, remote, msg, now);
    assert FirstMatch(r1.tables.warnings, Active, user.id, s.groupId) == Some(0);
    assert r2.tables.warnings == [UserWarning(1, user.id, s.groupId, 3, now, now, false, false)];
    assert FirstMatch(r2.tables.warnings, Active, user.id, s.groupId) == Some(0);
  }

  /** The handler on the store object and the bot: the same decisions, taken
      step by step. */
  method HandleMessage(db: DatabaseService, bot: Bot, s: Settings, remote: Remote, msg: GroupMessage, now: int)
    returns (outcome: Outcome)
    requires db.Valid()
    modifies db, bot
    ensures db.Valid()
    ensures var r := HandleMessageStep(old(db.State()), s, remote, msg, now);
      db.State() == r.tables && bot.effects == old(bot.effects) + r.emitted
      && bot.jobs == old(bot.jobs) && outcome == r.outcome
  {
    if msg.sender.None? {
      return Completed;
    }
    if msg.chat.Some? && msg.chat.value.id != s.groupId {
      return Completed;
    }
    var user := msg.sender.value;
    if user.isBot {
      return Completed;
    }
    ghost var t0 := db.State();
    ghost var e0 := bot.effects;
    var check := CheckUserProfile(db.State(), user, remote);
    bot.EmitAll(check.emitted);
    if check.result.IsComplete() {
      assert HandleMessageStep(t0, s, remote, msg, now) == Reaction(t0, check.emitted, Completed);
      return Completed;
    }
    var missing := check.result.MissingItems();
    if !s.restrictFailedUsers {
      var notice := Notice(s.groupId, s.warningTopicId, WarningNoRestriction(user.id, missing, s.warningTimeThresholdMinutes));
      bot.Emit(notice);
      assert HandleMessageStep(t0, s, remote, msg, now) == Reaction(t0, check.emitted + [notice], Completed);
      AppendAssoc(e0, check.emitted, [notice]);
      return Completed;
    }
    ghost var p := ProgressiveStep(t0, s, remote, user.id, missing, now);
    assert HandleMessageStep(t0, s, remote, msg, now) == Reaction(p.tables, check.emitted + p.emitted, p.outcome);
    outcome := HandleProgressive(db, bot, s, remote, user.id, missing, now);
    AppendAssoc(e0, check.emitted, p.emitted);
  }

  method HandleProgressive(db: DatabaseService, bot: Bot, s: Settings, remote: Remote, userId: int,
                           missing: seq<string>, now: int)
    returns (outcome: Outcome)
    requires db.Valid()
    modifies db, bot
    ensures db.Valid()
    ensures var r := ProgressiveStep(old(db.State()), s, remote, userId, missing, now);
      db.State() == r.tables && bot.effects == old(bot.effects) + r.emitted
      && bot.jobs == old(bot.jobs) && outcome == r.outcome
  {
    var record := db.GetOrCreateUserWarning(userId, s.groupId, now);
    if record.messageCount == 1 {
      bot.Emit(Notice(s.groupId, s.warningTopicId, WarningWithThreshold(userId, missing, s.warningThreshold, s.warningTimeThresholdMinutes)));
    }
    if record.messageCount >= s.warningThreshold {
      if !remote.restrictOk(userId) {
        return Raised(RestrictFailed);
      }
      bot.Emit(Restrict(s.groupId, userId, RestrictedPermissions()));
      var marked := db.MarkUserRestricted(userId, s.groupId, now);
      if marked.Err? {
        return Raised(StoreFailed);
      }
      bot.Emit(Notice(s.groupId, s.warningTopicId, RestrictedAfterMessages(userId, record.messageCount, missing)));
    } else {
      var incremented := db.IncrementMessageCount(userId, s.groupId, now);
      if incremented.Err? {
        return Raised(StoreFailed);
      }
    }
    return Completed;
  }
}
