/** The periodic sweep (src/bot/services/scheduler.py): every active warning
    whose cycle began longer ago than the time threshold is restricted, unless
    its user has been banned from the group. A failure on one record is logged
    and the sweep goes on with the next. */
module Scheduler {
  import opened Base
  import opened Text
  import opened Constants
  import opened Models
  import opened Database
  import opened Config
  import opened Platform

  /** How the notice names the user: `@username` when the member has a
      non-empty username, a name link when not, "User <id>" when the member
      lookup raises. */
  function SweepMention(remote: Remote, userId: int): (m: Mention)
    ensures remote.member(userId).None? <==> m.PlainText?
  {
    match remote.member(userId)
    case None => PlainText("User " + IntToString(userId))
    case Some(u) =>
      if u.username.Some? && u.username.value != "" then AtUsername(u.username.value)
      else NameLink(u.id, u.fullName)
  }

  /** The fallback still identifies the user: the text after "User " reads back
      as the user's id. */
  lemma FallbackMentionNamesUser(remote: Remote, userId: int)
    requires remote.member(userId).None?
    ensures var m := SweepMention(remote, userId);
      HasPrefix(m.text, "User ") && ParseInt(m.text[5..]) == Some(userId)
  {
    var m := SweepMention(remote, userId);
    assert m.text[5..] == IntToString(userId);
    ParseIntOfIntToString(userId);
  }

  /** A record whose restriction the sweep attempts and Telegram accepts. */
  predicate Reachable(remote: Remote, userId: int) {
    remote.status(userId) != Some(Banned) && remote.restrictOk(userId)
  }

  /** One iteration of the loop, including its `except` clause: a banned user is
      skipped (the bot flag cleared, if any), a failed restrict leaves the
      record as it was, a restrict that goes through is followed by marking
      the record and one notice; a notice that cannot be sent is dropped and
      the record stays marked. */
  function SweepRecord(t: Tables, s: Settings, remote: Remote, now: int, w: UserWarning): (r: (Tables, seq<Effect>))
  {
    var u := w.userId;
    if remote.status(u) == Some(Banned) then (MarkUnrestricted(t, u, s.groupId), [])
    else if !remote.restrictOk(u) then (t, [])
    else
      var restrict := Restrict(s.groupId, u, RestrictedPermissions());
      match MarkRestricted(t, u, s.groupId, now)
      case Err(_) => (t, [restrict])
      case Ok(marked) =>
        if remote.timeNoticeOk(u) then
          (marked.0, [restrict, Notice(s.groupId, s.warningTopicId,
                                       RestrictedAfterTime(SweepMention(remote, u), s.warningTimeThresholdMinutes))])
        else (marked.0, [restrict])
  }

  /** The loop over the selected records, in order. */
  function SweepFold(t: Tables, s: Settings, remote: Remote, now: int, rows: seq<UserWarning>): (r: (Tables, seq<Effect>))
    decreases |rows|
  {
    if rows == [] then (t, [])
    else
      var before := SweepFold(t, s, remote, now, rows[..|rows| - 1]);
      var step := SweepRecord(before.0, s, remote, now, rows[|rows| - 1]);
      (step.0, before.1 + step.1)
  }

  /** `auto_restrict_expired_warnings`. */
  function AutoRestrictStep(t: Tables, s: Settings, remote: Remote, now: int): (r: Reaction)
    ensures r.outcome == Completed
  {
    var rows := WarningsPastTimeThreshold(t, s.warningTimeThresholdMinutes, now);
    if rows == [] then Reaction(t, [], Completed)
    else
      var swept := SweepFold(t, s, remote, now, rows);
      Reaction(swept.0, swept.1, Completed)
  }

  // ---------------------------------------------------------------------------
  // What a sweep may change

  /** The second tables differ from the first only in the flags and timestamps
      of rows already there, and no row became active. */
  ghost predicate FlagsOnly(t: Tables, t': Tables) {
    && |t'.warnings| == |t.warnings|
    && (forall i :: 0 <= i < |t.warnings| ==>
          t'.warnings[i].Key() == t.warnings[i].Key() && (t'.warnings[i].IsActive() ==> t.warnings[i].IsActive()))
    && t'.whitelist == t.whitelist && t'.pending == t.pending && t'.nextId == t.nextId
  }

  lemma FlagsOnlyNoNewActive(t: Tables, t': Tables, userId: int, groupId: int)
    requires FlagsOnly(t, t') && HasMatch(t'.warnings, Active, userId, groupId)
    ensures HasMatch(t.warnings, Active, userId, groupId)
  {
    var i :| 0 <= i < |t'.warnings| && Selects(Active, t'.warnings[i], userId, groupId);
    assert Selects(Active, t.warnings[i], userId, groupId);
  }

  /** One record: the invariant is kept, only flags change, a restriction is
      emitted exactly for a reachable user and leaves that user without an
      active row in the sweep's group. */
  lemma SweepRecordFacts(t: Tables, s: Settings, remote: Remote, now: int, w: UserWarning)
    requires WellFormed(t)
    ensures var r := SweepRecord(t, s, remote, now, w);
      && WellFormed(r.0)
      && FlagsOnly(t, r.0)
      && (RestrictsUser(r.1, w.userId) <==> Reachable(remote, w.userId))
      && (forall i :: 0 <= i < |r.1| && r.1[i].Restrict? ==>
            r.1[i].userId == w.userId && r.1[i].chatId == s.groupId
            && !HasMatch(r.0.warnings, Active, w.userId, s.groupId))
  {
    var u := w.userId;
    var r := SweepRecord(t, s, remote, now, w);
    if remote.status(u) == Some(Banned) {
      assert r == (MarkUnrestricted(t, u, s.groupId), []);
      MarkUnrestrictedPreservesWellFormed(t, u, s.groupId);
      MarkUnrestrictedKeepsRestriction(t, u, s.groupId);
      assert !RestrictsUser(r.1, u);
    } else if !remote.restrictOk(u) {
      assert r == (t, []);
      assert !RestrictsUser(r.1, u);
    } else {
      var restrict := Restrict(s.groupId, u, RestrictedPermissions());
      var m := MarkRestricted(t, u, s.groupId, now);
      MarkRestrictedPreservesWellFormed(t, u, s.groupId, now);
      if m.Ok? {
        var i := FirstMatch(t.warnings, Active, u, s.groupId).value;
        MarkRestrictedRetiresActiveRow(t, u, s.groupId, now, i);
        if remote.timeNoticeOk(u) {
          assert r.0 == m.value.0 && r.1[0] == restrict && |r.1| == 2 && !r.1[1].Restrict?;
        } else {
          assert r == (m.value.0, [restrict]);
        }
      } else {
        assert r == (t, [restrict]);
      }
      assert r.1[0] == restrict;
    }
  }

  lemma FlagsOnlyTrans(t: Tables, t': Tables, t'': Tables)
    requires FlagsOnly(t, t') && FlagsOnly(t', t'')
    ensures FlagsOnly(t, t'')
  {
    forall i | 0 <= i < |t.warnings|
      ensures t''.warnings[i].Key() == t.warnings[i].Key()
      ensures t''.warnings[i].IsActive() ==> t.warnings[i].IsActive()
    {
    }
  }

  /** Every reachable user of the records swept so far has been restricted. */
  lemma CoversAppend(prefix: seq<UserWarning>, w: UserWarning, remote: Remote, b1: seq<Effect>, b2: seq<Effect>)
    requires forall v :: v in prefix && Reachable(remote, v.userId) ==> RestrictsUser(b1, v.userId)
    requires Reachable(remote, w.userId) ==> RestrictsUser(b2, w.userId)
    ensures forall v :: v in prefix + [w] && Reachable(remote, v.userId) ==> RestrictsUser(b1 + b2, v.userId)
  {
    forall v | v in prefix + [w] && Reachable(remote, v.userId)
      ensures RestrictsUser(b1 + b2, v.userId)
    {
      if v in prefix {
        var k :| 0 <= k < |b1| && b1[k].Restrict? && b1[k].userId == v.userId;
        assert (b1 + b2)[k] == b1[k];
      } else {
        var k :| 0 <= k < |b2| && b2[k].Restrict? && b2[k].userId == v.userId;
        assert (b1 + b2)[|b1| + k] == b2[k];
      }
    }
  }

  /** Every restriction emitted so far is in the group, names a reachable
      swept user, and that user has no active row left. */
  ghost predicate RestrictsSound(es: seq<Effect>, t: Tables, rows: seq<UserWarning>, remote: Remote, groupId: int) {
    forall i :: 0 <= i < |es| && es[i].Restrict? ==>
      && es[i].chatId == groupId
      && !HasMatch(t.warnings, Active, es[i].userId, groupId)
      && exists w :: w in rows && w.userId == es[i].userId && Reachable(remote, w.userId)
  }

  lemma SoundAppend(b1: seq<Effect>, b2: seq<Effect>, t1: Tables, t2: Tables, prefix: seq<UserWarning>,
                    w: UserWarning, remote: Remote, groupId: int)
    requires RestrictsSound(b1, t1, prefix, remote, groupId) && FlagsOnly(t1, t2)
    requires RestrictsUser(b2, w.userId) <==> Reachable(remote, w.userId)
    requires forall i :: 0 <= i < |b2| && b2[i].Restrict? ==>
      b2[i].userId == w.userId && b2[i].chatId == groupId && !HasMatch(t2.warnings, Active, w.userId, groupId)
    ensures RestrictsSound(b1 + b2, t2, prefix + [w], remote, groupId)
  {
    var es := b1 + b2;
    forall i | 0 <= i < |es| && es[i].Restrict?
      ensures es[i].chatId == groupId
      ensures !HasMatch(t2.warnings, Active, es[i].userId, groupId)
      ensures exists v :: v in prefix + [w] && v.userId == es[i].userId && Reachable(remote, v.userId)
    {
      if i < |b1| {
        assert es[i] == b1[i];
        if HasMatch(t2.warnings, Active, es[i].userId, groupId) {
          FlagsOnlyNoNewActive(t1, t2, es[i].userId, groupId);
        }
        var v :| v in prefix && v.userId == es[i].userId && Reachable(remote, v.userId);
        assert v in prefix + [w];
      } else {
        assert es[i] == b2[i - |b1|];
        assert RestrictsUser(b2, w.userId);
        assert w in prefix + [w];
      }
    }
  }

  lemma {:induction false} SweepFoldFacts(t: Tables, s: Settings, remote: Remote, now: int, rows: seq<UserWarning>)
    requires WellFormed(t)
    ensures var f := SweepFold(t, s, remote, now, rows);
      && WellFormed(f.0)
      && FlagsOnly(t, f.0)
      && (forall w :: w in rows && Reachable(remote, w.userId) ==> RestrictsUser(f.1, w.userId))
      && RestrictsSound(f.1, f.0, rows, remote, s.groupId)
    decreases |rows|
  {
    if rows != [] {
      var prefix := rows[..|rows| - 1];
      var w := rows[|rows| - 1];
      assert rows == prefix + [w];
      var before := SweepFold(t, s, remote, now, prefix);
      SweepFoldFacts(t, s, remote, now, prefix);
      var step := SweepRecord(before.0, s, remote, now, w);
      SweepRecordFacts(before.0, s, remote, now, w);
      FlagsOnlyTrans(t, before.0, step.0);
      CoversAppend(prefix, w, remote, before.1, step.1);
      SoundAppend(before.1, step.1, before.0, step.0, prefix, w, remote, s.groupId);
    }
  }

  // ---------------------------------------------------------------------------
  // Properties of a whole sweep

  lemma {:induction false} NothingExpired(ws: seq<UserWarning>, cutoff: int)
    requires forall i :: 0 <= i < |ws| ==> ws[i].isRestricted || ws[i].firstWarnedAt > cutoff
    ensures ActiveSince(ws, cutoff) == []
  {
    if ws != [] {
      NothingExpired(ws[1..], cutoff);
    }
  }

  /** Nothing selected: no call to Telegram and no change. */
  lemma EmptySweepDoesNothing(t: Tables, s: Settings, remote: Remote, now: int)
    requires forall i :: 0 <= i < |t.warnings| ==>
      t.warnings[i].isRestricted || t.warnings[i].firstWarnedAt > now - s.warningTimeThresholdMinutes * 60
    ensures AutoRestrictStep(t, s, remote, now) == Reaction(t, [], Completed)
  {
    NothingExpired(t.warnings, now - s.warningTimeThresholdMinutes * 60);
  }

  /** Every expired record whose user is not banned and whose restrict goes
      through is restricted, whatever happened to the other records; every
      restriction is of such a user, in the sweep's group; and each user
      restricted has no active row left. */
  lemma SweepRestrictsExactlyReachable(t: Tables, s: Settings, remote: Remote, now: int)
    requires WellFormed(t)
    ensures var r := AutoRestrictStep(t, s, remote, now);
      var rows := WarningsPastTimeThreshold(t, s.warningTimeThresholdMinutes, now);
      && WellFormed(r.tables)
      && (forall w :: w in rows && Reachable(remote, w.userId) ==> RestrictsUser(r.emitted, w.userId))
      && (forall u :: RestrictsUser(r.emitted, u) ==>
            (exists w :: w in rows && w.userId == u && Reachable(remote, u))
            && !HasMatch(r.tables.warnings, Active, u, s.groupId))
  {
    var rows := WarningsPastTimeThreshold(t, s.warningTimeThresholdMinutes, now);
    SweepFoldFacts(t, s, remote, now, rows);
  }

  /** A banned user's record: no call to Telegram, and every row keeps whether
      it is active, so the record stays selected for later sweeps. */
  lemma BannedUserSkipped(t: Tables, s: Settings, remote: Remote, now: int, w: UserWarning)
    requires remote.status(w.userId) == Some(Banned)
    ensures var r := SweepRecord(t, s, remote, now, w);
      && r.1 == []
      && |r.0.warnings| == |t.warnings|
      && forall i :: 0 <= i < |t.warnings| && t.warnings[i].IsActive() ==> r.0.warnings[i] == t.warnings[i]
  {
    MarkUnrestrictedKeepsRestriction(t, w.userId, s.groupId);
  }

  /** A record whose restrict call fails is left exactly as it was and nothing
      is posted for it. */
  lemma RestrictFailureLeavesRecord(t: Tables, s: Settings, remote: Remote, now: int, w: UserWarning)
    requires remote.status(w.userId) != Some(Banned) && !remote.restrictOk(w.userId)
    ensures SweepRecord(t, s, remote, now, w) == (t, [])
  {
  }

  /** The order for a restricted record: the restrict call, then the store is
      marked, then exactly one notice naming the user when it can be sent and
      none otherwise; the record is marked either way. */
  lemma RestrictThenMarkThenNotice(t: Tables, s: Settings, remote: Remote, now: int, w: UserWarning, i: nat)
    requires WellFormed(t) && Reachable(remote, w.userId)
    requires i < |t.warnings| && Selects(Active, t.warnings[i], w.userId, s.groupId)
    ensures var r := SweepRecord(t, s, remote, now, w);
      && (remote.timeNoticeOk(w.userId) ==>
            r.1 == [Restrict(s.groupId, w.userId, RestrictedPermissions()),
                    Notice(s.groupId, s.warningTopicId, RestrictedAfterTime(SweepMention(remote, w.userId), s.warningTimeThresholdMinutes))])
      && (!remote.timeNoticeOk(w.userId) ==> r.1 == [Restrict(s.groupId, w.userId, RestrictedPermissions())])
      && r.0.warnings[i].IsBotRestricted()
      && r.0.warnings[i].messageCount == t.warnings[i].messageCount
  {
    MarkRestrictedRetiresActiveRow(t, w.userId, s.groupId, now, i);
  }

  /** Two sweeps in a row never restrict the same user twice: the first leaves
      each user it restricts without an active row, and the second only selects
      active rows. All rows are taken to be in the configured group, which is
      the only group the handlers write. */
  lemma NoDoubleRestriction(t: Tables, s: Settings, remote1: Remote, remote2: Remote, now1: int, now2: int)
    requires WellFormed(t)
    requires forall i :: 0 <= i < |t.warnings| ==> t.warnings[i].groupId == s.groupId
    ensures var r1 := AutoRestrictStep(t, s, remote1, now1);
      var r2 := AutoRestrictStep(r1.tables, s, remote2, now2);
      forall u :: RestrictsUser(r1.emitted, u) ==> !RestrictsUser(r2.emitted, u)
  {
    var r1 := AutoRestrictStep(t, s, remote1, now1);
    var rows1 := WarningsPastTimeThreshold(t, s.warningTimeThresholdMinutes, now1);
    SweepFoldFacts(t, s, remote1, now1, rows1);
    SweepRestrictsExactlyReachable(t, s, remote1, now1);
    var t1 := r1.tables;
    assert FlagsOnly(t, t1);
    assert forall i :: 0 <= i < |t1.warnings| ==> t1.warnings[i].Key() == t.warnings[i].Key();
    forall u | RestrictsUser(r1.emitted, u)
      ensures !RestrictsUser(AutoRestrictStep(t1, s, remote2, now2).emitted, u)
    {
      SweepSkipsUserWithoutActiveRow(t1, s, remote2, now2, u);
    }
  }

  /** A sweep never restricts a user who has no active row in the group. */
  lemma SweepSkipsUserWithoutActiveRow(t: Tables, s: Settings, remote: Remote, now: int, u: int)
    requires WellFormed(t) && !HasMatch(t.warnings, Active, u, s.groupId)
    requires forall i :: 0 <= i < |t.warnings| ==> t.warnings[i].groupId == s.groupId
    ensures !RestrictsUser(AutoRestrictStep(t, s, remote, now).emitted, u)
  {
    var rows := WarningsPastTimeThreshold(t, s.warningTimeThresholdMinutes, now);
    SweepRestrictsExactlyReachable(t, s, remote, now);
    forall w | w in rows
      ensures w.userId != u
    {
      var i :| 0 <= i < |t.warnings| && t.warnings[i] == w;
      assert Selects(Active, t.warnings[i], w.userId, s.groupId);
    }
  }

  /** The sweep on the store object and the bot. */
  method AutoRestrictExpiredWarnings(db: DatabaseService, bot: Bot, s: Settings, remote: Remote, now: int)
    requires db.Valid()
    modifies db, bot
    ensures db.Valid()
    ensures var r := AutoRestrictStep(old(db.State()), s, remote, now);
      db.State() == r.tables && bot.effects == old(bot.effects) + r.emitted && bot.jobs == old(bot.jobs)
  {
    var rows := db.GetWarningsPastTimeThreshold(s.warningTimeThresholdMinutes, now);
    if |rows| == 0 {
      return;
    }
    SweepRows(db, bot, s, remote, now, rows);
  }

  /** The loop over the selected records, as the source runs it. */
  method SweepRows(db: DatabaseService, bot: Bot, s: Settings, remote: Remote, now: int, rows: seq<UserWarning>)
    requires db.Valid()
    modifies db, bot
    ensures db.Valid()
    ensures var f := SweepFold(old(db.State()), s, remote, now, rows);
      db.State() == f.0 && bot.effects == old(bot.effects) + f.1 && bot.jobs == old(bot.jobs)
  {
    ghost var t0 := db.State();
    ghost var e0 := bot.effects;
    ghost var acc := (t0, []);
    var i := 0;
    while i < |rows|
      invariant 0 <= i <= |rows|
      invariant db.Valid()
      invariant acc == SweepFold(t0, s, remote, now, rows[..i])
      invariant db.State() == acc.0 && bot.effects == e0 + acc.1 && bot.jobs == old(bot.jobs)
    {
      SweepFoldSnoc(t0, s, remote, now, rows, i);
      ghost var step := SweepRecord(acc.0, s, remote, now, rows[i]);
      RestrictExpiredRecord(db, bot, s, remote, now, rows[i]);
      AppendAssoc(e0, acc.1, step.1);
      acc := (step.0, acc.1 + step.1);
      i := i + 1;
    }
    assert rows[..|rows|] == rows;
  }

  lemma SweepFoldSnoc(t: Tables, s: Settings, remote: Remote, now: int, rows: seq<UserWarning>, i: nat)
    requires i < |rows|
    ensures var f := SweepFold(t, s, remote, now, rows[..i]);
      var step := SweepRecord(f.0, s, remote, now, rows[i]);
      SweepFold(t, s, remote, now, rows[..i + 1]) == (step.0, f.1 + step.1)
  {
    assert rows[..i + 1][..i] == rows[..i];
  }

  /** The body of the loop for one record, with its `try`/`except`. */
  method RestrictExpiredRecord(db: DatabaseService, bot: Bot, s: Settings, remote: Remote, now: int, w: UserWarning)
    requires db.Valid()
    modifies db, bot
    ensures db.Valid()
    ensures var step := SweepRecord(old(db.State()), s, remote, now, w);
      db.State() == step.0 && bot.effects == old(bot.effects) + step.1 && bot.jobs == old(bot.jobs)
  {
    if remote.status(w.userId) == Some(Banned) {
      db.MarkUserUnrestricted(w.userId, s.groupId);
      return;
    }
    if !remote.restrictOk(w.userId) {
      return;
    }
    bot.Emit(Restrict(s.groupId, w.userId, RestrictedPermissions()));
    var marked := db.MarkUserRestricted(w.userId, s.groupId, now);
    if marked.Ok? && remote.timeNoticeOk(w.userId) {
      var mention := SweepMention(remote, w.userId);
      bot.Emit(Notice(s.groupId, s.warningTopicId, RestrictedAfterTime(mention, s.warningTimeThresholdMinutes)));
    }
  }
}
