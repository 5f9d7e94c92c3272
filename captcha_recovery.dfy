/** Captcha expiry and restart recovery (src/bot/services/captcha_recovery.py).
    Expiry turns a pending challenge into a restriction the bot owns, so that
    the private-message flow can lift it later; recovery replays, after a
    restart, every challenge whose timeout job was lost with the in-memory job
    queue. */
module CaptchaRecovery {
  import opened Base
  import opened Models
  import opened Database
  import opened Config
  import opened Platform
  import opened CaptchaNames

  /** `handle_captcha_expiration`: nothing when the challenge is no longer
      pending; otherwise the pending row goes, the user's active warning row
      (found or created) is marked restricted by the bot, and the challenge
      message is edited to say so. */
  function ExpireStep(t: Tables, remote: Remote, userId: int, groupId: int, chatId: int, messageId: int,
                      fullName: string, now: int): (r: Reaction)
    ensures r.tables.whitelist == t.whitelist
  {
    match GetPending(t, userId, groupId)
    case None => Reaction(t, [], Completed)
    case Some(_) =>
      var t1 := RemovePending(t, userId, groupId);
      var got := GetOrCreate(t1, userId, groupId, now);
      var edit := if remote.editOk then [Edit(chatId, messageId, CaptchaTimedOut(userId, fullName))] else [];
      if !got.1.isRestricted then
        match MarkRestricted(got.0, userId, groupId, now)
        case Err(_) => Reaction(got.0, [], Raised(StoreFailed))
        case Ok(m) => Reaction(m.0, edit, Completed)
      else
        Reaction(got.0, edit, Completed)
  }

  /** Nothing happens for a challenge that is no longer pending (verified, or
      already expired), so a timeout job that fires late is harmless. */
  lemma ExpireWithoutPendingIsNoOp(t: Tables, remote: Remote, userId: int, groupId: int, chatId: int,
                                   messageId: int, fullName: string, now: int)
    requires (userId, groupId) !in t.pending
    ensures ExpireStep(t, remote, userId, groupId, chatId, messageId, fullName, now) == Reaction(t, [], Completed)
  {
  }

  /** An expired challenge leaves the user restricted by the bot: the pending
      row (and only it) is gone, a bot-restricted row exists for the pair, the
      only call made is the edit of the challenge message, when it goes
      through, and no restrict call is needed since the user is already muted. */
  lemma ExpiryRestrictsByBot(t: Tables, remote: Remote, userId: int, groupId: int, chatId: int,
                             messageId: int, fullName: string, now: int)
    requires (userId, groupId) in t.pending
    ensures var r := ExpireStep(t, remote, userId, groupId, chatId, messageId, fullName, now);
      && r.outcome == Completed
      && r.tables.pending == t.pending - {(userId, groupId)}
      && IsRestrictedByBot(r.tables, userId, groupId)
      && (remote.editOk ==> r.emitted == [Edit(chatId, messageId, CaptchaTimedOut(userId, fullName))])
      && (!remote.editOk ==> r.emitted == [])
  {
    var t1 := RemovePending(t, userId, groupId);
    var got := GetOrCreate(t1, userId, groupId, now);
    assert HasMatch(got.0.warnings, Active, userId, groupId) by {
      var i: nat := if HasMatch(t1.warnings, Active, userId, groupId) then FirstMatch(t1.warnings, Active, userId, groupId).value
                    else |t1.warnings|;
      assert got.0.warnings[i] == got.1;
    }
    var i := FirstMatch(got.0.warnings, Active, userId, groupId).value;
    var m := MarkRestricted(got.0, userId, groupId, now).value.0;
    assert m.warnings[i].Key() == (userId, groupId) && m.warnings[i].IsBotRestricted();
  }

  /** On a well-formed store expiry closes the user's warning cycle: no active
      row is left for the pair, and the store stays well formed. */
  lemma ExpiryClosesCycle(t: Tables, remote: Remote, userId: int, groupId: int, chatId: int,
                          messageId: int, fullName: string, now: int)
    requires WellFormed(t)
    requires (userId, groupId) in t.pending
    ensures var r := ExpireStep(t, remote, userId, groupId, chatId, messageId, fullName, now);
      && WellFormed(r.tables)
      && !HasMatch(r.tables.warnings, Active, userId, groupId)
  {
    var t1 := RemovePending(t, userId, groupId);
    PendingOpsPreserveWellFormed(t, PendingCaptcha(userId, groupId, 0, 0, "", 0), userId, groupId);
    GetOrCreatePreservesWellFormed(t1, userId, groupId, now);
    GetOrCreateReturnsTheActiveRow(t1, userId, groupId, now);
    var got := GetOrCreate(t1, userId, groupId, now);
    var i :| 0 <= i < |got.0.warnings| && got.0.warnings[i] == got.1;
    MarkRestrictedRetiresActiveRow(got.0, userId, groupId, now, i);
    MarkRestrictedPreservesWellFormed(got.0, userId, groupId, now);
  }

  /** Rows are only appended and bot restrictions are never cleared. */
  ghost predicate KeepsBotFlags(t: Tables, t': Tables) {
    && |t.warnings| <= |t'.warnings|
    && forall j :: 0 <= j < |t.warnings| ==>
         t'.warnings[j].Key() == t.warnings[j].Key()
         && (t.warnings[j].IsBotRestricted() ==> t'.warnings[j].IsBotRestricted())
  }

  lemma KeepsBotFlagsKeepsRestriction(t: Tables, t': Tables, userId: int, groupId: int)
    requires KeepsBotFlags(t, t')
    requires IsRestrictedByBot(t, userId, groupId)
    ensures IsRestrictedByBot(t', userId, groupId)
  {
    var j :| 0 <= j < |t.warnings| && t.warnings[j].Key() == (userId, groupId) && t.warnings[j].IsBotRestricted();
    assert t'.warnings[j].Key() == (userId, groupId) && t'.warnings[j].IsBotRestricted();
  }

  lemma ExpiryKeepsBotFlags(t: Tables, remote: Remote, userId: int, groupId: int, chatId: int,
                            messageId: int, fullName: string, now: int)
    ensures var r := ExpireStep(t, remote, userId, groupId, chatId, messageId, fullName, now);
      && KeepsBotFlags(t, r.tables)
      && r.tables.pending.Keys <= t.pending.Keys
      && (forall k :: k in r.tables.pending ==> r.tables.pending[k] == t.pending[k])
      && (forall k :: k in t.pending && k != (userId, groupId) ==> k in r.tables.pending)
  {
    if (userId, groupId) in t.pending {
      var t1 := RemovePending(t, userId, groupId);
      var got := GetOrCreate(t1, userId, groupId, now);
      assert got.0.pending == t1.pending;
      assert KeepsBotFlags(t, got.0);
      if !got.1.isRestricted {
        var m := MarkRestricted(got.0, userId, groupId, now);
        if m.Ok? {
          var i := FirstMatch(got.0.warnings, Active, userId, groupId).value;
          assert m.value.0.warnings == got.0.warnings[i := m.value.1];
        }
      }
    }
  }

  // ---------------------------------------------------------------------------
  // Restart recovery

  /** Seconds left before a challenge times out; at or below zero it is overdue. */
  function Remaining(s: Settings, now: int, p: PendingCaptcha): int {
    s.captchaTimeoutSeconds - (now - p.createdAt)
  }

  /** The timeout job for a challenge, run after `when` seconds. */
  function TimeoutJob(p: PendingCaptcha, when: int): (j: Job)
    ensures j.name == JobName(p.groupId, p.userId)
    ensures j.data.userId == p.userId && j.data.groupId == p.groupId
  {
    Job(JobName(p.groupId, p.userId), when, JobData(p.userId, p.groupId, p.chatId, p.messageId, p.userFullName))
  }

  /** One record of the recovery loop: expire it now, or schedule its timeout
      for the time it has left. */
  function RecoverOne(t: Tables, jobs: seq<Job>, s: Settings, remote: Remote, now: int, p: PendingCaptcha)
    : (Tables, seq<Job>, seq<Effect>)
  {
    var remaining := Remaining(s, now, p);
    if remaining <= 0 then
      var e := ExpireStep(t, remote, p.userId, p.groupId, p.chatId, p.messageId, p.userFullName, now);
      (e.tables, jobs, e.emitted)
    else
      (t, jobs + [TimeoutJob(p, remaining)], [])
  }

  /** The loop over the records, in the order the store lists them. */
  function RecoverFold(t: Tables, jobs: seq<Job>, s: Settings, remote: Remote, now: int, records: seq<PendingCaptcha>)
    : (Tables, seq<Job>, seq<Effect>)
    decreases |records|
  {
    if records == [] then (t, jobs, [])
    else
      var f := RecoverFold(t, jobs, s, remote, now, records[..|records| - 1]);
      var o := RecoverOne(f.0, f.1, s, remote, now, records[|records| - 1]);
      (o.0, o.1, f.2 + o.2)
  }

  /** `recover_pending_captchas` given the rows the store returned. */
  function RecoverStep(t: Tables, jobs: seq<Job>, s: Settings, remote: Remote, now: int, records: seq<PendingCaptcha>)
    : (r: QueueReaction)
    ensures r.outcome == Completed
    ensures records == [] ==> r == QueueReaction(t, jobs, [], Completed)
  {
    if records == [] then QueueReaction(t, jobs, [], Completed)
    else
      var f := RecoverFold(t, jobs, s, remote, now, records);
      QueueReaction(f.0, f.1, f.2, Completed)
  }

  /** A record is still pending, or its user is already restricted by the bot. */
  ghost predicate Covered(t: Tables, p: PendingCaptcha) {
    p.Key() in t.pending || IsRestrictedByBot(t, p.userId, p.groupId)
  }

  /** What one step of the loop does, whatever record it handles. */
  lemma RecoverOneFacts(t: Tables, jobs: seq<Job>, s: Settings, remote: Remote, now: int, p: PendingCaptcha)
    requires WellFormed(t)
    ensures var o := RecoverOne(t, jobs, s, remote, now, p);
      && WellFormed(o.0)
      && KeepsBotFlags(t, o.0)
      && o.0.whitelist == t.whitelist
      && o.0.pending.Keys <= t.pending.Keys
      && (forall k :: k in t.pending && k != p.Key() ==> k in o.0.pending)
      && (forall q :: Covered(t, q) ==> Covered(o.0, q))
      && (Remaining(s, now, p) > 0 ==> o == (t, jobs + [TimeoutJob(p, Remaining(s, now, p))], []))
      && (Remaining(s, now, p) <= 0 ==> o.1 == jobs)
      && (Remaining(s, now, p) <= 0 && Covered(t, p) ==>
            p.Key() !in o.0.pending && IsRestrictedByBot(o.0, p.userId, p.groupId))
  {
    var o := RecoverOne(t, jobs, s, remote, now, p);
    if Remaining(s, now, p) <= 0 {
      ExpiryKeepsBotFlags(t, remote, p.userId, p.groupId, p.chatId, p.messageId, p.userFullName, now);
      if p.Key() in t.pending {
        ExpiryRestrictsByBot(t, remote, p.userId, p.groupId, p.chatId, p.messageId, p.userFullName, now);
        ExpiryClosesCycle(t, remote, p.userId, p.groupId, p.chatId, p.messageId, p.userFullName, now);
      } else if Covered(t, p) {
        KeepsBotFlagsKeepsRestriction(t, o.0, p.userId, p.groupId);
      }
      forall q | Covered(t, q)
        ensures Covered(o.0, q)
      {
        if q.Key() !in o.0.pending {
          if q.Key() in t.pending {
            assert q.Key() == p.Key();
            ExpiryRestrictsByBot(t, remote, p.userId, p.groupId, p.chatId, p.messageId, p.userFullName, now);
          } else {
            KeepsBotFlagsKeepsRestriction(t, o.0, q.userId, q.groupId);
          }
        }
      }
    }
  }

  /** The store side of the loop: the invariant holds, the whitelist is
      untouched, pending rows only go, a record once covered stays covered, and
      jobs are only appended. */
  lemma {:induction false} RecoverFoldKeeps(t: Tables, jobs: seq<Job>, s: Settings, remote: Remote, now: int,
                                            records: seq<PendingCaptcha>)
    requires WellFormed(t)
    ensures var f := RecoverFold(t, jobs, s, remote, now, records);
      && WellFormed(f.0)
      && f.0.whitelist == t.whitelist
      && f.0.pending.Keys <= t.pending.Keys
      && (forall q :: Covered(t, q) ==> Covered(f.0, q))
      && |jobs| <= |f.1| && f.1[..|jobs|] == jobs
    decreases |records|
  {
    if records != [] {
      var front := records[..|records| - 1];
      var p := records[|records| - 1];
      RecoverFoldKeeps(t, jobs, s, remote, now, front);
      var f := RecoverFold(t, jobs, s, remote, now, front);
      RecoverOneFacts(f.0, f.1, s, remote, now, p);
      var o := RecoverOne(f.0, f.1, s, remote, now, p);
      assert o.1[..|f.1|] == f.1;
      assert o.1[..|jobs|] == jobs;
    }
  }

  /** Every overdue record ends removed, with its user restricted by the bot. */
  lemma {:induction false} RecoverFoldExpires(t: Tables, jobs: seq<Job>, s: Settings, remote: Remote, now: int,
                                              records: seq<PendingCaptcha>)
    requires WellFormed(t)
    requires forall p :: p in records ==> Covered(t, p)
    ensures var f := RecoverFold(t, jobs, s, remote, now, records);
      forall p :: p in records && Remaining(s, now, p) <= 0 ==>
        p.Key() !in f.0.pending && IsRestrictedByBot(f.0, p.userId, p.groupId)
    decreases |records|
  {
    if records != [] {
      var front := records[..|records| - 1];
      var p := records[|records| - 1];
      assert forall q :: q in records <==> q in front || q == p;
      RecoverFoldExpires(t, jobs, s, remote, now, front);
      RecoverFoldKeeps(t, jobs, s, remote, now, front);
      var f := RecoverFold(t, jobs, s, remote, now, front);
      RecoverOneFacts(f.0, f.1, s, remote, now, p);
      var o := RecoverOne(f.0, f.1, s, remote, now, p);
      assert Covered(f.0, p);
      forall q | q in records && Remaining(s, now, q) <= 0
        ensures q.Key() !in o.0.pending && IsRestrictedByBot(o.0, q.userId, q.groupId)
      {
        if q != p {
          KeepsBotFlagsKeepsRestriction(f.0, o.0, q.userId, q.groupId);
        }
      }
    }
  }

  /** The job queue after one record, whatever the tables. */
  lemma RecoverOneJobs(t: Tables, jobs: seq<Job>, s: Settings, remote: Remote, now: int, p: PendingCaptcha)
    ensures var o := RecoverOne(t, jobs, s, remote, now, p);
      o.1 == if Remaining(s, now, p) > 0 then jobs + [TimeoutJob(p, Remaining(s, now, p))] else jobs
  {
  }

  /** Every running record gets a timeout job for exactly the time it has left. */
  lemma {:induction false} RecoverFoldSchedulesRunning(t: Tables, jobs: seq<Job>, s: Settings, remote: Remote,
                                                       now: int, records: seq<PendingCaptcha>)
    ensures var f := RecoverFold(t, jobs, s, remote, now, records);
      forall p :: p in records && Remaining(s, now, p) > 0 ==> TimeoutJob(p, Remaining(s, now, p)) in f.1
    decreases |records|
  {
    if records != [] {
      var front := records[..|records| - 1];
      var p := records[|records| - 1];
      assert forall q :: q in records <==> q in front || q == p;
      RecoverFoldSchedulesRunning(t, jobs, s, remote, now, front);
      var f := RecoverFold(t, jobs, s, remote, now, front);
      RecoverOneJobs(f.0, f.1, s, remote, now, p);
      var jobs' := RecoverFold(t, jobs, s, remote, now, records).1;
      assert jobs' == RecoverOne(f.0, f.1, s, remote, now, p).1;
      assert forall j :: j in f.1 ==> j in jobs';
    }
  }

  /** The only jobs the loop adds are timeout jobs of running records. */
  lemma {:induction false} RecoverFoldSchedulesOnlyRunning(t: Tables, jobs: seq<Job>, s: Settings, remote: Remote,
                                                           now: int, records: seq<PendingCaptcha>)
    ensures var f := RecoverFold(t, jobs, s, remote, now, records);
      && |jobs| <= |f.1| && f.1[..|jobs|] == jobs
      && (forall j :: j in f.1[|jobs|..] ==>
            exists p :: p in records && Remaining(s, now, p) > 0 && j == TimeoutJob(p, Remaining(s, now, p)))
    decreases |records|
  {
    if records != [] {
      var front := records[..|records| - 1];
      var p := records[|records| - 1];
      assert forall q :: q in records <==> q in front || q == p;
      RecoverFoldSchedulesOnlyRunning(t, jobs, s, remote, now, front);
      var f := RecoverFold(t, jobs, s, remote, now, front);
      RecoverOneJobs(f.0, f.1, s, remote, now, p);
      var jobs' := RecoverFold(t, jobs, s, remote, now, records).1;
      assert jobs' == RecoverOne(f.0, f.1, s, remote, now, p).1;
      assert jobs'[..|f.1|] == f.1;
      assert jobs'[..|jobs|] == jobs;
      forall j | j in jobs'[|jobs|..]
        ensures exists q :: q in records && Remaining(s, now, q) > 0 && j == TimeoutJob(q, Remaining(s, now, q))
      {
        var k :| |jobs| <= k < |jobs'| && jobs'[k] == j;
        if k < |f.1| {
          assert f.1[|jobs|..][k - |jobs|] == j;
          assert j in f.1[|jobs|..];
          var q :| q in front && Remaining(s, now, q) > 0 && j == TimeoutJob(q, Remaining(s, now, q));
          assert q in records;
        } else {
          assert Remaining(s, now, p) > 0 && j == TimeoutJob(p, Remaining(s, now, p));
          assert p in records;
        }
      }
    }
  }

  /** The only pending rows the loop removes belong to overdue records. */
  lemma {:induction false} RecoverFoldRemovesOnlyOverdue(t: Tables, jobs: seq<Job>, s: Settings, remote: Remote,
                                                         now: int, records: seq<PendingCaptcha>)
    ensures var f := RecoverFold(t, jobs, s, remote, now, records);
      forall k :: k in t.pending && k !in f.0.pending ==>
        exists p :: p in records && p.Key() == k && Remaining(s, now, p) <= 0
    decreases |records|
  {
    if records != [] {
      var front := records[..|records| - 1];
      var p := records[|records| - 1];
      assert forall q :: q in records <==> q in front || q == p;
      RecoverFoldRemovesOnlyOverdue(t, jobs, s, remote, now, front);
      var f := RecoverFold(t, jobs, s, remote, now, front);
      ExpiryKeepsBotFlags(f.0, remote, p.userId, p.groupId, p.chatId, p.messageId, p.userFullName, now);
    }
  }

  /** Recovery over the rows the store lists, each pending row once: every
      challenge that was pending at restart is either overdue, and then expired
      with its user restricted by the bot, or still running, and then still
      pending with a timeout job for exactly the time it has left under its
      own name. */
  lemma RecoveryHandlesEveryChallenge(t: Tables, jobs: seq<Job>, s: Settings, remote: Remote, now: int,
                                      records: seq<PendingCaptcha>)
    requires WellFormed(t)
    requires forall i :: 0 <= i < |records| ==> records[i].Key() in t.pending && t.pending[records[i].Key()] == records[i]
    requires forall k :: k in t.pending ==> exists i :: 0 <= i < |records| && records[i].Key() == k
    ensures var r := RecoverStep(t, jobs, s, remote, now, records);
      && WellFormed(r.tables)
      && r.tables.whitelist == t.whitelist
      && r.tables.pending.Keys <= t.pending.Keys
      && (forall k :: k in t.pending && Remaining(s, now, t.pending[k]) <= 0 ==>
            k !in r.tables.pending && IsRestrictedByBot(r.tables, k.0, k.1))
      && (forall k :: k in t.pending && Remaining(s, now, t.pending[k]) > 0 ==>
            k in r.tables.pending
            && TimeoutJob(t.pending[k], Remaining(s, now, t.pending[k])) in r.jobs
            && TimeoutJob(t.pending[k], Remaining(s, now, t.pending[k])).name == JobName(k.1, k.0))
      && |jobs| <= |r.jobs| && r.jobs[..|jobs|] == jobs
  {
    if records != [] {
      forall p | p in records
        ensures Covered(t, p)
      {
      }
      RecoverFoldKeeps(t, jobs, s, remote, now, records);
      RecoverFoldExpires(t, jobs, s, remote, now, records);
      RecoverFoldSchedulesRunning(t, jobs, s, remote, now, records);
      RecoverFoldSchedulesOnlyRunning(t, jobs, s, remote, now, records);
      RecoverFoldRemovesOnlyOverdue(t, jobs, s, remote, now, records);
      var f := RecoverFold(t, jobs, s, remote, now, records);
      forall k | k in t.pending
        ensures var p := t.pending[k];
          (Remaining(s, now, p) <= 0 ==> k !in f.0.pending && IsRestrictedByBot(f.0, k.0, k.1))
          && (Remaining(s, now, p) > 0 ==> k in f.0.pending && TimeoutJob(p, Remaining(s, now, p)) in f.1)
      {
        var i :| 0 <= i < |records| && records[i].Key() == k;
        assert records[i] == t.pending[k];
        assert records[i] in records;
      }
    }
  }

  // ---------------------------------------------------------------------------
  // On the store object and the bot

  /** `handle_captcha_expiration` on the store object. */
  method HandleCaptchaExpiration(db: DatabaseService, bot: Bot, remote: Remote, userId: int, groupId: int,
                                 chatId: int, messageId: int, fullName: string, now: int)
    returns (outcome: Outcome)
    requires db.Valid()
    modifies db, bot
    ensures db.Valid()
    ensures var r := ExpireStep(old(db.State()), remote, userId, groupId, chatId, messageId, fullName, now);
      db.State() == r.tables && bot.effects == old(bot.effects) + r.emitted
      && bot.jobs == old(bot.jobs) && outcome == r.outcome
  {
    var pending := db.GetPendingCaptcha(userId, groupId);
    if pending.None? {
      return Completed;
    }
    db.RemovePendingCaptcha(userId, groupId);
    var warning := db.GetOrCreateUserWarning(userId, groupId, now);
    if !warning.isRestricted {
      var marked := db.MarkUserRestricted(userId, groupId, now);
      if marked.Err? {
        return Raised(StoreFailed);
      }
    }
    if remote.editOk {
      bot.Emit(Edit(chatId, messageId, CaptchaTimedOut(userId, fullName)));
    }
    return Completed;
  }

  /** One iteration of the recovery loop. */
  method RecoverRecord(db: DatabaseService, bot: Bot, s: Settings, remote: Remote, now: int, p: PendingCaptcha)
    requires db.Valid()
    modifies db, bot
    ensures db.Valid()
    ensures var o := RecoverOne(old(db.State()), old(bot.jobs), s, remote, now, p);
      db.State() == o.0 && bot.jobs == o.1 && bot.effects == old(bot.effects) + o.2
  {
    var remaining := Remaining(s, now, p);
    if remaining <= 0 {
      var _ := HandleCaptchaExpiration(db, bot, remote, p.userId, p.groupId, p.chatId, p.messageId, p.userFullName, now);
    } else {
      bot.RunOnce(TimeoutJob(p, remaining));
    }
  }

  /** The loop of `recover_pending_captchas` over the listed rows. */
  method RecoverRows(db: DatabaseService, bot: Bot, s: Settings, remote: Remote, now: int, rows: seq<PendingCaptcha>)
    requires db.Valid()
    modifies db, bot
    ensures db.Valid()
    ensures var f := RecoverFold(old(db.State()), old(bot.jobs), s, remote, now, rows);
      db.State() == f.0 && bot.jobs == f.1 && bot.effects == old(bot.effects) + f.2
  {
    ghost var t0 := db.State();
    ghost var j0 := bot.jobs;
    ghost var e0 := bot.effects;
    ghost var acc := (t0, j0, []);
    var i := 0;
    while i < |rows|
      invariant 0 <= i <= |rows|
      invariant db.Valid()
      invariant acc == RecoverFold(t0, j0, s, remote, now, rows[..i])
      invariant db.State() == acc.0 && bot.jobs == acc.1 && bot.effects == e0 + acc.2
    {
      RecoverFoldSnoc(t0, j0, s, remote, now, rows, i);
      ghost var o := RecoverOne(acc.0, acc.1, s, remote, now, rows[i]);
      RecoverRecord(db, bot, s, remote, now, rows[i]);
      AppendAssoc(e0, acc.2, o.2);
      acc := (o.0, o.1, acc.2 + o.2);
      i := i + 1;
    }
    assert rows[..|rows|] == rows;
  }

  lemma RecoverFoldSnoc(t: Tables, jobs: seq<Job>, s: Settings, remote: Remote, now: int, rows: seq<PendingCaptcha>, i: nat)
    requires i < |rows|
    ensures var f := RecoverFold(t, jobs, s, remote, now, rows[..i]);
      var o := RecoverOne(f.0, f.1, s, remote, now, rows[i]);
      RecoverFold(t, jobs, s, remote, now, rows[..i + 1]) == (o.0, o.1, f.2 + o.2)
  {
    assert rows[..i + 1][..i] == rows[..i];
  }

  /** `recover_pending_captchas`; `records` are the rows the store listed. */
  method RecoverPendingCaptchas(db: DatabaseService, bot: Bot, s: Settings, remote: Remote, now: int)
    returns (ghost records: seq<PendingCaptcha>)
    requires db.Valid()
    modifies db, bot
    ensures db.Valid()
    ensures forall i :: 0 <= i < |records| ==>
      records[i].Key() in old(db.pending) && old(db.pending)[records[i].Key()] == records[i]
    ensures forall k :: k in old(db.pending) ==> exists i :: 0 <= i < |records| && records[i].Key() == k
    ensures var r := RecoverStep(old(db.State()), old(bot.jobs), s, remote, now, records);
      db.State() == r.tables && bot.jobs == r.jobs && bot.effects == old(bot.effects) + r.emitted
  {
    var rows := db.GetAllPendingCaptchas();
    records := rows;
    if |rows| == 0 {
      return;
    }
    RecoverRows(db, bot, s, remote, now, rows);
  }
}
