/** Private messages to the bot (src/bot/handlers/dm.py): a first-match-wins
    chain over the user's membership, their profile, the store's bot flag and
    their status on Telegram, ending in lifting the bot's restriction. */
module DmHandler {
  import opened Base
  import opened Constants
  import opened Models
  import opened Database
  import opened Config
  import opened Platform
  import opened UserChecker

  /** A private message; `sender` is None when the update has no message or no
      sender, `chatKind` is None when the update has no effective chat. */
  datatype DirectMessage = DirectMessage(sender: Option<User>, chatKind: Option<ChatKind>)

  predicate Concerns(msg: DirectMessage) {
    msg.sender.Some? && !(msg.chatKind.Some? && msg.chatKind.value != PrivateChat)
  }

  predicate InGroup(status: Option<MemberStatus>) {
    status.Some? && status.value != Left && status.value != Banned
  }

  /** `handle_dm`. */
  function HandleDmStep(t: Tables, s: Settings, remote: Remote, msg: DirectMessage): (r: Reaction)
    ensures !Concerns(msg) ==> r == Reaction(t, [], Completed)
  {
    if msg.sender.None? then Reaction(t, [], Completed)
    else if msg.chatKind.Some? && msg.chatKind.value != PrivateChat then Reaction(t, [], Completed)
    else
      var user := msg.sender.value;
      var status := remote.status(user.id);
      if !InGroup(status) then Reaction(t, [Reply(NotInGroup)], Completed)
      else
        var check := CheckUserProfile(t, user, remote);
        if !check.result.IsComplete() then
          Reaction(t, check.emitted + [Reply(IncompleteProfile(check.result.MissingItems()))], Completed)
        else if !IsRestrictedByBot(t, user.id, s.groupId) then
          Reaction(t, check.emitted + [Reply(NoBotRestriction)], Completed)
        else if status.value != Restricted then
          Reaction(MarkUnrestricted(t, user.id, s.groupId), check.emitted + [Reply(AlreadyUnrestricted)], Completed)
        else if !remote.restrictOk(user.id) then
          Reaction(t, check.emitted, Raised(RestrictFailed))
        else
          Reaction(MarkUnrestricted(t, user.id, s.groupId),
                   check.emitted + [Restrict(s.groupId, user.id, remote.defaultPermissions), Reply(UnrestrictionSuccess)],
                   Completed)
  }

  /** The reply the chain ends with. */
  function LastReply(r: Reaction): ReplyKind
    requires |r.emitted| > 0 && r.emitted[|r.emitted| - 1].Reply?
  {
    r.emitted[|r.emitted| - 1].reply
  }

  /** Every branch ends in exactly one reply, and it is the last call made;
      only a failed restrict call ends without one. */
  lemma ExactlyOneReply(t: Tables, s: Settings, remote: Remote, msg: DirectMessage)
    requires Concerns(msg)
    ensures var r := HandleDmStep(t, s, remote, msg);
      && (r.outcome == Completed ==>
            CountReplies(r.emitted) == 1 && |r.emitted| > 0 && r.emitted[|r.emitted| - 1].Reply?)
      && (r.outcome != Completed ==> CountReplies(r.emitted) == 0)
  {
    var user := msg.sender.value;
    var r := HandleDmStep(t, s, remote, msg);
    var status := remote.status(user.id);
    if !InGroup(status) {
      assert r.emitted == [Reply(NotInGroup)];
      assert r.emitted[..0] == [];
      return;
    }
    var check := CheckUserProfile(t, user, remote);
    var pre := check.emitted;
    var tail: seq<Effect>;
    if !check.result.IsComplete() {
      tail := [Reply(IncompleteProfile(check.result.MissingItems()))];
    } else if !IsRestrictedByBot(t, user.id, s.groupId) {
      tail := [Reply(NoBotRestriction)];
    } else if status.value != Restricted {
      tail := [Reply(AlreadyUnrestricted)];
    } else if !remote.restrictOk(user.id) {
      assert r == Reaction(t, pre, Raised(RestrictFailed));
      return;
    } else {
      tail := [Restrict(s.groupId, user.id, remote.defaultPermissions), Reply(UnrestrictionSuccess)];
      assert tail[..1][..0] == [];
    }
    assert r.emitted == pre + tail && r.outcome == Completed;
    assert tail[..|tail| - 1] == [] || tail[..|tail| - 1] == [tail[0]];
    CountRepliesAppend(pre, tail);
  }

  /** The order of the checks: not being in the group wins over everything
      (and no profile lookup is made), then an incomplete profile, then the
      absence of a bot restriction, then the status on Telegram. */
  lemma CheckOrder(t: Tables, s: Settings, remote: Remote, msg: DirectMessage)
    requires Concerns(msg)
    ensures var u := msg.sender.value;
      var r := HandleDmStep(t, s, remote, msg);
      var complete := CheckUserProfile(t, u, remote).result.IsComplete();
      var flagged := IsRestrictedByBot(t, u.id, s.groupId);
      var status := remote.status(u.id);
      && (!InGroup(status) ==> r.emitted == [Reply(NotInGroup)])
      && (InGroup(status) && !complete ==>
            LastReply(r) == IncompleteProfile(CheckUserProfile(t, u, remote).result.MissingItems()))
      && (InGroup(status) && complete && !flagged ==> LastReply(r) == NoBotRestriction)
      && (InGroup(status) && complete && flagged && status.value != Restricted ==> LastReply(r) == AlreadyUnrestricted)
      && (InGroup(status) && complete && flagged && status.value == Restricted && remote.restrictOk(u.id) ==>
            LastReply(r) == UnrestrictionSuccess)
  {
  }

  /** The store changes only on the two branches that lift the bot's
      restriction, and there only the bot flag of one of the user's rows is
      cleared. A restrict call is made only there, with the group's default
      permissions, for a user restricted by the bot and by Telegram whose
      profile is complete. */
  lemma ChangesOnlyWhenLifting(t: Tables, s: Settings, remote: Remote, msg: DirectMessage)
    requires Concerns(msg)
    ensures var u := msg.sender.value;
      var r := HandleDmStep(t, s, remote, msg);
      && (r.tables == t || r.tables == MarkUnrestricted(t, u.id, s.groupId))
      && (r.tables != t ==> r.outcome == Completed && (LastReply(r) == AlreadyUnrestricted || LastReply(r) == UnrestrictionSuccess))
      && (RestrictsUser(r.emitted, u.id) ==>
            && r.emitted[|r.emitted| - 2] == Restrict(s.groupId, u.id, remote.defaultPermissions)
            && remote.status(u.id) == Some(Restricted)
            && CheckUserProfile(t, u, remote).result.IsComplete()
            && IsRestrictedByBot(t, u.id, s.groupId))
      && (!RestrictsUser(r.emitted, u.id) ==> NoRestrict(r.emitted))
  {
    var u := msg.sender.value;
    var r := HandleDmStep(t, s, remote, msg);
    var status := remote.status(u.id);
    if !InGroup(status) {
      assert r == Reaction(t, [Reply(NotInGroup)], Completed);
      return;
    }
    var check := CheckUserProfile(t, u, remote);
    var pre := check.emitted;
    assert NoRestrict(pre);
    var tail: seq<Effect>;
    if !check.result.IsComplete() {
      tail := [Reply(IncompleteProfile(check.result.MissingItems()))];
      assert r == Reaction(t, pre + tail, Completed);
    } else if !IsRestrictedByBot(t, u.id, s.groupId) {
      tail := [Reply(NoBotRestriction)];
      assert r == Reaction(t, pre + tail, Completed);
    } else if status.value != Restricted {
      tail := [Reply(AlreadyUnrestricted)];
      assert r == Reaction(MarkUnrestricted(t, u.id, s.groupId), pre + tail, Completed);
    } else if !remote.restrictOk(u.id) {
      assert r == Reaction(t, pre, Raised(RestrictFailed));
      return;
    } else {
      var restrict := Restrict(s.groupId, u.id, remote.defaultPermissions);
      assert r.emitted == pre + [restrict, Reply(UnrestrictionSuccess)];
      assert r.emitted[|r.emitted| - 2] == restrict;
      assert RestrictsUser(r.emitted, u.id);
      return;
    }
    NoRestrictAppend(pre, tail);
  }

  /** After a successful lift the bot no longer holds the restriction when the
      user had a single row restricted by the bot. */
  lemma LiftClearsSingleFlag(t: Tables, s: Settings, remote: Remote, msg: DirectMessage)
    requires Concerns(msg)
    requires forall i, j :: 0 <= i < j < |t.warnings| && Selects(BotRestricted, t.warnings[i], msg.sender.value.id, s.groupId)
               ==> !Selects(BotRestricted, t.warnings[j], msg.sender.value.id, s.groupId)
    ensures var r := HandleDmStep(t, s, remote, msg);
      r.tables != t ==> !IsRestrictedByBot(r.tables, msg.sender.value.id, s.groupId)
  {
    var u := msg.sender.value.id;
    var r := HandleDmStep(t, s, remote, msg);
    if r.tables != t {
      MarkUnrestrictedClearsFirstBotRow(t, u, s.groupId);
      var i := FirstMatch(t.warnings, BotRestricted, u, s.groupId).value;
      forall j | 0 <= j < |r.tables.warnings|
        ensures !Selects(BotRestricted, r.tables.warnings[j], u, s.groupId)
      {
        if j != i && j < i {
          assert !Selects(BotRestricted, t.warnings[j], u, s.groupId);
        }
      }
    }
  }

  lemma HandleDmPreservesWellFormed(t: Tables, s: Settings, remote: Remote, msg: DirectMessage)
    requires WellFormed(t)
    ensures WellFormed(HandleDmStep(t, s, remote, msg).tables)
  {
    if Concerns(msg) {
      MarkUnrestrictedPreservesWellFormed(t, msg.sender.value.id, s.groupId);
    }
  }

  /** The handler on the store object and the bot. */
  method HandleDm(db: DatabaseService, bot: Bot, s: Settings, remote: Remote, msg: DirectMessage)
    returns (outcome: Outcome)
    requires db.Valid()
    modifies db, bot
    ensures db.Valid()
    ensures var r := HandleDmStep(old(db.State()), s, remote, msg);
      db.State() == r.tables && bot.effects == old(bot.effects) + r.emitted
      && bot.jobs == old(bot.jobs) && outcome == r.outcome
  {
    if msg.sender.None? {
      return Completed;
    }
    if msg.chatKind.Some? && msg.chatKind.value != PrivateChat {
      return Completed;
    }
    var user := msg.sender.value;
    var status := remote.status(user.id);
    if !InGroup(status) {
      bot.Emit(Reply(NotInGroup));
      return Completed;
    }
    ghost var t0 := db.State();
    ghost var e0 := bot.effects;
    var check := CheckUserProfile(db.State(), user, remote);
    bot.EmitAll(check.emitted);
    if !check.result.IsComplete() {
      bot.Emit(Reply(IncompleteProfile(check.result.MissingItems())));
      AppendAssoc(e0, check.emitted, [Reply(IncompleteProfile(check.result.MissingItems()))]);
      return Completed;
    }
    if !db.IsUserRestrictedByBot(user.id, s.groupId) {
      bot.Emit(Reply(NoBotRestriction));
      AppendAssoc(e0, check.emitted, [Reply(NoBotRestriction)]);
      return Completed;
    }
    if status.value != Restricted {
      db.MarkUserUnrestricted(user.id, s.groupId);
      bot.Emit(Reply(AlreadyUnrestricted));
      AppendAssoc(e0, check.emitted, [Reply(AlreadyUnrestricted)]);
      return Completed;
    }
    if !remote.restrictOk(user.id) {
      return Raised(RestrictFailed);
    }
    bot.Emit(Restrict(s.groupId, user.id, remote.defaultPermissions));
    db.MarkUserUnrestricted(user.id, s.groupId);
    bot.Emit(Reply(UnrestrictionSuccess));
    AppendAssoc(e0, check.emitted, [Restrict(s.groupId, user.id, remote.defaultPermissions), Reply(UnrestrictionSuccess)]);
    return Completed;
  }
}
