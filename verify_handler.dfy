/** The admin commands `/verify USER_ID` and `/unverify USER_ID`
    (src/bot/handlers/verify.py): an admin, in a private chat with the bot, adds
    a user to the photo-verification whitelist (lifting their restriction and
    wiping their warning history) or takes them off it. */
module VerifyHandler {
  import opened Base
  import opened Text
  import opened Models
  import opened Database
  import opened Config
  import opened Platform
  import opened UserChecker

  /** A command message: its sender (None when the update has no message or no
      sender), the kind of its chat (None when there is no effective chat) and
      its arguments. */
  datatype Command = Command(sender: Option<User>, chatKind: Option<ChatKind>, args: seq<string>)

  /** What the shared guards of both commands decide: ignore the update,
      refuse it with a reply, or go ahead for a target user. */
  datatype Parsed = Ignore | Refuse(reply: ReplyKind) | Target(adminId: int, userId: int)

  /** The guards: a sender, a private chat, an admin, a numeric first argument. */
  function ParseCommand(cmd: Command, adminIds: seq<int>, usage: ReplyKind): (p: Parsed)
    ensures p == Ignore <==> cmd.sender.None?
    ensures p.Target? <==>
      && cmd.sender.Some?
      && !(cmd.chatKind.Some? && cmd.chatKind.value != PrivateChat)
      && cmd.sender.value.id in adminIds
      && |cmd.args| > 0 && ParseInt(cmd.args[0]).Some?
    ensures p.Target? ==> p.adminId == cmd.sender.value.id && p.userId == ParseInt(cmd.args[0]).value
    ensures p.Refuse? ==> p.reply in {PrivateChatOnly, NotAdmin, NotANumber, usage}
  {
    if cmd.sender.None? then Ignore
    else if cmd.chatKind.Some? && cmd.chatKind.value != PrivateChat then Refuse(PrivateChatOnly)
    else if cmd.sender.value.id !in adminIds then Refuse(NotAdmin)
    else if |cmd.args| > 0 then
      match ParseInt(cmd.args[0])
      case None => Refuse(NotANumber)
      case Some(n) => Target(cmd.sender.value.id, n)
    else Refuse(usage)
  }

  /** `handle_verify_command`. */
  function VerifyStep(t: Tables, s: Settings, remote: Remote, adminIds: seq<int>, cmd: Command, now: int): Reaction {
    match ParseCommand(cmd, adminIds, VerifyUsage)
    case Ignore => Reaction(t, [], Completed)
    case Refuse(reply) => Reaction(t, [Reply(reply)], Completed)
    case Target(admin, u) =>
      match AddWhitelist(t, u, admin, now)
      case Err(_) => Reaction(t, [Reply(AlreadyOnWhitelist(u))], Completed)
      case Ok(a) => ClearUser(a.0, s, remote, u)
  }

  /** What /verify does once the whitelist entry is in: lift the restriction
      (a BadRequest is tolerated, any other error escapes), delete every warning
      row of the user in the group, post a clearance notice when there were
      any, and confirm. */
  function ClearUser(t: Tables, s: Settings, remote: Remote, u: int): Reaction {
    var unrestricted := remote.unrestrict(u);
    if unrestricted == OtherError then Reaction(t, [], Raised(UnrestrictFailed))
    else
      var lifted := if unrestricted == Succeeded then [Unrestrict(s.groupId, u)] else [];
      var d := DeleteUserWarnings(t, u, s.groupId);
      if d.1 > 0 then
        if !remote.chatLookupOk(u) then Reaction(d.0, lifted, Raised(LookupFailed))
        else Reaction(d.0, lifted + [Notice(s.groupId, s.warningTopicId, VerificationClearance(u)), Reply(Verified(u))], Completed)
      else
        Reaction(d.0, lifted + [Reply(Verified(u))], Completed)
  }

  /** `handle_unverify_command`. */
  function UnverifyStep(t: Tables, adminIds: seq<int>, cmd: Command): Reaction {
    match ParseCommand(cmd, adminIds, UnverifyUsage)
    case Ignore => Reaction(t, [], Completed)
    case Refuse(reply) => Reaction(t, [Reply(reply)], Completed)
    case Target(_, u) =>
      match RemoveWhitelist(t, u)
      case Err(_) => Reaction(t, [Reply(NotOnWhitelist(u))], Completed)
      case Ok(t') => Reaction(t', [Reply(Unverified(u))], Completed)
  }

  // ---------------------------------------------------------------------------
  // What the commands guarantee

  /** Anyone but an admin in a private chat with a numeric argument gets at
      most one reply and changes nothing, for both commands. */
  lemma GuardsChangeNothing(t: Tables, s: Settings, remote: Remote, adminIds: seq<int>, cmd: Command, now: int)
    requires !ParseCommand(cmd, adminIds, VerifyUsage).Target?
    ensures var r := VerifyStep(t, s, remote, adminIds, cmd, now);
      && r.tables == t && r.outcome == Completed && |r.emitted| <= 1
      && (cmd.sender.Some? <==> |r.emitted| == 1)
    ensures var r := UnverifyStep(t, adminIds, cmd);
      && r.tables == t && r.outcome == Completed && |r.emitted| <= 1
      && (cmd.sender.Some? <==> |r.emitted| == 1)
  {
    assert ParseCommand(cmd, adminIds, VerifyUsage).Target? == ParseCommand(cmd, adminIds, UnverifyUsage).Target?;
  }

  /** A user already on the whitelist is reported as such; nothing else
      happens, in particular no unrestrict and no deletion. */
  lemma VerifyAlreadyWhitelisted(t: Tables, s: Settings, remote: Remote, adminIds: seq<int>, cmd: Command, now: int)
    requires ParseCommand(cmd, adminIds, VerifyUsage).Target?
    requires ParseCommand(cmd, adminIds, VerifyUsage).userId in t.whitelist
    ensures var u := ParseCommand(cmd, adminIds, VerifyUsage).userId;
      VerifyStep(t, s, remote, adminIds, cmd, now) == Reaction(t, [Reply(AlreadyOnWhitelist(u))], Completed)
  {
  }

  /** A completed /verify of a new user: the user is whitelisted by the admin
      who sent the command, has no warning row left in the group (so the next
      warning cycle starts at one message), every other row and whitelist
      entry is as before, a clearance notice is posted exactly when there was
      history to clear, and the command ends with the confirmation. An
      unrestrict error other than BadRequest escapes after the whitelist entry
      is committed and before any row is deleted. */
  lemma VerifyClearsUser(t: Tables, s: Settings, remote: Remote, adminIds: seq<int>, cmd: Command, now: int)
    requires ParseCommand(cmd, adminIds, VerifyUsage).Target?
    requires ParseCommand(cmd, adminIds, VerifyUsage).userId !in t.whitelist
    ensures var p := ParseCommand(cmd, adminIds, VerifyUsage);
      var u := p.userId;
      var r := VerifyStep(t, s, remote, adminIds, cmd, now);
      var hadHistory := exists i :: 0 <= i < |t.warnings| && t.warnings[i].Key() == (u, s.groupId);
      && IsPhotoWhitelisted(r.tables, u)
      && r.tables.whitelist[u].verifiedByAdminId == p.adminId
      && (forall v :: v != u ==> (v in r.tables.whitelist <==> v in t.whitelist))
      && (remote.unrestrict(u) == OtherError ==> r.tables.warnings == t.warnings)
      && (remote.unrestrict(u) != OtherError ==> forall w :: w in r.tables.warnings ==> w.Key() != (u, s.groupId))
      && (forall w :: w in t.warnings && w.Key() != (u, s.groupId) ==> w in r.tables.warnings)
      && r.tables.pending == t.pending
      && (r.outcome == Completed <==> remote.unrestrict(u) != OtherError && (hadHistory ==> remote.chatLookupOk(u)))
      && (r.outcome == Completed ==>
            && |r.emitted| >= 1
            && r.emitted[|r.emitted| - 1] == Reply(Verified(u))
            && (Notice(s.groupId, s.warningTopicId, VerificationClearance(u)) in r.emitted <==> hadHistory)
            && GetOrCreate(r.tables, u, s.groupId, now).1.messageCount == 1)
      && (Unrestrict(s.groupId, u) in r.emitted <==> remote.unrestrict(u) == Succeeded)
  {
    var p := ParseCommand(cmd, adminIds, VerifyUsage);
    var u := p.userId;
    var a := AddWhitelist(t, u, p.adminId, now).value.0;
    assert a.warnings == t.warnings && a.pending == t.pending;
    DeleteUserWarningsClearsHistory(a, u, s.groupId, now);
    ClearUserFacts(a, s, remote, u);
    assert VerifyStep(t, s, remote, adminIds, cmd, now) == ClearUser(a, s, remote, u);
  }

  /** What clearing a just-whitelisted user does, by how the unmute and the
      lookup of the user's chat go. */
  lemma ClearUserFacts(a: Tables, s: Settings, remote: Remote, u: int)
    ensures var r := ClearUser(a, s, remote, u);
      var d := DeleteUserWarnings(a, u, s.groupId);
      var hadHistory := exists i :: 0 <= i < |a.warnings| && a.warnings[i].Key() == (u, s.groupId);
      && (remote.unrestrict(u) == OtherError ==> r.tables == a)
      && (remote.unrestrict(u) != OtherError ==> r.tables == d.0)
      && (r.outcome == Completed <==> remote.unrestrict(u) != OtherError && (d.1 > 0 ==> remote.chatLookupOk(u)))
      && (r.outcome == Completed ==>
            && |r.emitted| >= 1
            && r.emitted[|r.emitted| - 1] == Reply(Verified(u))
            && (Notice(s.groupId, s.warningTopicId, VerificationClearance(u)) in r.emitted <==> d.1 > 0))
      && (Unrestrict(s.groupId, u) in r.emitted <==> remote.unrestrict(u) == Succeeded)
  {
    var r := ClearUser(a, s, remote, u);
    var d := DeleteUserWarnings(a, u, s.groupId);
    var un := Unrestrict(s.groupId, u);
    var notice := Notice(s.groupId, s.warningTopicId, VerificationClearance(u));
    var reply := Reply(Verified(u));
    if remote.unrestrict(u) == OtherError {
      assert r == Reaction(a, [], Raised(UnrestrictFailed));
    } else if d.1 > 0 && !remote.chatLookupOk(u) {
      assert r.tables == d.0 && r.outcome == Raised(LookupFailed);
      if remote.unrestrict(u) == Succeeded {
        assert r.emitted == [un];
      } else {
        assert r.emitted == [];
      }
    } else if d.1 > 0 {
      assert r.tables == d.0 && r.outcome == Completed;
      if remote.unrestrict(u) == Succeeded {
        assert r.emitted == [un, notice, reply];
      } else {
        assert r.emitted == [notice, reply];
      }
    } else {
      assert r.tables == d.0 && r.outcome == Completed;
      if remote.unrestrict(u) == Succeeded {
        assert r.emitted == [un, reply];
      } else {
        assert r.emitted == [reply];
      }
    }
  }

  /** A user whom /verify whitelisted is never asked for a photo again: the
      profile check counts the photo as present without looking it up. */
  lemma VerifiedUserSkipsPhotoCheck(t: Tables, s: Settings, remote: Remote, adminIds: seq<int>, cmd: Command, now: int,
                                    user: User)
    requires ParseCommand(cmd, adminIds, VerifyUsage).Target?
    requires user.id == ParseCommand(cmd, adminIds, VerifyUsage).userId
    ensures var r := VerifyStep(t, s, remote, adminIds, cmd, now);
      var c := CheckUserProfile(r.tables, user, remote);
      c.result.hasProfilePhoto && c.emitted == []
  {
  }

  /** /unverify removes exactly the named entry when there is one, and
      otherwise says so and changes nothing. */
  lemma UnverifyRemovesEntry(t: Tables, adminIds: seq<int>, cmd: Command)
    requires ParseCommand(cmd, adminIds, UnverifyUsage).Target?
    ensures var u := ParseCommand(cmd, adminIds, UnverifyUsage).userId;
      var r := UnverifyStep(t, adminIds, cmd);
      && r.outcome == Completed
      && (u in t.whitelist ==> r.tables == t.(whitelist := t.whitelist - {u}) && r.emitted == [Reply(Unverified(u))])
      && (u !in t.whitelist ==> r.tables == t && r.emitted == [Reply(NotOnWhitelist(u))])
      && !IsPhotoWhitelisted(r.tables, u)
  {
  }

  /** /verify followed by /unverify of the same user gives the whitelist back
      as it was; the deleted warning history stays deleted. */
  lemma VerifyThenUnverifyRestoresWhitelist(t: Tables, s: Settings, remote: Remote, adminIds: seq<int>,
                                            cmd: Command, undo: Command, now: int)
    requires ParseCommand(cmd, adminIds, VerifyUsage).Target?
    requires ParseCommand(undo, adminIds, UnverifyUsage).Target?
    requires ParseCommand(undo, adminIds, UnverifyUsage).userId == ParseCommand(cmd, adminIds, VerifyUsage).userId
    requires ParseCommand(cmd, adminIds, VerifyUsage).userId !in t.whitelist
    ensures var r := VerifyStep(t, s, remote, adminIds, cmd, now);
      UnverifyStep(r.tables, adminIds, undo).tables.whitelist == t.whitelist
  {
    var p := ParseCommand(cmd, adminIds, VerifyUsage);
    var u := p.userId;
    var added := AddWhitelist(t, u, p.adminId, now).value;
    var r := VerifyStep(t, s, remote, adminIds, cmd, now);
    assert r == ClearUser(added.0, s, remote, u);
    assert r.tables.whitelist == t.whitelist[u := added.1];
    assert u in r.tables.whitelist;
    assert r.tables.whitelist[u := added.1] - {u} == t.whitelist;
  }

  lemma CommandsPreserveWellFormed(t: Tables, s: Settings, remote: Remote, adminIds: seq<int>, cmd: Command, now: int)
    requires WellFormed(t)
    ensures WellFormed(VerifyStep(t, s, remote, adminIds, cmd, now).tables)
    ensures WellFormed(UnverifyStep(t, adminIds, cmd).tables)
  {
    var p := ParseCommand(cmd, adminIds, VerifyUsage);
    if p.Target? {
      AddWhitelistPreservesWellFormed(t, p.userId, p.adminId, now, None);
      var a := AddWhitelist(t, p.userId, p.adminId, now);
      if a.Ok? {
        DeleteUserWarningsPreservesWellFormed(a.value.0, p.userId, s.groupId);
      }
      RemoveWhitelistPreservesWellFormed(t, p.userId);
    }
  }

  // ---------------------------------------------------------------------------
  // On the store object and the bot

  /** `handle_verify_command` on the store object and the bot. */
  method HandleVerifyCommand(db: DatabaseService, bot: Bot, s: Settings, remote: Remote, adminIds: seq<int>,
                             cmd: Command, now: int)
    returns (outcome: Outcome)
    requires db.Valid()
    modifies db, bot
    ensures db.Valid()
    ensures var r := VerifyStep(old(db.State()), s, remote, adminIds, cmd, now);
      db.State() == r.tables && bot.effects == old(bot.effects) + r.emitted
      && bot.jobs == old(bot.jobs) && outcome == r.outcome
  {
    var p := ParseCommand(cmd, adminIds, VerifyUsage);
    if p.Ignore? {
      return Completed;
    }
    if p.Refuse? {
      bot.Emit(Reply(p.reply));
      return Completed;
    }
    var u := p.userId;
    var added := db.AddPhotoVerificationWhitelist(u, p.adminId, now);
    if added.Err? {
      bot.Emit(Reply(AlreadyOnWhitelist(u)));
      return Completed;
    }
    outcome := ClearVerifiedUser(db, bot, s, remote, u);
  }

  /** The part of `handle_verify_command` after the whitelist entry is in. */
  method ClearVerifiedUser(db: DatabaseService, bot: Bot, s: Settings, remote: Remote, u: int)
    returns (outcome: Outcome)
    requires db.Valid()
    modifies db, bot
    ensures db.Valid()
    ensures var r := ClearUser(old(db.State()), s, remote, u);
      db.State() == r.tables && bot.effects == old(bot.effects) + r.emitted
      && bot.jobs == old(bot.jobs) && outcome == r.outcome
  {
    ghost var e0 := bot.effects;
    var unrestricted := remote.unrestrict(u);
    if unrestricted == OtherError {
      return Raised(UnrestrictFailed);
    }
    var lifted: seq<Effect> := [];
    if unrestricted == Succeeded {
      lifted := [Unrestrict(s.groupId, u)];
      bot.Emit(Unrestrict(s.groupId, u));
    }
    var deleted := db.DeleteWarnings(u, s.groupId);
    if deleted > 0 {
      if !remote.chatLookupOk(u) {
        return Raised(LookupFailed);
      }
      bot.Emit(Notice(s.groupId, s.warningTopicId, VerificationClearance(u)));
    }
    bot.Emit(Reply(Verified(u)));
    if deleted > 0 {
      assert bot.effects == e0 + (lifted + [Notice(s.groupId, s.warningTopicId, VerificationClearance(u)), Reply(Verified(u))]);
    } else {
      assert bot.effects == e0 + (lifted + [Reply(Verified(u))]);
    }
    return Completed;
  }

  /** `handle_unverify_command` on the store object and the bot. */
  method HandleUnverifyCommand(db: DatabaseService, bot: Bot, adminIds: seq<int>, cmd: Command)
    returns (outcome: Outcome)
    requires db.Valid()
    modifies db, bot
    ensures db.Valid()
    ensures var r := UnverifyStep(old(db.State()), adminIds, cmd);
      db.State() == r.tables && bot.effects == old(bot.effects) + r.emitted
      && bot.jobs == old(bot.jobs) && outcome == r.outcome
  {
    var p := ParseCommand(cmd, adminIds, UnverifyUsage);
    if p.Ignore? {
      return Completed;
    }
    if p.Refuse? {
      bot.Emit(Reply(p.reply));
      return Completed;
    }
    var removed := db.RemovePhotoVerificationWhitelist(p.userId);
    if removed.Err? {
      bot.Emit(Reply(NotOnWhitelist(p.userId)));
    } else {
      bot.Emit(Reply(Unverified(p.userId)));
    }
    return Completed;
  }
}
