/** The record store (src/bot/database/service.py). The tables are a value,
    `Tables`, with one function per query or update; `DatabaseService` holds the
    same tables in fields and updates them in place, each method proved equal to
    its function. Rows of `user_warnings` are kept in insertion order, so SQL's
    `.first()` is the lowest matching index. */
module Database {
  import opened Base
  import opened Models

  datatype DbError = NoActiveWarning | AlreadyWhitelisted | NotInWhitelist

  datatype Tables = Tables(
    warnings: seq<UserWarning>,
    whitelist: map<int, PhotoVerificationWhitelist>,
    pending: map<(int, int), PendingCaptcha>,
    nextId: nat)

  /** A freshly created database. */
  const EmptyTables: Tables := Tables([], map[], map[], 1)

  /** The two row selections the service uses: the active (not restricted) row,
      and a row restricted by the bot itself. */
  datatype Query = Active | BotRestricted

  predicate Selects(q: Query, w: UserWarning, userId: int, groupId: int) {
    && w.Key() == (userId, groupId)
    && match q
       case Active => w.IsActive()
       case BotRestricted => w.IsBotRestricted()
  }

  predicate HasMatch(ws: seq<UserWarning>, q: Query, userId: int, groupId: int) {
    exists i :: 0 <= i < |ws| && Selects(q, ws[i], userId, groupId)
  }

  /** `select(...).where(...).first()`: the lowest index whose row the query selects. */
  function FirstMatch(ws: seq<UserWarning>, q: Query, userId: int, groupId: int): (r: Option<nat>)
    ensures r.Some? ==> r.value < |ws| && Selects(q, ws[r.value], userId, groupId)
    ensures r.Some? ==> forall j :: 0 <= j < r.value ==> !Selects(q, ws[j], userId, groupId)
    ensures r.None? <==> !HasMatch(ws, q, userId, groupId)
  {
    if ws == [] then None
    else if Selects(q, ws[0], userId, groupId) then Some(0)
    else
      match FirstMatch(ws[1..], q, userId, groupId)
      case None =>
        assert forall j :: 1 <= j < |ws| ==> ws[j] == ws[1..][j - 1];
        None
      case Some(i) =>
        assert forall j :: 1 <= j < i + 1 ==> ws[j] == ws[1..][j - 1];
        Some(i + 1)
  }

  // ---------------------------------------------------------------------------
  // The store's invariant

  /** At most one active row per (user, group). */
  ghost predicate AtMostOneActive(ws: seq<UserWarning>) {
    forall i, j :: 0 <= i < j < |ws| && ws[i].IsActive() && ws[j].IsActive() ==> ws[i].Key() != ws[j].Key()
  }

  /** A single row: at least one message counted, the bot flag only on a
      restricted row, an id below the next one to be handed out. */
  predicate RowWellFormed(w: UserWarning, nextId: nat) {
    && w.messageCount >= 1
    && (w.restrictedByBot ==> w.isRestricted)
    && w.id < nextId
  }

  ghost predicate WellFormed(t: Tables) {
    && AtMostOneActive(t.warnings)
    && (forall i :: 0 <= i < |t.warnings| ==> RowWellFormed(t.warnings[i], t.nextId))
    && (forall u :: u in t.whitelist ==> t.whitelist[u].userId == u)
    && (forall k :: k in t.pending ==> t.pending[k].Key() == k)
  }

  lemma EmptyTablesWellFormed()
    ensures WellFormed(EmptyTables)
  {
  }

  /** Under the invariant, the active row of a (user, group) is the only one. */
  lemma {:induction false} ActiveRowIsFirst(t: Tables, userId: int, groupId: int, i: nat)
    requires WellFormed(t)
    requires i < |t.warnings| && Selects(Active, t.warnings[i], userId, groupId)
    ensures FirstMatch(t.warnings, Active, userId, groupId) == Some(i)
  {
    var f := FirstMatch(t.warnings, Active, userId, groupId);
    if f.value < i {
      assert false;
    }
  }

  /** Two rows at the same index that differ only in fields other than the
      flags and key. */
  predicate OnlyRowChanged(ws: seq<UserWarning>, ws': seq<UserWarning>, i: nat) {
    |ws'| == |ws| && i < |ws| && forall j :: 0 <= j < |ws| && j != i ==> ws'[j] == ws[j]
  }

  // ---------------------------------------------------------------------------
  // user_warnings

  /** `get_or_create_user_warning`: the active row, or a new one appended. */
  function GetOrCreate(t: Tables, userId: int, groupId: int, now: int): (r: (Tables, UserWarning))
    ensures Selects(Active, r.1, userId, groupId)
    ensures HasMatch(t.warnings, Active, userId, groupId) ==> r.0 == t && r.1 in t.warnings
    ensures !HasMatch(t.warnings, Active, userId, groupId) ==>
      && r.0 == t.(warnings := t.warnings + [r.1], nextId := t.nextId + 1)
      && r.1.messageCount == 1 && !r.1.restrictedByBot
      && r.1.id == t.nextId
  {
    match FirstMatch(t.warnings, Active, userId, groupId)
    case Some(i) => (t, t.warnings[i])
    case None =>
      var w := NewUserWarning(t.nextId, userId, groupId, now);
      (t.(warnings := t.warnings + [w], nextId := t.nextId + 1), w)
  }

  /** `increment_message_count`: one more message on the active row. */
  function Increment(t: Tables, userId: int, groupId: int, now: int): (r: Result<(Tables, UserWarning), DbError>)
    ensures r.Err? <==> !HasMatch(t.warnings, Active, userId, groupId)
    ensures r.Err? ==> r.error == NoActiveWarning
  {
    match FirstMatch(t.warnings, Active, userId, groupId)
    case None => Err(NoActiveWarning)
    case Some(i) =>
      var w := t.warnings[i].(messageCount := t.warnings[i].messageCount + 1, lastMessageAt := now);
      Ok((t.(warnings := t.warnings[i := w]), w))
  }

  /** `mark_user_restricted`: the active row becomes restricted by the bot. */
  function MarkRestricted(t: Tables, userId: int, groupId: int, now: int): (r: Result<(Tables, UserWarning), DbError>)
    ensures r.Err? <==> !HasMatch(t.warnings, Active, userId, groupId)
    ensures r.Err? ==> r.error == NoActiveWarning
  {
    match FirstMatch(t.warnings, Active, userId, groupId)
    case None => Err(NoActiveWarning)
    case Some(i) =>
      var w := t.warnings[i].(isRestricted := true, restrictedByBot := true, lastMessageAt := now);
      Ok((t.(warnings := t.warnings[i := w]), w))
  }

  /** `is_user_restricted_by_bot`. */
  function IsRestrictedByBot(t: Tables, userId: int, groupId: int): (b: bool)
    ensures b <==> exists i :: 0 <= i < |t.warnings| && t.warnings[i].Key() == (userId, groupId)
                                && t.warnings[i].isRestricted && t.warnings[i].restrictedByBot
  {
    var found := FirstMatch(t.warnings, BotRestricted, userId, groupId);
    assert found.None? <==> !HasMatch(t.warnings, BotRestricted, userId, groupId);
    found.Some?
  }

  /** `mark_user_unrestricted`: clears the bot flag on the first row restricted by
      the bot; nothing happens when there is none. */
  function MarkUnrestricted(t: Tables, userId: int, groupId: int): (t': Tables)
    ensures t'.(warnings := t.warnings) == t
    ensures |t'.warnings| == |t.warnings|
    ensures forall j :: 0 <= j < |t.warnings| ==>
      t'.warnings[j] == t.warnings[j] || t'.warnings[j] == t.warnings[j].(restrictedByBot := false)
  {
    match FirstMatch(t.warnings, BotRestricted, userId, groupId)
    case None => t
    case Some(i) => t.(warnings := t.warnings[i := t.warnings[i].(restrictedByBot := false)])
  }

  /** Rows kept by a deletion of (user, group), in their order. */
  function RowsNotOf(ws: seq<UserWarning>, userId: int, groupId: int): (r: seq<UserWarning>)
    ensures forall w :: w in r <==> w in ws && w.Key() != (userId, groupId)
    ensures |r| <= |ws|
    ensures |r| == |ws| <==> forall i :: 0 <= i < |ws| ==> ws[i].Key() != (userId, groupId)
  {
    if ws == [] then []
    else
      var rest := RowsNotOf(ws[1..], userId, groupId);
      assert forall i :: 1 <= i < |ws| ==> ws[i] == ws[1..][i - 1];
      assert forall w :: w in ws <==> w == ws[0] || w in ws[1..];
      if ws[0].Key() == (userId, groupId) then rest else [ws[0]] + rest
  }

  /** `delete_user_warnings`: removes every row of (user, group), whatever its
      flags, and reports how many were removed. */
  function DeleteUserWarnings(t: Tables, userId: int, groupId: int): (r: (Tables, nat))
    ensures r.0 == t.(warnings := RowsNotOf(t.warnings, userId, groupId))
    ensures r.1 == |t.warnings| - |r.0.warnings|
  {
    var kept := RowsNotOf(t.warnings, userId, groupId);
    (t.(warnings := kept), |t.warnings| - |kept|)
  }

  /** Active rows whose cycle began at or before the cutoff, in table order. */
  function ActiveSince(ws: seq<UserWarning>, cutoff: int): (r: seq<UserWarning>)
    ensures forall w :: w in r <==> w in ws && w.IsActive() && w.firstWarnedAt <= cutoff
    ensures |r| <= |ws|
  {
    if ws == [] then []
    else
      var rest := ActiveSince(ws[1..], cutoff);
      assert forall w :: w in ws <==> w == ws[0] || w in ws[1..];
      if ws[0].IsActive() && ws[0].firstWarnedAt <= cutoff then [ws[0]] + rest else rest
  }

  /** `get_warnings_past_time_threshold`: the cutoff is `minutes` before `now`. */
  function WarningsPastTimeThreshold(t: Tables, minutesThreshold: int, now: int): (r: seq<UserWarning>)
    ensures forall w :: w in r <==>
      w in t.warnings && !w.isRestricted && w.firstWarnedAt <= now - minutesThreshold * 60
  {
    ActiveSince(t.warnings, now - minutesThreshold * 60)
  }

  // ---------------------------------------------------------------------------
  // photo_verification_whitelist

  function IsPhotoWhitelisted(t: Tables, userId: int): bool {
    userId in t.whitelist
  }

  /** `add_photo_verification_whitelist`: refused for a user already listed. */
  function AddWhitelist(t: Tables, userId: int, adminId: int, now: int, notes: Option<string> := None)
    : (r: Result<(Tables, PhotoVerificationWhitelist), DbError>)
    ensures r.Err? <==> userId in t.whitelist
    ensures r.Err? ==> r.error == AlreadyWhitelisted
    ensures r.Ok? ==> r.value.0 == t.(whitelist := t.whitelist[userId := r.value.1])
    ensures r.Ok? ==> r.value.1.userId == userId && r.value.1.verifiedByAdminId == adminId
                      && r.value.1.notes == notes
  {
    if userId in t.whitelist then Err(AlreadyWhitelisted)
    else
      var e := NewWhitelistEntry(userId, adminId, now, notes);
      Ok((t.(whitelist := t.whitelist[userId := e]), e))
  }

  /** `remove_photo_verification_whitelist`: refused for a user not listed. */
  function RemoveWhitelist(t: Tables, userId: int): (r: Result<Tables, DbError>)
    ensures r.Err? <==> userId !in t.whitelist
    ensures r.Err? ==> r.error == NotInWhitelist
    ensures r.Ok? ==> r.value == t.(whitelist := t.whitelist - {userId})
  {
    if userId !in t.whitelist then Err(NotInWhitelist)
    else Ok(t.(whitelist := t.whitelist - {userId}))
  }

  // ---------------------------------------------------------------------------
  // pending captchas (keyed by (user, group))

  function AddPending(t: Tables, p: PendingCaptcha): Tables {
    t.(pending := t.pending[p.Key() := p])
  }

  function GetPending(t: Tables, userId: int, groupId: int): Option<PendingCaptcha> {
    if (userId, groupId) in t.pending then Some(t.pending[(userId, groupId)]) else None
  }

  function RemovePending(t: Tables, userId: int, groupId: int): Tables {
    t.(pending := t.pending - {(userId, groupId)})
  }

  // ---------------------------------------------------------------------------
  // What the operations guarantee

  /** A new cycle is only created when there is no active one, so the invariant
      survives; a returned existing row is the unique active row. */
  lemma GetOrCreatePreservesWellFormed(t: Tables, userId: int, groupId: int, now: int)
    requires WellFormed(t)
    ensures WellFormed(GetOrCreate(t, userId, groupId, now).0)
  {
    var r := GetOrCreate(t, userId, groupId, now);
    if !HasMatch(t.warnings, Active, userId, groupId) {
      var ws := r.0.warnings;
      forall i, j | 0 <= i < j < |ws| && ws[i].IsActive() && ws[j].IsActive()
        ensures ws[i].Key() != ws[j].Key()
      {
        if j == |ws| - 1 {
          assert !Selects(Active, t.warnings[i], userId, groupId);
        }
      }
    }
  }

  /** The returned row is the one active row; with none, the new row is the
      single row appended, counting one message and carrying a fresh id. */
  lemma GetOrCreateReturnsTheActiveRow(t: Tables, userId: int, groupId: int, now: int)
    requires WellFormed(t)
    ensures var r := GetOrCreate(t, userId, groupId, now);
      && (forall i :: 0 <= i < |t.warnings| && Selects(Active, t.warnings[i], userId, groupId) ==>
            r.0 == t && r.1 == t.warnings[i])
      && (!HasMatch(t.warnings, Active, userId, groupId) ==>
            && r.0.warnings == t.warnings + [r.1]
            && r.1.messageCount == 1 && !r.1.isRestricted && !r.1.restrictedByBot
            && forall i :: 0 <= i < |t.warnings| ==> t.warnings[i].id != r.1.id)
  {
    forall i | 0 <= i < |t.warnings| && Selects(Active, t.warnings[i], userId, groupId)
      ensures GetOrCreate(t, userId, groupId, now).1 == t.warnings[i]
    {
      ActiveRowIsFirst(t, userId, groupId, i);
    }
  }

  /** Incrementing adds exactly one to the active row's count, keeps it active
      and touches no other row. */
  lemma IncrementAddsOne(t: Tables, userId: int, groupId: int, now: int, i: nat)
    requires WellFormed(t)
    requires i < |t.warnings| && Selects(Active, t.warnings[i], userId, groupId)
    ensures var r := Increment(t, userId, groupId, now);
      && r.Ok?
      && OnlyRowChanged(t.warnings, r.value.0.warnings, i)
      && r.value.0.warnings[i].messageCount == t.warnings[i].messageCount + 1
      && Selects(Active, r.value.0.warnings[i], userId, groupId)
      && r.value.0.(warnings := t.warnings) == t
  {
    ActiveRowIsFirst(t, userId, groupId, i);
  }

  lemma IncrementPreservesWellFormed(t: Tables, userId: int, groupId: int, now: int)
    requires WellFormed(t)
    ensures var r := Increment(t, userId, groupId, now);
      r.Ok? ==> WellFormed(r.value.0)
  {
    var r := Increment(t, userId, groupId, now);
    if r.Ok? {
      var i := FirstMatch(t.warnings, Active, userId, groupId).value;
      var ws := r.value.0.warnings;
      assert forall j :: 0 <= j < |ws| ==> ws[j].Key() == t.warnings[j].Key() && ws[j].IsActive() == t.warnings[j].IsActive();
    }
  }

  /** Marking retires the active row: both flags set on it, no other row
      touched, and afterwards the pair has no active row, so the next
      get-or-create starts a fresh cycle. */
  lemma MarkRestrictedRetiresActiveRow(t: Tables, userId: int, groupId: int, now: int, i: nat)
    requires WellFormed(t)
    requires i < |t.warnings| && Selects(Active, t.warnings[i], userId, groupId)
    ensures var r := MarkRestricted(t, userId, groupId, now);
      && r.Ok?
      && OnlyRowChanged(t.warnings, r.value.0.warnings, i)
      && r.value.0.warnings[i] == t.warnings[i].(isRestricted := true, restrictedByBot := true, lastMessageAt := now)
      && !HasMatch(r.value.0.warnings, Active, userId, groupId)
      && GetOrCreate(r.value.0, userId, groupId, now).1.messageCount == 1
  {
    ActiveRowIsFirst(t, userId, groupId, i);
    var ws := MarkRestricted(t, userId, groupId, now).value.0.warnings;
    if HasMatch(ws, Active, userId, groupId) {
      assert false;
    }
  }

  lemma MarkRestrictedPreservesWellFormed(t: Tables, userId: int, groupId: int, now: int)
    requires WellFormed(t)
    ensures var r := MarkRestricted(t, userId, groupId, now);
      r.Ok? ==> WellFormed(r.value.0)
  {
    var r := MarkRestricted(t, userId, groupId, now);
    if r.Ok? {
      var ws := r.value.0.warnings;
      assert forall j :: 0 <= j < |ws| ==> ws[j].Key() == t.warnings[j].Key() && (ws[j].IsActive() ==> t.warnings[j].IsActive());
    }
  }

  /** Clearing the bot flag leaves `is_restricted` set, so every row keeps its
      activity; only a row restricted by the bot can change. */
  lemma MarkUnrestrictedKeepsRestriction(t: Tables, userId: int, groupId: int)
    ensures var t' := MarkUnrestricted(t, userId, groupId);
      && (forall j :: 0 <= j < |t.warnings| ==>
            && t'.warnings[j].isRestricted == t.warnings[j].isRestricted
            && t'.warnings[j].Key() == t.warnings[j].Key()
            && (t'.warnings[j] != t.warnings[j] ==> Selects(BotRestricted, t.warnings[j], userId, groupId)))
      && (!IsRestrictedByBot(t, userId, groupId) ==> t' == t)
  {
  }

  /** When the pair has a row restricted by the bot, exactly the first such row
      loses the bot flag. */
  lemma MarkUnrestrictedClearsFirstBotRow(t: Tables, userId: int, groupId: int)
    requires IsRestrictedByBot(t, userId, groupId)
    ensures var i := FirstMatch(t.warnings, BotRestricted, userId, groupId).value;
      && OnlyRowChanged(t.warnings, MarkUnrestricted(t, userId, groupId).warnings, i)
      && MarkUnrestricted(t, userId, groupId).warnings[i] == t.warnings[i].(restrictedByBot := false)
  {
    assert HasMatch(t.warnings, BotRestricted, userId, groupId);
  }

  lemma MarkUnrestrictedPreservesWellFormed(t: Tables, userId: int, groupId: int)
    requires WellFormed(t)
    ensures WellFormed(MarkUnrestricted(t, userId, groupId))
  {
    var ws := MarkUnrestricted(t, userId, groupId).warnings;
    assert forall j :: 0 <= j < |ws| ==> ws[j].Key() == t.warnings[j].Key() && ws[j].isRestricted == t.warnings[j].isRestricted;
  }

  lemma {:induction false} RowsNotOfPreservesWellFormed(ws: seq<UserWarning>, userId: int, groupId: int, nextId: nat)
    requires AtMostOneActive(ws)
    requires forall i :: 0 <= i < |ws| ==> RowWellFormed(ws[i], nextId)
    ensures AtMostOneActive(RowsNotOf(ws, userId, groupId))
    ensures forall w :: w in RowsNotOf(ws, userId, groupId) ==> RowWellFormed(w, nextId)
  {
    if ws != [] {
      var rest := ws[1..];
      assert AtMostOneActive(rest) by {
        forall i, j | 0 <= i < j < |rest| && rest[i].IsActive() && rest[j].IsActive()
          ensures rest[i].Key() != rest[j].Key()
        {
          assert rest[i] == ws[i + 1] && rest[j] == ws[j + 1];
        }
      }
      RowsNotOfPreservesWellFormed(rest, userId, groupId, nextId);
      var kept := RowsNotOf(rest, userId, groupId);
      if ws[0].Key() != (userId, groupId) {
        var r := [ws[0]] + kept;
        forall i, j | 0 <= i < j < |r| && r[i].IsActive() && r[j].IsActive()
          ensures r[i].Key() != r[j].Key()
        {
          if i == 0 {
            assert r[j] in kept;
            var k :| 0 <= k < |rest| && rest[k] == r[j];
            assert ws[k + 1] == r[j];
          } else {
            assert r[i] == kept[i - 1] && r[j] == kept[j - 1];
          }
        }
      }
    }
  }

  lemma DeleteUserWarningsPreservesWellFormed(t: Tables, userId: int, groupId: int)
    requires WellFormed(t)
    ensures WellFormed(DeleteUserWarnings(t, userId, groupId).0)
  {
    RowsNotOfPreservesWellFormed(t.warnings, userId, groupId, t.nextId);
  }

  /** After deletion the pair has no rows at all, so the next get-or-create
      starts at a count of one; the count reports whether anything went. */
  lemma DeleteUserWarningsClearsHistory(t: Tables, userId: int, groupId: int, now: int)
    ensures var r := DeleteUserWarnings(t, userId, groupId);
      && (forall w :: w in r.0.warnings ==> w.Key() != (userId, groupId))
      && GetOrCreate(r.0, userId, groupId, now).1.messageCount == 1
      && (r.1 > 0 <==> exists i :: 0 <= i < |t.warnings| && t.warnings[i].Key() == (userId, groupId))
  {
    var r := DeleteUserWarnings(t, userId, groupId);
    if HasMatch(r.0.warnings, Active, userId, groupId) {
      assert false;
    }
  }

  lemma AddWhitelistPreservesWellFormed(t: Tables, userId: int, adminId: int, now: int, notes: Option<string>)
    requires WellFormed(t)
    ensures var r := AddWhitelist(t, userId, adminId, now, notes);
      r.Ok? ==> WellFormed(r.value.0)
  {
  }

  /** Adding, removing and adding again succeeds each time; the last grant's
      admin is the one recorded, and a duplicate add leaves the first entry. */
  lemma {:induction false} WhitelistAddRemoveReadd(t: Tables, userId: int, admin1: int, admin2: int, now: int)
    requires userId !in t.whitelist
    ensures var a := AddWhitelist(t, userId, admin1, now);
      && a.Ok?
      && AddWhitelist(a.value.0, userId, admin2, now).Err?
      && a.value.0.whitelist[userId].verifiedByAdminId == admin1
      && var b := RemoveWhitelist(a.value.0, userId);
      && b.Ok? && !IsPhotoWhitelisted(b.value, userId)
      && RemoveWhitelist(b.value, userId).Err?
      && var c := AddWhitelist(b.value, userId, admin2, now);
      && c.Ok? && IsPhotoWhitelisted(c.value.0, userId)
      && c.value.0.whitelist[userId].verifiedByAdminId == admin2
  {
    var a := AddWhitelist(t, userId, admin1, now);
    assert userId in a.value.0.whitelist;
    var b := RemoveWhitelist(a.value.0, userId);
    assert userId !in b.value.whitelist;
  }

  lemma RemoveWhitelistPreservesWellFormed(t: Tables, userId: int)
    requires WellFormed(t)
    ensures var r := RemoveWhitelist(t, userId);
      r.Ok? ==> WellFormed(r.value)
  {
  }

  lemma PendingOpsPreserveWellFormed(t: Tables, p: PendingCaptcha, userId: int, groupId: int)
    requires WellFormed(t)
    ensures WellFormed(AddPending(t, p))
    ensures WellFormed(RemovePending(t, userId, groupId))
  {
  }

  // ---------------------------------------------------------------------------
  // The store object

  /** The rows listed so far are distinct stored rows, and together with the
      keys not yet visited they cover the whole table. */
  ghost predicate Listed(rows: seq<PendingCaptcha>, pending: map<(int, int), PendingCaptcha>, left: set<(int, int)>) {
    && left <= pending.Keys
    && |rows| + |left| == |pending.Keys|
    && (forall i :: 0 <= i < |rows| ==> rows[i].Key() in pending && pending[rows[i].Key()] == rows[i] && rows[i].Key() !in left)
    && (forall i, j :: 0 <= i < j < |rows| ==> rows[i].Key() != rows[j].Key())
    && (forall k :: k in pending && k !in left ==> exists i :: 0 <= i < |rows| && rows[i].Key() == k)
  }

  lemma ListedStep(rows: seq<PendingCaptcha>, pending: map<(int, int), PendingCaptcha>, left: set<(int, int)>, k: (int, int))
    requires Listed(rows, pending, left) && k in left && pending[k].Key() == k
    ensures Listed(rows + [pending[k]], pending, left - {k})
  {
    var rows' := rows + [pending[k]];
    forall k' | k' in pending && k' !in left - {k}
      ensures exists i :: 0 <= i < |rows'| && rows'[i].Key() == k'
    {
      if k' == k {
        assert rows'[|rows|].Key() == k';
      } else {
        var i :| 0 <= i < |rows| && rows[i].Key() == k';
        assert rows'[i] == rows[i];
      }
    }
  }

  class DatabaseService {
    var warnings: seq<UserWarning>
    var whitelist: map<int, PhotoVerificationWhitelist>
    var pending: map<(int, int), PendingCaptcha>
    var nextId: nat

    function State(): Tables
      reads this
    {
      Tables(warnings, whitelist, pending, nextId)
    }

    ghost predicate Valid()
      reads this
    {
      WellFormed(State())
    }

    constructor ()
      ensures State() == EmptyTables && Valid()
    {
      warnings, whitelist, pending, nextId := [], map[], map[], 1;
    }

    method GetOrCreateUserWarning(userId: int, groupId: int, now: int) returns (w: UserWarning)
      requires Valid()
      modifies this
      ensures Valid()
      ensures (State(), w) == GetOrCreate(old(State()), userId, groupId, now)
    {
      GetOrCreatePreservesWellFormed(State(), userId, groupId, now);
      var found := FirstMatch(warnings, Active, userId, groupId);
      if found.Some? {
        return warnings[found.value];
      }
      w := NewUserWarning(nextId, userId, groupId, now);
      warnings := warnings + [w];
      nextId := nextId + 1;
    }

    method IncrementMessageCount(userId: int, groupId: int, now: int) returns (r: Result<UserWarning, DbError>)
      requires Valid()
      modifies this
      ensures Valid()
      ensures match Increment(old(State()), userId, groupId, now)
              case Err(e) => r == Err(e) && State() == old(State())
              case Ok(v) => r == Ok(v.1) && State() == v.0
    {
      IncrementPreservesWellFormed(State(), userId, groupId, now);
      var found := FirstMatch(warnings, Active, userId, groupId);
      if found.None? {
        return Err(NoActiveWarning);
      }
      var i := found.value;
      var record := warnings[i].(messageCount := warnings[i].messageCount + 1, lastMessageAt := now);
      warnings := warnings[i := record];
      return Ok(record);
    }

    method MarkUserRestricted(userId: int, groupId: int, now: int) returns (r: Result<UserWarning, DbError>)
      requires Valid()
      modifies this
      ensures Valid()
      ensures match MarkRestricted(old(State()), userId, groupId, now)
              case Err(e) => r == Err(e) && State() == old(State())
              case Ok(v) => r == Ok(v.1) && State() == v.0
    {
      MarkRestrictedPreservesWellFormed(State(), userId, groupId, now);
      var found := FirstMatch(warnings, Active, userId, groupId);
      if found.None? {
        return Err(NoActiveWarning);
      }
      var i := found.value;
      var record := warnings[i].(isRestricted := true, restrictedByBot := true, lastMessageAt := now);
      warnings := warnings[i := record];
      return Ok(record);
    }

    function IsUserRestrictedByBot(userId: int, groupId: int): bool
      reads this
    {
      IsRestrictedByBot(State(), userId, groupId)
    }

    method MarkUserUnrestricted(userId: int, groupId: int)
      requires Valid()
      modifies this
      ensures Valid()
      ensures State() == MarkUnrestricted(old(State()), userId, groupId)
    {
      MarkUnrestrictedPreservesWellFormed(State(), userId, groupId);
      var found := FirstMatch(warnings, BotRestricted, userId, groupId);
      if found.Some? {
        var i := found.value;
        warnings := warnings[i := warnings[i].(restrictedByBot := false)];
      }
    }

    method AddPhotoVerificationWhitelist(userId: int, adminId: int, now: int, notes: Option<string> := None)
      returns (r: Result<PhotoVerificationWhitelist, DbError>)
      requires Valid()
      modifies this
      ensures Valid()
      ensures match AddWhitelist(old(State()), userId, adminId, now, notes)
              case Err(e) => r == Err(e) && State() == old(State())
              case Ok(v) => r == Ok(v.1) && State() == v.0
    {
      AddWhitelistPreservesWellFormed(State(), userId, adminId, now, notes);
      if userId in whitelist {
        return Err(AlreadyWhitelisted);
      }
      var record := NewWhitelistEntry(userId, adminId, now, notes);
      whitelist := whitelist[userId := record];
      return Ok(record);
    }

    function IsUserPhotoWhitelisted(userId: int): bool
      reads this
    {
      IsPhotoWhitelisted(State(), userId)
    }

    method RemovePhotoVerificationWhitelist(userId: int) returns (r: Result<(), DbError>)
      requires Valid()
      modifies this
      ensures Valid()
      ensures match RemoveWhitelist(old(State()), userId)
              case Err(e) => r == Err(e) && State() == old(State())
              case Ok(t) => r == Ok(()) && State() == t
    {
      RemoveWhitelistPreservesWellFormed(State(), userId);
      if userId !in whitelist {
        return Err(NotInWhitelist);
      }
      whitelist := whitelist - {userId};
      return Ok(());
    }

    function GetWarningsPastTimeThreshold(minutesThreshold: int, now: int): seq<UserWarning>
      reads this
    {
      WarningsPastTimeThreshold(State(), minutesThreshold, now)
    }

    method DeleteWarnings(userId: int, groupId: int) returns (deleted: nat)
      requires Valid()
      modifies this
      ensures Valid()
      ensures (State(), deleted) == DeleteUserWarnings(old(State()), userId, groupId)
    {
      DeleteUserWarningsPreservesWellFormed(State(), userId, groupId);
      var before := |warnings|;
      warnings := RowsNotOf(warnings, userId, groupId);
      deleted := before - |warnings|;
    }

    method AddPendingCaptcha(p: PendingCaptcha)
      requires Valid()
      modifies this
      ensures Valid()
      ensures State() == AddPending(old(State()), p)
    {
      PendingOpsPreserveWellFormed(State(), p, p.userId, p.groupId);
      pending := pending[p.Key() := p];
    }

    function GetPendingCaptcha(userId: int, groupId: int): Option<PendingCaptcha>
      reads this
    {
      GetPending(State(), userId, groupId)
    }

    method RemovePendingCaptcha(userId: int, groupId: int)
      requires Valid()
      modifies this
      ensures Valid()
      ensures State() == RemovePending(old(State()), userId, groupId)
    {
      PendingOpsPreserveWellFormed(State(), PendingCaptcha(userId, groupId, 0, 0, "", 0), userId, groupId);
      pending := pending - {(userId, groupId)};
    }

    /** All pending rows, each once, in an order the store chooses. */
    method GetAllPendingCaptchas() returns (rows: seq<PendingCaptcha>)
      requires Valid()
      ensures |rows| == |pending.Keys|
      ensures forall i :: 0 <= i < |rows| ==> rows[i].Key() in pending && pending[rows[i].Key()] == rows[i]
      ensures forall i, j :: 0 <= i < j < |rows| ==> rows[i].Key() != rows[j].Key()
      ensures forall k :: k in pending ==> exists i :: 0 <= i < |rows| && rows[i].Key() == k
    {
      rows := [];
      var left := pending.Keys;
      while left != {}
        invariant Listed(rows, pending, left)
        decreases |left|
      {
        var k :| k in left;
        assert pending[k].Key() == k;
        ListedStep(rows, pending, left, k);
        rows := rows + [pending[k]];
        left := left - {k};
      }
    }
  }
}
