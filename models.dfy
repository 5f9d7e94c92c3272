/** The persisted record shapes (src/bot/database/models.py) and the pending
    captcha row used by the captcha handlers. Timestamps are whole seconds. */
module Models {
  import opened Base

  /** One warning cycle of a user in a group (table `user_warnings`). A row that
      is not restricted is the user's active cycle. */
  datatype UserWarning = UserWarning(
    id: nat,
    userId: int,
    groupId: int,
    messageCount: int,
    firstWarnedAt: int,
    lastMessageAt: int,
    isRestricted: bool,
    restrictedByBot: bool)
  {
    predicate IsActive() {
      !isRestricted
    }

    predicate IsBotRestricted() {
      isRestricted && restrictedByBot
    }

    function Key(): (int, int) {
      (userId, groupId)
    }
  }

  /** A row as the table's defaults make it: one message counted, the cycle
      starting now, neither restriction flag set. */
  function NewUserWarning(id: nat, userId: int, groupId: int, now: int): (w: UserWarning)
    ensures w.messageCount == 1
    ensures !w.isRestricted && !w.restrictedByBot && w.IsActive()
    ensures w.Key() == (userId, groupId) && w.id == id
    ensures w.firstWarnedAt == now && w.lastMessageAt == now
  {
    UserWarning(id, userId, groupId, 1, now, now, false, false)
  }

  /** A photo-verification exemption granted by an admin (table
      `photo_verification_whitelist`, unique on the user id). */
  datatype PhotoVerificationWhitelist = PhotoVerificationWhitelist(
    userId: int,
    verifiedByAdminId: int,
    verifiedAt: int,
    notes: Option<string>)

  /** A whitelist entry as created; `notes` is absent unless supplied. */
  function NewWhitelistEntry(userId: int, adminId: int, now: int, notes: Option<string> := None)
    : (e: PhotoVerificationWhitelist)
    ensures e.userId == userId && e.verifiedByAdminId == adminId && e.verifiedAt == now
    ensures e.notes == notes
  {
    PhotoVerificationWhitelist(userId, adminId, now, notes)
  }

  /** A captcha challenge still waiting for the new member's button press. */
  datatype PendingCaptcha = PendingCaptcha(
    userId: int,
    groupId: int,
    chatId: int,
    messageId: int,
    userFullName: string,
    createdAt: int)
  {
    function Key(): (int, int) {
      (userId, groupId)
    }
  }
}
