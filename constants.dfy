/** Shared constants (src/bot/constants.py): the permission set used to mute a
    user, the separator for missing profile items and the threshold display. The
    message templates are represented by the notice kinds of module Platform. */
module Constants {
  import opened Base
  import opened Text

  /** Telegram's ChatPermissions, one flag per permission. */
  datatype Permissions = Permissions(
    canSendMessages: bool,
    canSendAudios: bool,
    canSendDocuments: bool,
    canSendPhotos: bool,
    canSendVideos: bool,
    canSendVideoNotes: bool,
    canSendVoiceNotes: bool,
    canSendPolls: bool,
    canSendOtherMessages: bool,
    canAddWebPagePreviews: bool,
    canChangeInfo: bool,
    canInviteUsers: bool,
    canPinMessages: bool,
    canManageTopics: bool)
  {
    predicate GrantsNothing() {
      && !canSendMessages && !canSendAudios && !canSendDocuments && !canSendPhotos
      && !canSendVideos && !canSendVideoNotes && !canSendVoiceNotes && !canSendPolls
      && !canSendOtherMessages && !canAddWebPagePreviews && !canChangeInfo
      && !canInviteUsers && !canPinMessages && !canManageTopics
    }
  }

  /** The permissions applied when muting a user. */
  function RestrictedPermissions(): (p: Permissions)
    ensures p.GrantsNothing()
  {
    Permissions(false, false, false, false, false, false, false,
                false, false, false, false, false, false, false)
  }

  /** Joins the missing profile items ("foto profil publik dan username"). */
  const MissingItemsSeparator: string := " dan "

  /** The unit word of a threshold display. */
  datatype TimeUnit = Hours | Minutes

  function UnitWord(u: TimeUnit): string {
    match u
    case Hours => "jam"
    case Minutes => "menit"
  }

  /** The threshold as Indonesian text: whole hours ("3 jam") from 60 minutes
      on, minutes ("30 menit") below. */
  function FormatThresholdDisplay(thresholdMinutes: int): string {
    if thresholdMinutes >= 60 then
      IntToString(thresholdMinutes / 60) + " " + UnitWord(Hours)
    else
      IntToString(thresholdMinutes) + " " + UnitWord(Minutes)
  }

  /** Reads a display back into its number and unit. */
  function ParseThresholdDisplay(s: string): Option<(int, TimeUnit)> {
    match SplitLast(s, ' ')
    case None => None
    case Some(parts) =>
      match ParseInt(parts.0)
      case None => None
      case Some(n) =>
        if parts.1 == UnitWord(Hours) then Some((n, Hours))
        else if parts.1 == UnitWord(Minutes) then Some((n, Minutes))
        else None
  }

  /** What the display says: for 60 minutes or more the floored number of hours,
      below that the minutes themselves. */
  lemma FormatThresholdDisplayMeaning(thresholdMinutes: int)
    ensures var shown := ParseThresholdDisplay(FormatThresholdDisplay(thresholdMinutes));
      && shown.Some?
      && (thresholdMinutes >= 60 ==>
            shown.value.1 == Hours
            && shown.value.0 * 60 <= thresholdMinutes < shown.value.0 * 60 + 60)
      && (thresholdMinutes < 60 ==> shown.value == (thresholdMinutes, Minutes))
  {
    var n := if thresholdMinutes >= 60 then thresholdMinutes / 60 else thresholdMinutes;
    var u := if thresholdMinutes >= 60 then Hours else Minutes;
    var digits := IntToString(n);
    assert ' ' !in UnitWord(u);
    assert FormatThresholdDisplay(thresholdMinutes) == digits + [' '] + UnitWord(u);
    SplitLastOfJoin(digits, ' ', UnitWord(u));
    ParseIntOfIntToString(n);
  }

  /** The boundary cases: 60 and 90 minutes both show as one hour, 59 as minutes. */
  lemma ThresholdDisplayBoundaries()
    ensures FormatThresholdDisplay(60) == "1 jam"
    ensures FormatThresholdDisplay(90) == "1 jam"
    ensures FormatThresholdDisplay(59) == "59 menit"
    ensures FormatThresholdDisplay(180) == "3 jam"
  {
    assert NatToString(1) == "1";
    assert NatToString(3) == "3";
    assert NatToString(5) == "5";
    assert NatToString(9) == "9";
    assert NatToString(59) == NatToString(5) + "9";
  }
}
