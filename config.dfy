/** The settings the handlers read (src/bot/config.py), as a plain record. The
    token, database path and rules link are left out: no decision depends on them. */
module Config {

  datatype Settings = Settings(
    groupId: int,
    warningTopicId: int,
    restrictFailedUsers: bool,
    warningThreshold: int,
    warningTimeThresholdMinutes: int,
    captchaEnabled: bool,
    captchaTimeoutSeconds: int)

  /** Settings for a group and warning topic with every other field at its
      default: warning-only mode, three messages, three hours, captcha off with a
      two-minute timeout. */
  function DefaultSettings(groupId: int, warningTopicId: int): (s: Settings)
    ensures s.groupId == groupId && s.warningTopicId == warningTopicId
    ensures !s.restrictFailedUsers && !s.captchaEnabled
    ensures s.warningThreshold == 3
    ensures s.warningTimeThresholdMinutes == 180
    ensures s.captchaTimeoutSeconds == 120
  {
    Settings(groupId, warningTopicId, false, 3, 180, false, 120)
  }
}
