/** The two strings the captcha flow writes and later reads back
    (src/bot/handlers/captcha.py): the name of a timeout job, which cancelling
    looks up, and the callback data of the verify button, whose last field names
    the user allowed to press it. */
module CaptchaNames {
  import opened Base
  import opened Text

  const JobPrefix: string := "captcha_timeout_"
  const CallbackPrefix: string := "captcha_verify_"

  /** `get_captcha_job_name(group_id, user_id)`. */
  function JobName(groupId: int, userId: int): string {
    JobPrefix + IntToString(groupId) + "_" + IntToString(userId)
  }

  /** Reads a job name back into (group, user); None for any other text. */
  function ParseJobName(name: string): Option<(int, int)> {
    if !HasPrefix(name, JobPrefix) then None
    else
      match SplitLast(name[|JobPrefix|..], '_')
      case None => None
      case Some(parts) =>
        match (ParseInt(parts.0), ParseInt(parts.1))
        case (Some(g), Some(u)) => Some((g, u))
        case _ => None
  }

  /** A rendered integer holds only digits and possibly a leading minus. */
  lemma UnderscoreNotInIntToString(i: int)
    ensures '_' !in IntToString(i)
  {
    var s := IntToString(i);
    if i < 0 {
      assert s == "-" + NatToString(-i);
      assert forall k :: 1 <= k < |s| ==> s[k] == NatToString(-i)[k - 1];
    }
  }

  /** Reading a job name gives back the group and the user it was made from. */
  lemma JobNameRoundTrip(groupId: int, userId: int)
    ensures ParseJobName(JobName(groupId, userId)) == Some((groupId, userId))
  {
    var g := IntToString(groupId);
    var u := IntToString(userId);
    var name := JobName(groupId, userId);
    assert HasPrefix(name, JobPrefix) by {
      assert name[..|JobPrefix|] == JobPrefix;
    }
    assert name[|JobPrefix|..] == g + ['_'] + u;
    UnderscoreNotInIntToString(userId);
    SplitLastOfJoin(g, '_', u);
    ParseIntOfIntToString(groupId);
    ParseIntOfIntToString(userId);
  }

  /** Distinct (group, user) pairs get distinct job names, so cancelling by name
      never touches another user's timeout. */
  lemma JobNameInjective(g1: int, u1: int, g2: int, u2: int)
    requires JobName(g1, u1) == JobName(g2, u2)
    ensures g1 == g2 && u1 == u2
  {
    JobNameRoundTrip(g1, u1);
    JobNameRoundTrip(g2, u2);
  }

  /** The callback data of the verify button for a user. */
  function CallbackData(userId: int): string {
    CallbackPrefix + IntToString(userId)
  }

  /** `int(data.split("_")[-1])`; None where `int` raises. */
  function CallbackTarget(data: string): Option<int> {
    ParseInt(LastField(data, '_'))
  }

  /** The handler's pattern `^captcha_verify_\d+$`. */
  predicate MatchesCallbackPattern(data: string) {
    && HasPrefix(data, CallbackPrefix)
    && |data| > |CallbackPrefix|
    && AllDigits(data[|CallbackPrefix|..])
  }

  /** The button names the user it was sent for. */
  lemma CallbackRoundTrip(userId: int)
    ensures CallbackTarget(CallbackData(userId)) == Some(userId)
  {
    var u := IntToString(userId);
    assert CallbackData(userId) == "captcha_verify" + ['_'] + u;
    UnderscoreNotInIntToString(userId);
    SplitLastOfJoin("captcha_verify", '_', u);
    ParseIntOfIntToString(userId);
  }

  /** The pattern routes a button to the handler exactly when it was made for a
      non-negative id. */
  lemma CallbackPatternIffNonNegative(userId: int)
    ensures MatchesCallbackPattern(CallbackData(userId)) <==> userId >= 0
  {
    var data := CallbackData(userId);
    assert data[..|CallbackPrefix|] == CallbackPrefix;
    assert data[|CallbackPrefix|..] == IntToString(userId);
  }

  /** Everything the pattern lets through parses: the handler's `int()` never
      raises on data routed to it, and the target is the digits after the prefix. */
  lemma PatternMatchParses(data: string)
    requires MatchesCallbackPattern(data)
    ensures CallbackTarget(data) == Some(DigitsValue(data[|CallbackPrefix|..]) as int)
  {
    var digits := data[|CallbackPrefix|..];
    assert data == "captcha_verify" + ['_'] + digits by {
      assert data[..|CallbackPrefix|] == CallbackPrefix;
    }
    assert '_' !in digits by {
      forall k | 0 <= k < |digits|
        ensures digits[k] != '_'
      {
        assert IsDigit(digits[k]);
      }
    }
    SplitLastOfJoin("captcha_verify", '_', digits);
  }
}
