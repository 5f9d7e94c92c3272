/** Profile completeness (src/bot/services/user_checker.py): a public profile
    photo and a username. */
module UserChecker {
  import opened Base
  import opened Text
  import opened Constants
  import opened Database
  import opened Platform

  datatype ProfileCheckResult = ProfileCheckResult(hasProfilePhoto: bool, hasUsername: bool)
  {
    predicate IsComplete() {
      hasProfilePhoto && hasUsername
    }

    /** The missing items in Indonesian, photo before username. */
    function MissingItems(): (items: seq<string>)
      ensures |items| == (if hasProfilePhoto then 0 else 1) + (if hasUsername then 0 else 1)
      ensures items == [] <==> IsComplete()
      ensures !hasProfilePhoto ==> items[0] == PhotoItem
      ensures !hasUsername ==> items[|items| - 1] == UsernameItem
    {
      (if hasProfilePhoto then [] else [PhotoItem]) + (if hasUsername then [] else [UsernameItem])
    }

    /** The missing items joined with " dan ". */
    function MissingText(): string {
      Join(MissingItems(), MissingItemsSeparator)
    }
  }

  const PhotoItem: string := "foto profil publik"
  const UsernameItem: string := "username"

  /** The result of a check and the Telegram calls it made. */
  datatype ProfileCheck = ProfileCheck(result: ProfileCheckResult, emitted: seq<Effect>)

  /** `check_user_profile`: a whitelisted user counts as having a photo without a
      lookup; anyone else has one iff Telegram reports at least one. */
  function CheckUserProfile(t: Tables, user: User, remote: Remote): (c: ProfileCheck)
    ensures c.result.hasUsername <==> user.username.Some?
    ensures IsPhotoWhitelisted(t, user.id) ==> c.result.hasProfilePhoto && c.emitted == []
    ensures !IsPhotoWhitelisted(t, user.id) ==>
      (c.result.hasProfilePhoto <==> remote.photoCount(user.id) > 0) && c.emitted == [PhotoLookup(user.id)]
    ensures CountReplies(c.emitted) == 0
  {
    var hasUsername := user.username.Some?;
    if IsPhotoWhitelisted(t, user.id) then
      ProfileCheck(ProfileCheckResult(true, hasUsername), [])
    else
      ProfileCheck(ProfileCheckResult(remote.photoCount(user.id) > 0, hasUsername), [PhotoLookup(user.id)])
  }

  /** The texts of the possible outcomes: nothing, either item alone, or both
      joined by the separator. */
  lemma MissingTextCases(r: ProfileCheckResult)
    ensures r.IsComplete() ==> r.MissingText() == ""
    ensures !r.hasProfilePhoto && r.hasUsername ==> r.MissingText() == "foto profil publik"
    ensures r.hasProfilePhoto && !r.hasUsername ==> r.MissingText() == "username"
    ensures !r.hasProfilePhoto && !r.hasUsername ==> r.MissingText() == "foto profil publik dan username"
  {
    if !r.hasProfilePhoto && !r.hasUsername {
      assert r.MissingItems()[1..] == [UsernameItem];
    }
  }
}
