/** The profile page (src/pages/ProfilePage.tsx): the form, its mappings to and from the store, and the avatar. */
module ProfilePage {
  import opened JsValues
  import opened Types
  import opened Text
  import SupabaseService

  /** `AGE_OPTIONS`: fifty consecutive ages from 18, so 18 to 67 (not to 100). */
  const AgeOptions: seq<int> := seq(50, i => i + 18)

  lemma AgeOptionsRange()
    ensures |AgeOptions| == 50 && AgeOptions[0] == 18 && AgeOptions[|AgeOptions| - 1] == 67
    ensures forall a :: a in AgeOptions <==> 18 <= a <= 67
    ensures 100 !in AgeOptions
  {
    assert forall i :: 0 <= i < |AgeOptions| ==> AgeOptions[i] == i + 18;
    forall a | 18 <= a <= 67 ensures a in AgeOptions {
      assert AgeOptions[a - 18] == a;
    }
  }

  /** The values of the age menu's items: `age.toString()`. */
  function AgeItemValue(age: int): string {
    IntToString(age)
  }

  /** Choosing an item and submitting sends that item's age. */
  lemma AgeItemParsesBack(k: nat)
    requires k < |AgeOptions|
    ensures ParseInt(AgeItemValue(AgeOptions[k])) == Num(AgeOptions[k])
  {
    ParseIntToString(AgeOptions[k]);
  }

  /** The form state; every text is a string, the birth date is `null` when unset. */
  datatype ProfileForm = ProfileForm(
    fullName: string,
    age: string,
    dateOfBirth: Option<Timestamp>,
    occupation: string,
    avatarUrl: string,
    bio: string,
    linkedinUrl: string,
    twitterUrl: string,
    githubUrl: string)

  const EmptyForm: ProfileForm := ProfileForm("", "", None, "", "", "", "", "", "")

  /** `age?.toString() || ''` */
  function AgeField(age: Option<int>): (r: string)
    ensures age.None? <==> r == ""
  {
    match age
    case None => ""
    case Some(n) => IntToString(n)
  }

  /** The fetched row as the form shows it: null texts become "", the age its decimal string. */
  function FormFromRow(row: SupabaseService.ProfileRow): (f: ProfileForm)
    ensures f.fullName == OrEmpty(row.full_name) && f.age == AgeField(row.age)
    ensures f.dateOfBirth == row.date_of_birth && f.occupation == OrEmpty(row.occupation)
    ensures f.avatarUrl == OrEmpty(row.avatar_url) && f.bio == OrEmpty(row.bio)
    ensures f.linkedinUrl == OrEmpty(row.linkedin_url) && f.twitterUrl == OrEmpty(row.twitter_url)
    ensures f.githubUrl == OrEmpty(row.github_url)
  {
    ProfileForm(OrEmpty(row.full_name), AgeField(row.age), row.date_of_birth, OrEmpty(row.occupation),
      OrEmpty(row.avatar_url), OrEmpty(row.bio), OrEmpty(row.linkedin_url), OrEmpty(row.twitter_url),
      OrEmpty(row.github_url))
  }

  /** `profile.age ? parseInt(profile.age) : undefined` */
  function AgePayload(age: string): (r: Option<NumberValue>)
    ensures age == "" <==> r.None?
    ensures r.Some? ==> r.value == ParseInt(age)
  {
    if age == "" then None else Some(ParseInt(age))
  }

  /** The object the submit hands to `updateUserProfile`. */
  function PayloadFromForm(form: ProfileForm): (p: SupabaseService.ProfilePayload)
    ensures p.fullName == Some(form.fullName) && p.avatarUrl == Some(form.avatarUrl)
    ensures p.age == AgePayload(form.age) && p.dateOfBirth == form.dateOfBirth
  {
    SupabaseService.ProfilePayload(Some(form.fullName), AgePayload(form.age), form.dateOfBirth,
      Some(form.occupation), Some(form.avatarUrl), Some(form.bio), Some(form.linkedinUrl),
      Some(form.twitterUrl), Some(form.githubUrl))
  }

  /** A stored age goes through the form and comes back as the same integer; no age stays none. */
  lemma AgeRoundTrip(row: SupabaseService.ProfileRow)
    ensures row.age.None? ==> PayloadFromForm(FormFromRow(row)).age == None
    ensures row.age.Some? ==> PayloadFromForm(FormFromRow(row)).age == Some(Num(row.age.value))
  {
    if row.age.Some? {
      ParseIntToString(row.age.value);
    }
  }

  /**
   * The letter shown without an avatar: the upper-cased first character of the full name,
   * else of the email, else "?".
   */
  function AvatarInitial(fullName: string, email: Option<string>): (r: string)
    ensures |r| == 1
    ensures fullName != "" ==> r[0] == UpperChar(fullName[0])
    ensures fullName == "" && Truthy(email) ==> r[0] == UpperChar(email.value[0])
    ensures fullName == "" && !Truthy(email) ==> r == "?"
  {
    if fullName != "" then UpperInitial(fullName)
    else if Truthy(email) then UpperInitial(email.value)
    else "?"
  }

  class ProfilePage {
    const currentUser: Option<User>
    var isLoading: bool
    var profile: ProfileForm

    constructor (currentUser: Option<User>)
      ensures this.currentUser == currentUser && !isLoading && profile == EmptyForm
    {
      this.currentUser := currentUser;
      isLoading := false;
      profile := EmptyForm;
    }

    /**
     * The fetch effect, run only with a signed-in user: a fetched row fills the form; no row or a
     * failure leaves it; loading ends either way.
     */
    method FetchProfile(fetched: Result<Option<SupabaseService.ProfileRow>>)
      modifies this
      ensures currentUser.None? ==> profile == old(profile) && isLoading == old(isLoading)
      ensures currentUser.Some? ==> !isLoading
      ensures currentUser.Some? && fetched.Ok? && fetched.value.Some? ==> profile == FormFromRow(fetched.value.value)
      ensures !(currentUser.Some? && fetched.Ok? && fetched.value.Some?) ==> profile == old(profile)
    {
      if currentUser.None? {
        return;
      }
      isLoading := true;
      if fetched.Ok? && fetched.value.Some? {
        profile := FormFromRow(fetched.value.value);
      }
      isLoading := false;
    }

    /**
     * `handleProfileUpdate`: with no user nothing happens; otherwise the form's payload goes to
     * `updateUserProfile`, a successful save navigates home, and loading ends.
     */
    method HandleProfileUpdate(now: Timestamp, remoteOk: bool)
      returns (sent: Option<Result<(string, SupabaseService.ProfileUpdate)>>, navigateTo: Option<string>)
      modifies this
      ensures currentUser.None? ==> sent == None && navigateTo == None && isLoading == old(isLoading)
      ensures currentUser.Some? ==>
        && sent == Some(SupabaseService.UpdateUserProfile(currentUser, PayloadFromForm(old(profile)), now))
        && !isLoading
        && navigateTo == (if remoteOk then Some("/") else None)
      ensures profile == old(profile)
    {
      if currentUser.None? {
        return None, None;
      }
      isLoading := true;
      sent := Some(SupabaseService.UpdateUserProfile(currentUser, PayloadFromForm(profile), now));
      navigateTo := if remoteOk then Some("/") else None;
      isLoading := false;
    }

    /** `handleImageUpload(url)`: only the avatar changes. */
    method HandleImageUpload(url: string)
      modifies this
      ensures profile == old(profile).(avatarUrl := url) && isLoading == old(isLoading)
    {
      profile := profile.(avatarUrl := url);
    }

    method SetFullName(v: string)
      modifies this
      ensures profile == old(profile).(fullName := v) && isLoading == old(isLoading)
    {
      profile := profile.(fullName := v);
    }

    method SetAge(v: string)
      modifies this
      ensures profile == old(profile).(age := v) && isLoading == old(isLoading)
    {
      profile := profile.(age := v);
    }

    method SetDateOfBirth(v: Option<Timestamp>)
      modifies this
      ensures profile == old(profile).(dateOfBirth := v) && isLoading == old(isLoading)
    {
      profile := profile.(dateOfBirth := v);
    }

    method SetOccupation(v: string)
      modifies this
      ensures profile == old(profile).(occupation := v) && isLoading == old(isLoading)
    {
      profile := profile.(occupation := v);
    }

    method SetBio(v: string)
      modifies this
      ensures profile == old(profile).(bio := v) && isLoading == old(isLoading)
    {
      profile := profile.(bio := v);
    }

    method SetLinkedinUrl(v: string)
      modifies this
      ensures profile == old(profile).(linkedinUrl := v) && isLoading == old(isLoading)
    {
      profile := profile.(linkedinUrl := v);
    }

    method SetTwitterUrl(v: string)
      modifies this
      ensures profile == old(profile).(twitterUrl := v) && isLoading == old(isLoading)
    {
      profile := profile.(twitterUrl := v);
    }

    method SetGithubUrl(v: string)
      modifies this
      ensures profile == old(profile).(githubUrl := v) && isLoading == old(isLoading)
    {
      profile := profile.(githubUrl := v);
    }
  }

  /** Of the whole form, a save sends the name and the avatar only. */
  lemma SaveSendsNameAndAvatar(user: User, form: ProfileForm, now: Timestamp)
    ensures SupabaseService.UpdateUserProfile(Some(user), PayloadFromForm(form), now)
         == Ok((user.id, SupabaseService.ProfileUpdate(Set(form.fullName), Set(form.avatarUrl), now)))
  {
  }
}
