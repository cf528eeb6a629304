/**
 * The profile page: the profile fields with their fixed defaults, the
 * password form, and the save and change-password handlers. Neither handler
 * calls the API yet; each waits on a timer that always resolves, so its
 * catch block is never reached and is left out.
 */
module ProfileForm {
  import opened Json
  import opened ApiHandlers

  /** The fields of `UserProfile`. */
  const ProfileKeys: set<string> := {"name", "email", "phone", "address", "city", "country", "zipCode"}

  /** The value each profile field takes when the initial data has none. */
  const ProfileDefaults: map<string, string> :=
    map["name" := "John Doe", "email" := "john@example.com", "phone" := "+1 234 567 8900",
        "address" := "123 Main Street", "city" := "New York", "country" := "United States", "zipCode" := "10001"]

  /** The password form's fields. */
  const PasswordKeys: set<string> := {"current", "new", "confirm"}

  const EmptyPasswordForm: map<string, string> := map["current" := "", "new" := "", "confirm" := ""]

  /** `initialData?.<field> || <default>`: the given text when it is non-empty. */
  function InitialField(initialData: map<string, string>, field: string): (v: string)
    requires field in ProfileDefaults
  {
    if field in initialData && initialData[field] != "" then initialData[field] else ProfileDefaults[field]
  }

  /**
   * The initial profile: each field takes the initial data's value when that
   * is present and non-empty, and its fixed default otherwise. Missing
   * initial data is the empty map.
   */
  function InitialProfile(initialData: map<string, string>): (profile: map<string, string>)
    ensures profile.Keys == ProfileKeys
    ensures forall k :: k in ProfileKeys && k in initialData && initialData[k] != "" ==> profile[k] == initialData[k]
    ensures forall k :: k in ProfileKeys && (k !in initialData || initialData[k] == "") ==> profile[k] == ProfileDefaults[k]
  {
    map k | k in ProfileKeys :: InitialField(initialData, k)
  }

  /** Every field of the initial profile is filled, whatever the initial data. */
  lemma InitialProfileFilled(initialData: map<string, string>)
    ensures forall k :: k in ProfileKeys ==> InitialProfile(initialData)[k] != ""
  {
    forall k | k in ProfileKeys
      ensures InitialProfile(initialData)[k] != ""
    {
      assert ProfileDefaults[k] != "";
    }
  }

  /** Initial data that fills every field is taken as it is; none at all gives the defaults. */
  lemma InitialProfileExtremes(initialData: map<string, string>)
    ensures (forall k :: k in ProfileKeys ==> k in initialData && initialData[k] != "") ==>
      InitialProfile(initialData) == map k | k in ProfileKeys :: initialData[k]
    ensures InitialProfile(map[]) == ProfileDefaults
  {
    assert ProfileDefaults.Keys == ProfileKeys;
  }

  class ProfileEditor {
    var profile: map<string, string>
    var passwordForm: map<string, string>
    var isLoading: bool
    /** The toasts shown, oldest first. */
    var toasts: seq<Notice>

    predicate Valid()
      reads this
    {
      profile.Keys == ProfileKeys && PasswordKeys <= passwordForm.Keys
    }

    constructor (initialData: map<string, string>)
      ensures profile == InitialProfile(initialData) && passwordForm == EmptyPasswordForm
      ensures !isLoading && toasts == []
      ensures Valid()
    {
      profile := InitialProfile(initialData);
      passwordForm := EmptyPasswordForm;
      isLoading := false;
      toasts := [];
    }

    /** `handleChange(field, value)`: only the named profile field changes. */
    method HandleChange(field: string, value: string)
      requires Valid() && field in ProfileKeys
      modifies this
      ensures profile == old(profile)[field := value]
      ensures forall k :: k in ProfileKeys && k != field ==> profile[k] == old(profile)[k]
      ensures passwordForm == old(passwordForm) && isLoading == old(isLoading) && toasts == old(toasts)
      ensures Valid()
    {
      profile := profile[field := value];
    }

    /** `handlePasswordChange(field, value)`: only the named password field changes. */
    method HandlePasswordChange(field: string, value: string)
      requires Valid()
      modifies this
      ensures passwordForm == old(passwordForm)[field := value]
      ensures forall k :: k in old(passwordForm) && k != field ==> passwordForm[k] == old(passwordForm)[k]
      ensures profile == old(profile) && isLoading == old(isLoading) && toasts == old(toasts)
      ensures Valid()
    {
      passwordForm := passwordForm[field := value];
    }

    /** `handleSaveProfile`: the success toast, and loading back to false; the profile is kept as it is. */
    method HandleSaveProfile()
      requires Valid()
      modifies this
      ensures toasts == old(toasts) + [Notice(SuccessToast, JStr("Profile updated successfully"))]
      ensures !isLoading && profile == old(profile) && passwordForm == old(passwordForm)
      ensures Valid()
    {
      isLoading := true;
      toasts := toasts + [Notice(SuccessToast, JStr("Profile updated successfully"))];
      isLoading := false;
    }

    /**
     * `handleChangePassword`: a new password that differs from its
     * confirmation is reported and nothing else changes, loading included;
     * otherwise the password form is cleared to its three empty fields, the
     * success toast shown, and loading ends false.
     */
    method HandleChangePassword()
      requires Valid()
      modifies this
      ensures old(passwordForm)["new"] != old(passwordForm)["confirm"] ==>
        toasts == old(toasts) + [Notice(ErrorToast, JStr("Passwords do not match"))]
        && passwordForm == old(passwordForm) && isLoading == old(isLoading)
      ensures old(passwordForm)["new"] == old(passwordForm)["confirm"] ==>
        toasts == old(toasts) + [Notice(SuccessToast, JStr("Password updated successfully"))]
        && passwordForm == EmptyPasswordForm && !isLoading
      ensures profile == old(profile)
      ensures Valid()
    {
      if passwordForm["new"] != passwordForm["confirm"] {
        toasts := toasts + [Notice(ErrorToast, JStr("Passwords do not match"))];
        return;
      }
      isLoading := true;
      passwordForm := EmptyPasswordForm;
      toasts := toasts + [Notice(SuccessToast, JStr("Password updated successfully"))];
      isLoading := false;
    }
  }
}
