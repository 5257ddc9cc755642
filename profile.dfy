/** The profile page: the shown profile, an edit draft, and the edit/save/cancel flow. */
module Profile {
  import opened Wrappers
  import opened Text
  import opened Records
  import opened LocalStorage

  datatype ProfileData = ProfileData(
    name: string,
    email: string,
    bio: string,
    nativeLanguage: string,
    learningLanguages: seq<string>,
    proficiency: map<string, string>,
    availability: string,
    interests: string)

  const InitialProfile: ProfileData := ProfileData(
    "",
    "",
    "Language enthusiast passionate about learning Spanish and French. I enjoy traveling and experiencing different cultures.",
    "English",
    ["Spanish", "French"],
    map["Spanish" := "Intermediate", "French" := "Beginner"],
    "Evenings and weekends",
    "Travel, cooking, literature, music")

  /** The fields the edit form's inputs and select are bound to. */
  datatype Field = Name | Bio | Interests | NativeLanguage

  function Get(p: ProfileData, f: Field): string {
    match f
    case Name => p.name
    case Bio => p.bio
    case Interests => p.interests
    case NativeLanguage => p.nativeLanguage
  }

  /** `{ ...p, [field]: value }`. */
  function SetField(p: ProfileData, f: Field, value: string): ProfileData {
    match f
    case Name => p.(name := value)
    case Bio => p.(bio := value)
    case Interests => p.(interests := value)
    case NativeLanguage => p.(nativeLanguage := value)
  }

  /** Setting a field changes that field to the value and nothing else. */
  lemma SetFieldSpec(p: ProfileData, f: Field, value: string)
    ensures Get(SetField(p, f, value), f) == value
    ensures forall g :: g != f ==> Get(SetField(p, f, value), g) == Get(p, g)
    ensures var q := SetField(p, f, value);
      q.email == p.email && q.learningLanguages == p.learningLanguages
      && q.proficiency == p.proficiency && q.availability == p.availability
  {
  }

  /**
   * The name and email the mount effect writes: only when a user is stored
   * and has an email; the stored name, when non-empty, wins over the one
   * derived from the email.
   */
  function LoadedIdentity(stored: Option<User>): Option<(string, string)> {
    if stored.Some? && Truthy(stored.value.email) then
      var email := stored.value.email.value;
      var name := if Truthy(stored.value.name) then stored.value.name.value else DisplayNameFromEmail(email);
      Some((name, email))
    else None
  }

  lemma LoadedIdentitySpec(stored: Option<User>)
    ensures LoadedIdentity(stored).None? <==> stored.None? || !Truthy(stored.value.email)
    ensures LoadedIdentity(stored).Some? ==> LoadedIdentity(stored).value.1 == stored.value.email.value
    ensures LoadedIdentity(stored).Some? && Truthy(stored.value.name) ==>
      LoadedIdentity(stored).value.0 == stored.value.name.value
    ensures LoadedIdentity(stored).Some? && !Truthy(stored.value.name) ==>
      LoadedIdentity(stored).value.0 == DisplayNameFromEmail(stored.value.email.value)
  {
  }

  class ProfilePage {
    var userData: ProfileData
    var editedData: ProfileData
    var isEditing: bool
    var toast: Option<Toast>

    constructor ()
      ensures userData == InitialProfile && editedData == InitialProfile && !isEditing && toast == None
    {
      userData, editedData, isEditing, toast := InitialProfile, InitialProfile, false, None;
    }

    /** The mount effect: the stored user's name and email go into both the shown data and the draft. */
    method LoadStoredUser(storage: BrowserStorage)
      modifies this
      ensures LoadedIdentity(StoredUser(storage.items)).None? ==>
        userData == old(userData) && editedData == old(editedData)
      ensures LoadedIdentity(StoredUser(storage.items)).Some? ==>
        var (name, email) := LoadedIdentity(StoredUser(storage.items)).value;
        userData == old(userData).(name := name, email := email)
        && editedData == old(editedData).(name := name, email := email)
      ensures isEditing == old(isEditing) && toast == old(toast)
    {
      var loaded := LoadedIdentity(StoredUser(storage.items));
      if loaded.Some? {
        var (name, email) := loaded.value;
        userData := userData.(name := name, email := email);
        editedData := editedData.(name := name, email := email);
      }
    }

    /** "Edit Profile". */
    method StartEditing()
      modifies this
      ensures isEditing && userData == old(userData) && editedData == old(editedData) && toast == old(toast)
    {
      isEditing := true;
    }

    /** `handleInputChange`: one field of the draft; the shown data is untouched. */
    method HandleInputChange(field: Field, value: string)
      modifies this
      ensures editedData == SetField(old(editedData), field, value)
      ensures userData == old(userData) && isEditing == old(isEditing) && toast == old(toast)
    {
      editedData := SetField(editedData, field, value);
    }

    /** `handleSelectChange`: the same update, from the select. */
    method HandleSelectChange(field: Field, value: string)
      modifies this
      ensures editedData == SetField(old(editedData), field, value)
      ensures userData == old(userData) && isEditing == old(isEditing) && toast == old(toast)
    {
      editedData := SetField(editedData, field, value);
    }

    /** `handleSaveProfile`: the draft becomes the shown data and editing ends. */
    method HandleSaveProfile()
      modifies this
      ensures userData == old(editedData) && editedData == old(editedData) && !isEditing
      ensures toast == Some(Toast("Profile updated", "Your profile has been successfully updated.", false))
    {
      userData := editedData;
      isEditing := false;
      toast := Some(Toast("Profile updated", "Your profile has been successfully updated.", false));
    }

    /** "Cancel": editing ends; neither the shown data nor the draft is reset. */
    method Cancel()
      modifies this
      ensures !isEditing && userData == old(userData) && editedData == old(editedData) && toast == old(toast)
    {
      isEditing := false;
    }

    /** `getUserInitials`: the upper-cased first character of each word of the shown name. */
    function GetUserInitials(): (r: string)
      reads this
      ensures r == Upper(WordStarts(userData.name, true))
    {
      InitialsSpec(userData.name);
      Initials(userData.name)
    }
  }
}
