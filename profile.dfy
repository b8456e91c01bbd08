/** The profile page: loads the signed-in user's profile and derives the status
    badge and label shown beside it. */
module Profile {
  import opened Common
  import opened Entities

  /** The profile endpoint's envelope. */
  datatype ProfileResponse = ProfileResponse(success: bool, message: string, data: Option<UserProfile>)

  const LoadFailed := "Failed to load user profile"

  class ProfilePage {
    var userProfile: Option<UserProfile>
    var loading: bool
    var error: string

    constructor ()
      ensures userProfile == None && !loading && error == ""
    {
      userProfile := None;
      loading := false;
      error := "";
    }

    /** `loadUserProfile`: the profile is replaced only by a successful envelope
        that carries data; the previous profile survives everything else. */
    method LoadUserProfile(r: Outcome<ProfileResponse>)
      modifies this
      ensures !loading
      ensures r.Success? && r.payload.success && r.payload.data.Some? ==> userProfile == r.payload.data
      ensures !(r.Success? && r.payload.success && r.payload.data.Some?) ==> userProfile == old(userProfile)
      ensures r.Success? ==> error == ""
      ensures r.Failure? ==> error == ErrorText(r.message, LoadFailed) && error != ""
    {
      loading := true;
      error := "";
      match r
      case Success(response) =>
        if response.success && response.data.Some? {
          userProfile := response.data;
        }
        loading := false;
      case Failure(message) =>
        error := ErrorText(message, LoadFailed);
        loading := false;
    }

    /** `getStatusBadge`: the CSS class of the status badge. */
    function StatusBadge(): (badge: string)
      reads this
      ensures userProfile.None? <==> badge == "secondary"
      ensures badge == "success" <==> userProfile.Some? && userProfile.value.status == 1
      ensures badge == "danger" <==> userProfile.Some? && userProfile.value.status != 1
    {
      if userProfile.None? then "secondary"
      else if userProfile.value.status == 1 then "success"
      else "danger"
    }

    /** `getStatusText`: the label of the status badge. */
    function StatusText(): (text: string)
      reads this
      ensures userProfile.None? <==> text == "Unknown"
      ensures text == "Active" <==> userProfile.Some? && userProfile.value.status == 1
      ensures text == "Inactive" <==> userProfile.Some? && userProfile.value.status != 1
    {
      if userProfile.None? then "Unknown"
      else if userProfile.value.status == 1 then "Active"
      else "Inactive"
    }

    /** The badge colour and its label always tell the same story. */
    lemma BadgeAgreesWithText()
      ensures StatusBadge() == "success" <==> StatusText() == "Active"
      ensures StatusBadge() == "danger" <==> StatusText() == "Inactive"
      ensures StatusBadge() == "secondary" <==> StatusText() == "Unknown"
    {
    }
  }
}
