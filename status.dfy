/** The mirror between the server's string `status` and the client's boolean
    `isActive`, used by the seasons and episodes pages: after a load
    `isActive` is derived from `status`, before a save `status` is derived from
    `isActive`. */
module Status {
  import opened Common

  const Active := "active"
  const Inactive := "inactive"

  /** `status === 'active' ? true : false` */
  function ActiveFromStatus(status: Option<string>): (b: bool)
    ensures b <==> status == Some(Active)
  {
    status == Some(Active)
  }

  /** `isActive ? 'active' : 'inactive'` (a missing flag is falsy). */
  function StatusFromActive(isActive: Option<bool>): (s: string)
    ensures s == Active || s == Inactive
    ensures s == Active <==> isActive == Some(true)
  {
    if isActive == Some(true) then Active else Inactive
  }

  /** Loading a record and saving it unchanged gives back the status the server
      sent, for the two statuses the server uses. */
  lemma LoadThenSaveKeepsStatus(status: Option<string>)
    requires status == Some(Active) || status == Some(Inactive)
    ensures Some(StatusFromActive(Some(ActiveFromStatus(status)))) == status
  {
  }

  /** Any other status, or none, is saved as 'inactive'. */
  lemma UnknownStatusSavedInactive(status: Option<string>)
    requires status != Some(Active)
    ensures StatusFromActive(Some(ActiveFromStatus(status))) == Inactive
  {
  }

  /** Saving then loading gives back the flag the user set (a missing flag
      comes back as false). */
  lemma SaveThenLoadKeepsFlag(isActive: Option<bool>)
    ensures ActiveFromStatus(Some(StatusFromActive(isActive))) == (isActive == Some(true))
  {
  }
}
