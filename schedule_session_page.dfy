/** The schedule-session landing page: it requires a partner id and forwards to the per-partner form. */
module ScheduleSessionPage {
  import opened Wrappers
  import opened Records

  const PartnerSelectionRequired: Toast :=
    Toast("Partner selection required", "Please select a language partner to schedule a session with.", true)
  const BrowseSpeakersPath: string := "/browse-speakers"

  /** The text a template literal gives for the query parameter: the value, or "null" when absent. */
  function TemplateText(partnerId: Option<string>): string {
    match partnerId
    case None => "null"
    case Some(id) => id
  }

  /** The path "Continue" goes to. */
  function ContinuePath(partnerId: Option<string>): (r: string)
    ensures "/schedule/" <= r
    ensures partnerId.Some? ==> r == "/schedule/" + partnerId.value
    ensures partnerId.None? ==> r == "/schedule/null"
  {
    "/schedule/" + TemplateText(partnerId)
  }

  class ScheduleSessionPage {
    /** `searchParams.get("partnerId")`. */
    const partnerId: Option<string>
    var loading: bool
    var target: Option<string>
    var toast: Option<Toast>

    constructor (partnerId: Option<string>)
      ensures this.partnerId == partnerId && loading && target == None && toast == None
    {
      this.partnerId := partnerId;
      loading, target, toast := true, None, None;
    }

    /**
     * The effect: a missing or empty partner id shows a destructive toast and
     * sends the user to "/browse-speakers", leaving the page loading; any
     * other id ends loading.
     */
    method RunEffect()
      modifies this
      ensures !Truthy(partnerId) ==>
        loading == old(loading) && target == Some(BrowseSpeakersPath) && toast == Some(PartnerSelectionRequired)
      ensures Truthy(partnerId) ==> !loading && target == old(target) && toast == old(toast)
    {
      if !Truthy(partnerId) {
        toast := Some(PartnerSelectionRequired);
        target := Some(BrowseSpeakersPath);
        return;
      }
      loading := false;
    }

    /** `handleContinue`. */
    method HandleContinue()
      modifies this
      ensures target == Some(ContinuePath(partnerId))
      ensures loading == old(loading) && toast == old(toast)
    {
      target := Some("/schedule/" + TemplateText(partnerId));
    }
  }
}
