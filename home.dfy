/** The home page: the manual SOS button and the travel-mode picker. */
module Home {
  import opened Platform
  import opened Contacts

  const NoContactsAlert := "No emergency contacts found."
  const SentAlert := "\U{1F6A8} Emergency Alert Sent Successfully!"
  /** The message "🚨 EMERGENCY ALERT! I need immediate help. Please track my location."
      after `encodeURIComponent`. */
  const SosBody := "%F0%9F%9A%A8%20EMERGENCY%20ALERT!%20I%20need%20immediate%20help.%20Please%20track%20my%20location."

  const DashboardPath := "/dashboard"
  const DashboardDelayMs: nat := 1500

  /** What `handleSOS` does, given what local storage holds. */
  function SosEffects(stored: Option<Profile>): seq<Effect>
  {
    match stored
    case None => [Alert(NoContactsAlert)]
    case Some(p) => SmsEffects(ContactList(p), SosBody) + [Alert(SentAlert)]
  }

  method HandleSOS(b: Browser)
    modifies b`log
    ensures b.log == old(b.log) + SosEffects(b.userData)
  {
    var userData := b.userData;
    if userData.None? {
      b.log := b.log + [Alert(NoContactsAlert)];
      return;
    }
    OpenSmsLinks(b, ContactList(userData.value), SosBody);
    b.log := b.log + [Alert(SentAlert)];
  }

  /** Nothing stored: only the "no contacts" alert, and no SMS window. */
  lemma SosWithoutProfile()
    ensures SosEffects(None) == [Alert(NoContactsAlert)]
    ensures forall e :: e in SosEffects(None) ==> !e.OpenWindow?
  {
  }

  /** A stored profile: one window per non-empty contact, in order, all with the
      same body, then the success alert, which comes even when every contact is empty. */
  lemma SosWithProfile(p: Profile)
    ensures |SosEffects(Some(p))| == |NonEmpty(ContactList(p))| + 1
    ensures forall i :: 0 <= i < |NonEmpty(ContactList(p))| ==>
      SosEffects(Some(p))[i] == OpenWindow(SmsUrl(NonEmpty(ContactList(p))[i], SosBody))
    ensures SosEffects(Some(p))[|SosEffects(Some(p))| - 1] == Alert(SentAlert)
  {
    SmsEffectsOpenNonEmpty(ContactList(p), SosBody);
  }

  /** The `mode` state and the buttons it highlights. */
  class HomePage {
    var mode: Option<string>

    constructor ()
      ensures mode == None
    {
      mode := None;
    }

    /** The button for `item` carries the highlighted style: `mode === item`. */
    predicate Highlighted(item: string)
      reads this
    {
      mode == Some(item)
    }

    /** Selects a travel mode and schedules the move to the dashboard. */
    method HandleModeSelect(item: string, b: Browser)
      modifies this, b`log
      ensures mode == Some(item)
      ensures forall other :: Highlighted(other) <==> other == item
      ensures b.log == old(b.log) + [NavigateAfter(DashboardDelayMs, DashboardPath)]
    {
      mode := Some(item);
      b.log := b.log + [NavigateAfter(DashboardDelayMs, DashboardPath)];
    }
  }
}
