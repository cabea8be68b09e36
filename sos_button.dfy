/** The stand-alone SOS button. */
module SosButton {
  import opened Platform
  import opened Contacts

  const NoContactsAlert := "No emergency contacts found!"
  /** The message "🚨 EMERGENCY ALERT! I need help immediately. Please reach me as soon as possible."
      after `encodeURIComponent`. */
  const SosBody := "%F0%9F%9A%A8%20EMERGENCY%20ALERT!%20I%20need%20help%20immediately.%20Please%20reach%20me%20as%20soon%20as%20possible."

  /** What `handleSOS` does, given what local storage holds. */
  function SosEffects(stored: Option<Profile>): seq<Effect>
  {
    match stored
    case None => [Alert(NoContactsAlert)]
    case Some(p) => SmsEffects(ContactList(p), SosBody)
  }

  method HandleSOS(b: Browser)
    modifies b`log
    ensures b.log == old(b.log) + SosEffects(b.userData)
  {
    var userData := b.userData;
    if userData.None? {
      b.log := b.log + [Alert(NoContactsAlert)];
      return;
    }
    var contacts := ContactList(userData.value);
    OpenSmsLinks(b, contacts, SosBody);
  }

  /** Nothing stored: only the "no contacts" alert. */
  lemma SosWithoutProfile()
    ensures SosEffects(None) == [Alert(NoContactsAlert)]
  {
  }

  /** A stored profile: exactly one window per non-empty contact, in order,
      all with the same body, and no alert afterwards. */
  lemma SosWithProfile(p: Profile)
    ensures |SosEffects(Some(p))| == |NonEmpty(ContactList(p))|
    ensures forall i :: 0 <= i < |NonEmpty(ContactList(p))| ==>
      SosEffects(Some(p))[i] == OpenWindow(SmsUrl(NonEmpty(ContactList(p))[i], SosBody))
    ensures forall e :: e in SosEffects(Some(p)) ==> e.OpenWindow?
  {
    SmsEffectsOpenNonEmpty(ContactList(p), SosBody);
  }
}
