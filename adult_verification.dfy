/** The adult verification screen (app/adult-verification.tsx): three
    consent check boxes and the request for a verification code, which is
    refused for phone numbers shorter than ten characters. */
module AdultVerification {

  /** `CheckItemKey`. */
  datatype ConsentItem = Service | Privacy | Marketing

  datatype Consents = Consents(service: bool, privacy: bool, marketing: bool)

  function Checked(c: Consents, k: ConsentItem): bool
  {
    match k
    case Service => c.service
    case Privacy => c.privacy
    case Marketing => c.marketing
  }

  /** Nothing is ticked when the screen opens. */
  const InitialConsents: Consents := Consents(false, false, false)

  lemma InitialNothingChecked(k: ConsentItem)
    ensures !Checked(InitialConsents, k)
  {
  }

  /** `toggleCheck(item)`: `{ ...prev, [item]: !prev[item] }`. */
  function ToggleCheck(c: Consents, k: ConsentItem): (r: Consents)
    ensures Checked(r, k) == !Checked(c, k)
    ensures forall other :: other != k ==> Checked(r, other) == Checked(c, other)
  {
    match k
    case Service => c.(service := !c.service)
    case Privacy => c.(privacy := !c.privacy)
    case Marketing => c.(marketing := !c.marketing)
  }

  /** Ticking the same box twice leaves every box as it was. */
  lemma ToggleCheckTwice(c: Consents, k: ConsentItem)
    ensures ToggleCheck(ToggleCheck(c, k), k) == c
  {
  }

  /** Ticks on two different boxes commute. */
  lemma ToggleCheckCommutes(c: Consents, a: ConsentItem, b: ConsentItem)
    ensures ToggleCheck(ToggleCheck(c, a), b) == ToggleCheck(ToggleCheck(c, b), a)
  {
  }

  /** What `requestVerification` sets off: a success haptic, the shield's
      bounce and the check mark's fade-in. */
  datatype Effect = SuccessHaptic | ShieldBounce | CheckFadeIn

  /** `requestVerification()`: nothing for a phone number of fewer than ten
      characters, otherwise the three effects; the consents play no part. */
  function RequestVerification(phoneNumber: string): (r: seq<Effect>)
    ensures r == [] <==> |phoneNumber| < 10
    ensures r != [] ==> r == [SuccessHaptic, ShieldBounce, CheckFadeIn]
  {
    if |phoneNumber| < 10 then [] else [SuccessHaptic, ShieldBounce, CheckFadeIn]
  }

  /** `disabled={phoneNumber.length < 10}` on the request button. */
  predicate RequestDisabled(phoneNumber: string)
  {
    |phoneNumber| < 10
  }

  /** The button is disabled exactly when a request would do nothing; both
      look at the phone number only, never at the consents. */
  lemma RequestDisabledIffNoEffect(phoneNumber: string)
    ensures RequestDisabled(phoneNumber) <==> RequestVerification(phoneNumber) == []
  {
  }
}
