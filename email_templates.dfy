/**
 * The account e-mail templates: which heading and colours a trial warning
 * uses for the days left, the urgency label of a paid-plan expiry notice,
 * and the values each template interpolates, in order. The HTML around the
 * placeholders is left out; a template is modelled by its argument list.
 */
module EmailTemplates {

  /** A value handed to fmt.Sprintf: `%s` or `%d`. */
  datatype Arg = Str(s: string) | Int(n: int)

  datatype Urgency = Urgency(title: string, color: string, background: string)

  const Amber: string := "#f59e0b"
  const AmberBackground: string := "#fef3c7"
  const Red: string := "#ef4444"
  const RedBackground: string := "#fef2f2"

  /**
   * The heading and palette of a trial warning: 4, 3 and 2 days name the
   * count in amber, 1 day warns of tomorrow in red, any other count says
   * "soon" in amber.
   */
  function TrialWarningUrgency(daysLeft: int): (u: Urgency)
    ensures daysLeft == 4 ==> u.title == "Your Free Trial Ends in 4 Days ⏰"
    ensures daysLeft == 3 ==> u.title == "Your Free Trial Ends in 3 Days ⏰"
    ensures daysLeft == 2 ==> u.title == "Your Free Trial Ends in 2 Days ⏰"
    ensures daysLeft == 1 ==> u.title == "⚠️ Your Free Trial Expires Tomorrow"
    ensures (daysLeft < 1 || daysLeft > 4) ==> u.title == "Your Free Trial Ends Soon ⏰"
    ensures daysLeft == 1 ==> u.color == Red && u.background == RedBackground
    ensures daysLeft != 1 ==> u.color == Amber && u.background == AmberBackground
  {
    match daysLeft
      case 4 => Urgency("Your Free Trial Ends in 4 Days ⏰", Amber, AmberBackground)
      case 3 => Urgency("Your Free Trial Ends in 3 Days ⏰", Amber, AmberBackground)
      case 2 => Urgency("Your Free Trial Ends in 2 Days ⏰", Amber, AmberBackground)
      case 1 => Urgency("⚠️ Your Free Trial Expires Tomorrow", Red, RedBackground)
      case _ => Urgency("Your Free Trial Ends Soon ⏰", Amber, AmberBackground)
  }

  /** Only the last day is red, and each of the last four days gets its own heading. */
  lemma TrialWarningDistinguishesDays(d1: int, d2: int)
    requires 1 <= d1 <= 4 && 1 <= d2 <= 4 && d1 != d2
    ensures TrialWarningUrgency(d1).title != TrialWarningUrgency(d2).title
    ensures TrialWarningUrgency(d1).color == Red <==> d1 == 1
  {
  }

  /**
   * TrialWarningEmailTemplate's values, in order: heading, name, days left,
   * trial end date, background then colour of the urgency box, and the
   * three upgrade links from bronze to gold.
   */
  function TrialWarningArgs(name: string, trialEndDate: string, daysLeft: int,
                            bronzeURL: string, silverURL: string, goldURL: string): (a: seq<Arg>)
    ensures |a| == 9
    ensures a[0] == Str(TrialWarningUrgency(daysLeft).title) && a[2] == Int(daysLeft)
    ensures a[4] == Str(TrialWarningUrgency(daysLeft).background) && a[5] == Str(TrialWarningUrgency(daysLeft).color)
    ensures a[1..2] == [Str(name)] && a[3..4] == [Str(trialEndDate)]
    ensures a[6..] == [Str(bronzeURL), Str(silverURL), Str(goldURL)]
  {
    var u := TrialWarningUrgency(daysLeft);
    [Str(u.title), Str(name), Int(daysLeft), Str(trialEndDate), Str(u.background), Str(u.color),
     Str(bronzeURL), Str(silverURL), Str(goldURL)]
  }

  /** The label of a paid-plan expiry notice: urgent for two days or fewer, a reminder otherwise. */
  function ExpiryUrgencyLevel(daysLeft: int): (level: string)
    ensures level == "URGENT" <==> daysLeft <= 2
    ensures level == "REMINDER" <==> daysLeft > 2
  {
    if daysLeft <= 2 then "URGENT" else "REMINDER"
  }

  /**
   * SubscriptionExpiringEmailTemplate's values, in order: urgency label,
   * name, plan name, days left, expiry date and the renewal link.
   */
  function SubscriptionExpiringArgs(name: string, planName: string, expiryDate: string,
                                    daysLeft: int, renewURL: string): (a: seq<Arg>)
    ensures |a| == 6
    ensures a[0] == Str(ExpiryUrgencyLevel(daysLeft)) && a[3] == Int(daysLeft)
    ensures a[1..3] == [Str(name), Str(planName)] && a[4..] == [Str(expiryDate), Str(renewURL)]
  {
    [Str(ExpiryUrgencyLevel(daysLeft)), Str(name), Str(planName), Int(daysLeft), Str(expiryDate), Str(renewURL)]
  }

  /**
   * VerificationEmailTemplate's values: the name, then the verification link
   * twice (the button and the copyable text), then the expiry period.
   */
  function VerificationArgs(name: string, verificationURL: string, expiresIn: string): (a: seq<Arg>)
    ensures |a| == 4 && a[1] == a[2] == Str(verificationURL)
    ensures a[0] == Str(name) && a[3] == Str(expiresIn)
  {
    [Str(name), Str(verificationURL), Str(verificationURL), Str(expiresIn)]
  }
}
