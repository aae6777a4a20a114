/** One activity's card: premium activities are locked for everyone not on the
    Premium plan.  A locked card's buttons are disabled and show the locked text; their
    handlers would raise the upgrade alert instead of calling back, but a disabled
    button never runs its handler, so from the card the alert is not reached. */
module ActivityCard {
  import opened Common
  import opened Types

  datatype CardAction = StartF2F(activity: Activity) | Schedule(activity: Activity) | Alert(message: string)

  const PremiumAlert: string := "This is a Premium feature! Upgrade to access all activities."

  /** The `userPlan` prop, `basic` when absent. */
  function PlanOrDefault(userPlan: Option<Plan>): (p: Plan)
    ensures userPlan.None? ==> p == Basic
    ensures userPlan.Some? ==> p == userPlan.value
  {
    match userPlan
    case None => Basic
    case Some(p) => p
  }

  /** `!isPremiumActivity || userHasPremium`. */
  function CanUse(activity: Activity, userPlan: Option<Plan>): (b: bool)
    ensures b <==> !activity.premium || userPlan == Some(Premium)
  {
    !activity.premium || PlanOrDefault(userPlan) == Premium
  }

  /** The start button: the callback with the activity, or the alert. */
  function HandleStartF2F(activity: Activity, userPlan: Option<Plan>): (a: CardAction)
    ensures a == StartF2F(activity) <==> CanUse(activity, userPlan)
    ensures !CanUse(activity, userPlan) ==> a == Alert(PremiumAlert)
  {
    if !CanUse(activity, userPlan) then Alert(PremiumAlert) else StartF2F(activity)
  }

  /** The schedule button: the callback with the activity, or the alert. */
  function HandleSchedule(activity: Activity, userPlan: Option<Plan>): (a: CardAction)
    ensures a == Schedule(activity) <==> CanUse(activity, userPlan)
    ensures !CanUse(activity, userPlan) ==> a == Alert(PremiumAlert)
  {
    if !CanUse(activity, userPlan) then Alert(PremiumAlert) else Schedule(activity)
  }

  function StartLabel(activity: Activity, userPlan: Option<Plan>): (s: string)
    ensures s == "🔒 Premium Only" <==> !CanUse(activity, userPlan)
    ensures s == "Start F2F Chat" <==> CanUse(activity, userPlan)
  {
    if CanUse(activity, userPlan) then "Start F2F Chat" else "🔒 Premium Only"
  }

  function ScheduleLabel(activity: Activity, userPlan: Option<Plan>): (s: string)
    ensures s == "🔒 Premium" <==> !CanUse(activity, userPlan)
    ensures s == "Schedule" <==> CanUse(activity, userPlan)
  {
    if CanUse(activity, userPlan) then "Schedule" else "🔒 Premium"
  }

  /** A click on a card button, which is `disabled` when the activity cannot be used:
      a disabled button runs no handler. */
  function Click(handler: CardAction, disabled: bool): Option<CardAction> {
    if disabled then None else Some(handler)
  }

  /** Clicking either button of a usable card calls back with the activity; clicking
      a locked card does nothing, and in particular never shows the alert. */
  lemma ClickNeverAlerts(activity: Activity, userPlan: Option<Plan>)
    ensures Click(HandleStartF2F(activity, userPlan), !CanUse(activity, userPlan)) ==
            if CanUse(activity, userPlan) then Some(StartF2F(activity)) else None
    ensures Click(HandleSchedule(activity, userPlan), !CanUse(activity, userPlan)) ==
            if CanUse(activity, userPlan) then Some(Schedule(activity)) else None
  {
  }

  /** Without a plan every premium activity is locked, and a Premium user can use
      every activity. */
  lemma DefaultPlanLocksPremium(activity: Activity)
    ensures CanUse(activity, None) <==> !activity.premium
    ensures CanUse(activity, Some(Premium))
    ensures CanUse(activity, None) == CanUse(activity, Some(Basic))
  {
  }

  /** In the catalogue a Basic user is locked out of exactly four activities. */
  lemma CatalogueLockedForBasic()
    ensures forall i :: 0 <= i < |Catalogue| ==> (!CanUse(Catalogue[i], Some(Basic)) <==> i in {21, 24, 30, 31})
  {
    CataloguePremium();
  }

  /** The two buttons are locked and unlocked together: both call back or both alert. */
  lemma ButtonsAgree(activity: Activity, userPlan: Option<Plan>)
    ensures HandleStartF2F(activity, userPlan).Alert? == HandleSchedule(activity, userPlan).Alert?
    ensures HandleStartF2F(activity, userPlan).Alert? <==> StartLabel(activity, userPlan) == "🔒 Premium Only"
  {
  }
}
