/**
 * The pricing page: the table of plans, which plan is the user's current
 * one, when an upgrade button is disabled, what it shows, and the
 * `loadingPlan` flag an upgrade sets and clears.
 */
module Pricing {
  import opened Common
  import AuthStore

  /** A plan's active-job limit; PRO has none. */
  datatype Limit = Finite(jobs: nat) | Unlimited

  datatype Plan = Plan(name: string, id: string, price: nat, limit: Limit, popular: bool)

  const Plans: seq<Plan> := [
    Plan("Free", "FREE", 0, Finite(3), false),
    Plan("Premium", "PREMIUM", 50, Finite(100), true),
    Plan("Pro", "PRO", 100, Unlimited, false)]

  predicate LimitBelow(a: Limit, b: Limit) {
    match (a, b)
    case (Finite(x), Finite(y)) => x < y
    case (Finite(_), Unlimited) => true
    case (Unlimited, _) => false
  }

  /** Later plans cost more and allow strictly more active jobs. */
  lemma PlansAscend()
    ensures forall i, j :: 0 <= i < j < |Plans| ==>
      LimitBelow(Plans[i].limit, Plans[j].limit) && Plans[i].price < Plans[j].price
    ensures Distinct(PlanIds())
  {
  }

  function PlanIds(): (ids: seq<string>)
    ensures |ids| == |Plans|
    ensures forall i :: 0 <= i < |Plans| ==> ids[i] == Plans[i].id
  {
    [Plans[0].id, Plans[1].id, Plans[2].id]
  }

  /** `user?.plan`, with an absent user and an empty plan both falsy. */
  function UserPlan(user: Option<UserRecord>): (p: Option<string>)
    ensures p.Some? ==> p.value != "" && user.Some? && user.value.plan == p
    ensures p.None? ==> user.None? || user.value.plan.None? || user.value.plan == Some("")
  {
    if user.Some? && user.value.plan.Some? && user.value.plan.value != "" then user.value.plan else None
  }

  /** A plan is current when it is the user's plan, or when the user has no
      plan and it is FREE. */
  predicate IsCurrentPlan(user: Option<UserRecord>, id: string) {
    (user.Some? && user.value.plan == Some(id)) || (UserPlan(user).None? && id == "FREE")
  }

  function CurrentPlans(user: Option<UserRecord>): (r: seq<Plan>)
    ensures forall p :: p in r <==> p in Plans && IsCurrentPlan(user, p.id)
  {
    Filter(Plans, (p: Plan) => IsCurrentPlan(user, p.id))
  }

  /** At most one plan is current, and exactly one when the user's plan is
      one of the three or absent. */
  lemma {:induction false} OneCurrentPlan(user: Option<UserRecord>)
    ensures |CurrentPlans(user)| <= 1
    ensures UserPlan(user) in {None, Some("FREE"), Some("PREMIUM"), Some("PRO")} ==> |CurrentPlans(user)| == 1
  {
    var p := (p: Plan) => IsCurrentPlan(user, p.id);
    assert Plans == [Plans[0]] + [Plans[1]] + [Plans[2]];
    assert [Plans[0]] + [Plans[1]] == [Plans[0], Plans[1]];
    FilterSnoc([Plans[0]], Plans[1], p);
    FilterSnoc([Plans[0], Plans[1]], Plans[2], p);
    FilterSnoc([], Plans[0], p);
    assert [] + [Plans[0]] == [Plans[0]];
  }

  /** The button is disabled on the current plan and while any upgrade runs. */
  predicate ButtonDisabled(user: Option<UserRecord>, id: string, loadingPlan: Option<string>) {
    IsCurrentPlan(user, id) || loadingPlan.Some?
  }

  datatype ButtonLabel = Spinner | CurrentPlanLabel | UpgradeLabel

  function Label(user: Option<UserRecord>, id: string, loadingPlan: Option<string>): (l: ButtonLabel)
    ensures l == Spinner <==> loadingPlan == Some(id)
    ensures l == CurrentPlanLabel <==> loadingPlan != Some(id) && IsCurrentPlan(user, id)
  {
    if loadingPlan == Some(id) then Spinner
    else if IsCurrentPlan(user, id) then CurrentPlanLabel
    else UpgradeLabel
  }

  /** A plan showing the spinner has its button disabled. */
  lemma SpinnerImpliesDisabled(user: Option<UserRecord>, id: string, loadingPlan: Option<string>)
    ensures Label(user, id, loadingPlan) == Spinner ==> ButtonDisabled(user, id, loadingPlan)
  {
  }

  class PricingPage {
    var loadingPlan: Option<string>

    constructor()
      ensures loadingPlan == None
    {
      loadingPlan := None;
    }

    method BeginUpgrade(planId: string)
      modifies this
      ensures loadingPlan == Some(planId)
    {
      loadingPlan := Some(planId);
    }

    /** After the plan update: on success the session is re-checked; in
        every outcome the loading flag returns to none. */
    method FinishUpgrade(updated: bool, auth: AuthStore.Session, profile: Result<UserRecord>)
      returns (succeeded: bool)
      modifies this, auth
      ensures loadingPlan == None
      ensures succeeded == updated
      ensures !updated ==> unchanged(auth)
      ensures updated ==> !auth.isLoading
      ensures updated && !AuthStore.HasAccessToken(old(auth.storage)) ==>
        auth.storage == old(auth.storage) && auth.user == old(auth.user) && auth.isAuthenticated == old(auth.isAuthenticated)
      ensures updated && AuthStore.HasAccessToken(old(auth.storage)) && profile.Ok? ==>
        auth.storage == old(auth.storage) && auth.user == Some(profile.value) && auth.isAuthenticated
      ensures updated && AuthStore.HasAccessToken(old(auth.storage)) && profile.Err? ==>
        auth.storage == AuthStore.SignedOut(old(auth.storage)) && auth.user == None && !auth.isAuthenticated
    {
      if updated {
        var _ := auth.CheckAuth(profile);
      }
      succeeded := updated;
      loadingPlan := None;
    }
  }
}
