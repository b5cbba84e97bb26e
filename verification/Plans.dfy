/** The plans that model outputs decided, and the action ids they give rise to. */
module Plans {
  import opened Dtx

  /** The plan that is persisted for each turn. */
  type PlanTable = map<TurnKey, Plan>

  /** The plans that processes may hold for each turn: more than one if the output was decided again. */
  type Offers = map<TurnKey, set<Plan>>

  ghost predicate DistinctOrdinals(plan: Plan) {
    forall i, j :: 0 <= i < j < |plan| ==> plan[i].ordinal != plan[j].ordinal
  }

  ghost predicate PlansOk(plans: PlanTable) {
    forall k :: k in plans ==> DistinctOrdinals(plans[k])
  }

  predicate Offered(offers: Offers, k: TurnKey, plan: Plan) {
    k in offers && plan in offers[k]
  }

  ghost predicate OffersOk(offers: Offers) {
    forall k, plan :: Offered(offers, k, plan) ==> DistinctOrdinals(plan)
  }

  /** Every step has the arguments a charge needs. */
  ghost predicate AllCharges(plan: Plan) {
    forall i :: 0 <= i < |plan| ==> plan[i].args.ChargeArgs?
  }

  function AidAt(k: TurnKey, plan: Plan, i: nat): Aid
    requires i < |plan|
  {
    AidOf(k, CommitIdOf(plan), plan[i].ordinal)
  }

  ghost predicate StoredPlanOk(plans: PlanTable, db: Db, k: TurnKey) {
    k in db.turns && k in plans && db.turns[k].plan == plans[k] && db.turns[k].commitId == CommitIdOf(plans[k])
  }

  lemma AidsDistinct(k: TurnKey, plan: Plan)
    requires DistinctOrdinals(plan)
    ensures forall i, j :: 0 <= i < |plan| && 0 <= j < |plan| && AidAt(k, plan, i) == AidAt(k, plan, j) ==> i == j
  {
    forall i, j | 0 <= i < |plan| && 0 <= j < |plan| && AidAt(k, plan, i) == AidAt(k, plan, j)
      ensures i == j
    {
      assert plan[i].ordinal == plan[j].ordinal;
    }
  }
}
