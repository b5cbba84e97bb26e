/** How often a saga is compensated: a compensation is recorded only after it is made, so an attempt that dies between
    the two leaves the next one to make it again. */
module Compensations {
  import opened Identity
  import opened Gateway
  import opened TurnRun

  /** The state on which a call compensates: the effect was started and nobody knows how it ended. */
  predicate Ambiguous(gw: Gw, key: Key, item: Item) {
    && ClassOf(item.tool).Compensatable?
    && key in gw.keys && gw.keys[key].argsFp == FingerprintOf(item.args) && gw.keys[key].status.EffectStarted?
  }

  function Made(gw: Gw, key: Key): nat {
    CountKey(gw.compensations, key)
  }

  lemma OneMore(log: seq<Key>, key: Key)
    ensures CountKey(log + [key], key) == CountKey(log, key) + 1
  {
    assert (log + [key])[..|log|] == log;
  }

  lemma CompensateMakesOne(gw: Gw, key: Key, item: Item, fuel: nat)
    ensures Compensate(gw, key, item, fuel).gw.compensations == gw.compensations + if fuel > 0 then [key] else []
  {
  }

  /** One call makes a compensation exactly when it finds its action ambiguous and lives to make it. */
  lemma CallCompensates(gw: Gw, key: Key, item: Item, fuel: nat)
    ensures Made(Call(gw, key, item, fuel).gw, key) ==
            Made(gw, key) + if Ambiguous(gw, key, item) && fuel > 0 then 1 else 0
  {
    hide Execute, Compensate, CountKey, ClassOf;
    OneMore(gw.compensations, key);
    CompensateMakesOne(gw, key, item, fuel);
    ExecuteCompensatesNothing(gw, key, item, fuel);
    assert gw.compensations + [] == gw.compensations;
    CallCases(gw, key, item, fuel);
    hide Call, Ambiguous;
  }

  /** An ambiguous action is compensated; any other call executes or answers. */
  lemma CallCases(gw: Gw, key: Key, item: Item, fuel: nat)
    ensures var r := Call(gw, key, item, fuel);
            if Ambiguous(gw, key, item) then r == Compensate(gw, key, item, fuel)
            else r == Execute(gw, key, item, fuel) || r.gw == gw
  {
    hide Execute, Compensate;
  }

  lemma ExecuteCompensatesNothing(gw: Gw, key: Key, item: Item, fuel: nat)
    ensures Execute(gw, key, item, fuel).gw.compensations == gw.compensations
  {
    hide EffectThenRecord;
    var prepared := Record(gw, key, item, Prepared, None);
    var started := Record(prepared, key, item, EffectStarted, None);
    EffectCompensatesNothing(gw, key, item, fuel);
    if fuel > 0 {
      EffectCompensatesNothing(prepared, key, item, fuel - 1);
    }
    if fuel > 1 {
      EffectCompensatesNothing(started, key, item, fuel - 2);
    }
  }

  lemma EffectCompensatesNothing(gw: Gw, key: Key, item: Item, fuel: nat)
    ensures EffectThenRecord(gw, key, item, fuel).gw.compensations == gw.compensations
  {
    hide Post;
  }

  /** A call leaves what concerns another key. */
  lemma OthersUntouched(gw: Gw, key: Key, item: Item, fuel: nat, other: Key, otherItem: Item)
    requires other != key
    ensures var gw' := Call(gw, key, item, fuel).gw;
            && Made(gw', other) == Made(gw, other)
            && (Ambiguous(gw', other, otherItem) <==> Ambiguous(gw, other, otherItem))
  {
    CallFrames(gw, key, item, fuel, other);
    var gw' := Call(gw, key, item, fuel).gw;
    hide Call;
    assert ViewOf(gw', other).compensations == Made(gw', other) && ViewOf(gw, other).compensations == Made(gw, other);
    assert ViewOf(gw', other).row == Lookup(gw'.keys, other) && ViewOf(gw, other).row == Lookup(gw.keys, other);
  }

  // ---- one attempt ----

  /** The durable operations left when the loop, from action `from` on, calls the action named by `key`; none if it
      does not get there. */
  function FuelAt(sys: Sys, id: TurnId, plan: ToolPlan, from: nat, fuel: nat, key: Key): Option<nat>
    requires from <= |plan|
    decreases |plan| - from
  {
    if from == |plan| || fuel == 0 then None
    else if KeyAt(id, plan, from) == key then Some(fuel - 1)
    else
      var prepared := Append(sys, id, ActionPrepared(plan[from].tool));
      match Call(prepared.gw, KeyAt(id, plan, from), plan[from], fuel - 1)
      case Died(_) => None
      case Returned(gw, left, result) =>
        if result.ContentMismatch? || left == 0 then None
        else
          var observed := Append(prepared.(gw := gw), id, ObservationCommitted(KeyAt(id, plan, from)));
          FuelAt(observed, id, plan, from + 1, left - 1, key)
  }

  /** From the action after it on, an action is not called again. */
  lemma {:induction false} RunPastLeaves(sys: Sys, id: TurnId, plan: ToolPlan, from: nat, fuel: nat,
                                         results: seq<CallResult>, key: Key)
    requires from <= |plan| && forall j :: from <= j < |plan| ==> KeyAt(id, plan, j) != key
    ensures Made(RunFrom(sys, id, plan, from, fuel, results).sys.gw, key) == Made(sys.gw, key)
    ensures FuelAt(sys, id, plan, from, fuel, key).None?
    decreases |plan| - from
  {
    hide Call, Records, Made;
    if from < |plan| && fuel > 0 {
      var prepared := Append(sys, id, ActionPrepared(plan[from].tool));
      var mine := KeyAt(id, plan, from);
      var r := Call(prepared.gw, mine, plan[from], fuel - 1);
      OthersUntouched(prepared.gw, mine, plan[from], fuel - 1, key, plan[from]);
      if r.Returned? && !r.result.ContentMismatch? && r.fuel > 0 {
        var observed := Append(prepared.(gw := r.gw), id, ObservationCommitted(mine));
        RunPastLeaves(observed, id, plan, from + 1, r.fuel - 1, results + [r.result], key);
      }
    }
  }

  lemma {:induction false} RunFromCompensates(sys: Sys, id: TurnId, plan: ToolPlan, from: nat, fuel: nat,
                                              results: seq<CallResult>, i: nat)
    requires from <= i < |plan|
    ensures var key := KeyAt(id, plan, i);
            var arrives := FuelAt(sys, id, plan, from, fuel, key);
            Made(RunFrom(sys, id, plan, from, fuel, results).sys.gw, key) ==
              Made(sys.gw, key) + if arrives.Some? && arrives.value > 0 && Ambiguous(sys.gw, key, plan[i]) then 1 else 0
    decreases |plan| - from
  {
    hide Call, Records, Made, Ambiguous;
    var key := KeyAt(id, plan, i);
    if fuel > 0 {
      var prepared := Append(sys, id, ActionPrepared(plan[from].tool));
      var mine := KeyAt(id, plan, from);
      var r := Call(prepared.gw, mine, plan[from], fuel - 1);
      if from == i {
        CallCompensates(prepared.gw, key, plan[i], fuel - 1);
      } else {
        OthersUntouched(prepared.gw, mine, plan[from], fuel - 1, key, plan[i]);
      }
      if r.Returned? && !r.result.ContentMismatch? && r.fuel > 0 {
        var observed := Append(prepared.(gw := r.gw), id, ObservationCommitted(mine));
        if from == i {
          RunPastLeaves(observed, id, plan, from + 1, r.fuel - 1, results + [r.result], key);
        } else {
          RunFromCompensates(observed, id, plan, from + 1, r.fuel - 1, results + [r.result], i);
        }
      }
    }
  }

  /** The attempt gets as far as compensating action `i` of a plan: it runs that plan, arrives at the call with an
      operation left, and finds the action ambiguous. */
  predicate Compensates(offers: Offers, sys: Sys, a: Attempt, id: TurnId, plan: ToolPlan, i: nat)
    requires i < |plan|
  {
    && Offered(offers, a.id, a.plan) && a.id == id && a.plan == plan
    && Ambiguous(sys.gw, KeyAt(id, plan, i), plan[i])
    && var begun := BeginTurn in Records(sys.wal, id);
       (begun || a.fuel > 0)
       && var arrives := FuelAt(if begun then sys else Append(sys, id, BeginTurn), id, plan, 0,
                                if begun then a.fuel else a.fuel - 1, KeyAt(id, plan, i));
          arrives.Some? && arrives.value > 0
  }

  lemma TryCompensates(offers: Offers, sys: Sys, a: Attempt, id: TurnId, plan: ToolPlan, i: nat)
    requires i < |plan|
    ensures var key := KeyAt(id, plan, i);
            Made(Try(offers, sys, a).gw, key) ==
              Made(sys.gw, key) + if Compensates(offers, sys, a, id, plan, i) then 1 else 0
  {
    hide RunFrom, Records, Made, Ambiguous, FuelAt;
    var key := KeyAt(id, plan, i);
    var begun := BeginTurn in Records(sys.wal, a.id);
    if Offered(offers, a.id, a.plan) && (begun || a.fuel > 0) {
      var start := if begun then sys else Append(sys, a.id, BeginTurn);
      var fuel := if begun then a.fuel else a.fuel - 1;
      if a.id == id && a.plan == plan {
        RunFromCompensates(start, id, plan, 0, fuel, [], i);
      } else {
        RunPastLeaves(start, a.id, a.plan, 0, fuel, [], key);
      }
    }
  }

  // ---- a history ----

  /** The attempts of a history that get as far as compensating the action. */
  function Compensating(offers: Offers, sys: Sys, history: seq<Attempt>, id: TurnId, plan: ToolPlan, i: nat): nat
    requires i < |plan|
    decreases |history|
  {
    if history == [] then 0
    else
      (if Compensates(offers, sys, history[0], id, plan, i) then 1 else 0)
      + Compensating(offers, Try(offers, sys, history[0]), history[1..], id, plan, i)
  }

  lemma {:induction false} AttemptsCompensate(offers: Offers, sys: Sys, history: seq<Attempt>, id: TurnId,
                                              plan: ToolPlan, i: nat)
    requires i < |plan|
    ensures Made(Attempts(offers, sys, history).gw, KeyAt(id, plan, i)) ==
            Made(sys.gw, KeyAt(id, plan, i)) + Compensating(offers, sys, history, id, plan, i)
    decreases |history|
  {
    if history != [] {
      hide Try, Made, Compensates;
      TryCompensates(offers, sys, history[0], id, plan, i);
      AttemptsCompensate(offers, Try(offers, sys, history[0]), history[1..], id, plan, i);
    }
  }

  /** EXACT COUNT: after any history an action has been compensated once for each attempt that got as far as
      compensating it. */
  lemma CompensatedExactly(offers: Offers, history: seq<Attempt>, id: TurnId, plan: ToolPlan, i: nat)
    requires i < |plan|
    ensures Made(Attempts(offers, EMPTY, history).gw, KeyAt(id, plan, i)) ==
            Compensating(offers, EMPTY, history, id, plan, i)
  {
    AttemptsCompensate(offers, EMPTY, history, id, plan, i);
  }
}
