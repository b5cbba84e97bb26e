/** A tool that is not atomic: cancelling an order credits gift cards one by one and marks the order last.
    Amounts are whole cents. */
module Refund {
  import opened Identity

  type Id = string
  datatype Account = Account(user: Id, methodId: Id)
  datatype Method = GiftCard(balance: int) | OtherMethod
  datatype Payment = Payment(refund: bool, amount: int, methodId: Id)
  datatype Order = Order(userId: Id, status: string, cancelReason: string, history: seq<Payment>)
  datatype Db = Db(orders: map<Id, Order>, methods: map<Account, Method>)

  datatype Answer = Done | Refused | MidCrash
  datatype Action = Action(orderId: Id, reason: string)

  /** The refund loop: it stops at a payment method the user does not have. */
  function Credit(db: Db, user: Id, history: seq<Payment>): (Db, bool)
    decreases |history|
  {
    if history == [] then (db, true)
    else
      var a := Account(user, history[0].methodId);
      if a !in db.methods then (db, false)
      else
        var db' := if db.methods[a].GiftCard?
                   then db.(methods := db.methods[a := GiftCard(db.methods[a].balance + history[0].amount)]) else db;
        Credit(db', user, history[1..])
  }

  function Refunds(history: seq<Payment>): seq<Payment> {
    seq(|history|, i requires 0 <= i < |history| => history[i].(refund := true))
  }

  function Cancel(db: Db, a: Action, crashArmed: bool): (Db, Answer) {
    if a.orderId !in db.orders || db.orders[a.orderId].status != "pending" then (db, Refused)
    else if a.reason != "no longer needed" && a.reason != "ordered by mistake" then (db, Refused)
    else
      var order := db.orders[a.orderId];
      var (credited, found) := Credit(db, order.userId, order.history);
      if !found then (credited, Refused)
      else if crashArmed then (credited, MidCrash)
      else
        var cancelled := Order(order.userId, "cancelled", a.reason, order.history + Refunds(order.history));
        (credited.(orders := credited.orders[a.orderId := cancelled]), Done)
  }

  /** The reference: no crash. Nothing if some action is refused. */
  function Gold(db: Db, actions: seq<Action>): Option<Db>
    decreases |actions|
  {
    if actions == [] then Some(db)
    else
      var (db', answer) := Cancel(db, actions[0], false);
      if answer.Done? then Gold(db', actions[1..]) else None
  }

  /** Crash inside the live database, then run the call again. */
  function Naive(db: Db, actions: seq<Action>): Option<Db>
    decreases |actions|
  {
    if actions == [] then Some(db)
    else
      var (torn, answer) := Cancel(db, actions[0], true);
      if answer.Refused? then None
      else Naive(Cancel(torn, actions[0], false).0, actions[1..])
  }

  /** Crash inside a copy, drop it, run again on another copy and swap that in. */
  function Snapshotted(db: Db, actions: seq<Action>): Option<Db>
    decreases |actions|
  {
    if actions == [] then Some(db)
    else if Cancel(db, actions[0], true).1.Refused? then None
    else
      var (copy, answer) := Cancel(db, actions[0], false);
      if answer.Done? then Snapshotted(copy, actions[1..]) else None
  }

  /** SNAPSHOT AND SWAP: a crash inside every single call leaves the database of the crash-free run. */
  lemma {:induction false} SnapshottedIsGold(db: Db, actions: seq<Action>)
    ensures Snapshotted(db, actions) == Gold(db, actions)
    decreases |actions|
  {
    if actions != [] && Cancel(db, actions[0], false).1.Done? {
      SnapshottedIsGold(Cancel(db, actions[0], false).0, actions[1..]);
    }
  }

  // ---- what the naive run overpays ----

  function PaidFrom(history: seq<Payment>, methodId: Id): int {
    if history == [] then 0
    else (if history[0].methodId == methodId then history[0].amount else 0) + PaidFrom(history[1..], methodId)
  }

  function Balance(db: Db, a: Account): int {
    if a in db.methods && db.methods[a].GiftCard? then db.methods[a].balance else 0
  }

  predicate IsGiftCard(db: Db, a: Account) {
    a in db.methods && db.methods[a].GiftCard?
  }

  ghost predicate SameButBalances(d: Db, e: Db) {
    && d.orders == e.orders
    && d.methods.Keys == e.methods.Keys
    && forall a :: a in d.methods ==> d.methods[a].GiftCard? == e.methods[a].GiftCard?
  }

  lemma {:induction false} CreditIs(db: Db, user: Id, history: seq<Payment>)
    ensures var r := Credit(db, user, history);
            && SameButBalances(r.0, db)
            && (r.1 <==> forall p :: p in history ==> Account(user, p.methodId) in db.methods)
            && (r.1 ==> forall a :: IsGiftCard(db, a) ==>
                 Balance(r.0, a) == Balance(db, a) + if a.user == user then PaidFrom(history, a.methodId) else 0)
    decreases |history|
  {
    if history != [] {
      assert history == [history[0]] + history[1..];
      var a := Account(user, history[0].methodId);
      if a in db.methods {
        var db' := if db.methods[a].GiftCard?
                   then db.(methods := db.methods[a := GiftCard(db.methods[a].balance + history[0].amount)]) else db;
        CreditIs(db', user, history[1..]);
        assert forall p :: p in history ==> p == history[0] || p in history[1..];
        assert forall p :: p in history[1..] ==> p in history;
      } else {
        assert history[0] in history;
      }
    }
  }

  /** The leading payments made with methods that the user still has. */
  function Creditable(db: Db, user: Id, history: seq<Payment>): (n: nat)
    ensures n <= |history|
    ensures forall i :: 0 <= i < n ==> Account(user, history[i].methodId) in db.methods
    ensures n < |history| ==> Account(user, history[n].methodId) !in db.methods
  {
    if history == [] || Account(user, history[0].methodId) !in db.methods then 0
    else 1 + Creditable(db, user, history[1..])
  }

  /** Exactly the leading payments are credited, each to the gift card it was made from. */
  lemma {:induction false} CreditsLeading(db: Db, user: Id, history: seq<Payment>)
    ensures var paid := history[..Creditable(db, user, history)];
            forall a :: IsGiftCard(db, a) ==>
              Balance(Credit(db, user, history).0, a) ==
                Balance(db, a) + if a.user == user then PaidFrom(paid, a.methodId) else 0
    decreases |history|
  {
    var n := Creditable(db, user, history);
    if n > 0 {
      var a := Account(user, history[0].methodId);
      var db' := if db.methods[a].GiftCard?
                 then db.(methods := db.methods[a := GiftCard(db.methods[a].balance + history[0].amount)]) else db;
      SameMethods(db, db', user, history[1..]);
      CreditsLeading(db', user, history[1..]);
      assert history[..n][1..] == history[1..][..n - 1];
    }
  }

  lemma {:induction false} SameMethods(d: Db, e: Db, user: Id, history: seq<Payment>)
    requires d.methods.Keys == e.methods.Keys
    ensures Creditable(d, user, history) == Creditable(e, user, history)
    decreases |history|
  {
    if history != [] {
      SameMethods(d, e, user, history[1..]);
    }
  }

  /** The order can be cancelled: it is pending, the reason is one of two, and every payment's method is there. */
  ghost predicate Cancellable(db: Db, a: Action) {
    && a.orderId in db.orders
    && db.orders[a.orderId].status == "pending"
    && (a.reason == "no longer needed" || a.reason == "ordered by mistake")
    && forall p :: p in db.orders[a.orderId].history ==> Account(db.orders[a.orderId].userId, p.methodId) in db.methods
  }

  /** The order as it is after cancelling: its payments, and after them a refund of each. */
  ghost predicate IsCancelled(order: Order, reason: string, cancelled: Order) {
    var n := |order.history|;
    && cancelled.userId == order.userId && cancelled.status == "cancelled" && cancelled.cancelReason == reason
    && |cancelled.history| == 2 * n
    && forall i :: 0 <= i < n ==>
         && cancelled.history[i] == order.history[i]
         && cancelled.history[n + i] == Payment(true, order.history[i].amount, order.history[i].methodId)
  }

  /** CANCELLING, exactly and from any database: it is refused unless the order is cancellable; an armed crash leaves
      the orders and every credit made; otherwise the order is rewritten and no other.  A pending order with a good
      reason gets its leading payments credited, even if the call is refused for a missing method. */
  lemma CancelIs(db: Db, a: Action, armed: bool)
    ensures var (db', answer) := Cancel(db, a, armed);
            && (answer.Refused? <==> !Cancellable(db, a))
            && (answer.MidCrash? <==> Cancellable(db, a) && armed)
            && (!answer.Done? ==> db'.orders == db.orders)
            && (answer.Done? ==>
                  && db'.orders == db.orders[a.orderId := db'.orders[a.orderId]]
                  && IsCancelled(db.orders[a.orderId], a.reason, db'.orders[a.orderId]))
  {
    if a.orderId in db.orders {
      CreditIs(db, db.orders[a.orderId].userId, db.orders[a.orderId].history);
    }
    hide Credit;
  }

  lemma CancelCredits(db: Db, a: Action, armed: bool)
    ensures var (db', answer) := Cancel(db, a, armed);
            if a.orderId in db.orders && db.orders[a.orderId].status == "pending"
               && (a.reason == "no longer needed" || a.reason == "ordered by mistake") then
              var order := db.orders[a.orderId];
              var paid := order.history[..Creditable(db, order.userId, order.history)];
              forall c :: IsGiftCard(db, c) ==>
                Balance(db', c) == Balance(db, c) + if c.user == order.userId then PaidFrom(paid, c.methodId) else 0
            else db' == db
  {
    if a.orderId in db.orders {
      CreditsLeading(db, db.orders[a.orderId].userId, db.orders[a.orderId].history);
    }
    hide Credit, Creditable;
  }

  /** What had been paid from an account, over the orders that the actions name. */
  function Owed(db: Db, actions: seq<Action>, a: Account): int
    decreases |actions|
  {
    if actions == [] then 0 else OwedFor(db, actions[0], a) + Owed(db, actions[1..], a)
  }

  function OwedFor(db: Db, action: Action, a: Account): int {
    if action.orderId in db.orders && db.orders[action.orderId].userId == a.user
    then PaidFrom(db.orders[action.orderId].history, a.methodId) else 0
  }

  /** Cancelling one order leaves the others, so what is owed for them. */
  lemma {:induction false} OwedKept(d: Db, e: Db, actions: seq<Action>, a: Account)
    requires forall x :: x in actions ==>
               (x.orderId in d.orders <==> x.orderId in e.orders)
               && (x.orderId in d.orders ==> d.orders[x.orderId] == e.orders[x.orderId])
    ensures Owed(d, actions, a) == Owed(e, actions, a)
    decreases |actions|
  {
    if actions != [] {
      assert actions[0] in actions;
      assert forall x :: x in actions[1..] ==> x in actions;
      OwedKept(d, e, actions[1..], a);
    }
  }

  /** An order that is not pending is in no run that succeeds. */
  lemma {:induction false} NotPendingNotNamed(db: Db, actions: seq<Action>, id: Id)
    requires Gold(db, actions).Some? && id in db.orders && db.orders[id].status != "pending"
    ensures forall x :: x in actions ==> x.orderId != id
    decreases |actions|
  {
    if actions != [] {
      CancelOrders(db, actions[0], false);
      NotPendingNotNamed(Cancel(db, actions[0], false).0, actions[1..], id);
      assert forall x :: x in actions ==> x == actions[0] || x in actions[1..];
    }
  }

  /** Cancelling touches one order. */
  lemma CancelOrders(db: Db, action: Action, armed: bool)
    ensures var r := Cancel(db, action, armed);
            && r.0.orders.Keys == db.orders.Keys
            && (forall id :: id in db.orders && (id != action.orderId || !r.1.Done?) ==>
                r.0.orders[id] == db.orders[id])
            && (r.1.Done? ==> action.orderId in db.orders && r.0.orders[action.orderId].status == "cancelled")
  {
    if action.orderId in db.orders {
      CreditIs(db, db.orders[action.orderId].userId, db.orders[action.orderId].history);
    }
  }

  /** Cancelling depends on orders and on which methods exist, never on balances. */
  lemma CancelIgnoresBalances(d: Db, e: Db, action: Action, armed: bool)
    requires SameButBalances(d, e)
    ensures Cancel(d, action, armed).1 == Cancel(e, action, armed).1
    ensures SameButBalances(Cancel(d, action, armed).0, Cancel(e, action, armed).0)
    ensures !Cancel(e, action, armed).1.Refused? ==> forall a :: IsGiftCard(e, a) ==>
              Balance(Cancel(d, action, armed).0, a) - Balance(d, a) ==
                  Balance(Cancel(e, action, armed).0, a) - Balance(e, a)
  {
    if action.orderId in e.orders {
      var order := e.orders[action.orderId];
      CreditIs(d, order.userId, order.history);
      CreditIs(e, order.userId, order.history);
    }
  }

  /** One crash and re-run credits once more than one run. */
  lemma NaiveStep(db: Db, action: Action)
    requires Cancel(db, action, false).1.Done?
    ensures var torn := Cancel(db, action, true);
            var once, again := Cancel(db, action, false), Cancel(torn.0, action, false);
            && torn.1.MidCrash? && again.1.Done? && SameButBalances(again.0, once.0)
            && forall a :: IsGiftCard(db, a) ==>
                 Balance(again.0, a) == Balance(once.0, a) + OwedFor(db, action, a)
  {
    var order := db.orders[action.orderId];
    CreditIs(db, order.userId, order.history);
    var torn := Cancel(db, action, true).0;
    CancelIgnoresBalances(torn, db, action, false);
  }

  lemma GiftCardsStay(db: Db, action: Action, armed: bool, a: Account)
    ensures IsGiftCard(Cancel(db, action, armed).0, a) <==> IsGiftCard(db, a)
  {
    if action.orderId in db.orders {
      CreditIs(db, db.orders[action.orderId].userId, db.orders[action.orderId].history);
    }
  }

  lemma {:induction false} NaiveAgainstGold(d: Db, e: Db, actions: seq<Action>, a: Account)
    requires SameButBalances(d, e) && Gold(e, actions).Some?
    ensures Naive(d, actions).Some?
    ensures var n, g := Naive(d, actions).value, Gold(e, actions).value;
            && SameButBalances(n, g)
            && (IsGiftCard(g, a) <==> IsGiftCard(e, a))
            && (IsGiftCard(e, a) ==>
                 Balance(n, a) - Balance(g, a) == Balance(d, a) - Balance(e, a) + Owed(e, actions, a))
    decreases |actions|
  {
    if actions != [] {
      var first := actions[0];
      hide Cancel, Balance, IsGiftCard;
      CancelIgnoresBalances(d, e, first, false);
      NaiveStep(d, first);
      assert OwedFor(d, first, a) == OwedFor(e, first, a);
      var torn := Cancel(d, first, true).0;
      var again, once := Cancel(torn, first, false).0, Cancel(e, first, false).0;
      GiftCardsStay(e, first, false, a);
      SameGiftCards(d, e, a);
      OwedSplits(e, actions, a);
      NaiveAgainstGold(again, once, actions[1..], a);
    }
  }

  lemma SameGiftCards(d: Db, e: Db, a: Account)
    requires SameButBalances(d, e)
    ensures IsGiftCard(d, a) <==> IsGiftCard(e, a)
  {
  }

  /** Cancelling the first order leaves what is owed for the rest. */
  lemma OwedSplits(db: Db, actions: seq<Action>, a: Account)
    requires actions != [] && Gold(db, actions).Some?
    ensures Owed(db, actions, a) ==
            OwedFor(db, actions[0], a) + Owed(Cancel(db, actions[0], false).0, actions[1..], a)
  {
    var once := Cancel(db, actions[0], false).0;
    CancelOrders(db, actions[0], false);
    NotPendingNotNamed(once, actions[1..], actions[0].orderId);
    hide Cancel;
    OwedKept(db, once, actions[1..], a);
  }

  /** DOUBLE REFUND, exactly: when every action succeeds, the naive run ends with the same orders as the
      crash-free one and with each gift card too high by what had been paid from it. */
  lemma NaiveOverpays(db: Db, actions: seq<Action>, a: Account)
    requires Gold(db, actions).Some?
    ensures Naive(db, actions).Some?
    ensures var n, g := Naive(db, actions).value, Gold(db, actions).value;
            && SameButBalances(n, g)
            && (IsGiftCard(db, a) ==> Balance(n, a) == Balance(g, a) + Owed(db, actions, a))
  {
    NaiveAgainstGold(db, db, actions, a);
  }

  ghost predicate NaiveAgreesAt(db: Db, actions: seq<Action>, a: Account)
    requires Gold(db, actions).Some?
  {
    && Naive(db, actions).Some?
    && var n, g := Naive(db, actions).value, Gold(db, actions).value;
       && SameButBalances(n, g)
       && (IsGiftCard(g, a) <==> IsGiftCard(db, a))
       && (IsGiftCard(db, a) ==> Balance(n, a) == Balance(g, a) + Owed(db, actions, a))
  }

  /** The naive run is right if and only if no gift card had paid anything, on balance. */
  lemma NaiveIsRightIff(db: Db, actions: seq<Action>)
    requires Gold(db, actions).Some?
    ensures Naive(db, actions) == Gold(db, actions) <==> forall a :: IsGiftCard(db, a) ==> Owed(db, actions, a) == 0
  {
    forall a ensures NaiveAgreesAt(db, actions, a) {
      NaiveAgainstGold(db, db, actions, a);
    }
    assert NaiveAgreesAt(db, actions, Account("", ""));
    var n, g := Naive(db, actions).value, Gold(db, actions).value;
    if forall a :: IsGiftCard(db, a) ==> Owed(db, actions, a) == 0 {
      assert n.methods == g.methods by {
        forall a | a in n.methods ensures a in g.methods && n.methods[a] == g.methods[a] {
          assert NaiveAgreesAt(db, actions, a);
        }
      }
    }
    if a :| IsGiftCard(db, a) && Owed(db, actions, a) != 0 {
      assert NaiveAgreesAt(db, actions, a);
    }
  }

  // ---- the crash-free run, exactly ----

  ghost predicate DifferentOrders(actions: seq<Action>) {
    forall i, j :: 0 <= i < j < |actions| ==> actions[i].orderId != actions[j].orderId
  }

  ghost predicate AllCancellable(db: Db, actions: seq<Action>) {
    forall i :: 0 <= i < |actions| ==> Cancellable(db, actions[i])
  }

  /** Cancelling one order leaves every other as cancellable as it was, and itself not at all. */
  lemma CancellableAfter(db: Db, a: Action, b: Action)
    requires Cancellable(db, a)
    ensures Cancellable(Cancel(db, a, false).0, b) <==> Cancellable(db, b) && b.orderId != a.orderId
  {
    CancelIs(db, a, false);
    CreditIs(db, db.orders[a.orderId].userId, db.orders[a.orderId].history);
    hide Credit;
  }

  /** The run succeeds if and only if every order can be cancelled at the start and none is named twice. */
  lemma {:induction false} GoldSucceedsIff(db: Db, actions: seq<Action>)
    ensures Gold(db, actions).Some? <==> AllCancellable(db, actions) && DifferentOrders(actions)
    decreases |actions|
  {
    if actions != [] {
      var a, rest := actions[0], actions[1..];
      CancelIs(db, a, false);
      if Cancellable(db, a) {
        var db' := Cancel(db, a, false).0;
        GoldSucceedsIff(db', rest);
        forall i | 0 <= i < |rest|
          ensures Cancellable(db', rest[i]) <==> Cancellable(db, actions[i + 1]) && actions[i + 1].orderId != a.orderId
        {
          CancellableAfter(db, a, rest[i]);
        }
        hide Cancel, Cancellable;
        GoldSplits(db, db', a, rest);
      }
    }
  }

  lemma GoldSplits(db: Db, db': Db, a: Action, rest: seq<Action>)
    requires Cancellable(db, a)
    requires forall i :: 0 <= i < |rest| ==>
               (Cancellable(db', rest[i]) <==> Cancellable(db, rest[i]) && rest[i].orderId != a.orderId)
    ensures AllCancellable(db', rest) && DifferentOrders(rest) <==>
            AllCancellable(db, [a] + rest) && DifferentOrders([a] + rest)
  {
    hide Cancellable;
    var actions := [a] + rest;
    assert forall i :: 0 <= i < |rest| ==> rest[i] == actions[i + 1];
    if AllCancellable(db, actions) && DifferentOrders(actions) {
      forall i | 0 <= i < |rest| ensures Cancellable(db', rest[i]) {
        assert Cancellable(db, actions[i + 1]) && actions[0].orderId != actions[i + 1].orderId;
      }
    }
  }

  ghost predicate Names(actions: seq<Action>, id: Id) {
    exists i :: 0 <= i < |actions| && actions[i].orderId == id
  }

  /** THE REFERENCE, exactly: a run that succeeds leaves each order that it names cancelled for the reason given, the
      others as they were, and each gift card with what had been paid from it over these orders. */
  lemma {:induction false} GoldIs(db: Db, actions: seq<Action>)
    requires Gold(db, actions).Some?
    ensures var g := Gold(db, actions).value;
            && g.orders.Keys == db.orders.Keys
            && (forall i :: 0 <= i < |actions| ==>
                  && actions[i].orderId in db.orders
                  && IsCancelled(db.orders[actions[i].orderId], actions[i].reason, g.orders[actions[i].orderId]))
            && (forall id :: id in db.orders && !Names(actions, id) ==> g.orders[id] == db.orders[id])
            && (forall a :: IsGiftCard(db, a) <==> IsGiftCard(g, a))
            && (forall a :: IsGiftCard(db, a) ==> Balance(g, a) == Balance(db, a) + Owed(db, actions, a))
    decreases |actions|
  {
    if actions != [] {
      var first, rest := actions[0], actions[1..];
      CancelIs(db, first, false);
      CancelCreditsAll(db, first);
      var db' := Cancel(db, first, false).0;
      GoldIs(db', rest);
      var g := Gold(db', rest).value;
      CancelOrders(db, first, false);
      NotPendingNotNamed(db', rest, first.orderId);
      hide Cancel, IsCancelled, Cancellable;
      assert !Names(rest, first.orderId);
      forall i | 0 <= i < |actions|
        ensures actions[i].orderId in db.orders
        ensures IsCancelled(db.orders[actions[i].orderId], actions[i].reason, g.orders[actions[i].orderId])
      {
        if i > 0 {
          assert actions[i] == rest[i - 1];
        }
      }
      forall id | id in db.orders && !Names(actions, id) ensures g.orders[id] == db.orders[id] {
        assert actions[0].orderId != id;
        forall i | 0 <= i < |rest| ensures rest[i].orderId != id {
          assert actions[i + 1].orderId != id;
        }
      }
      forall a ensures IsGiftCard(db, a) <==> IsGiftCard(g, a) {
        GiftCardsStay(db, first, false, a);
      }
      forall a | IsGiftCard(db, a) ensures Balance(g, a) == Balance(db, a) + Owed(db, actions, a) {
        GiftCardsStay(db, first, false, a);
        OwedSplits(db, actions, a);
      }
    }
  }

  /** A cancelled order has all of its payments credited. */
  lemma CancelCreditsAll(db: Db, action: Action)
    requires Cancellable(db, action)
    ensures forall a :: IsGiftCard(db, a) ==>
              Balance(Cancel(db, action, false).0, a) == Balance(db, a) + OwedFor(db, action, a)
  {
    var order := db.orders[action.orderId];
    CreditIs(db, order.userId, order.history);
    hide Credit;
  }

  // ---- the objects ----

  /** The retail tools: the database they work on, and the crash switch. */
  class RetailTools {
    var db: Db
    var crashArmed: bool

    constructor (db: Db)
      ensures this.db == db && !crashArmed
    {
      this.db, crashArmed := db, false;
    }

    method CancelPendingOrder(a: Action) returns (answer: Answer)
      modifies this`db
      ensures (db, answer) == Cancel(old(db), a, crashArmed)
      ensures answer.Refused? <==> !Cancellable(old(db), a)
      ensures answer.Done? ==>
                && !crashArmed && db.orders == old(db).orders[a.orderId := db.orders[a.orderId]]
                && IsCancelled(old(db).orders[a.orderId], a.reason, db.orders[a.orderId])
      ensures !answer.Done? ==> db.orders == old(db).orders
    {
      CancelIs(db, a, crashArmed);
      hide Cancellable, IsCancelled;
      if a.orderId !in db.orders || db.orders[a.orderId].status != "pending" {
        return Refused;
      }
      if a.reason != "no longer needed" && a.reason != "ordered by mistake" {
        return Refused;
      }
      var order := db.orders[a.orderId];
      var refunds: seq<Payment> := [];
      var i := 0;
      while i < |order.history|
        invariant 0 <= i <= |order.history|
        invariant refunds == Refunds(order.history)[..i]
        invariant db.orders == old(db.orders)
        invariant Credit(db, order.userId, order.history[i..]) == Credit(old(db), order.userId, order.history)
      {
        assert order.history[i..][0] == order.history[i] && order.history[i..][1..] == order.history[i + 1..];
        var p := order.history[i];
        refunds := refunds + [p.(refund := true)];
        var account := Account(order.userId, p.methodId);
        if account !in db.methods {
          return Refused;
        }
        if db.methods[account].GiftCard? {
          db := db.(methods := db.methods[account := GiftCard(db.methods[account].balance + p.amount)]);
        }
        i := i + 1;
      }
      assert order.history[i..] == [] && refunds == Refunds(order.history);
      if crashArmed {
        return MidCrash;
      }
      var cancelled := Order(order.userId, "cancelled", a.reason, order.history + refunds);
      db := db.(orders := db.orders[a.orderId := cancelled]);
      return Done;
    }
  }

  method RunNaive(tools: RetailTools, actions: seq<Action>) returns (ok: bool)
    requires !tools.crashArmed
    modifies tools
    ensures (if ok then Some(tools.db) else None) == Naive(old(tools.db), actions)
  {
    var i := 0;
    while i < |actions|
      invariant 0 <= i <= |actions| && !tools.crashArmed
      invariant Naive(tools.db, actions[i..]) == Naive(old(tools.db), actions)
    {
      assert actions[i..][0] == actions[i] && actions[i..][1..] == actions[i + 1..];
      tools.crashArmed := true;
      var answer := tools.CancelPendingOrder(actions[i]);
      tools.crashArmed := false;
      if answer.Refused? {
        return false;
      }
      var _ := tools.CancelPendingOrder(actions[i]);
      i := i + 1;
    }
    assert actions[i..] == [];
    return true;
  }

  /** A refused call aborts the run with the live database as the completed actions left it. */
  method RunSnapshotted(tools: RetailTools, actions: seq<Action>) returns (ok: bool)
    requires !tools.crashArmed
    modifies tools
    ensures (if ok then Some(tools.db) else None) == Snapshotted(old(tools.db), actions)
    ensures (if ok then Some(tools.db) else None) == Gold(old(tools.db), actions)
  {
    SnapshottedIsGold(tools.db, actions);
    var i := 0;
    while i < |actions|
      invariant 0 <= i <= |actions| && !tools.crashArmed
      invariant Snapshotted(tools.db, actions[i..]) == Snapshotted(old(tools.db), actions)
    {
      assert actions[i..][0] == actions[i] && actions[i..][1..] == actions[i + 1..];
      var live := tools.db;
      tools.crashArmed := true;
      var answer := tools.CancelPendingOrder(actions[i]);
      tools.crashArmed, tools.db := false, live;
      if answer.Refused? {
        return false;
      }
      answer := tools.CancelPendingOrder(actions[i]);
      if !answer.Done? {
        tools.db := live;
        return false;
      }
      i := i + 1;
    }
    assert actions[i..] == [];
    return true;
  }
}
