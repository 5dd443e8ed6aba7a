/**
 The maintenance script that recounts the open-order counters of every operator from the orders table: reset
 all rows to zero, run one grouped query over the live orders, write each result row back.
 */
module StatisticScript {
  import opened Options
  import opened OrderSteps
  import OS = OrderStatistic
  import Sets

  const TO_BE_PAID := 1
  const CONFIRM_PAID := 2
  const PAID := 3

  const BUY_WAITING := [
    BUY_NOTIFY_SENT_FIAT_BY_USER, BUY_NOTIFY_SENT_FIAT_BY_USER_DEAL_TIME,
    BUY_ENABLE_APPEAL_WHILE_CONFIRMING_FIAT_BY_MERCHANT, BUY_CONFIRMED_FIAT_BY_MERCHANT,
    BUY_CONFIRMED_FIAT_BY_MERCHANT_DEAL_TIME, BUY_SENDING_CRYPTO_BY_MERCHANT, BUY_SENDING_CRYPTO_FAILED]
  const BUY_WAITING_USER := [BUY_ORDER_CREATED_BY_USER, BUY_ORDER_CREATED_BY_USER_DEAL_TIME]
  const BUY_APPEAL := [
    BUY_APPEAL_SENT_WHILE_CONFIRMING_FIAT_BY_MERCHANT, BUY_APPEAL_SENT_SENDING_CRYPTO_FAILED,
    BUY_ORDER_CREATED_BY_USER_DEAL_TIME]

  const SELL_WAITING := [SELL_SENDING_CRYPTO_SUCCESS, SELL_SENDING_CRYPTO_SUCCESS_DEAL_TIME]
  const SELL_WAITING_USER := [
    SELL_ORDER_CREATED_BY_USER, SELL_SENDING_CRYPTO_BY_USER, SELL_SENDING_CRYPTO_FAILED,
    SELL_NOTIFY_SENT_FIAT_BY_MERCHANT_DEAL_TIME, SELL_ENABLE_APPEAL_NOTIFY_SENT_FIAT_BY_MERCHANT]
  const SELL_APPEAL := [
    SELL_APPEAL_SENT_FIAT_NOT_RECEIVED_BY_USER, SELL_NOTIFY_SENT_FIAT_BY_MERCHANT_DEAL_TIME]

  /** A row of the orders table. */
  datatype OrderRow = OrderRow(merchantId: int, status: int, order: OS.Order)

  type Orders = map<int, OrderRow>

  /** The three counters of a statistics row. */
  datatype Counts = Counts(waiting: nat, waitingUser: nat, appeal: nat)

  predicate Live(row: OrderRow) {
    row.status in [TO_BE_PAID, CONFIRM_PAID, PAID]
  }

  const COMPLETED := 4
  const CANCELLED := 5

  /** The live orders are those whose status is neither completed nor cancelled. */
  lemma LiveIsNotOver(row: OrderRow)
    requires TO_BE_PAID <= row.status <= CANCELLED
    ensures Live(row) <==> row.status != COMPLETED && row.status != CANCELLED
  {
  }

  /** The condition of one `SUM(CASE WHEN ...)`. */
  predicate StepIn(order: OS.Order, sellSteps: seq<int>, buySteps: seq<int>) {
    order.step.Some? && (if order.tradeType == SELL then order.step.value in sellSteps
                         else order.step.value in buySteps)
  }

  /** The live orders of a merchant that one sum of the query counts. */
  function Selected(orders: Orders, merchant: int, sellSteps: seq<int>, buySteps: seq<int>): set<int> {
    set id | id in orders && orders[id].merchantId == merchant && Live(orders[id])
             && StepIn(orders[id].order, sellSteps, buySteps)
  }

  /** The result row of the query for a merchant. */
  function ResultRow(orders: Orders, merchant: int): Counts {
    Counts(|Selected(orders, merchant, SELL_WAITING, BUY_WAITING)|,
           |Selected(orders, merchant, SELL_WAITING_USER, BUY_WAITING_USER)|,
           |Selected(orders, merchant, SELL_APPEAL, BUY_APPEAL)|)
  }

  /** The merchants with a live order: those the grouped query has a row for. */
  function LiveMerchants(orders: Orders): set<int> {
    set id | id in orders && Live(orders[id]) :: orders[id].merchantId
  }

  lemma NoLiveOrderNoCount(orders: Orders, merchant: int)
    requires merchant !in LiveMerchants(orders)
    ensures ResultRow(orders, merchant) == Counts(0, 0, 0)
  {
    assert forall id :: id in orders && Live(orders[id]) ==> orders[id].merchantId in LiveMerchants(orders);
    assert Selected(orders, merchant, SELL_WAITING, BUY_WAITING) == {};
    assert Selected(orders, merchant, SELL_WAITING_USER, BUY_WAITING_USER) == {};
    assert Selected(orders, merchant, SELL_APPEAL, BUY_APPEAL) == {};
  }

  ghost predicate Covers(updates: seq<(int, Counts)>, merchant: int) {
    exists k :: 0 <= k < |updates| && updates[k].0 == merchant
  }

  /** The statistics rows of the operators, by operation id. */
  class StatisticsTable {
    var rows: map<int, Counts>

    constructor (rows: map<int, Counts>)
      ensures this.rows == rows
    {
      this.rows := rows;
    }

    method Recount(orders: Orders)
      modifies this
      ensures rows == map m | m in old(rows) :: ResultRow(orders, m)
    {
      rows := map m | m in rows :: Counts(0, 0, 0);
      ghost var zeroed := rows;
      var result := LiveMerchants(orders);
      var updates: seq<(int, Counts)> := [];
      while result != {}
        invariant result <= LiveMerchants(orders) && rows == zeroed
        invariant forall m :: m in LiveMerchants(orders) && m !in result ==> Covers(updates, m)
        invariant forall u :: u in updates ==> u.1 == ResultRow(orders, u.0)
        decreases |result|
      {
        ghost var some := Sets.Member(result);
        var m :| m in result;
        ghost var before := updates;
        updates, result := updates + [(m, ResultRow(orders, m))], result - {m};
        assert updates[|before|].0 == m;
        assert forall other :: Covers(before, other) ==> Covers(updates, other) by {
          assert forall k :: 0 <= k < |before| ==> updates[k] == before[k];
        }
      }
      for i := 0 to |updates|
        invariant rows.Keys == old(rows).Keys
        invariant forall m :: m in rows ==>
                    rows[m] == ResultRow(orders, m)
                    || (rows[m] == Counts(0, 0, 0) && forall k :: 0 <= k < i ==> updates[k].0 != m)
      {
        if updates[i].0 in rows {
          rows := rows[updates[i].0 := updates[i].1];
        }
      }
      forall m | m in rows ensures rows[m] == ResultRow(orders, m) {
        if m !in LiveMerchants(orders) {
          NoLiveOrderNoCount(orders, m);
        } else {
          assert Covers(updates, m);
        }
      }
    }
  }

  // ---------------------------------------------------------------- against the incremental counters

  /** The orders behind the statistics row of an operator. */
  function OfMerchant(orders: Orders, merchant: int): OS.Population {
    map id | id in orders && orders[id].merchantId == merchant :: orders[id].order
  }

  /** The orders of a merchant that are over but stand at a step of the group. */
  function DeadIn(orders: Orders, merchant: int, g: OS.Group): set<int> {
    set id | id in orders && orders[id].merchantId == merchant && !Live(orders[id])
             && OS.GroupOf(OS.Operator, orders[id].order) == Some(g)
  }

  /** The live orders of a merchant at one of the two steps listed under WAITING_USER and under APPEAL. */
  function TwiceListed(orders: Orders, merchant: int): set<int> {
    set id | id in orders && orders[id].merchantId == merchant && Live(orders[id])
             && orders[id].order.step.Some?
             && OS.ListedTwice(orders[id].order.tradeType, orders[id].order.step.value)
  }

  function SellSteps(g: OS.Group): seq<int> {
    match g
    case WAITING => SELL_WAITING
    case WAITING_USER => SELL_WAITING_USER
    case _ => SELL_APPEAL
  }

  function BuySteps(g: OS.Group): seq<int> {
    match g
    case WAITING => BUY_WAITING
    case WAITING_USER => BUY_WAITING_USER
    case _ => BUY_APPEAL
  }

  /** The script's lists are the operator's tables, read by membership. */
  lemma ScriptListsAreOperatorGroups(order: OS.Order, g: OS.Group)
    requires OS.Counted(g) && order.step.Some?
    ensures StepIn(order, SellSteps(g), BuySteps(g))
            <==> OS.Lists(OS.OrderGroups(OS.Operator, order.tradeType), g, order.step.value)
  {
    var table, step := OS.OrderGroups(OS.Operator, order.tradeType), order.step.value;
    var i := if g.WAITING? then 0 else if g.WAITING_USER? then 1 else 2;
    assert table[i].0 == g && forall k :: 0 <= k < |table| && table[k].0 == g ==> k == i;
    assert StepIn(order, SellSteps(g), BuySteps(g)) <==> step in table[i].1;
  }

  lemma StepInIsGroup(order: OS.Order, g: OS.Group)
    requires OS.Counted(g)
    ensures StepIn(order, SellSteps(g), BuySteps(g))
            <==> OS.GroupOf(OS.Operator, order) == Some(g)
                 || (g == OS.APPEAL && order.step.Some? && OS.ListedTwice(order.tradeType, order.step.value))
    ensures order.step.Some? && OS.ListedTwice(order.tradeType, order.step.value) ==>
              OS.GroupOf(OS.Operator, order) == Some(OS.WAITING_USER)
  {
    if order.step.Some? {
      ScriptListsAreOperatorGroups(order, g);
      OS.FirstMatchIsMembership(OS.Operator, order.tradeType, g, order.step.value);
    } else {
      OS.NoStepNoGroup(OS.OrderGroups(OS.Operator, order.tradeType));
    }
  }

  lemma SelectedAgainstGroup(orders: Orders, merchant: int, g: OS.Group)
    requires OS.Counted(g)
    ensures |Selected(orders, merchant, SellSteps(g), BuySteps(g))| + |DeadIn(orders, merchant, g)|
            == |OS.OrdersIn(OS.Operator, OfMerchant(orders, merchant), g)|
               + (if g == OS.APPEAL then |TwiceListed(orders, merchant)| else 0)
  {
    var selected, dead := Selected(orders, merchant, SellSteps(g), BuySteps(g)), DeadIn(orders, merchant, g);
    var grouped := OS.OrdersIn(OS.Operator, OfMerchant(orders, merchant), g);
    var twice := if g == OS.APPEAL then TwiceListed(orders, merchant) else {};
    forall id | id in orders
      ensures id in selected + dead <==> id in grouped + twice
      ensures !(id in selected && id in dead) && !(id in grouped && id in twice)
    {
      StepInIsGroup(orders[id].order, g);
    }
    assert selected + dead == grouped + twice;
    assert selected !! dead && grouped !! twice;
    assert |selected + dead| == |selected| + |dead| && |grouped + twice| == |grouped| + |twice|;
  }

  /** After any run whose orders are those of an operator in the table, the incremental counters exceed the
      script's by the orders that are over yet still at a counted step, and the script's appeal counter
      additionally counts every live order at the two doubly listed steps. */
  lemma ScriptAgainstIncremental(start: OS.Books, events: seq<OS.Event>, orders: Orders,
                                 merchant: int)
    requires OS.Balanced(OS.Operator, start)
    requires OS.Run(OS.Operator, start, events).orders == OfMerchant(orders, merchant)
    ensures var counters := OS.Run(OS.Operator, start, events).counters;
            var script := ResultRow(orders, merchant);
            && counters(OS.OrderWaitingCount) == script.waiting + |DeadIn(orders, merchant, OS.WAITING)|
            && counters(OS.OrderWaitingUserCount)
               == script.waitingUser + |DeadIn(orders, merchant, OS.WAITING_USER)|
            && counters(OS.OrderAppealCount) + |TwiceListed(orders, merchant)|
               == script.appeal + |DeadIn(orders, merchant, OS.APPEAL)|
  {
    OS.IncrementalIsRecount(OS.Operator, start, events);
    var books := OS.Run(OS.Operator, start, events);
    assert books.counters(OS.Counter(OS.WAITING)) == |OS.OrdersIn(OS.Operator, books.orders, OS.WAITING)|;
    assert books.counters(OS.Counter(OS.WAITING_USER))
        == |OS.OrdersIn(OS.Operator, books.orders, OS.WAITING_USER)|;
    assert books.counters(OS.Counter(OS.APPEAL)) == |OS.OrdersIn(OS.Operator, books.orders, OS.APPEAL)|;
    SelectedAgainstGroup(orders, merchant, OS.WAITING);
    SelectedAgainstGroup(orders, merchant, OS.WAITING_USER);
    SelectedAgainstGroup(orders, merchant, OS.APPEAL);
  }

  /** When all orders are live, the waiting counters agree and the script's appeal counter is larger by exactly
      the orders listed twice. */
  lemma LiveOrdersAgree(start: OS.Books, events: seq<OS.Event>, orders: Orders, merchant: int)
    requires OS.Balanced(OS.Operator, start)
    requires OS.Run(OS.Operator, start, events).orders == OfMerchant(orders, merchant)
    requires forall id :: id in orders ==> Live(orders[id])
    ensures var counters := OS.Run(OS.Operator, start, events).counters;
            var script := ResultRow(orders, merchant);
            && script.waiting == counters(OS.OrderWaitingCount)
            && script.waitingUser == counters(OS.OrderWaitingUserCount)
            && script.appeal == counters(OS.OrderAppealCount) + |TwiceListed(orders, merchant)|
  {
    ScriptAgainstIncremental(start, events, orders, merchant);
    NoneDead(orders, merchant, OS.WAITING);
    NoneDead(orders, merchant, OS.WAITING_USER);
    NoneDead(orders, merchant, OS.APPEAL);
  }

  lemma NoneDead(orders: Orders, merchant: int, g: OS.Group)
    requires forall id :: id in orders ==> Live(orders[id])
    ensures DeadIn(orders, merchant, g) == {}
  {
    forall id | id in orders ensures id !in DeadIn(orders, merchant, g) {
      assert Live(orders[id]);
    }
  }
}
