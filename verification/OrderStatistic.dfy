/** The step numbers of buy and sell orders. */
module OrderSteps {
  datatype TradeType = BUY | SELL

  const BUY_ORDER_CREATED_BY_USER := 1
  const BUY_ORDER_CREATED_BY_USER_DEAL_TIME := 2
  const BUY_NOTIFY_SENT_FIAT_BY_USER := 3
  const BUY_NOTIFY_SENT_FIAT_BY_USER_DEAL_TIME := 4
  const BUY_ENABLE_APPEAL_WHILE_CONFIRMING_FIAT_BY_MERCHANT := 5
  const BUY_APPEAL_SENT_WHILE_CONFIRMING_FIAT_BY_MERCHANT := 6
  const BUY_CONFIRMED_FIAT_BY_MERCHANT := 7
  const BUY_CONFIRMED_FIAT_BY_MERCHANT_DEAL_TIME := 8
  const BUY_SENDING_CRYPTO_BY_MERCHANT := 9
  const BUY_SENDING_CRYPTO_FAILED := 10
  const BUY_APPEAL_SENT_SENDING_CRYPTO_FAILED := 11
  const BUY_SENDING_CRYPTO_SUCCESS := 12
  const BUY_ORDER_CANCELLED_BY_USER := 13
  const BUY_ORDER_CANCELLED_BY_SYSTEM := 14

  const SELL_ORDER_CREATED_BY_USER := 1
  const SELL_SENDING_CRYPTO_BY_USER := 2
  const SELL_SENDING_CRYPTO_FAILED := 3
  const SELL_SENDING_CRYPTO_SUCCESS := 4
  const SELL_SENDING_CRYPTO_SUCCESS_DEAL_TIME := 5
  const SELL_NOTIFY_SENT_FIAT_BY_MERCHANT_DEAL_TIME := 6
  const SELL_ENABLE_APPEAL_NOTIFY_SENT_FIAT_BY_MERCHANT := 7
  const SELL_APPEAL_SENT_FIAT_NOT_RECEIVED_BY_USER := 8
  const SELL_CONFIRMED_FIAT_BY_USER := 9
  const SELL_ORDER_CANCELLED_BY_USER := 10
  const SELL_ORDER_CANCELLED_BY_SYSTEM := 11
}

/**
 Incremental order statistics: every step change of an order emits plus and minus deltas for the counters of
 its user and of its operator. The reference is the recount: how many orders are in a group right now.
 */
module OrderStatistic {
  import opened Options
  import opened OrderSteps
  import Sets

  /** The user types that have a group table. */
  datatype Role = User | Operator | Supporter | Manager

  datatype Group = WAITING | WAITING_USER | APPEAL | SUCCESS | CANCEL

  type Table = seq<(Group, seq<int>)>

  const BUY_MERCHANT_WAITING := [
    BUY_NOTIFY_SENT_FIAT_BY_USER, BUY_NOTIFY_SENT_FIAT_BY_USER_DEAL_TIME,
    BUY_ENABLE_APPEAL_WHILE_CONFIRMING_FIAT_BY_MERCHANT, BUY_CONFIRMED_FIAT_BY_MERCHANT,
    BUY_CONFIRMED_FIAT_BY_MERCHANT_DEAL_TIME, BUY_SENDING_CRYPTO_BY_MERCHANT, BUY_SENDING_CRYPTO_FAILED]
  const BUY_MERCHANT_WAITING_USER := [BUY_ORDER_CREATED_BY_USER, BUY_ORDER_CREATED_BY_USER_DEAL_TIME]
  const BUY_APPEAL := [BUY_APPEAL_SENT_WHILE_CONFIRMING_FIAT_BY_MERCHANT, BUY_APPEAL_SENT_SENDING_CRYPTO_FAILED]
  const BUY_CANCEL := [BUY_ORDER_CANCELLED_BY_USER, BUY_ORDER_CANCELLED_BY_SYSTEM]

  const SELL_MERCHANT_WAITING := [SELL_SENDING_CRYPTO_SUCCESS, SELL_SENDING_CRYPTO_SUCCESS_DEAL_TIME]
  const SELL_MERCHANT_WAITING_USER := [
    SELL_ORDER_CREATED_BY_USER, SELL_SENDING_CRYPTO_BY_USER, SELL_SENDING_CRYPTO_FAILED,
    SELL_NOTIFY_SENT_FIAT_BY_MERCHANT_DEAL_TIME, SELL_ENABLE_APPEAL_NOTIFY_SENT_FIAT_BY_MERCHANT]
  const SELL_CANCEL := [SELL_ORDER_CANCELLED_BY_USER, SELL_ORDER_CANCELLED_BY_SYSTEM]

  function BuyOrderGroups(role: Role): Table {
    match role
    case User => [
      (WAITING, [
         BUY_ORDER_CREATED_BY_USER, BUY_ORDER_CREATED_BY_USER_DEAL_TIME, BUY_NOTIFY_SENT_FIAT_BY_USER,
         BUY_NOTIFY_SENT_FIAT_BY_USER_DEAL_TIME, BUY_ENABLE_APPEAL_WHILE_CONFIRMING_FIAT_BY_MERCHANT,
         BUY_CONFIRMED_FIAT_BY_MERCHANT, BUY_CONFIRMED_FIAT_BY_MERCHANT_DEAL_TIME,
         BUY_SENDING_CRYPTO_BY_MERCHANT, BUY_SENDING_CRYPTO_FAILED]),
      (APPEAL, BUY_APPEAL), (SUCCESS, [BUY_SENDING_CRYPTO_SUCCESS]), (CANCEL, BUY_CANCEL)]
    case Operator => [
      (WAITING, BUY_MERCHANT_WAITING), (WAITING_USER, BUY_MERCHANT_WAITING_USER),
      (APPEAL, BUY_APPEAL + [BUY_ORDER_CREATED_BY_USER_DEAL_TIME]),
      (SUCCESS, [BUY_SENDING_CRYPTO_SUCCESS]), (CANCEL, BUY_CANCEL)]
    case Supporter => [
      (APPEAL, [
         BUY_NOTIFY_SENT_FIAT_BY_USER_DEAL_TIME, BUY_ENABLE_APPEAL_WHILE_CONFIRMING_FIAT_BY_MERCHANT,
         BUY_APPEAL_SENT_WHILE_CONFIRMING_FIAT_BY_MERCHANT, BUY_CONFIRMED_FIAT_BY_MERCHANT,
         BUY_CONFIRMED_FIAT_BY_MERCHANT_DEAL_TIME, BUY_APPEAL_SENT_SENDING_CRYPTO_FAILED,
         BUY_ORDER_CREATED_BY_USER_DEAL_TIME, BUY_SENDING_CRYPTO_FAILED])]
    case Manager => [
      (WAITING, BUY_MERCHANT_WAITING), (WAITING_USER, BUY_MERCHANT_WAITING_USER), (APPEAL, BUY_APPEAL),
      (SUCCESS, [BUY_SENDING_CRYPTO_SUCCESS]), (CANCEL, BUY_CANCEL)]
  }

  function SellOrderGroups(role: Role): Table {
    match role
    case User => [
      (WAITING, [
         SELL_ORDER_CREATED_BY_USER, SELL_SENDING_CRYPTO_BY_USER, SELL_SENDING_CRYPTO_FAILED,
         SELL_SENDING_CRYPTO_SUCCESS, SELL_SENDING_CRYPTO_SUCCESS_DEAL_TIME,
         SELL_NOTIFY_SENT_FIAT_BY_MERCHANT_DEAL_TIME, SELL_ENABLE_APPEAL_NOTIFY_SENT_FIAT_BY_MERCHANT]),
      (APPEAL, [SELL_APPEAL_SENT_FIAT_NOT_RECEIVED_BY_USER]), (SUCCESS, [SELL_CONFIRMED_FIAT_BY_USER]),
      (CANCEL, SELL_CANCEL)]
    case Operator => [
      (WAITING, SELL_MERCHANT_WAITING), (WAITING_USER, SELL_MERCHANT_WAITING_USER),
      (APPEAL, [SELL_APPEAL_SENT_FIAT_NOT_RECEIVED_BY_USER, SELL_NOTIFY_SENT_FIAT_BY_MERCHANT_DEAL_TIME]),
      (SUCCESS, [SELL_CONFIRMED_FIAT_BY_USER]), (CANCEL, SELL_CANCEL)]
    case Supporter => [
      (APPEAL, [
         SELL_SENDING_CRYPTO_SUCCESS_DEAL_TIME, SELL_NOTIFY_SENT_FIAT_BY_MERCHANT_DEAL_TIME,
         SELL_ENABLE_APPEAL_NOTIFY_SENT_FIAT_BY_MERCHANT, SELL_APPEAL_SENT_FIAT_NOT_RECEIVED_BY_USER])]
    case Manager => [
      (WAITING, SELL_MERCHANT_WAITING), (WAITING_USER, SELL_MERCHANT_WAITING_USER),
      (APPEAL, [SELL_APPEAL_SENT_FIAT_NOT_RECEIVED_BY_USER]), (SUCCESS, [SELL_CONFIRMED_FIAT_BY_USER]),
      (CANCEL, SELL_CANCEL)]
  }

  function OrderGroups(role: Role, tradeType: TradeType): Table {
    if tradeType == BUY then BuyOrderGroups(role) else SellOrderGroups(role)
  }

  // ---------------------------------------------------------------- the deltas of one step change

  /** An order as the statistics see it; a new order has no step yet. */
  datatype Order = Order(tradeType: TradeType, step: Option<int>, appealAdmin: bool)

  /** `getOrderGroupByStep`: the first group of the table that lists the step. */
  function GroupByStep(table: Table, step: Option<int>): Option<Group> {
    if table == [] then None
    else if step.Some? && step.value in table[0].1 then Some(table[0].0)
    else GroupByStep(table[1..], step)
  }

  function GroupOf(role: Role, order: Order): Option<Group> {
    GroupByStep(OrderGroups(role, order.tradeType), order.step)
  }

  /** The properties of the emitted object; groups without a counter land on one that nobody reads. */
  datatype Property = OrderWaitingCount | OrderWaitingUserCount | OrderAppealCount | CancelOrderCount | Unread

  function Counter(group: Group): Property {
    match group
    case WAITING => OrderWaitingCount
    case WAITING_USER => OrderWaitingUserCount
    case APPEAL => OrderAppealCount
    case _ => Unread
  }

  function IsCancelOrder(order: Order, toStep: int): bool {
    if order.tradeType == BUY then toStep in BUY_CANCEL else toStep in SELL_CANCEL
  }

  function IsInvalidCancelOrder(order: Order, toStep: int): bool {
    IsCancelOrder(order, toStep) && !order.appealAdmin
  }

  function Entry(group: Option<Group>, delta: int): map<Property, int> {
    if group.Some? then map[Counter(group.value) := delta] else map[]
  }

  function GetProcessStatistic(role: Role, order: Order, toStep: int): map<Property, int> {
    var fromGroup := GroupOf(role, order);
    var toGroup := GroupOf(role, order.(step := Some(toStep)));
    if IsInvalidCancelOrder(order, toStep) then Entry(fromGroup, -1) + map[CancelOrderCount := 1]
    else if fromGroup != toGroup then Entry(fromGroup, -1) + Entry(toGroup, 1)
    else map[]
  }

  // ---------------------------------------------------------------- runs

  type Population = map<int, Order>

  type Counters = Property -> int

  /** The orders behind one statistics row and its counters. */
  datatype Books = Books(orders: Population, counters: Counters)

  datatype Event =
    | Create(id: int, tradeType: TradeType)
    | Move(id: int, toStep: int)
    | SetAppealAdmin(id: int, appealAdmin: bool)

  function Delta(deltas: map<Property, int>, p: Property): int {
    if p in deltas then deltas[p] else 0
  }

  function Step(role: Role, b: Books, e: Event): Books {
    match e
    case Create(id, tradeType) =>
      if id in b.orders then b else b.(orders := b.orders[id := Order(tradeType, None, false)])
    case Move(id, toStep) =>
      if id !in b.orders then b
      else
        var deltas := GetProcessStatistic(role, b.orders[id], toStep);
        Books(b.orders[id := b.orders[id].(step := Some(toStep))], p => b.counters(p) + Delta(deltas, p))
    case SetAppealAdmin(id, admin) =>
      if id !in b.orders then b else b.(orders := b.orders[id := b.orders[id].(appealAdmin := admin)])
  }

  function Run(role: Role, start: Books, events: seq<Event>): Books {
    if events == [] then start
    else Step(role, Run(role, start, events[..|events| - 1]), events[|events| - 1])
  }

  /** How many moves of the run cancelled an order that had no appeal admin at that time. */
  function UnappealedCancels(role: Role, start: Books, events: seq<Event>): nat {
    if events == [] then 0
    else
      var n := |events| - 1;
      var b, e := Run(role, start, events[..n]), events[n];
      UnappealedCancels(role, start, events[..n])
      + (if e.Move? && e.id in b.orders && IsInvalidCancelOrder(b.orders[e.id], e.toStep) then 1 else 0)
  }

  // ---------------------------------------------------------------- the recount

  function OrdersIn(role: Role, orders: Population, group: Group): set<int> {
    set id | id in orders && GroupOf(role, orders[id]) == Some(group)
  }

  predicate Counted(group: Group) {
    group.WAITING? || group.WAITING_USER? || group.APPEAL?
  }

  /** Every counter equals the number of orders whose first matching group is its own. */
  ghost predicate Balanced(role: Role, b: Books) {
    forall g :: Counted(g) ==> b.counters(Counter(g)) == |OrdersIn(role, b.orders, g)|
  }

  function One(b: bool): int { if b then 1 else 0 }

  lemma CancelStepsAreUncounted(role: Role, order: Order, toStep: int)
    requires IsCancelOrder(order, toStep)
    ensures var g := GroupOf(role, order.(step := Some(toStep))); g.None? || g.value.CANCEL?
  {
    var table := OrderGroups(role, order.tradeType);
    var n := if role == Supporter then 1 else |table| - 1;
    assert forall i :: 0 <= i < n ==> toStep !in table[i].1;
    SkipUnlisted(table, toStep, n);
    if role != Supporter {
      assert table[n..] == [(CANCEL, if order.tradeType == BUY then BUY_CANCEL else SELL_CANCEL)];
    }
  }

  /** Groups that do not list the step are passed over. */
  lemma {:induction false} SkipUnlisted(table: Table, step: int, n: nat)
    requires n <= |table| && forall i :: 0 <= i < n ==> step !in table[i].1
    ensures GroupByStep(table, Some(step)) == GroupByStep(table[n..], Some(step))
    decreases n
  {
    if n == 0 {
      assert table[0..] == table;
    } else {
      assert forall i :: 0 <= i < n - 1 ==> table[1..][i] == table[i + 1];
      SkipUnlisted(table[1..], step, n - 1);
      assert table[1..][n - 1..] == table[n..];
    }
  }

  /** The emitted deltas move a counted group exactly as the order leaves or enters it. */
  lemma DeltaIsMembershipChange(role: Role, order: Order, toStep: int, g: Group)
    requires Counted(g)
    ensures Delta(GetProcessStatistic(role, order, toStep), Counter(g))
            == One(GroupOf(role, order.(step := Some(toStep))) == Some(g)) - One(GroupOf(role, order) == Some(g))
    ensures Delta(GetProcessStatistic(role, order, toStep), CancelOrderCount)
            == One(IsInvalidCancelOrder(order, toStep))
  {
    if IsInvalidCancelOrder(order, toStep) {
      CancelStepsAreUncounted(role, order, toStep);
    }
  }

  lemma RecountAfterUpdate(role: Role, orders: Population, id: int, order: Order, g: Group)
    ensures |OrdersIn(role, orders[id := order], g)|
            == |OrdersIn(role, orders, g)| + One(GroupOf(role, order) == Some(g))
               - One(id in orders && GroupOf(role, orders[id]) == Some(g))
  {
    Sets.OneElementChange(OrdersIn(role, orders, g), OrdersIn(role, orders[id := order], g), id);
  }

  lemma StepKeepsBalance(role: Role, b: Books, e: Event)
    requires Balanced(role, b)
    ensures Balanced(role, Step(role, b, e))
  {
    var next := Step(role, b, e);
    forall g | Counted(g) ensures next.counters(Counter(g)) == |OrdersIn(role, next.orders, g)| {
      match e
      case Create(id, tradeType) =>
        if id !in b.orders {
          RecountAfterUpdate(role, b.orders, id, Order(tradeType, None, false), g);
          NoStepNoGroup(OrderGroups(role, tradeType));
        }
      case Move(id, toStep) =>
        if id in b.orders {
          RecountAfterUpdate(role, b.orders, id, b.orders[id].(step := Some(toStep)), g);
          DeltaIsMembershipChange(role, b.orders[id], toStep, g);
        }
      case SetAppealAdmin(id, admin) =>
        if id in b.orders {
          RecountAfterUpdate(role, b.orders, id, b.orders[id].(appealAdmin := admin), g);
        }
    }
  }

  lemma {:induction false} NoStepNoGroup(table: Table)
    ensures GroupByStep(table, None) == None
  {
    if table != [] {
      NoStepNoGroup(table[1..]);
    }
  }

  /** For any population, any table and any run of step changes, the counters kept by deltas equal the recount,
      and `cancelOrderCount` has grown by the cancellations without an appeal admin. */
  lemma {:induction false} IncrementalIsRecount(role: Role, start: Books, events: seq<Event>)
    requires Balanced(role, start)
    ensures Balanced(role, Run(role, start, events))
    ensures Run(role, start, events).counters(CancelOrderCount)
            == start.counters(CancelOrderCount) + UnappealedCancels(role, start, events)
    decreases |events|
  {
    if events != [] {
      var n := |events| - 1;
      var b, e := Run(role, start, events[..n]), events[n];
      IncrementalIsRecount(role, start, events[..n]);
      StepKeepsBalance(role, b, e);
      if e.Move? && e.id in b.orders {
        DeltaIsMembershipChange(role, b.orders[e.id], e.toStep, WAITING);
      }
    }
  }

  // ---------------------------------------------------------------- first match against membership

  /** Some entry of the group lists the step. */
  predicate Lists(table: Table, group: Group, step: int) {
    exists i :: 0 <= i < |table| && table[i].0 == group && step in table[i].1
  }

  /** The two steps that the operator's tables list under WAITING_USER and under APPEAL. */
  predicate ListedTwice(tradeType: TradeType, step: int) {
    if tradeType == BUY then step == BUY_ORDER_CREATED_BY_USER_DEAL_TIME
    else step == SELL_NOTIFY_SENT_FIAT_BY_MERCHANT_DEAL_TIME
  }

  lemma TablesOverlapOnlyForOperator(role: Role, tradeType: TradeType, i: nat, j: nat, step: int)
    requires var table := OrderGroups(role, tradeType);
             i < j < |table| && step in table[i].1 && step in table[j].1
    ensures var table := OrderGroups(role, tradeType);
            && role == Operator && ListedTwice(tradeType, step)
            && table[i].0 == WAITING_USER && table[j].0 == APPEAL
  {
  }

  lemma {:induction false} FirstMatchIndex(table: Table, step: int) returns (i: nat)
    ensures i <= |table| && forall k :: 0 <= k < i ==> step !in table[k].1
    ensures GroupByStep(table, Some(step)) == if i < |table| then Some(table[i].0) else None
    ensures i < |table| ==> step in table[i].1
    decreases |table|
  {
    if table == [] || step in table[0].1 {
      i := 0;
    } else {
      i := FirstMatchIndex(table[1..], step);
      i := i + 1;
      assert forall k :: 1 <= k < i ==> table[k] == table[1..][k - 1];
    }
  }

  /** A step belongs to a group by membership exactly when the group is its first match, except for the
      operator's two steps, which match WAITING_USER first and belong to APPEAL as well. */
  lemma FirstMatchIsMembership(role: Role, tradeType: TradeType, group: Group, step: int)
    ensures var table := OrderGroups(role, tradeType);
            var twice := role == Operator && ListedTwice(tradeType, step);
            && (Lists(table, group, step)
                <==> GroupByStep(table, Some(step)) == Some(group) || (twice && group == APPEAL))
            && (twice ==> GroupByStep(table, Some(step)) == Some(WAITING_USER))
  {
    var table := OrderGroups(role, tradeType);
    var first := FirstMatchIndex(table, step);
    if Lists(table, group, step) {
      var j :| 0 <= j < |table| && table[j].0 == group && step in table[j].1;
      if first < j {
        TablesOverlapOnlyForOperator(role, tradeType, first, j, step);
      }
    }
    if role == Operator && ListedTwice(tradeType, step) {
      assert step in table[1].1 && step in table[2].1 && step !in table[0].1;
    }
  }

  /** The first match of a step. */
  function FirstMatch(role: Role, tradeType: TradeType, step: int): Option<Group> {
    GroupByStep(OrderGroups(role, tradeType), Some(step))
  }

  /** The operator's group of a BUY step by its number; steps outside the numbering are in no group. */
  function BuyGroup(step: int): Option<Group> {
    if 1 <= step <= 2 then Some(WAITING_USER)
    else if step == 6 || step == 11 then Some(APPEAL)
    else if 3 <= step <= 10 then Some(WAITING)
    else if step == 12 then Some(SUCCESS)
    else if 13 <= step <= 14 then Some(CANCEL)
    else None
  }

  function SellGroup(step: int): Option<Group> {
    if 1 <= step <= 3 || 6 <= step <= 7 then Some(WAITING_USER)
    else if 4 <= step <= 5 then Some(WAITING)
    else if step == 8 then Some(APPEAL)
    else if step == 9 then Some(SUCCESS)
    else if 10 <= step <= 11 then Some(CANCEL)
    else None
  }

  function GroupNumber(tradeType: TradeType, step: int): Option<Group> {
    if tradeType == BUY then BuyGroup(step) else SellGroup(step)
  }

  lemma OperatorByNumber(tradeType: TradeType, step: int)
    ensures FirstMatch(Operator, tradeType, step) == GroupNumber(tradeType, step)
  {
    var i := FirstMatchIndex(OrderGroups(Operator, tradeType), step);
  }

  lemma ManagerByNumber(tradeType: TradeType, step: int)
    ensures FirstMatch(Manager, tradeType, step) == GroupNumber(tradeType, step)
  {
    var i := FirstMatchIndex(OrderGroups(Manager, tradeType), step);
  }

  lemma UserByNumber(tradeType: TradeType, step: int)
    ensures FirstMatch(User, tradeType, step)
            == if GroupNumber(tradeType, step) == Some(WAITING_USER) then Some(WAITING)
               else GroupNumber(tradeType, step)
  {
    var i := FirstMatchIndex(OrderGroups(User, tradeType), step);
  }

  lemma SupporterByNumber(tradeType: TradeType, step: int)
    ensures FirstMatch(Supporter, tradeType, step)
            == if (if tradeType == BUY then step == 2 || 4 <= step <= 8 || 10 <= step <= 11 else 5 <= step <= 8)
               then Some(APPEAL) else None
  {
    var i := FirstMatchIndex(OrderGroups(Supporter, tradeType), step);
  }

  /** The tables agree: an order waits, for its user, exactly while it waits for the merchant or for the user in the
      operator's eyes; in every other respect the first matches of user, operator and manager are the same, and each
      numbered step has one. */
  lemma RolesAgree(tradeType: TradeType, step: int)
    ensures var user, operator := FirstMatch(User, tradeType, step), FirstMatch(Operator, tradeType, step);
            && (user == Some(WAITING) <==> operator == Some(WAITING) || operator == Some(WAITING_USER))
            && (user != Some(WAITING) ==> user == operator)
            && FirstMatch(Manager, tradeType, step) == operator
            && (operator.Some? <==> 1 <= step <= if tradeType == BUY then 14 else 11)
  {
    OperatorByNumber(tradeType, step);
    ManagerByNumber(tradeType, step);
    UserByNumber(tradeType, step);
  }

  /** An order that is cancelled without an appeal admin leaves its group and is counted as cancelled, and nothing else
      is: with an appeal admin, and at any other step, nothing is counted as cancelled. */
  lemma CancelsByNumber(role: Role, order: Order, toStep: int)
    ensures var deltas := GetProcessStatistic(role, order, toStep);
            (CancelOrderCount in deltas && deltas[CancelOrderCount] == 1 <==>
               !order.appealAdmin && if order.tradeType == BUY then 13 <= toStep <= 14 else 10 <= toStep <= 11)
            && (CancelOrderCount in deltas ==> deltas[CancelOrderCount] == 1)
  {
  }
}
