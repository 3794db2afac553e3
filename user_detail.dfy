/**
 * The admin dialog that shows one user: their orders, the figures drawn
 * from them, the support-ticket lookup and the status badge.
 */
module UserDetail {
  import opened Common
  import opened Seqs
  import opened Schema
  import opened OrderStats

  /** The three figures of the dialog. */
  datatype UserStats = UserStats(totalOrders: nat, totalSpent: int, completedOrders: nat)

  function OwnedBy(userId: string): OrderRow -> bool {
    (o: OrderRow) => o.userId == Some(userId)
  }

  /** The user's orders: `.eq("user_id", userId)`. */
  function UserOrders(table: seq<OrderRow>, userId: string): (r: seq<OrderRow>)
    ensures forall o :: o in r <==> o in table && o.userId == Some(userId)
  {
    forall o | true ensures o in Filter(table, OwnedBy(userId)) <==> o in table && o.userId == Some(userId) {
      FilterMember(table, OwnedBy(userId), o);
    }
    Filter(table, OwnedBy(userId))
  }

  /** The figures `fetchUserData` sets from the user's orders. */
  function ComputeUserStats(orders: seq<OrderRow>): (s: UserStats)
    ensures s.totalOrders == |orders|
    ensures s.completedOrders == CountStatus(orders, Completed) && s.completedOrders <= s.totalOrders
    ensures s.totalSpent == FeeSum(orders)
  {
    FeeTotalIsSum(orders);
    UserStats(|orders|, FeeTotal(orders), CountStatus(orders, Completed))
  }

  /** Tickets are looked up only for a user with orders, by the list of their codes. */
  function TicketQuery(orders: Option<seq<OrderRow>>): (codes: Option<seq<string>>)
    ensures codes.Some? <==> orders.Some? && |orders.value| > 0
    ensures codes.Some? ==> |codes.value| == |orders.value|
                            && forall i :: 0 <= i < |codes.value| ==> codes.value[i] == orders.value[i].orderCode
  {
    if orders.Some? && |orders.value| > 0 then
      Some(seq(|orders.value|, i requires 0 <= i < |orders.value| => orders.value[i].orderCode))
    else None
  }

  /** The badge styles. */
  datatype BadgeVariant = Secondary | Default | Destructive

  /** `variants[status] || "secondary"`. */
  function StatusBadge(status: string): BadgeVariant {
    if status == "pending" then Secondary
    else if status == "ordered" || status == "shipping" || status == "completed" then Default
    else if status == "cancelled" then Destructive
    else Secondary
  }

  /** The badge of each stored status; awaiting payment is not in the table and falls back to "secondary". */
  lemma BadgeOfEachStatus(s: OrderStatus)
    ensures StatusBadge(StatusName(s)) == Destructive <==> s == Cancelled
    ensures StatusBadge(StatusName(s)) == Default <==> s in {Ordered, Shipping, Completed}
    ensures StatusBadge(StatusName(s)) == Secondary <==> s in {Pending, AwaitingPayment}
  {
  }

  /** A name that is no status gets the fallback badge. */
  lemma BadgeOfUnknown(status: string)
    requires ParseStatus(status).None?
    ensures StatusBadge(status) == Secondary
  {
  }
}
