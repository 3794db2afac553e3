/**
 * The admin order list: a case-insensitive search on the order code or the
 * recipient's name, then a status select whose options are "all" and the
 * six statuses.
 */
module OrdersAdmin {
  import opened Common
  import opened Text
  import opened Seqs
  import opened Schema

  /** The search test: the lower-cased term occurs in the lower-cased code or name. */
  predicate MatchesTerm(o: OrderRow, term: string) {
    Contains(ToLower(o.orderCode), ToLower(term)) || Contains(ToLower(o.recipientName), ToLower(term))
  }

  function TermTest(term: string): OrderRow -> bool {
    (o: OrderRow) => MatchesTerm(o, term)
  }

  function StatusTest(selected: string): OrderRow -> bool {
    (o: OrderRow) => StatusName(o.status) == selected
  }

  /** `filterOrders`: the search applies to any non-empty term (it is not trimmed). */
  function FilterOrders(orders: seq<OrderRow>, term: string, selected: string): seq<OrderRow> {
    var searched := if term != "" then Filter(orders, TermTest(term)) else orders;
    if selected != "all" then Filter(searched, StatusTest(selected)) else searched
  }

  /** Both tests, each true when its control is off. */
  predicate KeepOrder(o: OrderRow, term: string, selected: string) {
    (term == "" || MatchesTerm(o, term)) && (selected == "all" || StatusName(o.status) == selected)
  }

  function KeepTest(term: string, selected: string): OrderRow -> bool {
    (o: OrderRow) => KeepOrder(o, term, selected)
  }

  /** The list is one filter on the combined test. */
  lemma FilterOrdersIsOneFilter(orders: seq<OrderRow>, term: string, selected: string)
    ensures FilterOrders(orders, term, selected) == Filter(orders, KeepTest(term, selected))
  {
    var p1 := (o: OrderRow) => term == "" || MatchesTerm(o, term);
    var p2 := (o: OrderRow) => selected == "all" || StatusName(o.status) == selected;
    var all := (o: OrderRow) => true;
    if term != "" {
      FilterExt(orders, TermTest(term), p1);
    } else {
      FilterAll(orders, p1);
    }
    var searched := Filter(orders, p1);
    if selected != "all" {
      FilterExt(searched, StatusTest(selected), p2);
    } else {
      FilterAll(searched, p2);
    }
    FilterAll(Filter(searched, p2), all);
    FilterFilter3(orders, p1, p2, all, KeepTest(term, selected));
  }

  /** The result keeps exactly the orders passing both tests, in their original order. */
  lemma FilterOrdersMembers(orders: seq<OrderRow>, term: string, selected: string, o: OrderRow)
    ensures IsSubsequence(FilterOrders(orders, term, selected), orders)
    ensures o in FilterOrders(orders, term, selected) <==> o in orders && KeepOrder(o, term, selected)
  {
    FilterOrdersIsOneFilter(orders, term, selected);
    FilterIsSubsequence(orders, KeepTest(term, selected));
    FilterMember(orders, KeepTest(term, selected), o);
  }

  /** An empty term with "all" lists every order unchanged. */
  lemma NoFilterListsEverything(orders: seq<OrderRow>)
    ensures FilterOrders(orders, "", "all") == orders
  {
  }

  /** The options of the status select. */
  function FilterOptions(): (opts: seq<string>)
    ensures |opts| == 1 + |AllStatuses| && opts[0] == "all"
    ensures forall s: OrderStatus :: opts[1 + StatusIndex(s)] == StatusName(s)
  {
    ["all"] + StatusNames()
  }

  /** Selecting a status option keeps exactly the orders with that status. */
  lemma StatusOptionKeepsThatStatus(orders: seq<OrderRow>, s: OrderStatus, o: OrderRow)
    ensures o in FilterOrders(orders, "", StatusName(s)) <==> o in orders && o.status == s
  {
    FilterOrdersMembers(orders, "", StatusName(s), o);
    if StatusName(o.status) == StatusName(s) {
      assert ParseStatus(StatusName(o.status)) == Some(o.status);
    }
  }
}
