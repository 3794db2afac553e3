/**
 * The admin dashboard: who is let in, and the statistics it shows.
 */
module Dashboard {
  import opened Common
  import opened Seqs
  import opened Schema
  import opened OrderStats

  /** The five figures on the dashboard. */
  datatype Stats = Stats(total: nat, pending: nat, shipping: nat, completed: nat, totalFees: int)

  /** `fetchStats` on the rows the query returned. */
  function ComputeStats(orders: seq<OrderRow>): (s: Stats)
    ensures s.total == |orders|
    ensures s.pending == CountStatus(orders, Pending) && s.shipping == CountStatus(orders, Shipping)
    ensures s.completed == CountStatus(orders, Completed)
    ensures s.pending + s.shipping + s.completed <= s.total
    ensures s.totalFees == FeeSum(orders)
  {
    CountThreeStatuses(orders, Pending, Shipping, Completed);
    FeeTotalIsSum(orders);
    Stats(|orders|, CountStatus(orders, Pending), CountStatus(orders, Shipping),
          CountStatus(orders, Completed), FeeTotal(orders))
  }

  /** Where `checkAdminAndFetchData` leads. */
  datatype Gate = ToAuth | ToHome | ShowDashboard

  /** The user's admin rows that `.eq("user_id", id).eq("role", "admin")` selects. */
  function AdminRows(rows: seq<(string, AppRole)>, userId: string): seq<(string, AppRole)> {
    Filter(rows, (r: (string, AppRole)) => r.0 == userId && r.1 == Admin)
  }

  /**
   * No session goes to the sign-in page. Otherwise `.maybeSingle()` yields
   * a row only when exactly one admin row matches; without one the user is
   * sent home.
   */
  function CheckAdmin(sessionUser: Option<string>, roleRows: seq<(string, AppRole)>): (g: Gate)
    ensures g == ToAuth <==> sessionUser.None?
    ensures g == ShowDashboard ==>
              exists i :: 0 <= i < |roleRows| && roleRows[i] == (sessionUser.value, Admin)
  {
    if sessionUser.None? then ToAuth
    else
      var matches := AdminRows(roleRows, sessionUser.value);
      if |matches| == 1 then
        FilterMember(roleRows, (r: (string, AppRole)) => r.0 == sessionUser.value && r.1 == Admin, matches[0]);
        ShowDashboard
      else ToHome
  }

  /** A signed-in user without any admin row is sent home. */
  lemma NonAdminSentHome(userId: string, roleRows: seq<(string, AppRole)>)
    requires forall i :: 0 <= i < |roleRows| ==> roleRows[i] != (userId, Admin)
    ensures CheckAdmin(Some(userId), roleRows) == ToHome
  {
    var p := (r: (string, AppRole)) => r.0 == userId && r.1 == Admin;
    FilterNone(roleRows, p);
  }
}
