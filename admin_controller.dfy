/** The admin endpoints (backend/controllers/adminController.js): the role update and the arithmetic the
    dashboard does on its query results. The counting and summing queries themselves run in the database;
    the model takes the orders a query would scan as a sequence. */
module AdminController {
  import opened Common
  import opened OrderModel
  import opened AuthController

  const InvalidRole: string := "Invalid role specified"
  const UserNotFound: string := "User not found"
  const RoleUpdated: string := "User role updated successfully"
  const RoleUpdateFailed: string := "Failed to update user role"

  /** The roles `updateUserRole` accepts. */
  const AssignableRoles: seq<string> := ["user", "admin"]

  /** `updateUserRole`. A role other than 'user' or 'admin' gives 400 before the store is touched; an
      unknown id gives 404; otherwise that user's role is replaced, nothing else changes, and the updated
      user is answered without its password hash. `queryFails`: `findByIdAndUpdate` throws (a malformed
      id fails to cast, or the database is unreachable), and the catch answers 500 with the store as it was. */
  method UpdateUserRole(store: UserStore, userId: string, role: string, queryFails: bool) returns (resp: Reply<UserDoc>)
    requires store.Valid()
    modifies store
    ensures store.Valid()
    ensures role !in AssignableRoles ==> resp == Reply(400, InvalidRole, None) && store.users == old(store.users)
    ensures role in AssignableRoles && queryFails ==> resp == Reply(500, RoleUpdateFailed, None) && store.users == old(store.users)
    ensures role in AssignableRoles && !queryFails && FindBy(old(store.users), "_id", userId) < 0 ==>
      resp == Reply(404, UserNotFound, None) && store.users == old(store.users)
    ensures role in AssignableRoles && !queryFails && FindBy(old(store.users), "_id", userId) >= 0 ==>
      var i := FindBy(old(store.users), "_id", userId);
      store.users == old(store.users)[i := old(store.users)[i]["role" := role]] &&
      resp == Reply(200, RoleUpdated, Some(store.users[i] - {"password"}))
  {
    if role !in AssignableRoles {
      return Reply(400, InvalidRole, None);
    }
    if queryFails {
      return Reply(500, RoleUpdateFailed, None);
    }
    var i := FindBy(store.users, "_id", userId);
    if i < 0 {
      return Reply(404, UserNotFound, None);
    }
    var updated := store.users[i]["role" := role];
    assert Field(updated, "email") == Field(store.users[i], "email");
    store.users := store.users[i := updated];
    resp := Reply(200, RoleUpdated, Some(updated - {"password"}));
  }

  /** Σ totalAmount over the orders whose status is one of `statuses`. */
  function RevenueSum(orders: seq<Order>, statuses: seq<string>): real
  {
    if orders == [] then 0.0
    else (if orders[0].status in statuses then orders[0].totalAmount else 0.0) + RevenueSum(orders[1..], statuses)
  }

  /** The revenue aggregation's `[0]?.total`: absent when no order matches, the sum otherwise. */
  function MatchedRevenue(orders: seq<Order>, statuses: seq<string>): (r: Option<real>)
    ensures r.None? <==> forall k :: 0 <= k < |orders| ==> orders[k].status !in statuses
  {
    if forall k :: 0 <= k < |orders| ==> orders[k].status !in statuses then None
    else Some(RevenueSum(orders, statuses))
  }

  /** The statuses the revenue queries match, as written: lower-case, unlike every status of the schema. */
  const RevenueStatusesAsWritten: seq<string> := ["completed", "delivered"]

  /** The statuses the revenue queries evidently mean: the schema's own finished states. */
  const RevenueStatuses: seq<string> := ["Delivered", "Completed"]

  /** As written, no order the schema accepts matches the revenue queries, so both month revenues come
      back empty. */
  lemma AsWrittenMatchesNothing(orders: seq<Order>)
    requires forall k :: 0 <= k < |orders| ==> OrderModel.Conforms(orders[k])
    ensures MatchedRevenue(orders, RevenueStatusesAsWritten) == None
  {
    forall k | 0 <= k < |orders|
      ensures orders[k].status !in RevenueStatusesAsWritten
    {
      assert orders[k].status in StatusValues;
    }
  }

  /** With the schema's statuses, every finished order's amount is part of the matched revenue when no
      amount is negative. */
  lemma {:induction false} FinishedOrderCounted(orders: seq<Order>, k: int)
    requires 0 <= k < |orders| && orders[k].status in RevenueStatuses
    requires forall m :: 0 <= m < |orders| ==> orders[m].totalAmount >= 0.0
    ensures MatchedRevenue(orders, RevenueStatuses).Some?
    ensures MatchedRevenue(orders, RevenueStatuses).value >= orders[k].totalAmount
  {
    RevenueSumAtLeast(orders, RevenueStatuses, k);
  }

  lemma {:induction false} RevenueSumAtLeast(orders: seq<Order>, statuses: seq<string>, k: int)
    requires 0 <= k < |orders| && orders[k].status in statuses
    requires forall m :: 0 <= m < |orders| ==> orders[m].totalAmount >= 0.0
    ensures RevenueSum(orders, statuses) >= orders[k].totalAmount
    decreases k
  {
    RevenueSumNonNegative(orders[1..], statuses);
    if k > 0 {
      RevenueSumAtLeast(orders[1..], statuses, k - 1);
    }
  }

  lemma {:induction false} RevenueSumNonNegative(orders: seq<Order>, statuses: seq<string>)
    requires forall m :: 0 <= m < |orders| ==> orders[m].totalAmount >= 0.0
    ensures RevenueSum(orders, statuses) >= 0.0
    decreases |orders|
  {
    if orders != [] {
      RevenueSumNonNegative(orders[1..], statuses);
    }
  }

  /** `currentRevenue`: the matched total, 0 when nothing matched or it summed to 0. */
  function CurrentRevenue(matched: Option<real>): real
  {
    match matched
    case None => 0.0
    case Some(t) => t
  }

  /** `previousRevenue`: the matched total, 1 when nothing matched or it summed to 0. */
  function PreviousRevenue(matched: Option<real>): (r: real)
    ensures matched.Some? && matched.value != 0.0 ==> r == matched.value
    ensures matched.None? || matched.value == 0.0 ==> r == 1.0
  {
    if matched.None? || matched.value == 0.0 then 1.0 else matched.value
  }

  /** `revenueGrowth`: the change from the previous to the current month in whole percent, rounded half
      up; 0 when the previous revenue is not positive. */
  function RevenueGrowth(current: real, previous: real): (g: int)
    ensures previous <= 0.0 ==> g == 0
    ensures previous > 0.0 && current >= previous ==> g >= 0
    ensures previous > 0.0 && current <= previous ==> g <= 0
    ensures previous > 0.0 && current >= 0.0 ==> g >= -100
  {
    if previous > 0.0 then
      var x := (current - previous) / previous * 100.0;
      assert current >= previous ==> x >= 0.0;
      assert current <= previous ==> x <= 0.0;
      assert current >= 0.0 ==> x >= -100.0 by {
        var q := (current - previous) / previous;
        assert q * previous == current - previous;
      }
      Round(x)
    else 0
  }

  /** The growth figures of the dashboard. */
  datatype Growth = Growth(revenueGrowth: int, userGrowth: int)

  /** The growth figures from the two months' matched revenues and active-user counts. `userGrowth` is a
      plain difference and may be negative. */
  function DashboardGrowth(current: Option<real>, previous: Option<real>, activeUsers: nat, lastMonthActiveUsers: nat): (r: Growth)
    ensures r.userGrowth + lastMonthActiveUsers == activeUsers
    ensures r.userGrowth < 0 <==> activeUsers < lastMonthActiveUsers
    ensures previous.None? && current.Some? && current.value >= 1.0 ==> r.revenueGrowth >= 0
  {
    Growth(RevenueGrowth(CurrentRevenue(current), PreviousRevenue(previous)), activeUsers - lastMonthActiveUsers)
  }

  /** As written, the dashboard reports a revenue growth of -100% whatever orders exist. */
  lemma AsWrittenGrowthIsMinusHundred(thisMonth: seq<Order>, lastMonth: seq<Order>, activeUsers: nat, lastMonthActiveUsers: nat)
    requires forall k :: 0 <= k < |thisMonth| ==> OrderModel.Conforms(thisMonth[k])
    requires forall k :: 0 <= k < |lastMonth| ==> OrderModel.Conforms(lastMonth[k])
    ensures DashboardGrowth(MatchedRevenue(thisMonth, RevenueStatusesAsWritten),
                            MatchedRevenue(lastMonth, RevenueStatusesAsWritten),
                            activeUsers, lastMonthActiveUsers).revenueGrowth == -100
  {
    AsWrittenMatchesNothing(thisMonth);
    AsWrittenMatchesNothing(lastMonth);
    assert (0.0 - 1.0) / 1.0 * 100.0 == -100.0;
  }
}
