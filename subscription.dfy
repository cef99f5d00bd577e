/** The subscription status resolver of lib/subscription.ts: which of a user's
    subscription rows is reported, how a row that is not active is classified,
    and the access helpers derived from that report. The session lookup and the
    database query are inputs, with their failures; `now` is a parameter. */
module Subscription {
  import opened Common
  import opened Schema
  import opened SubscriptionPlans

  // ---------------------------------------------------------------------------
  // Results

  datatype ErrorType = Canceled | Expired | General

  /** What the resolver reports about one subscription row. */
  datatype SubscriptionDetails = SubscriptionDetails(
    id: string,
    productId: string,
    status: string,
    amount: int,
    currency: string,
    recurringInterval: string,
    currentPeriodStart: int,
    currentPeriodEnd: int,
    cancelAtPeriodEnd: bool,
    canceledAt: Option<int>,
    organizationId: Option<string>,
    plan: Option<Plan>)

  datatype SubscriptionDetailsResult = SubscriptionDetailsResult(
    hasSubscription: bool,
    subscription: Option<SubscriptionDetails>,
    error: Option<string>,
    errorType: Option<ErrorType>)

  /** `{ hasSubscription: false }` and nothing else. */
  const NoSubscription := SubscriptionDetailsResult(false, None, None, None)

  /** The answer when the session or the database call throws. */
  const LoadFailure := SubscriptionDetailsResult(false, None, Some("Failed to load subscription details"), Some(General))

  /** The report on one row: its columns, no organization, and the first
      catalog plan selling its product, if any. */
  function Details(row: Row, plans: seq<Plan>): (d: SubscriptionDetails)
    ensures d.id == row.id && d.productId == row.productId && d.status == row.status
    ensures d.amount == row.amount && d.currency == row.currency && d.recurringInterval == row.recurringInterval
    ensures d.currentPeriodStart == row.currentPeriodStart && d.currentPeriodEnd == row.currentPeriodEnd
    ensures d.cancelAtPeriodEnd == row.cancelAtPeriodEnd && d.canceledAt == row.canceledAt
    ensures d.organizationId.None?
    ensures d.plan == FindPlan(plans, ProductIdField, row.productId)
  {
    SubscriptionDetails(
      row.id, row.productId, row.status, row.amount, row.currency, row.recurringInterval,
      row.currentPeriodStart, row.currentPeriodEnd, row.cancelAtPeriodEnd, row.canceledAt,
      None, FindPlan(plans, ProductIdField, row.productId))
  }

  // ---------------------------------------------------------------------------
  // Selection

  /** The rows the query by user id returns: rows without a user
      never match. */
  function UserRows(table: seq<Row>, uid: string): (r: seq<Row>)
    ensures |r| <= |table|
    ensures forall x :: x in r <==> x in table && x.userId == Some(uid)
    ensures forall x :: multiset(r)[x] == if x.userId == Some(uid) then multiset(table)[x] else 0
  {
    if table == [] then []
    else
      var last := table[|table| - 1];
      assert table == table[..|table| - 1] + [last];
      UserRows(table[..|table| - 1], uid) + (if last.userId == Some(uid) then [last] else [])
  }

  predicate IsActive(row: Row) {
    row.status == "active"
  }

  /** A row the selection considers: any row, or only active ones. */
  predicate Eligible(row: Row, activeOnly: bool) {
    !activeOnly || IsActive(row)
  }

  /** Whether index `k` holds the row a stable sort by descending `createdAt`
      puts first among the eligible rows: eligible, no eligible row is newer,
      and every eligible row before it is strictly older. */
  predicate IsNewest(rows: seq<Row>, activeOnly: bool, k: nat) {
    && k < |rows|
    && Eligible(rows[k], activeOnly)
    && (forall j :: 0 <= j < |rows| && Eligible(rows[j], activeOnly) ==> rows[j].createdAt <= rows[k].createdAt)
    && (forall j :: 0 <= j < k && Eligible(rows[j], activeOnly) ==> rows[j].createdAt < rows[k].createdAt)
  }

  /** Filter, stable sort by descending `createdAt`, take the first: the index
      of that row, or none when no row is eligible. */
  function NewestWhere(rows: seq<Row>, activeOnly: bool): (k: Option<nat>)
    ensures k.None? <==> forall j :: 0 <= j < |rows| ==> !Eligible(rows[j], activeOnly)
    ensures k.Some? ==> IsNewest(rows, activeOnly, k.value)
  {
    if rows == [] then None
    else
      var n := |rows| - 1;
      var prev := NewestWhere(rows[..n], activeOnly);
      if !Eligible(rows[n], activeOnly) then prev
      else if prev.Some? && rows[n].createdAt <= rows[prev.value].createdAt then prev
      else Some(n)
  }

  /** Only one index is the newest eligible row, so the selection is determined
      by the rows. */
  lemma NewestIsUnique(rows: seq<Row>, activeOnly: bool, k: nat)
    requires IsNewest(rows, activeOnly, k)
    ensures NewestWhere(rows, activeOnly) == Some(k)
  {
  }

  // ---------------------------------------------------------------------------
  // Classification

  /** How a reported row that is not active is classified: canceled first, then
      expired when its period ended strictly before `now`, otherwise general. */
  function Classify(row: Row, now: int): (t: ErrorType)
    ensures t == Canceled <==> row.status == "canceled"
    ensures t == Expired <==> row.status != "canceled" && row.currentPeriodEnd < now
    ensures t == General <==> row.status != "canceled" && row.currentPeriodEnd >= now
  {
    if row.status == "canceled" then Canceled
    else if row.currentPeriodEnd < now then Expired
    else General
  }

  /** The message shown for a classification; none of them reads like the
      message of a failed lookup, so the two cases stay apart. */
  function ErrorMessage(t: ErrorType): (m: string)
    ensures m != LoadFailure.error.value
  {
    match t
    case Canceled => "Subscription has been canceled"
    case Expired => "Subscription has expired"
    case General => "Subscription is not active"
  }

  /** Each classification has its own message. */
  lemma ErrorMessagesDistinct(s: ErrorType, t: ErrorType)
    ensures ErrorMessage(s) == ErrorMessage(t) <==> s == t
  {
    if s != t {
      assert ErrorMessage(s)[13] != ErrorMessage(t)[13] || |ErrorMessage(s)| != |ErrorMessage(t)|;
    }
  }

  /** The report on the newest row when no row is active. */
  function Lapsed(row: Row, plans: seq<Plan>, now: int): (r: SubscriptionDetailsResult)
    ensures r.hasSubscription && r.subscription == Some(Details(row, plans))
    ensures r.errorType.Some? && r.error == Some(ErrorMessage(r.errorType.value))
    ensures r.errorType == Some(Canceled) <==> row.status == "canceled"
    ensures r.errorType == Some(Expired) <==> row.status != "canceled" && row.currentPeriodEnd < now
  {
    var t := Classify(row, now);
    SubscriptionDetailsResult(true, Some(Details(row, plans)), Some(ErrorMessage(t)), Some(t))
  }

  // ---------------------------------------------------------------------------
  // The resolver

  /** `getSubscriptionDetails`. `session` is the signed-in user's id as the
      session lookup returned it, `table` the subscription rows as the database
      returned them, `plans` the catalog. */
  function GetSubscriptionDetails(session: Fetch<Option<string>>, table: Fetch<seq<Row>>, plans: seq<Plan>, now: int): (r: SubscriptionDetailsResult)
    ensures r.hasSubscription <==> r.subscription.Some?
    ensures r.error.Some? <==> r.errorType.Some?
    ensures !r.hasSubscription ==> r == NoSubscription || r == LoadFailure
    ensures r.hasSubscription ==> (r.errorType.None? <==> r.subscription.value.status == "active")
    ensures r.hasSubscription && r.errorType.Some? ==> r.error == Some(ErrorMessage(r.errorType.value))
  {
    match session
    case FetchFailed => LoadFailure
    case Fetched(uid) =>
      if !Truthy(uid) then NoSubscription
      else match table
        case FetchFailed => LoadFailure
        case Fetched(stored) =>
          var rows := UserRows(stored, uid.value);
          if |rows| == 0 then NoSubscription
          else match NewestWhere(rows, true)
            case Some(k) =>
              SubscriptionDetailsResult(true, Some(Details(rows[k], plans)), None, None)
            case None =>
              match NewestWhere(rows, false)
              case Some(k) => Lapsed(rows[k], plans, now)
              case None => NoSubscription
  }

  /** The user's rows, when the session names a user and both calls succeed. */
  function RowsOf(session: Fetch<Option<string>>, table: Fetch<seq<Row>>): seq<Row> {
    if session.Fetched? && Truthy(session.value) && table.Fetched?
    then UserRows(table.value, session.value.value)
    else []
  }

  /** Both calls succeeded. */
  predicate Loaded(session: Fetch<Option<string>>, table: Fetch<seq<Row>>) {
    session.Fetched? && (Truthy(session.value) ==> table.Fetched?)
  }

  /** Without a signed-in user, or with no rows for the user, the answer is a
      bare "no subscription". */
  lemma NoUserOrNoRows(session: Fetch<Option<string>>, table: Fetch<seq<Row>>, plans: seq<Plan>, now: int)
    requires Loaded(session, table) && RowsOf(session, table) == []
    ensures GetSubscriptionDetails(session, table, plans, now) == NoSubscription
  {
  }

  /** A subscription is reported exactly when both calls succeed and the user
      has at least one row; so the final "no subscription" branch after the
      lapsed-row report is never taken. */
  lemma HasSubscriptionIffRows(session: Fetch<Option<string>>, table: Fetch<seq<Row>>, plans: seq<Plan>, now: int)
    ensures var result := GetSubscriptionDetails(session, table, plans, now);
      && (result.hasSubscription <==> Loaded(session, table) && RowsOf(session, table) != [])
      && (result.hasSubscription <==> result.subscription.Some?)
  {
    var rows := RowsOf(session, table);
    if Loaded(session, table) && rows != [] {
      assert NewestWhere(rows, false).Some?;
    }
  }

  /** When the user has an active row, the newest active row is reported (the
      first of them on equal `createdAt`), without error, even if newer rows
      that are not active exist. */
  lemma ActiveRowWins(session: Fetch<Option<string>>, table: Fetch<seq<Row>>, plans: seq<Plan>, now: int, k: nat)
    requires Loaded(session, table)
    requires IsNewest(RowsOf(session, table), true, k)
    ensures var rows := RowsOf(session, table);
      GetSubscriptionDetails(session, table, plans, now)
        == SubscriptionDetailsResult(true, Some(Details(rows[k], plans)), None, None)
  {
    NewestIsUnique(RowsOf(session, table), true, k);
  }

  /** Without an active row, the newest row is reported, classified, with the
      message of its classification. */
  lemma NewestRowReportedWhenNoneActive(session: Fetch<Option<string>>, table: Fetch<seq<Row>>, plans: seq<Plan>, now: int, k: nat)
    requires Loaded(session, table)
    requires forall j :: 0 <= j < |RowsOf(session, table)| ==> !IsActive(RowsOf(session, table)[j])
    requires IsNewest(RowsOf(session, table), false, k)
    ensures var rows := RowsOf(session, table);
      var result := GetSubscriptionDetails(session, table, plans, now);
      && result.hasSubscription
      && result.subscription == Some(Details(rows[k], plans))
      && result.errorType == Some(Classify(rows[k], now))
      && result.error == Some(ErrorMessage(Classify(rows[k], now)))
  {
    NewestIsUnique(RowsOf(session, table), false, k);
  }

  /** Rows without a user are never reported to anyone. */
  lemma OrphanRowsNeverReported(session: Fetch<Option<string>>, table: Fetch<seq<Row>>, plans: seq<Plan>, now: int)
    ensures forall r :: r in RowsOf(session, table) ==> r.userId.Some?
  {
  }

  // ---------------------------------------------------------------------------
  // Helpers over the report

  /** `isUserSubscribed`. */
  function IsUserSubscribed(session: Fetch<Option<string>>, table: Fetch<seq<Row>>, plans: seq<Plan>, now: int): (b: bool)
    ensures var result := GetSubscriptionDetails(session, table, plans, now);
      b <==> result.hasSubscription && result.error.None?
  {
    var result := GetSubscriptionDetails(session, table, plans, now);
    result.hasSubscription && result.subscription.Some? && result.subscription.value.status == "active"
  }

  /** Whether the user's active subscription is for the given product. */
  function HasAccessToProduct(session: Fetch<Option<string>>, table: Fetch<seq<Row>>, plans: seq<Plan>, now: int, productId: string): (b: bool)
    ensures b ==> IsUserSubscribed(session, table, plans, now)
    ensures IsUserSubscribed(session, table, plans, now) ==>
      (b <==> GetSubscriptionDetails(session, table, plans, now).subscription.value.productId == productId)
  {
    var result := GetSubscriptionDetails(session, table, plans, now);
    result.hasSubscription && result.subscription.Some? && result.subscription.value.status == "active"
      && result.subscription.value.productId == productId
  }

  /** The user counts as subscribed exactly when one of the user's rows is
      active; access to a product needs the reported active row to sell it. */
  lemma SubscribedIffActiveRow(session: Fetch<Option<string>>, table: Fetch<seq<Row>>, plans: seq<Plan>, now: int, productId: string)
    ensures var rows := RowsOf(session, table);
      && (IsUserSubscribed(session, table, plans, now) <==>
            Loaded(session, table) && exists j :: 0 <= j < |rows| && IsActive(rows[j]))
      && (HasAccessToProduct(session, table, plans, now, productId) <==>
            && Loaded(session, table)
            && NewestWhere(rows, true).Some?
            && rows[NewestWhere(rows, true).value].productId == productId)
  {
    var rows := RowsOf(session, table);
    if Loaded(session, table) && rows != [] && NewestWhere(rows, true).None? {
      assert NewestWhere(rows, false).Some?;
    }
  }

  datatype SubscriptionStatus = StatusActive | StatusCanceled | StatusExpired | StatusNone

  /** `getUserSubscriptionStatus`. */
  function GetUserSubscriptionStatus(session: Fetch<Option<string>>, table: Fetch<seq<Row>>, plans: seq<Plan>, now: int): (status: SubscriptionStatus)
    ensures status == StatusActive <==> IsUserSubscribed(session, table, plans, now)
    ensures !GetSubscriptionDetails(session, table, plans, now).hasSubscription ==> status == StatusNone
  {
    var result := GetSubscriptionDetails(session, table, plans, now);
    if !result.hasSubscription then StatusNone
    else if result.subscription.Some? && result.subscription.value.status == "active" then StatusActive
    else if result.errorType == Some(Canceled) then StatusCanceled
    else if result.errorType == Some(Expired) then StatusExpired
    else StatusNone
  }

  /** The status is `active` exactly when the user is subscribed; otherwise it
      follows the classification of the reported row, and a row classified as
      general (a revoked row whose period has not ended, say) reads as `none`. */
  lemma StatusFollowsReport(session: Fetch<Option<string>>, table: Fetch<seq<Row>>, plans: seq<Plan>, now: int)
    ensures var status := GetUserSubscriptionStatus(session, table, plans, now);
      var result := GetSubscriptionDetails(session, table, plans, now);
      && (status == StatusActive <==> IsUserSubscribed(session, table, plans, now))
      && (status == StatusCanceled <==> result.hasSubscription && result.errorType == Some(Canceled))
      && (status == StatusExpired <==> result.hasSubscription && result.errorType == Some(Expired))
      && (!result.hasSubscription ==> status == StatusNone)
      && (result.errorType == Some(General) ==> status == StatusNone)
  {
    var result := GetSubscriptionDetails(session, table, plans, now);
    var rows := RowsOf(session, table);
    if Loaded(session, table) && rows != [] && NewestWhere(rows, true).None? {
      var k := NewestWhere(rows, false).value;
      assert !IsActive(rows[k]);
    }
  }

  datatype ProductAccess = ProductAccess(hasAccess: bool, activeProduct: Option<string>)

  /** Whether the user's active subscription is for one of the given products,
      and which. */
  function HasAccessToAnyProduct(session: Fetch<Option<string>>, table: Fetch<seq<Row>>, plans: seq<Plan>, now: int, productIds: seq<string>): (r: ProductAccess)
    ensures r.activeProduct.Some? <==> r.hasAccess
    ensures r.hasAccess <==>
      exists p :: p in productIds && HasAccessToProduct(session, table, plans, now, p)
    ensures r.hasAccess ==>
      r.activeProduct == Some(GetSubscriptionDetails(session, table, plans, now).subscription.value.productId)
  {
    var result := GetSubscriptionDetails(session, table, plans, now);
    if !result.hasSubscription || result.subscription.None? || result.subscription.value.status != "active"
    then ProductAccess(false, None)
    else
      var activeProductId := result.subscription.value.productId;
      var hasAccess := activeProductId in productIds;
      ProductAccess(hasAccess, if hasAccess then Some(activeProductId) else None)
  }

  /** `getUserSubscriptions`: every row of the user, reported in the order the
      database returned them; nothing when a call fails or nobody is signed in. */
  function GetUserSubscriptions(session: Fetch<Option<string>>, table: Fetch<seq<Row>>, plans: seq<Plan>): (r: seq<SubscriptionDetails>)
    ensures |r| == |RowsOf(session, table)|
    ensures forall i :: 0 <= i < |r| ==> r[i] == Details(RowsOf(session, table)[i], plans)
  {
    match session
    case FetchFailed => []
    case Fetched(uid) =>
      if !Truthy(uid) then []
      else match table
        case FetchFailed => []
        case Fetched(stored) =>
          var rows := UserRows(stored, uid.value);
          seq(|rows|, i requires 0 <= i < |rows| => Details(rows[i], plans))
  }
}
