/** The subscription webhook handler and the role assignment of lib/auth.ts.
    The subscription table and the user table are maps keyed by id, held by
    two store classes; the clock, the database's failures and the parsing of
    date text are inputs. */
module Auth {
  import opened Common
  import opened Schema

  // ---------------------------------------------------------------------------
  // Dates

  /** A JavaScript `Date`: a point in time in milliseconds, or the "Invalid
      Date" that `new Date` yields for input it cannot read. */
  datatype Instant = At(ms: int) | InvalidDate

  /** A date-valued payload field: absent, `null`, text (with what the runtime's
      date parser makes of it), or a `Date` object. */
  datatype DateInput = Missing | Null | Text(text: string, parsed: Instant) | DateObject(date: Instant)

  /** JavaScript truthiness of a date field: absent, `null` and `""` are falsy;
      every `Date` object is truthy, even an invalid one. */
  predicate DateFalsy(v: DateInput) {
    v.Missing? || v.Null? || (v.Text? && v.text == "")
  }

  /** `safeParseDate`: nothing for a falsy input, a `Date` unchanged, and text
      through the date parser. */
  function SafeParseDate(v: DateInput): (r: Option<Instant>)
    ensures r.None? <==> DateFalsy(v)
    ensures v.DateObject? ==> r == Some(v.date)
    ensures v.Text? && v.text != "" ==> r == Some(v.parsed)
  {
    match v
    case Missing => None
    case Null => None
    case Text(text, parsed) => if text == "" then None else Some(parsed)
    case DateObject(date) => Some(date)
  }

  /** A date constructed directly from the raw value, with no falsy guard: a
      missing value or empty text is an invalid date, null is the epoch. */
  function NewDate(v: DateInput): (r: Instant)
    ensures v.Missing? ==> r == InvalidDate
    ensures v.Null? ==> r == At(0)
    ensures !DateFalsy(v) ==> Some(r) == SafeParseDate(v)
  {
    match v
    case Missing => InvalidDate
    case Null => At(0)
    case Text(text, parsed) => if text == "" then InvalidDate else parsed
    case DateObject(date) => date
  }

  // ---------------------------------------------------------------------------
  // Payloads and rows

  /** A JSON object in the payload, carried as the text `JSON.stringify` gives
      for it. */
  datatype JsonObject = JsonObject(serialised: string)

  datatype Customer = Customer(externalId: Option<string>)

  /** The `data` of a subscription webhook event. */
  datatype Payload = Payload(
    id: string,
    createdAt: DateInput,
    modifiedAt: DateInput,
    amount: int,
    currency: string,
    recurringInterval: string,
    status: string,
    currentPeriodStart: DateInput,
    currentPeriodEnd: DateInput,
    cancelAtPeriodEnd: Option<bool>,
    canceledAt: DateInput,
    startedAt: DateInput,
    endsAt: DateInput,
    endedAt: DateInput,
    customerId: string,
    productId: string,
    discountId: Option<string>,
    checkoutId: Option<string>,
    customerCancellationReason: Option<string>,
    customerCancellationComment: Option<string>,
    metadata: Option<JsonObject>,
    customFieldData: Option<JsonObject>,
    customer: Option<Customer>)

  /** Why a normalised row cannot be written: one of its timestamps is an
      invalid date, which the database driver refuses to serialise. */
  datatype WriteError = InvalidTimestamp

  /** A date as the driver stores it. */
  function Stored(d: Instant): (r: Result<int, WriteError>)
    ensures r.Success? <==> d.At?
    ensures r.Success? ==> r.value == d.ms
  {
    match d
    case At(ms) => Success(ms)
    case InvalidDate => Failure(InvalidTimestamp)
  }

  /** A nullable date as the driver stores it. */
  function StoredOrNull(d: Option<Instant>): (r: Result<Option<int>, WriteError>)
    ensures r.Success? <==> d.None? || d.value.At?
    ensures r.Success? ==> (r.value.None? <==> d.None?)
    ensures r.Success? && d.Some? ==> r.value == Some(d.value.ms)
  {
    match d
    case None => Success(None)
    case Some(i) =>
      var ms :- Stored(i);
      Success(Some(ms))
  }

  /** A required date column: the parsed value, or the current time when absent. */
  function OrNow(d: Option<Instant>, now: int): (r: Instant)
    ensures d.None? ==> r == At(now)
    ensures d.Some? ==> r == d.value
  {
    if d.Some? then d.value else At(now)
  }

  /** An optional string column: empty text is stored as null. */
  function OrNull(s: Option<string>): (r: Option<string>)
    ensures r.None? <==> !Truthy(s)
    ensures r.Some? ==> r == s
  {
    if Truthy(s) then s else None
  }

  /** A date field the handler can store: one that is falsy (null or replaced
      by `now`) or reads as a valid date. */
  predicate Storable(v: DateInput) {
    SafeParseDate(v).None? || SafeParseDate(v).value.At?
  }

  /** The payload's dates all store: `createdAt` goes through `new Date` and
      must be valid, every other date field must be storable. */
  predicate DatesStorable(data: Payload) {
    && NewDate(data.createdAt).At?
    && Storable(data.modifiedAt) && Storable(data.currentPeriodStart) && Storable(data.currentPeriodEnd)
    && Storable(data.canceledAt) && Storable(data.startedAt) && Storable(data.endsAt) && Storable(data.endedAt)
  }

  /** The eight timestamps of a row, as stored. */
  datatype RowDates = RowDates(
    createdAt: int,
    modifiedAt: Option<int>,
    currentPeriodStart: int,
    currentPeriodEnd: int,
    canceledAt: Option<int>,
    startedAt: int,
    endsAt: Option<int>,
    endedAt: Option<int>)

  /** The row's timestamps at time `now`: the required period and start dates
      fall back to `now`, the optional ones stay null, and any invalid date
      makes the write fail. */
  function NormaliseDates(data: Payload, now: int): (r: Result<RowDates, WriteError>)
    ensures r.Success? <==> DatesStorable(data)
    ensures r.Success? ==>
      && (DateFalsy(data.currentPeriodStart) ==> r.value.currentPeriodStart == now)
      && (DateFalsy(data.currentPeriodEnd) ==> r.value.currentPeriodEnd == now)
      && (DateFalsy(data.startedAt) ==> r.value.startedAt == now)
      && (r.value.modifiedAt.None? <==> DateFalsy(data.modifiedAt))
      && (r.value.canceledAt.None? <==> DateFalsy(data.canceledAt))
      && (r.value.endsAt.None? <==> DateFalsy(data.endsAt))
      && (r.value.endedAt.None? <==> DateFalsy(data.endedAt))
    ensures r.Success? ==>
      && r.value.createdAt == NewDate(data.createdAt).ms
      && (data.createdAt.Null? ==> r.value.createdAt == 0)
      && (!DateFalsy(data.currentPeriodStart) ==> r.value.currentPeriodStart == SafeParseDate(data.currentPeriodStart).value.ms)
      && (!DateFalsy(data.currentPeriodEnd) ==> r.value.currentPeriodEnd == SafeParseDate(data.currentPeriodEnd).value.ms)
      && (!DateFalsy(data.startedAt) ==> r.value.startedAt == SafeParseDate(data.startedAt).value.ms)
    ensures r.Success? ==>
      && (!DateFalsy(data.modifiedAt) ==> r.value.modifiedAt == Some(SafeParseDate(data.modifiedAt).value.ms))
      && (!DateFalsy(data.canceledAt) ==> r.value.canceledAt == Some(SafeParseDate(data.canceledAt).value.ms))
      && (!DateFalsy(data.endsAt) ==> r.value.endsAt == Some(SafeParseDate(data.endsAt).value.ms))
      && (!DateFalsy(data.endedAt) ==> r.value.endedAt == Some(SafeParseDate(data.endedAt).value.ms))
  {
    var createdAt :- Stored(NewDate(data.createdAt));
    var modifiedAt :- StoredOrNull(SafeParseDate(data.modifiedAt));
    var currentPeriodStart :- Stored(OrNow(SafeParseDate(data.currentPeriodStart), now));
    var currentPeriodEnd :- Stored(OrNow(SafeParseDate(data.currentPeriodEnd), now));
    var canceledAt :- StoredOrNull(SafeParseDate(data.canceledAt));
    var startedAt :- Stored(OrNow(SafeParseDate(data.startedAt), now));
    var endsAt :- StoredOrNull(SafeParseDate(data.endsAt));
    var endedAt :- StoredOrNull(SafeParseDate(data.endedAt));
    Success(RowDates(createdAt, modifiedAt, currentPeriodStart, currentPeriodEnd, canceledAt, startedAt, endsAt, endedAt))
  }

  /** The subscription row the handler builds from a payload, at time `now`:
      the user is the customer's external id, flags and optional text default
      to false and null, `checkoutId` to the empty string, and JSON objects are
      stored as their text. */
  function NormaliseRow(data: Payload, now: int): (r: Result<Row, WriteError>)
    ensures r.Success? <==> DatesStorable(data)
    ensures r.Success? ==>
      && r.value.id == data.id
      && r.value.userId == (if data.customer.Some? then data.customer.value.externalId else None)
      && r.value.status == data.status && r.value.productId == data.productId
      && r.value.amount == data.amount && r.value.currency == data.currency
      && r.value.recurringInterval == data.recurringInterval && r.value.customerId == data.customerId
    ensures r.Success? ==>
      && (r.value.cancelAtPeriodEnd <==> data.cancelAtPeriodEnd == Some(true))
      && (r.value.discountId.None? <==> !Truthy(data.discountId))
      && (Truthy(data.discountId) ==> r.value.discountId == data.discountId)
      && (r.value.checkoutId == "" <==> !Truthy(data.checkoutId))
      && (Truthy(data.checkoutId) ==> r.value.checkoutId == data.checkoutId.value)
      && (r.value.customerCancellationReason.None? <==> !Truthy(data.customerCancellationReason))
      && (Truthy(data.customerCancellationReason) ==> r.value.customerCancellationReason == data.customerCancellationReason)
      && (r.value.customerCancellationComment.None? <==> !Truthy(data.customerCancellationComment))
      && (Truthy(data.customerCancellationComment) ==> r.value.customerCancellationComment == data.customerCancellationComment)
      && (r.value.metadata.None? <==> data.metadata.None?)
      && (data.metadata.Some? ==> r.value.metadata == Some(data.metadata.value.serialised))
      && (r.value.customFieldData.None? <==> data.customFieldData.None?)
      && (data.customFieldData.Some? ==> r.value.customFieldData == Some(data.customFieldData.value.serialised))
    ensures r.Success? ==>
      var d := NormaliseDates(data, now).value;
      && r.value.createdAt == d.createdAt && r.value.modifiedAt == d.modifiedAt
      && r.value.currentPeriodStart == d.currentPeriodStart && r.value.currentPeriodEnd == d.currentPeriodEnd
      && r.value.canceledAt == d.canceledAt && r.value.startedAt == d.startedAt
      && r.value.endsAt == d.endsAt && r.value.endedAt == d.endedAt
  {
    var d :- NormaliseDates(data, now);
    Success(Row(
      data.id,
      d.createdAt,
      d.modifiedAt,
      data.amount,
      data.currency,
      data.recurringInterval,
      data.status,
      d.currentPeriodStart,
      d.currentPeriodEnd,
      data.cancelAtPeriodEnd == Some(true),
      d.canceledAt,
      d.startedAt,
      d.endsAt,
      d.endedAt,
      data.customerId,
      data.productId,
      OrNull(data.discountId),
      if Truthy(data.checkoutId) then data.checkoutId.value else "",
      OrNull(data.customerCancellationReason),
      OrNull(data.customerCancellationComment),
      if data.metadata.Some? then Some(data.metadata.value.serialised) else None,
      if data.customFieldData.Some? then Some(data.customFieldData.value.serialised) else None,
      if data.customer.Some? then data.customer.value.externalId else None))
  }

  // ---------------------------------------------------------------------------
  // The upsert

  /** The update applied to an existing row on an id conflict: every listed
      column comes from the incoming row, `modifiedAt` falls back to `now`, and
      the row keeps its id and its original `createdAt`. */
  function OnConflictSet(existing: Row, incoming: Row, now: int): (r: Row)
    ensures r.id == existing.id && r.createdAt == existing.createdAt
    ensures r.modifiedAt == Some(if incoming.modifiedAt.Some? then incoming.modifiedAt.value else now)
    ensures r.(id := incoming.id, createdAt := incoming.createdAt, modifiedAt := incoming.modifiedAt) == incoming
  {
    incoming.(
      id := existing.id,
      createdAt := existing.createdAt,
      modifiedAt := Some(if incoming.modifiedAt.Some? then incoming.modifiedAt.value else now))
  }

  /** The table after inserting `row`, or updating the row with its id. */
  function Upserted(table: map<string, Row>, row: Row, now: int): (r: map<string, Row>)
    ensures r.Keys == table.Keys + {row.id}
    ensures forall k :: k in table && k != row.id ==> r[k] == table[k]
    ensures row.id !in table ==> r[row.id] == row
    ensures row.id in table ==> r[row.id] == OnConflictSet(table[row.id], row, now)
  {
    if row.id in table then table[row.id := OnConflictSet(table[row.id], row, now)]
    else table[row.id := row]
  }

  /** Every row is stored under its own id. */
  predicate KeyedById(table: map<string, Row>) {
    forall k :: k in table ==> table[k].id == k
  }

  lemma UpsertKeepsKeys(table: map<string, Row>, row: Row, now: int)
    requires KeyedById(table)
    ensures KeyedById(Upserted(table, row, now))
  {
  }

  /** Delivering the same row again, with the same `now`, changes at most the
      row's `modifiedAt`, from null to `now`; a third delivery changes nothing. */
  lemma RedeliveryStampsOnlyModifiedAt(table: map<string, Row>, row: Row, now: int)
    requires KeyedById(table)
    ensures var once := Upserted(table, row, now);
      var twice := Upserted(once, row, now);
      && twice.Keys == once.Keys
      && (forall k :: k in once && k != row.id ==> twice[k] == once[k])
      && twice[row.id] == once[row.id].(modifiedAt := Some(if row.modifiedAt.Some? then row.modifiedAt.value else now))
      && (once[row.id].modifiedAt.Some? ==> twice[row.id] == once[row.id])
      && Upserted(twice, row, now) == twice
  {
    var once := Upserted(table, row, now);
    var twice := Upserted(once, row, now);
    assert twice[row.id] == OnConflictSet(once[row.id], row, now);
    assert Upserted(twice, row, now)[row.id] == twice[row.id];
  }

  // ---------------------------------------------------------------------------
  // The webhook handler

  /** The six event types the handler acts on. */
  predicate IsSubscriptionEvent(eventType: string): (b: bool)
    ensures b ==> |eventType| > 13 && eventType[..13] == "subscription."
  {
    eventType in {"subscription.created", "subscription.active", "subscription.canceled",
                  "subscription.revoked", "subscription.uncanceled", "subscription.updated"}
  }

  /** The table after one webhook event. Other event types are ignored; a row
      that cannot be stored or a failed write leaves the table unchanged, the
      error being logged and swallowed. */
  function AfterWebhook(table: map<string, Row>, eventType: string, data: Payload, now: int, writeOk: bool): (r: map<string, Row>)
    ensures r.Keys <= table.Keys + {data.id}
    ensures forall k :: k in table && k != data.id ==> k in r && r[k] == table[k]
    ensures IsSubscriptionEvent(eventType) && DatesStorable(data) && writeOk ==> data.id in r
  {
    if !IsSubscriptionEvent(eventType) then table
    else match NormaliseRow(data, now)
      case Failure(_) => table
      case Success(row) => if writeOk then Upserted(table, row, now) else table
  }

  /** Only the six subscription event types touch the table. */
  lemma OtherEventsIgnored(table: map<string, Row>, eventType: string, data: Payload, now: int, writeOk: bool)
    requires !IsSubscriptionEvent(eventType)
    ensures AfterWebhook(table, eventType, data, now, writeOk) == table
  {
  }

  /** A failed write, or a date that cannot be stored, is logged and swallowed:
      the table stays exactly as it was. */
  lemma FailedWriteChangesNothing(table: map<string, Row>, eventType: string, data: Payload, now: int, writeOk: bool)
    requires !writeOk || !DatesStorable(data)
    ensures AfterWebhook(table, eventType, data, now, writeOk) == table
  {
  }

  /** An event touches at most the row with the payload's id, and every stored
      row stays under its own id. */
  lemma WebhookTouchesOneRow(table: map<string, Row>, eventType: string, data: Payload, now: int, writeOk: bool)
    requires KeyedById(table)
    ensures var after := AfterWebhook(table, eventType, data, now, writeOk);
      && KeyedById(after)
      && after.Keys <= table.Keys + {data.id}
      && forall k :: k in table && k != data.id ==> after[k] == table[k]
  {
  }

  /** A subscription event with storable dates and a working database stores
      the normalised row under the payload's id: the whole row when the id is
      new, and otherwise the row keeps its original `createdAt`. */
  lemma WebhookStoresRow(table: map<string, Row>, eventType: string, data: Payload, now: int)
    requires IsSubscriptionEvent(eventType) && DatesStorable(data)
    ensures var after := AfterWebhook(table, eventType, data, now, true);
      var row := NormaliseRow(data, now).value;
      && data.id in after
      && (data.id !in table ==> after[data.id] == row)
      && (data.id in table ==> after[data.id].createdAt == table[data.id].createdAt)
      && (data.id in table ==> after[data.id] == OnConflictSet(table[data.id], row, now))
  {
  }

  /** A payload whose customer carries no external id is still stored, as a
      row without a user. */
  lemma OrphanRowStored(table: map<string, Row>, eventType: string, data: Payload, now: int)
    requires IsSubscriptionEvent(eventType) && DatesStorable(data)
    requires data.customer.None? || data.customer.value.externalId.None?
    ensures var after := AfterWebhook(table, eventType, data, now, true);
      data.id in after && after[data.id].userId.None?
  {
  }

  /** The subscription table, keyed by subscription id. */
  class SubscriptionStore {
    var rows: map<string, Row>

    ghost predicate Valid()
      reads this
    {
      KeyedById(rows)
    }

    constructor ()
      ensures rows == map[] && Valid()
    {
      rows := map[];
    }

    /** Insert the row, or update the stored row with the same id. */
    method Upsert(row: Row, now: int)
      requires Valid()
      modifies this
      ensures rows == Upserted(old(rows), row, now) && Valid()
    {
      if row.id in rows {
        rows := rows[row.id := OnConflictSet(rows[row.id], row, now)];
      } else {
        rows := rows[row.id := row];
      }
    }

    /** The `onPayload` handler; `writeOk` says whether the database accepts
        the write. It never fails: errors leave the table as it was. */
    method OnPayload(eventType: string, data: Payload, now: int, writeOk: bool)
      requires Valid()
      modifies this
      ensures rows == AfterWebhook(old(rows), eventType, data, now, writeOk) && Valid()
    {
      if IsSubscriptionEvent(eventType) {
        var normalised := NormaliseRow(data, now);
        if normalised.Success? && writeOk {
          Upsert(normalised.value, now);
        }
      }
      WebhookTouchesOneRow(old(rows), eventType, data, now, writeOk);
    }
  }

  // ---------------------------------------------------------------------------
  // Role assignment

  /** The role for a given user count: the first user, or a count the query
      did not return (or returned as zero), makes a super admin. */
  function RoleForCount(count: Option<int>): (role: string)
    ensures role == "super_admin" <==> count.None? || count.value <= 1
    ensures role != "super_admin" ==> role == "user"
  {
    var total := if count.Some? && count.value != 0 then count.value else 0;
    if total <= 1 then "super_admin" else "user"
  }

  /** The user table after setting the role of the user with that id:
      nothing changes when no user has that id. */
  function WithRole(users: map<string, User>, userId: string, role: string): (r: map<string, User>)
    ensures r.Keys == users.Keys
    ensures forall k :: k in users && k != userId ==> r[k] == users[k]
    ensures userId in users ==> r[userId] == users[userId].(role := role)
  {
    if userId in users then users[userId := users[userId].(role := role)] else users
  }

  /** The role `assignUserRole` ends up writing, if any: the counted role when
      the count and the update succeed, otherwise the fallback `user` when that
      update succeeds. */
  function AssignedRole(count: Fetch<Option<int>>, updateOk: bool, fallbackOk: bool): (r: Option<string>)
    ensures r == Some("super_admin") <==> count.Fetched? && updateOk && RoleForCount(count.value) == "super_admin"
    ensures r.Some? ==> r.value in {"super_admin", "user"}
    ensures r.None? <==> !(count.Fetched? && updateOk) && !fallbackOk
  {
    if count.Fetched? && updateOk then Some(RoleForCount(count.value))
    else if fallbackOk then Some("user")
    else None
  }

  /** The user table after role assignment. A user is newly made super admin
      only when the count succeeded with at most one user and the update went
      through. */
  function AfterAssign(users: map<string, User>, userId: string, count: Fetch<Option<int>>, updateOk: bool, fallbackOk: bool): (r: map<string, User>)
    ensures r.Keys == users.Keys
    ensures userId in users && r[userId].role != users[userId].role ==> r[userId].role in {"super_admin", "user"}
    ensures userId in users && r[userId].role == "super_admin" && users[userId].role != "super_admin" ==>
      count.Fetched? && updateOk && (count.value.None? || count.value.value <= 1)
  {
    match AssignedRole(count, updateOk, fallbackOk)
    case Some(role) => WithRole(users, userId, role)
    case None => users
  }

  /** Role assignment changes only the target user's role. */
  lemma AssignTouchesOnlyTarget(users: map<string, User>, userId: string, count: Fetch<Option<int>>, updateOk: bool, fallbackOk: bool)
    ensures var after := AfterAssign(users, userId, count, updateOk, fallbackOk);
      && after.Keys == users.Keys
      && (forall k :: k in users && k != userId ==> after[k] == users[k])
      && (userId in users ==> after[userId].id == users[userId].id)
  {
  }

  /** With more than one user counted nobody is made super admin: the role
      written, if any, is `user`. A failed count or update also ends in `user`
      when the fallback update succeeds. */
  lemma NoSecondSuperAdmin(n: int, updateOk: bool, fallbackOk: bool)
    requires n > 1
    ensures AssignedRole(Fetched(Some(n)), updateOk, fallbackOk) == if updateOk || fallbackOk then Some("user") else None
    ensures fallbackOk ==> AssignedRole(FetchFailed, updateOk, fallbackOk) == Some("user")
  {
  }

  /** The user table. */
  class UserStore {
    var users: map<string, User>

    constructor (users: map<string, User>)
      ensures this.users == users
    {
      this.users := users;
    }

    /** Role assignment after a user is created. `count` is what the count query returned (or
        its failure); `updateOk` and `fallbackOk` say whether the role update
        and the fallback update succeed. It never fails. */
    method AssignUserRole(userId: string, count: Fetch<Option<int>>, updateOk: bool, fallbackOk: bool)
      modifies this
      ensures users == AfterAssign(old(users), userId, count, updateOk, fallbackOk)
    {
      if count.Fetched? && updateOk {
        var role := RoleForCount(count.value);
        users := WithRole(users, userId, role);
      } else if fallbackOk {
        users := WithRole(users, userId, "user");
      }
    }
  }
}
