/** The two database rows the subscription core reads and writes. The table
    definitions themselves are not part of this model; the columns follow the
    values lib/auth.ts writes and lib/subscription.ts reads. Timestamps are
    milliseconds since the epoch. */
module Schema {
  import opened Common

  /** One row of the `subscription` table, keyed by the provider's subscription id. */
  datatype Row = Row(
    id: string,
    createdAt: int,
    modifiedAt: Option<int>,
    amount: int,
    currency: string,
    recurringInterval: string,
    status: string,
    currentPeriodStart: int,
    currentPeriodEnd: int,
    cancelAtPeriodEnd: bool,
    canceledAt: Option<int>,
    startedAt: int,
    endsAt: Option<int>,
    endedAt: Option<int>,
    customerId: string,
    productId: string,
    discountId: Option<string>,
    checkoutId: string,
    customerCancellationReason: Option<string>,
    customerCancellationComment: Option<string>,
    metadata: Option<string>,
    customFieldData: Option<string>,
    userId: Option<string>)

  /** The part of a `user` row that role assignment touches. */
  datatype User = User(id: string, role: string)
}
