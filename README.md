# Subscription core of a SaaS starter, in Dafny

This project models the subscription core of a Next.js SaaS starter that sells
plans through Polar and signs users in with Better Auth:

- **The plan catalog** (`lib/subscription-plans.ts`): the plan list is read from
  a JSON environment variable or from two legacy starter variables, and kept in
  a module-level cache. The module provides lookups by plan id, product id and
  slug, the product-id and checkout projections, and the startup validator. That
  validator reports missing fields, invalid prices and duplicate product ids,
  slugs and plan ids.
- **The webhook handler and role assignment** (`lib/auth.ts`):
  - Six `subscription.*` event types are turned into a subscription row. Dates
    are normalised, and empty optional strings are coalesced to null or `""`.
  - The row is upserted by subscription id. On a conflict, `createdAt` is kept
    and `modifiedAt` is stamped.
  - A new user becomes `super_admin` when at most one user exists, and `user`
    otherwise. Any failure falls back to `user`.
- **The status resolver** (`lib/subscription.ts`):
  - The resolver reports the newest active row of the signed-in user.
  - When no row is active, it reports the newest row instead, classified as
    canceled, expired or not active.
  - Helpers built on this report answer four questions: is the user
    subscribed, can the user access a product, what is the user's status, and
    what are all the user's subscriptions.

Files:

- `common.dfy`: `Option`, `Result` and `Fetch` (the outcome of a call that may
  throw), JavaScript truthiness of optional strings, and a small toolkit about
  concatenating lists of lists and counting occurrences in them.
- `schema.dfy`: the `subscription` row and the part of a `user` row that role
  assignment touches.
- `subscription_plans.dfy`: module `SubscriptionPlans`. The catalog is a class
  (`PlanCatalog`) whose `plans` field is the module-level cache. The validator is
  a loop over three seen-sets, proved equal to a specification function. Lemmas
  prove the validator's guarantees about that function.
- `auth.dfy`: module `Auth`. The row normalisation and the conflict update are
  functions. The subscription table and the user table are classes over maps
  (`SubscriptionStore`, `UserStore`), and their methods are tied to functions of
  the old state.
- `subscription.dfy`: module `Subscription`. It is pure: the resolver and its
  helpers are functions of the session lookup, the query result, the catalog
  and the clock.

The session, the database and the clock are parameters:

- A call that may throw is a `Fetch` value: `Fetched(v)` or `FetchFailed`.
- A write that may fail is a boolean (`writeOk`, `updateOk`, `fallbackOk`).
- The current time is an integer `now`, in milliseconds.
- The catalog that the resolver's plan lookup reads is passed as a plan list.
  The cache returns this list (`PlanCatalog.GetSubscriptionPlans` ensures it
  equals `ConfiguredPlans(env)`).

## Model

| member | source | states |
|---|---|---|
| SubscriptionPlans.ConfiguredPlans | lib/subscription-plans.ts:25-64 | A parsed array is the plan list as is, even when empty. A single parsed value becomes a one-plan list. Otherwise the list holds at most the legacy starter plan: present iff both legacy variables are non-empty, with id `starter`, price 1000 and the legacy product id and slug. |
| SubscriptionPlans.LegacyPlan | lib/subscription-plans.ts:43-61 | The legacy plan carries the legacy product id and slug. With both non-empty it is complete: it passes the presence and price checks. |
| SubscriptionPlans.ParseSubscriptionPlansFromEnv | lib/subscription-plans.ts:25-64 | The method that reads the configuration returns exactly the plan list the configuration denotes. |
| SubscriptionPlans.FirstIndex | lib/subscription-plans.ts:80-92 | The index found holds a matching plan, and no earlier plan matches. No index means no plan matches. |
| SubscriptionPlans.FindPlan | lib/subscription-plans.ts:80-92 | Absent iff no plan carries the value in that field. Otherwise the plan is the first matching plan in catalog order. |
| SubscriptionPlans.ProductIds | lib/subscription-plans.ts:95-97 | One entry per plan, in catalog order: that plan's product id. |
| SubscriptionPlans.ProductsForCheckout | lib/subscription-plans.ts:100-105 | One entry per plan, in catalog order, pairing that plan's product id with its own slug. |
| SubscriptionPlans.Position | lib/subscription-plans.ts:131-156 | Every check has a place in the order in which the validator runs the checks on each plan. |
| SubscriptionPlans.CheckResult | lib/subscription-plans.ts:131-156 | A message produced by a check is one of that check's own kinds. |
| SubscriptionPlans.PlanErrorLists | lib/subscription-plans.ts:130-157 | One message list per plan. |
| SubscriptionPlans.CheckFields | lib/subscription-plans.ts:131-137 | The presence checks and the price check on one plan emit exactly the first five checks' messages, in order. |
| SubscriptionPlans.CheckDuplicates | lib/subscription-plans.ts:139-156 | The three duplicate checks complete the plan's messages. Each seen-set becomes the set of values in that field among the plans up to and including this one. |
| SubscriptionPlans.ValidatePlans | lib/subscription-plans.ts:118-163 | The loop returns the specified message list: the empty-catalog message, then each plan's messages in catalog order. `valid` holds iff that list is empty. |
| SubscriptionPlans.SeenMembers | lib/subscription-plans.ts:127-156 | A value is in a seen-set after `n` plans iff one of the first `n` plans carries it in that field. |
| SubscriptionPlans.RunEmpty | lib/subscription-plans.ts:131-156 | The first `n` checks emit nothing iff none of them fires. |
| SubscriptionPlans.PlanErrorsEmpty | lib/subscription-plans.ts:131-156 | A plan draws no message iff it is complete (id, name, slug and product id non-empty, price positive) and no earlier plan shares its id, slug or product id. |
| SubscriptionPlans.ValidIffWellFormed | lib/subscription-plans.ts:118-163 | The validator reports nothing iff the catalog is non-empty, every plan is complete, and ids, slugs and product ids are pairwise distinct. |
| SubscriptionPlans.PositionOfCheckOrder | lib/subscription-plans.ts:131-156 | `Position` inverts the check order, so the checks in it are pairwise distinct. |
| SubscriptionPlans.RunCount | lib/subscription-plans.ts:131-156 | Running the first `n` checks on a plan yields a message at most once, and exactly when the check owning that message is among them and fires. |
| SubscriptionPlans.PlanErrorsCount | lib/subscription-plans.ts:131-156 | A plan draws a given message at most once, and exactly when that message's check fires on it. |
| SubscriptionPlans.Marks | lib/subscription-plans.ts:130-157 | One mark per plan. |
| SubscriptionPlans.ValidationCount | lib/subscription-plans.ts:118-163 | The number of times a message appears equals its count in the empty-catalog preamble plus the number of plans that draw it. |
| SubscriptionPlans.NoPlansReported | lib/subscription-plans.ts:122-124 | The "no plans configured" message appears exactly once for an empty catalog, and never otherwise. |
| SubscriptionPlans.MissingFieldReported | lib/subscription-plans.ts:131-134 | "Plan at index i missing f" appears exactly once when plan `i` exists and its field is absent or empty, and never otherwise. |
| SubscriptionPlans.InvalidPriceReported | lib/subscription-plans.ts:135-137 | "Plan at index i has invalid price" appears exactly once when plan `i` exists and its price is missing or not positive, and never otherwise. |
| SubscriptionPlans.DuplicateMarks | lib/subscription-plans.ts:139-156 | Among the first `n` plans, a value is in the seen-set iff it occurs. A value occurring `m > 0` times is reported as a duplicate `m - 1` times. |
| SubscriptionPlans.DuplicateReported | lib/subscription-plans.ts:139-156 | A value carried by `m` plans in a unique field draws `m - 1` duplicate messages. A value no plan carries draws none. |
| SubscriptionPlans.CheckoutEntryFindsItsPlan | lib/subscription-plans.ts:95-105 | In a catalog that passes validation, a plan's checkout entry carries its product id and slug. Looking that product id or slug up finds the plan itself. |
| SubscriptionPlans.FirstMatchIsUnique | lib/subscription-plans.ts:85-92 | In a well-formed catalog, the lookup by product id or by slug returns the plan that carries the value. |
| SubscriptionPlans.PlanCatalog.constructor | lib/subscription-plans.ts:22 | The cache starts empty. |
| SubscriptionPlans.PlanCatalog.InitializeSubscriptionPlans | lib/subscription-plans.ts:67-69 | The cache holds the configured plans. |
| SubscriptionPlans.PlanCatalog.GetSubscriptionPlans | lib/subscription-plans.ts:72-77 | A filled cache is returned unchanged. An empty cache is filled from the configuration first. The result is the configured plan list. |
| SubscriptionPlans.PlanCatalog.GetSubscriptionPlan | lib/subscription-plans.ts:80-82 | The first configured plan with that plan id, if any. |
| SubscriptionPlans.PlanCatalog.GetSubscriptionPlanByProductId | lib/subscription-plans.ts:85-87 | The first configured plan with that product id, if any. |
| SubscriptionPlans.PlanCatalog.GetSubscriptionPlanBySlug | lib/subscription-plans.ts:90-92 | The first configured plan with that slug, if any. |
| SubscriptionPlans.PlanCatalog.GetAllProductIds | lib/subscription-plans.ts:95-97 | The product ids of the configured plans, in order. |
| SubscriptionPlans.PlanCatalog.GetAllProductsForCheckout | lib/subscription-plans.ts:100-105 | The checkout pairs of the configured plans, in order. |
| SubscriptionPlans.PlanCatalog.ValidateSubscriptionPlans | lib/subscription-plans.ts:118-163 | The validator's messages for the configured plans. `valid` iff the configured catalog is well formed. |
| Auth.SafeParseDate | lib/auth.ts:18-22 | Nothing iff the input is falsy (absent, null or empty text). A date object comes back unchanged, even an invalid one. Non-empty text gives what the date parser makes of it. |
| Auth.NewDate | lib/auth.ts:138 | Direct date construction: an absent value is an invalid date and null is the epoch. On a truthy input it agrees with the safe parser. |
| Auth.Stored | lib/auth.ts:178-180 | A date is written iff it is valid, and as its milliseconds. |
| Auth.StoredOrNull | lib/auth.ts:178-180 | A nullable date is written iff it is null or valid. Null stays null. |
| Auth.OrNow | lib/auth.ts:144-150 | A required date falls back to the current time when the parser gives nothing. |
| Auth.OrNull | lib/auth.ts:155-160 | An optional string is null iff it is absent or empty. Otherwise it is unchanged. |
| Auth.NormaliseDates | lib/auth.ts:138-152 | The timestamps are writable iff every date is falsy or valid. `createdAt` is the directly constructed date, so null gives the epoch. A required date is the parsed value when truthy, and now otherwise. An optional date is null iff falsy, and the parsed value otherwise. |
| Auth.NormaliseRow | lib/auth.ts:133-168 | The row exists iff its dates are writable. Id, status, product, amount, currency, interval and customer id are copied from the payload. The owner is the customer's external id. `cancelAtPeriodEnd` is true only for a true flag. Discount, cancellation reason and comment are null iff empty, and copied otherwise. `checkoutId` is `""` iff empty, and copied otherwise. Metadata and custom field data are null iff absent, and their serialised text otherwise. Every date is the normalised one. |
| Auth.OnConflictSet | lib/auth.ts:181-207 | On a conflict the stored row keeps its id and `createdAt`. `modifiedAt` becomes the incoming value or now. Every other column takes the incoming value. |
| Auth.Upserted | lib/auth.ts:177-208 | Keys: the old ones plus the row's id. Other rows are unchanged. A new id inserts the row as is. An existing id applies the conflict update. |
| Auth.UpsertKeepsKeys | lib/auth.ts:177-208 | An upsert keeps every row stored under its own id. |
| Auth.RedeliveryStampsOnlyModifiedAt | lib/auth.ts:177-208 | Delivering the same row a second time changes no other row and no column of this row except `modifiedAt`. `modifiedAt` becomes the row's own value or now, so it is unchanged when already set. A third delivery changes nothing. |
| Auth.OtherEventsIgnored | lib/auth.ts:120-128 | Any event type other than the six `subscription.*` types leaves the table unchanged. |
| Auth.IsSubscriptionEvent | lib/auth.ts:121-128 | Only event types in the `subscription.` family are handled. |
| Auth.AfterWebhook | lib/auth.ts:120-218 | An event adds no key other than the payload's id and leaves every other row unchanged. A subscription event with writable dates and a working write leaves a row under the payload's id. |
| Auth.FailedWriteChangesNothing | lib/auth.ts:132-217 | A failed write or a date that cannot be stored is swallowed: the table stays exactly as it was. |
| Auth.WebhookTouchesOneRow | lib/auth.ts:120-218 | Whatever the event type, the dates or the outcome of the write, an event adds no key other than the payload's id and leaves every other row unchanged. Every row stays keyed by its id. |
| Auth.WebhookStoresRow | lib/auth.ts:120-210 | A subscription event with writable dates and a working database leaves a row under the payload's id. A new id stores the normalised row. An existing id applies the conflict update to it and keeps its original `createdAt`. |
| Auth.OrphanRowStored | lib/auth.ts:134-167 | A payload whose customer has no external id is still stored, with no owner. |
| Auth.SubscriptionStore.constructor | lib/auth.ts:178-208 | The table starts empty. |
| Auth.SubscriptionStore.Upsert | lib/auth.ts:177-208 | The table becomes the upserted table, and every row stays keyed by its id. |
| Auth.SubscriptionStore.OnPayload | lib/auth.ts:120-218 | The table becomes the specified after-webhook table, and every row stays keyed by its id. |
| Auth.RoleForCount | lib/auth.ts:28-32 | `super_admin` iff the count is missing, zero or at most 1. Otherwise `user`. |
| Auth.WithRole | lib/auth.ts:35-38 | Only the target user's role changes. An unknown id changes nothing. |
| Auth.AfterAssign | lib/auth.ts:25-53 | The set of users never changes. A changed role is `super_admin` or `user`. A user is newly made `super_admin` only when the count succeeded with a missing count or one of at most 1, and the update went through. |
| Auth.AssignedRole | lib/auth.ts:25-53 | `super_admin` is written only when the count and the update both succeed and the counted role is `super_admin`. Only `super_admin` or `user` is ever written. Nothing is written iff the primary path and the fallback both fail. |
| Auth.AssignTouchesOnlyTarget | lib/auth.ts:25-53 | Role assignment changes no user other than the target, and no user's id. |
| Auth.NoSecondSuperAdmin | lib/auth.ts:28-52 | With more than one user counted, the written role is `user`, or nothing when both updates fail. A failed count with a working fallback writes `user`. |
| Auth.UserStore.constructor | lib/auth.ts:25-53 | The user table is given. |
| Auth.UserStore.AssignUserRole | lib/auth.ts:25-53 | The user table becomes the specified after-assignment table. |
| Subscription.Details | lib/subscription.ts:66-81 | The report on a row carries the row's id, product, status, amount, currency, interval, period start and end, cancel-at-period-end flag and cancellation date. It has no organization, and its plan is the first catalog plan with the row's product id. |
| Subscription.UserRows | lib/subscription.ts:40-43 | The query returns each row of the table owned by the user exactly as many times as the table holds it, and no other row. Rows without an owner never match. |
| Subscription.NewestWhere | lib/subscription.ts:50-57 | None iff no row is eligible. Otherwise, the eligible index that a stable sort by descending `createdAt` puts first: no eligible row is newer, and every earlier eligible row is strictly older. |
| Subscription.NewestIsUnique | lib/subscription.ts:50-57 | Only one index has that property, so the selection is determined by the rows alone. |
| Subscription.Classify | lib/subscription.ts:60-83 | Canceled iff the status is `canceled`. Expired iff not canceled and the period ended strictly before now. General otherwise. |
| Subscription.ErrorMessagesDistinct | lib/subscription.ts:82-83 | The three classifications have three distinct messages. |
| Subscription.ErrorMessage | lib/subscription.ts:82 | No classification's message is the message of a failed lookup. |
| Subscription.Lapsed | lib/subscription.ts:59-84 | The report on a lapsed row: a subscription is reported with that row's details. The classification is canceled iff the status is `canceled`, and expired iff not canceled and the period ended before now. The message is the classification's own. |
| Subscription.GetSubscriptionDetails | lib/subscription.ts:30-117 | A subscription is reported iff the subscription field is present. An error text is present iff an error type is. Without a subscription the answer is either the bare "no subscription" or the load failure. With one, the error type is absent iff the reported row is active, and otherwise the message is that type's. |
| Subscription.NoUserOrNoRows | lib/subscription.ts:36-47 | Without a signed-in user, or with no rows for the user, the answer is a bare "no subscription". |
| Subscription.HasSubscriptionIffRows | lib/subscription.ts:30-117 | A subscription is reported iff both calls succeed and the user owns a row. The subscription field is present iff one is reported, so the fallback at line 87 is never reached. |
| Subscription.ActiveRowWins | lib/subscription.ts:50-108 | When the user has an active row, the newest active row is reported without error, even when a newer row that is not active exists. |
| Subscription.NewestRowReportedWhenNoneActive | lib/subscription.ts:54-84 | Without an active row, the newest row is reported with its classification and that classification's message. |
| Subscription.OrphanRowsNeverReported | lib/subscription.ts:40-43 | No row without an owner is ever considered for a user. |
| Subscription.SubscribedIffActiveRow | lib/subscription.ts:120-133 | Subscribed iff the calls succeed and the user owns an active row. Product access holds iff the newest active row is for that product. |
| Subscription.IsUserSubscribed | lib/subscription.ts:120-123 | Subscribed iff a subscription is reported without error. |
| Subscription.HasAccessToProduct | lib/subscription.ts:126-133 | Access to a product implies being subscribed. For a subscribed user, access holds iff the reported subscription is for that product. |
| Subscription.GetUserSubscriptionStatus | lib/subscription.ts:136-156 | `active` iff subscribed. `none` when no subscription is reported. |
| Subscription.StatusFollowsReport | lib/subscription.ts:136-156 | `active` iff subscribed. `canceled` and `expired` iff the reported row is classified so. A missing subscription or a row classified as general reads `none`. |
| Subscription.HasAccessToAnyProduct | lib/subscription.ts:198-211 | Access iff the user has access to one of the listed products. An active product is reported iff access holds, and it is the reported subscription's product. |
| Subscription.GetUserSubscriptions | lib/subscription.ts:159-195 | One report per row of the user, in query order. Nothing when a call fails or nobody is signed in. |

## Left out

- `formatPrice` (lib/subscription-plans.ts:108-115): number formatting through
  `Intl.NumberFormat`, used only for display.
- Parsing: `JSON.parse` of the plans variable, the reading of environment
  variables, the runtime's date-string parser and `JSON.stringify` of payload
  objects are inputs. Examples are `PlansJson`, `Env`, `DateInput.Text`'s
  `parsed` field, and `JsonObject`'s text.
- SubscriptionPlans.ValidatePlans: plan fields lose three JSON distinctions,
  and with them the validator's verdict changes in three cases:
  - A `null` field and a missing key are both `None`. So one plan with
    `"productId": null` and another with no `productId` draw a duplicate
    message in the model. The source's `Set` tells `null` from `undefined` and
    reports nothing (lib/subscription-plans.ts:140-144).
  - A parsed value must be a plan object. A single value such as `null`
    becomes `[null]` in the source (line 33), and reading `plan.id` at line 131
    then throws at startup. The model has no such value, and a JSON array of
    non-objects is likewise not modelled.
  - Prices are integers. A fractional price such as 9.99 is valid at line 135,
    but the model treats it, like a price of another JSON type, as absent, so
    it draws an invalid-price message.
- The database, the session lookup, request headers and the auth plugin
  configuration (origins, cookie cache, OAuth providers, checkout URLs) are not
  modelled. Their outcomes are parameters.
- The startup throws in lib/auth.ts:60-71 and the missing-webhook-secret throw
  are not modelled. Their conditions are what `ValidIffWellFormed` and
  `ProductsForCheckout` characterise.
- Concurrency: interleaved webhook deliveries and simultaneous sign-ups are not
  modelled. Each operation is atomic.
- Logging (`console.log` / `console.error`) and the UI files are not modelled.
- SubscriptionPlans.ValidatePlans: messages are constructors of
  `ValidationError` rather than rendered strings. Each constructor carries the
  index or the value the string interpolates.
- Auth.NormaliseRow: the handler reads the clock once per `new Date()` call. The
  model uses one `now` for the whole event.
- Subscription.GetSubscriptionDetails: the resolver reads the clock once, as
  `now`. The session and the query are `Fetch` inputs, and a throw is
  `FetchFailed`. A throw from the plan lookup is not modelled.
