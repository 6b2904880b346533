# zerofiltre blog backend: payment reconciliation and article deletion

A Dafny model of two pieces of the zerofiltre blog backend.

**Payment-event reconciliation** (`StripeCommons.fulfillOrder` and
`updateUserInfo`). A Stripe webhook event names a user, a product, whether the
payment succeeded and the paying customer.
- The configured Pro-plan product takes the subscription path. A paid event
  makes the user PRO. A failed one makes the user BASIC and suspends all the
  user's PRO-tier enrollments.
- Any other product carries its numeric id in the metadata key `productId`. The
  user is enrolled in that product (not for free) on success, or suspended from
  it on failure. The plan is left alone.
- On both paths the payment email becomes the customer's and the user is saved.
- A null product is ignored. A malformed number raises `NumberFormatException`.
  An unknown user raises `UserNotFoundException`.

The user provider is a map from id to user. The calls to `Enroll.execute`,
`Suspend.execute`, `Suspend.all` and `userProvider.save` are written to a call
log, in the order they are issued. The internals of those calls are not part of
this model.

Files:
- `reconciliation.dfy` (module `Reconciliation`): the rule as pure functions
  over that store, and lemmas about one event and about a series of events.
- `stripe_commons.dfy` (module `Stripe`): the class `StripeCommons`, whose
  methods update the `users` and `log` fields step by step. Each is proved equal
  to the function of the same name.
- `delete_article.dfy` (module `Articles`): `DeleteArticle.execute`. It looks
  the article up by id, refuses with `ForbiddenActionException` when the acting
  user may not delete it, and otherwise passes the article once to the store's
  `delete`. An absent id raises `ResourceNotFoundException`. The class keeps the
  store's `articles` map and a `deleted` log.
- `logs.dfy`, `wrappers.dfy`: counting entries of a log, and `Option`.

`Long.parseLong` is a parameter of the configuration (`Config.parseLong`), a
function from strings to `Option<int>`. `None` stands for a failed parse. A
missing `productId` key counts as a failed parse, because `parseLong(null)`
throws.

An unknown user stops the update. On the single-product path the enroll or
suspend call has already been issued by then, and it stays issued.
`FulfillOrder` states this.

## Model

| member | source | states |
|---|---|---|
| `Reconciliation.UpdateUserInfo` | src/main/java/tech/zerofiltre/blog/infra/providers/api/stripe/StripeCommons.java:75-90 | A malformed user id raises NumberFormat and an unknown user raises UserNotFound, both with the store untouched. Otherwise the user's plan becomes PRO (paid) or BASIC (failed) on the Pro path and is kept off it. The payment email becomes the customer's. No other field or user changes. The log gains `SuspendAll(uid, PRO)` only for a failed Pro payment, then exactly one `Save` of the new record. The id-keyed store invariant is kept. |
| `Reconciliation.FulfillOrder` | src/main/java/tech/zerofiltre/blog/infra/providers/api/stripe/StripeCommons.java:51-73 | A null product changes nothing. It states exactly when an event gets through and which exception it raises otherwise (NumberFormat for an unparsable product or user id, UserNotFound for an unknown user). The Pro path ends PRO on success, or BASIC with one `SuspendAll` on failure, with no enroll or suspend, and leaves the store as it was on an error. Other products append exactly `Enroll(uid, pid, false)` or `Suspend(uid, pid)` before the update, kept even when the user is not found. A parse failure issues nothing. The plan is untouched, the payment email is overwritten, no other user changes and the log only grows. |
| `Reconciliation.FulfillOrderCallCounts` | src/main/java/tech/zerofiltre/blog/infra/providers/api/stripe/StripeCommons.java:51-90 | Counted per kind over the whole log, one event adds: one save exactly when an event with a product gets through; one `Suspend.all` exactly for a failed Pro payment that gets through; one enroll or one suspend exactly for a paid or failed non-Pro event whose two ids parse. Each count is zero otherwise. |
| `Reconciliation.Replay` | src/main/java/tech/zerofiltre/blog/infra/providers/api/stripe/StripeCommons.java:51-90 | Handling any series of events keeps the set of user ids and the invariant that every user is stored under its own id. |
| `Reconciliation.PlanFollowsLastProPayment` | src/main/java/tech/zerofiltre/blog/infra/providers/api/stripe/StripeCommons.java:57-86 | After any series of events, a known user's plan is PRO when that user's last Pro-plan payment succeeded and BASIC when it failed. It is the initial plan when the user had no Pro-plan event. |
| `Reconciliation.RedeliveryKeepsUsers` | src/main/java/tech/zerofiltre/blog/infra/providers/api/stripe/StripeCommons.java:51-90 | Handling the same event twice leaves the same user records and the same exception as handling it once. Its calls are issued a second time, because redelivery is not deduplicated. |
| `Stripe.StripeCommons.constructor` | src/main/java/tech/zerofiltre/blog/infra/providers/api/stripe/StripeCommons.java:42-49 | Starts with the given users, the given configuration and an empty call log. |
| `Stripe.StripeCommons.FulfillOrder` | src/main/java/tech/zerofiltre/blog/infra/providers/api/stripe/StripeCommons.java:51-73 | The new users, the new log and the exception raised are exactly those of `Reconciliation.FulfillOrder` on the old state. The store invariant is kept. |
| `Stripe.StripeCommons.UpdateUserInfo` | src/main/java/tech/zerofiltre/blog/infra/providers/api/stripe/StripeCommons.java:75-90 | The new users, the new log and the exception raised are exactly those of `Reconciliation.UpdateUserInfo` on the old state. The store invariant is kept. |
| `Articles.Delete` | src/test/java/tech/zerofiltre/blog/domain/user/use_cases/DeleteArticleTest.java:40-88 | An absent id raises ResourceNotFound and deletes nothing. A non-admin succeeds exactly when the user is the author of the looked-up article. A refused deletion raises ForbiddenAction and leaves the store unchanged. A permitted one appends the looked-up article to the `delete` calls once and removes it from the store. |
| `Articles.DeleteCallsOnce` | src/test/java/tech/zerofiltre/blog/domain/user/use_cases/DeleteArticleTest.java:71-88 | A permitted deletion adds exactly one `delete` call with the looked-up article and none with any other article. A refused or failed one adds none. |
| `Articles.DeleteArticle.constructor` | src/test/java/tech/zerofiltre/blog/domain/user/use_cases/DeleteArticleTest.java:35-38 | Starts with the given articles and no `delete` calls. |
| `Articles.DeleteArticle.Execute` | src/test/java/tech/zerofiltre/blog/domain/user/use_cases/DeleteArticleTest.java:40-88 | The new articles, the `delete` calls and the exception raised are exactly those of `Articles.Delete` on the old state. The store invariant is kept. |
| `Articles.DeleteArticleScenarios` | src/test/java/tech/zerofiltre/blog/domain/user/use_cases/DeleteArticleTest.java:40-88 | The unit tests' scenarios, run through `Execute`: a non-admin author (id 10) deletes the article with no exception and `delete` receives exactly that article once; a non-admin who is not the author gets ForbiddenAction and nothing is deleted. |

## Left out

- `StripeCommons.notifyUser`: template rendering and email sending are I/O, and the method swallows every exception.
- Logging, event ids and event types: they only feed log lines.
- Stripe SDK objects: reduced to the product id and metadata, and the customer's email. Null customers and null emails are not modelled.
- `Long.parseLong`: the decimal syntax and the 64-bit range are not modelled. Parsing is a configured partial function.
- `Enroll`, `Suspend`, `Suspend.all`, `UserProvider`, `ArticleProvider`: their internals are not shown. They appear as logged calls and as map updates, and they are assumed to return normally.
- `UserController`: request glue that delegates to use cases whose code is not part of this model.
- Concurrent delivery of webhook events: events are handled one after another.
- Articles.Delete: whether an admin who is not the author may delete is the parameter `adminsMayDelete`; the tests fix only the non-admin cases.
- Articles.Delete: the author check compares user ids. The tests use the same user object as author and actor, so it is not fixed whether `DeleteArticle` compares ids or objects.
