/**
 * The payment-event reconciliation rule of the platform's Stripe glue, as pure
 * functions over an abstract store: the users held by the user provider and the
 * log of calls issued to the enrollment use cases and to the user provider.
 *
 * `FulfillOrder` and `UpdateUserInfo` give the effect of one webhook event;
 * `Replay` gives the effect of a series of events handled one after another.
 */
module Reconciliation {
  import opened Wrappers
  import opened Logs

  /** Subscription tier of a user. */
  datatype Plan = BASIC | PRO

  /** The part of a user record that the rule reads or writes. */
  datatype User = User(id: int, email: string, plan: Plan, paymentEmail: string)

  /** The Stripe product of an event: its id and its metadata. */
  datatype Product = Product(id: string, metadata: map<string, string>)

  /** The Stripe customer of an event, reduced to its email. */
  datatype Customer = Customer(email: string)

  /**
   * A call issued by the rule: `Enroll.execute`, `Suspend.execute`,
   * `Suspend.all` and `UserProvider.save`, with their arguments.
   */
  datatype Op =
    | Enroll(userId: int, productId: int, free: bool)
    | Suspend(userId: int, productId: int)
    | SuspendAll(userId: int, plan: Plan)
    | Save(user: User)

  /** `NumberFormatException` from `Long.parseLong`, and `UserNotFoundException`. */
  datatype Error = NumberFormat | UserNotFound(userId: string)

  /**
   * The configured Pro-plan product id, and `Long.parseLong`, whose decimal
   * syntax is not modelled: `None` stands for a `NumberFormatException`.
   */
  datatype Config = Config(proPlanProductId: string, parseLong: string -> Option<int>)

  datatype Store = Store(users: map<int, User>, log: seq<Op>)

  /** What an event leaves behind: the store, and the exception it raised, if any. */
  datatype Outcome = Outcome(store: Store, error: Option<Error>)

  /** Metadata key holding the numeric id of a single product. */
  const PRODUCT_ID: string := "productId"

  /** The user provider keys every user by the user's own id. */
  ghost predicate ValidUsers(users: map<int, User>)
  {
    forall k :: k in users ==> users[k].id == k
  }

  /** `Long.parseLong(metadata.get("productId"))`; a missing key is `parseLong(null)`, which fails. */
  function ProductIdOf(cfg: Config, p: Product): (r: Option<int>)
    ensures PRODUCT_ID !in p.metadata ==> r.None?
  {
    if PRODUCT_ID in p.metadata then cfg.parseLong(p.metadata[PRODUCT_ID]) else None
  }

  predicate IsProPlan(cfg: Config, p: Product)
  {
    cfg.proPlanProductId == p.id
  }

  /** `userProvider.userOfId(Long.parseLong(userId))` finds a user. */
  predicate Found(cfg: Config, s: Store, userId: string)
  {
    cfg.parseLong(userId).Some? && cfg.parseLong(userId).value in s.users
  }

  /**
   * After `r`, the user `uid` holds `plan` and `paymentEmail` and is otherwise the
   * record it was before, and no other user record has changed.
   */
  ghost predicate SavedAs(s: Store, r: Outcome, uid: int, plan: Plan, paymentEmail: string)
  {
    && uid in s.users && uid in r.store.users
    && r.store.users[uid] == s.users[uid].(plan := plan, paymentEmail := paymentEmail)
    && forall k :: k in s.users && k != uid ==> k in r.store.users && r.store.users[k] == s.users[k]
  }

  /**
   * `updateUserInfo`: look the user up, adjust the plan on the Pro path
   * (suspending every Pro enrollment when the payment failed), overwrite the
   * payment email and save the user.
   */
  function UpdateUserInfo(cfg: Config, s: Store, userId: string, paymentSuccess: bool,
                          customer: Customer, isPro: bool): (r: Outcome)
    requires ValidUsers(s.users)
    ensures ValidUsers(r.store.users) && r.store.users.Keys == s.users.Keys
    // a malformed id or an unknown user aborts before anything is issued or saved
    ensures cfg.parseLong(userId).None? ==> r == Outcome(s, Some(NumberFormat))
    ensures cfg.parseLong(userId).Some? && !Found(cfg, s, userId) ==>
              r == Outcome(s, Some(UserNotFound(userId)))
    ensures r.error.None? <==> Found(cfg, s, userId)
    // the plan becomes PRO after a paid subscription and BASIC after a failed one,
    // and is left alone off the Pro path; the payment email becomes the customer's
    ensures r.error.None? ==>
              var uid := cfg.parseLong(userId).value;
              SavedAs(s, r, uid, if !isPro then s.users[uid].plan else if paymentSuccess then PRO else BASIC,
                      customer.email)
    // the calls issued, in order: `Suspend.all` on a failed subscription, then one save
    ensures r.error.None? ==>
              var uid := cfg.parseLong(userId).value;
              r.store.log == s.log + (if isPro && !paymentSuccess then [SuspendAll(uid, PRO)] else [])
                                   + [Save(r.store.users[uid])]
  {
    match cfg.parseLong(userId)
    case None => Outcome(s, Some(NumberFormat))
    case Some(uid) =>
      if uid !in s.users then Outcome(s, Some(UserNotFound(userId)))
      else
        var user := s.users[uid];
        var withPlan := if isPro && !paymentSuccess then user.(plan := BASIC)
                        else if isPro then user.(plan := PRO)
                        else user;
        var suspended := if isPro && !paymentSuccess then [SuspendAll(uid, PRO)] else [];
        var saved := withPlan.(paymentEmail := customer.email);
        Outcome(Store(s.users[saved.id := saved], s.log + suspended + [Save(saved)]), None)
  }

  /** The single-product call `fulfillOrder` issues before updating the user. */
  function ProductCall(uid: int, pid: int, paymentSuccess: bool): (r: Op)
  {
    if paymentSuccess then Enroll(uid, pid, false) else Suspend(uid, pid)
  }

  /**
   * `fulfillOrder`: a null product is ignored; the Pro-plan product takes the
   * subscription path; any other product enrolls the user in, or suspends the
   * user from, the product named by its metadata before the user is updated.
   */
  function FulfillOrder(cfg: Config, s: Store, userId: string, product: Option<Product>,
                        paymentSuccess: bool, customer: Customer): (r: Outcome)
    requires ValidUsers(s.users)
    ensures ValidUsers(r.store.users) && r.store.users.Keys == s.users.Keys
    // calls are only ever appended to the log
    ensures s.log <= r.store.log
    // no product: nothing at all happens
    ensures product.None? ==> r == Outcome(s, None)
    // when the event gets through, and which exception it raises otherwise
    ensures product.Some? && IsProPlan(cfg, product.value) ==> (r.error.None? <==> Found(cfg, s, userId))
    ensures product.Some? && !IsProPlan(cfg, product.value) ==>
              (r.error.None? <==> ProductIdOf(cfg, product.value).Some? && Found(cfg, s, userId))
    ensures product.Some? && !IsProPlan(cfg, product.value) &&
            (ProductIdOf(cfg, product.value).None? || cfg.parseLong(userId).None?) ==>
              r == Outcome(s, Some(NumberFormat))
    ensures product.Some? && IsProPlan(cfg, product.value) && cfg.parseLong(userId).None? ==>
              r == Outcome(s, Some(NumberFormat))
    ensures product.Some? && (IsProPlan(cfg, product.value) || ProductIdOf(cfg, product.value).Some?) &&
            cfg.parseLong(userId).Some? && !Found(cfg, s, userId) ==>
              r.error == Some(UserNotFound(userId)) && r.store.users == s.users
    // Pro plan: PRO on success; BASIC and one `Suspend.all(user, PRO)` on failure;
    // no single-product call; payment email overwritten and the user saved once
    ensures product.Some? && IsProPlan(cfg, product.value) && r.error.None? ==>
              var uid := cfg.parseLong(userId).value;
              && SavedAs(s, r, uid, if paymentSuccess then PRO else BASIC, customer.email)
              && r.store.log == s.log + (if paymentSuccess then [] else [SuspendAll(uid, PRO)])
                                      + [Save(r.store.users[uid])]
    ensures product.Some? && IsProPlan(cfg, product.value) && r.error.Some? ==> r.store == s
    // any other product: exactly one enroll (not free) or one suspend of that product
    // comes first, and stays issued when the user is then not found; on success the
    // plan is untouched, the payment email overwritten and the user saved once
    ensures product.Some? && !IsProPlan(cfg, product.value) &&
            ProductIdOf(cfg, product.value).Some? && cfg.parseLong(userId).Some? ==>
              var uid := cfg.parseLong(userId).value;
              var call := ProductCall(uid, ProductIdOf(cfg, product.value).value, paymentSuccess);
              r.store.log == s.log + [call] + (if r.error.None? then [Save(r.store.users[uid])] else [])
    ensures product.Some? && !IsProPlan(cfg, product.value) && r.error.None? ==>
              var uid := cfg.parseLong(userId).value;
              SavedAs(s, r, uid, s.users[uid].plan, customer.email)
  {
    match product
    case None => Outcome(s, None)
    case Some(p) =>
      if IsProPlan(cfg, p) then UpdateUserInfo(cfg, s, userId, paymentSuccess, customer, true)
      else
        match ProductIdOf(cfg, p)
        case None => Outcome(s, Some(NumberFormat))
        case Some(pid) =>
          match cfg.parseLong(userId)
          case None => Outcome(s, Some(NumberFormat))
          case Some(uid) =>
            UpdateUserInfo(cfg, Store(s.users, s.log + [ProductCall(uid, pid, paymentSuccess)]),
                           userId, paymentSuccess, customer, false)
  }

  // Counting the calls issued

  predicate IsEnroll(op: Op) { op.Enroll? }
  predicate IsSuspend(op: Op) { op.Suspend? }
  predicate IsSuspendAll(op: Op) { op.SuspendAll? }
  predicate IsSave(op: Op) { op.Save? }

  /**
   * How many calls of each kind one event issues: one save exactly when an event
   * with a product gets through; one `Suspend.all` only for a failed Pro-plan payment; one enroll
   * or one suspend only for another product whose ids both parse, whether or not
   * the user is then found.
   */
  lemma {:induction false} FulfillOrderCallCounts(cfg: Config, s: Store, userId: string, product: Option<Product>,
                                                  paymentSuccess: bool, customer: Customer)
    requires ValidUsers(s.users)
    ensures var r := FulfillOrder(cfg, s, userId, product, paymentSuccess, customer);
            var pro := product.Some? && IsProPlan(cfg, product.value);
            var single := product.Some? && !pro && ProductIdOf(cfg, product.value).Some? && cfg.parseLong(userId).Some?;
            && CountWhere(r.store.log, IsSave) == CountWhere(s.log, IsSave) + (if product.Some? && r.error.None? then 1 else 0)
            && CountWhere(r.store.log, IsSuspendAll) ==
               CountWhere(s.log, IsSuspendAll) + (if pro && r.error.None? && !paymentSuccess then 1 else 0)
            && CountWhere(r.store.log, IsEnroll) == CountWhere(s.log, IsEnroll) + (if single && paymentSuccess then 1 else 0)
            && CountWhere(r.store.log, IsSuspend) == CountWhere(s.log, IsSuspend) + (if single && !paymentSuccess then 1 else 0)
  {
    var r := FulfillOrder(cfg, s, userId, product, paymentSuccess, customer);
    if r.store.log != s.log {
      var p := product.value;
      var uid := cfg.parseLong(userId).value;
      if IsProPlan(cfg, p) {
        var saved := Save(r.store.users[uid]);
        if paymentSuccess {
          assert r.store.log == s.log + [saved];
          CountAfterCall(s.log, saved);
        } else {
          CountAfterCall(s.log, SuspendAll(uid, PRO));
          CountAfterCall(s.log + [SuspendAll(uid, PRO)], saved);
        }
      } else {
        var call := ProductCall(uid, ProductIdOf(cfg, p).value, paymentSuccess);
        CountAfterCall(s.log, call);
        if r.error.None? {
          CountAfterCall(s.log + [call], Save(r.store.users[uid]));
        }
      }
    }
  }

  /** Issuing one more call adds one to the count of its kind only. */
  lemma CountAfterCall(log: seq<Op>, op: Op)
    ensures CountWhere(log + [op], IsSave) == CountWhere(log, IsSave) + (if op.Save? then 1 else 0)
    ensures CountWhere(log + [op], IsSuspendAll) == CountWhere(log, IsSuspendAll) + (if op.SuspendAll? then 1 else 0)
    ensures CountWhere(log + [op], IsEnroll) == CountWhere(log, IsEnroll) + (if op.Enroll? then 1 else 0)
    ensures CountWhere(log + [op], IsSuspend) == CountWhere(log, IsSuspend) + (if op.Suspend? then 1 else 0)
  {
  }

  // A series of events

  /** One webhook event, reduced to the arguments of `fulfillOrder`. */
  datatype Event = Event(userId: string, product: Option<Product>, paymentSuccess: bool, customer: Customer)

  /**
   * Handling `events` in order, each through `fulfillOrder`; an event that raises
   * an exception keeps whatever it had issued and the next event is handled.
   */
  function Replay(cfg: Config, s: Store, events: seq<Event>): (r: Store)
    requires ValidUsers(s.users)
    ensures ValidUsers(r.users) && r.users.Keys == s.users.Keys
    decreases |events|
  {
    if events == [] then s
    else
      var e := events[|events| - 1];
      FulfillOrder(cfg, Replay(cfg, s, events[..|events| - 1]), e.userId, e.product, e.paymentSuccess, e.customer).store
  }

  /** `e` is a Pro-plan payment event for the user `uid`. */
  predicate IsProEventFor(cfg: Config, e: Event, uid: int)
  {
    e.product.Some? && IsProPlan(cfg, e.product.value) && cfg.parseLong(e.userId) == Some(uid)
  }

  /** Whether the last Pro-plan payment event for `uid` succeeded, if there is one. */
  function LastProPayment(cfg: Config, events: seq<Event>, uid: int): (r: Option<bool>)
    decreases |events|
  {
    if events == [] then None
    else if IsProEventFor(cfg, events[|events| - 1], uid) then Some(events[|events| - 1].paymentSuccess)
    else LastProPayment(cfg, events[..|events| - 1], uid)
  }

  /**
   * The subscription tier follows the payment provider: after a series of events,
   * a known user is PRO exactly when the last Pro-plan payment for that user
   * succeeded, BASIC when it failed, and keeps the initial plan when there was none.
   */
  lemma {:induction false} PlanFollowsLastProPayment(cfg: Config, s: Store, events: seq<Event>, uid: int)
    requires ValidUsers(s.users) && uid in s.users
    ensures var r := Replay(cfg, s, events);
            && uid in r.users
            && r.users[uid].plan == match LastProPayment(cfg, events, uid)
                                    case None => s.users[uid].plan
                                    case Some(paid) => if paid then PRO else BASIC
    decreases |events|
  {
    if events != [] {
      var prefix := events[..|events| - 1];
      var e := events[|events| - 1];
      PlanFollowsLastProPayment(cfg, s, prefix, uid);
      var prev := Replay(cfg, s, prefix);
      var r := FulfillOrder(cfg, prev, e.userId, e.product, e.paymentSuccess, e.customer);
      assert Replay(cfg, s, events) == r.store;
      if !IsProEventFor(cfg, e, uid) && r.error.None? && e.product.Some? {
        var other := cfg.parseLong(e.userId).value;
        assert other == uid ==> !IsProPlan(cfg, e.product.value);
      }
    }
  }

  /**
   * Redelivery is not deduplicated: handling the same event a second time leaves
   * the same user records as handling it once, while its calls are issued again.
   */
  lemma RedeliveryKeepsUsers(cfg: Config, s: Store, userId: string, product: Option<Product>,
                             paymentSuccess: bool, customer: Customer)
    requires ValidUsers(s.users)
    ensures var once := FulfillOrder(cfg, s, userId, product, paymentSuccess, customer);
            var twice := FulfillOrder(cfg, once.store, userId, product, paymentSuccess, customer);
            && twice.store.users == once.store.users
            && twice.error == once.error
            && twice.store.log == once.store.log + once.store.log[|s.log|..]
  {
  }
}
