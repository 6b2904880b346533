/**
 * `StripeCommons` as an object: the users held by its user provider and the log
 * of calls it issues are fields that `FulfillOrder` updates step by step, in the
 * order the handler performs them. Each method is proved against the functions
 * of the same name in `Reconciliation`.
 */
module Stripe {
  import opened Wrappers
  import R = Reconciliation

  class StripeCommons {
    /** The configured Pro-plan product id and the id parser. */
    const cfg: R.Config
    /** What `userProvider` holds: users by id. */
    var users: map<int, R.User>
    /** The calls issued to `Enroll`, `Suspend` and `userProvider.save`, oldest first. */
    var log: seq<R.Op>

    ghost predicate Valid()
      reads this
    {
      R.ValidUsers(users)
    }

    constructor (cfg: R.Config, users: map<int, R.User>)
      requires R.ValidUsers(users)
      ensures Valid()
      ensures this.cfg == cfg && this.users == users && log == []
    {
      this.cfg := cfg;
      this.users := users;
      log := [];
    }

    /** Handles one payment event; `err` is the exception `fulfillOrder` throws, if any. */
    method FulfillOrder(userId: string, product: Option<R.Product>, paymentSuccess: bool, customer: R.Customer)
      returns (err: Option<R.Error>)
      requires Valid()
      modifies this
      ensures Valid()
      ensures var r := R.FulfillOrder(cfg, R.Store(old(users), old(log)), userId, product, paymentSuccess, customer);
              users == r.store.users && log == r.store.log && err == r.error
    {
      if product.None? {
        return None;
      }
      var p := product.value;
      if cfg.proPlanProductId == p.id {
        err := UpdateUserInfo(userId, paymentSuccess, customer, true);
      } else {
        var productId := R.ProductIdOf(cfg, p);
        if productId.None? {
          return Some(R.NumberFormat);
        }
        var uid := cfg.parseLong(userId);
        if uid.None? {
          return Some(R.NumberFormat);
        }
        if paymentSuccess {
          log := log + [R.Enroll(uid.value, productId.value, false)];
        } else {
          log := log + [R.Suspend(uid.value, productId.value)];
        }
        err := UpdateUserInfo(userId, paymentSuccess, customer, false);
      }
    }

    /**
     * Looks the user up, adjusts the plan on the Pro path, sets the payment email and saves.
     * Private in the handler: only `FulfillOrder` calls it, with `isPro` set by the product check.
     */
    method UpdateUserInfo(userId: string, paymentSuccess: bool, customer: R.Customer, isPro: bool)
      returns (err: Option<R.Error>)
      requires Valid()
      modifies this
      ensures Valid()
      ensures var r := R.UpdateUserInfo(cfg, R.Store(old(users), old(log)), userId, paymentSuccess, customer, isPro);
              users == r.store.users && log == r.store.log && err == r.error
    {
      var uid := cfg.parseLong(userId);
      if uid.None? {
        return Some(R.NumberFormat);
      }
      if uid.value !in users {
        return Some(R.UserNotFound(userId));
      }
      var user := users[uid.value];
      if isPro && !paymentSuccess {
        user := user.(plan := R.BASIC);
        log := log + [R.SuspendAll(uid.value, R.PRO)];
      } else if isPro {
        user := user.(plan := R.PRO);
      }
      user := user.(paymentEmail := customer.email);
      users := users[user.id := user];
      log := log + [R.Save(user)];
      err := None;
    }
  }
}
