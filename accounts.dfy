/** The account store behind registration, plan selection and the payment
    provider's webhook: a user table and a subscription table keyed by user
    id (one subscription per user), changed in place by three routes. */
module Accounts {
  import opened Common
  import opened Strings
  import opened Cookies

  datatype User = User(id: string, email: string, name: Option<string>, password: string)

  /** Dates are milliseconds since the epoch; `endDate` null is `None`. */
  datatype Subscription = Subscription(plan: string, status: string, startDate: int, endDate: Option<int>)

  /** A user as the routes return it: every column but the password. */
  datatype PublicUser = PublicUser(id: string, email: string, name: Option<string>)

  function Public(u: User): (p: PublicUser)
    ensures p.id == u.id && p.email == u.email && p.name == u.name
  {
    PublicUser(u.id, u.email, u.name)
  }

  /** The id the store gives its `n`-th user. */
  function IdFor(n: nat): string
  {
    DecimalString(n)
  }

  lemma IdForInjective(m: nat, n: nat)
    requires IdFor(m) == IdFor(n)
    ensures m == n
  {
    DecimalStringValue(m);
    DecimalStringValue(n);
  }

  // ---------------------------------------------------------------------
  // Plan selection (subscription/create)

  predicate IsPlan(plan: string)
  {
    plan == "free" || plan == "basic" || plan == "pro"
  }

  /** `PLAN_PRICES`, in cents. */
  function Price(plan: string): (cents: nat)
    requires IsPlan(plan)
    ensures cents == 0 <==> plan == "free"
    ensures plan == "basic" ==> cents == 2900
    ensures plan == "pro" ==> cents == 9900
  {
    if plan == "free" then 0 else if plan == "basic" then 2900 else 9900
  }

  /** `${plan.charAt(0).toUpperCase() + plan.slice(1)} Plan` */
  function ProductName(plan: string): (name: string)
    ensures |name| == |plan| + 5
    ensures name[|plan|..] == " Plan"
    ensures plan != [] ==> name[0] == UpperChar(plan[0]) && name[1..|plan|] == plan[1..]
  {
    (if plan == [] then [] else [UpperChar(plan[0])] + plan[1..]) + " Plan"
  }

  lemma ProductNames()
    ensures ProductName("basic") == "Basic Plan"
    ensures ProductName("pro") == "Pro Plan"
  {
  }

  /** The line item of the checkout session opened for a paid plan. */
  datatype Checkout = Checkout(userId: string, email: string, productName: string, unitAmount: nat)

  /** The free plan after selecting it: an existing subscription keeps its
      start date, a new one starts now. */
  function FreeSubscription(existing: Option<Subscription>, now: int): (s: Subscription)
    ensures s.plan == "free" && s.status == "active" && s.endDate.None?
    ensures existing.Some? ==> s.startDate == existing.value.startDate
    ensures existing.None? ==> s.startDate == now
  {
    match existing
    case Some(e) => e.(plan := "free", status := "active", endDate := None)
    case None => Subscription("free", "active", now, None)
  }

  datatype CreateOutcome =
    | FreePlanSet
    | CheckoutOpened(checkout: Checkout)
    | CreateRejected(failure: Failure)
    | CreateCrashed   // 500 carrying a library error's message

  /** What `verify(token, secret)` gives: it throws on a bad token, and
      otherwise the payload, whose `userId` claim may be absent. */
  datatype Verified = VerifyThrows | Decoded(userId: Option<string>)

  // ---------------------------------------------------------------------
  // Payment-provider events (webhooks/stripe)

  datatype Event =
    | CheckoutCompleted(clientReferenceId: Option<string>, metadataPlan: Option<string>)
    | SubscriptionDeleted(metadataUserId: Option<string>)
    | SubscriptionUpdated(metadataUserId: Option<string>, status: string, cancelAt: Option<int>)
    | OtherEvent(kind: string)

  /** What verifying the payload against the signature gives. */
  datatype Construct = Constructed(event: Event) | SignatureError(message: string)

  datatype WebhookOutcome = Received | WebhookRejected(failure: Failure) | WebhookCrashed

  /** `session.metadata?.plan || 'basic'` */
  function CheckoutPlan(metadataPlan: Option<string>): (plan: string)
    ensures Truthy(metadataPlan) ==> plan == metadataPlan.value
    ensures !Truthy(metadataPlan) ==> plan == "basic"
  {
    if Truthy(metadataPlan) then metadataPlan.value else "basic"
  }

  /** The provider's status mapped to the two the store knows. */
  function UpdatedStatus(status: string): (r: string)
    ensures r == "active" || r == "cancelled"
    ensures r == "active" <==> status == "active"
  {
    if status == "active" then "active" else "cancelled"
  }

  /** `cancel_at` is in seconds, and 0 or absent means no end date. */
  function EndDate(cancelAt: Option<int>): (r: Option<int>)
    ensures r.Some? <==> cancelAt.Some? && cancelAt.value != 0
    ensures r.Some? ==> r.value == cancelAt.value * 1000
  {
    if cancelAt.Some? && cancelAt.value != 0 then Some(cancelAt.value * 1000) else None
  }

  /** The store after an event: `None` when the store call throws (upsert
      without a user id, or a subscription row that does not exist for an
      update, or one created for an unknown user), which leaves it as it was. */
  function ApplyEvent(users: set<string>, subs: map<string, Subscription>, e: Event, now: int)
    : (r: Option<map<string, Subscription>>)
    ensures r.Some? ==> subs.Keys <= r.value.Keys
    ensures r.Some? && subs.Keys <= users ==> r.value.Keys <= users
    ensures r.Some? ==> forall id :: id in subs && id !in ChangedUser(e) ==> r.value[id] == subs[id]
  {
    match e
    case CheckoutCompleted(ref, metaPlan) =>
      if ref.None? then None
      else if ref.value in subs then
        Some(subs[ref.value := subs[ref.value].(plan := CheckoutPlan(metaPlan), status := "active",
                                                startDate := now, endDate := None)])
      else if ref.value in users then
        Some(subs[ref.value := Subscription(CheckoutPlan(metaPlan), "active", now, None)])
      else None
    case SubscriptionDeleted(uid) =>
      if !Truthy(uid) then Some(subs)
      else if uid.value in subs then
        Some(subs[uid.value := subs[uid.value].(plan := "free", status := "active", endDate := None)])
      else None
    case SubscriptionUpdated(uid, status, cancelAt) =>
      if !Truthy(uid) then Some(subs)
      else if uid.value in subs then
        Some(subs[uid.value := subs[uid.value].(status := UpdatedStatus(status), endDate := EndDate(cancelAt))])
      else None
    case OtherEvent(_) => Some(subs)
  }

  /** The user an event names, if any. */
  function ChangedUser(e: Event): set<string>
  {
    match e
    case CheckoutCompleted(ref, _) => if ref.Some? then {ref.value} else {}
    case SubscriptionDeleted(uid) => if uid.Some? then {uid.value} else {}
    case SubscriptionUpdated(uid, _, _) => if uid.Some? then {uid.value} else {}
    case OtherEvent(_) => {}
  }

  /** A completed checkout leaves the user's subscription active on the
      metadata plan (`basic` by default) with no end date. */
  lemma CheckoutActivates(users: set<string>, subs: map<string, Subscription>, uid: string,
                          metaPlan: Option<string>, now: int)
    requires uid in users
    ensures var r := ApplyEvent(users, subs, CheckoutCompleted(Some(uid), metaPlan), now);
      && r.Some? && uid in r.value
      && r.value[uid] == Subscription(CheckoutPlan(metaPlan), "active", now, None)
  {
  }

  /** The checkout plan is not checked against the plan table: whatever the
      metadata names is stored. */
  lemma CheckoutStoresAnyPlan(users: set<string>, subs: map<string, Subscription>, uid: string, now: int)
    requires uid in users
    ensures var r := ApplyEvent(users, subs, CheckoutCompleted(Some(uid), Some("enterprise")), now);
      r.Some? && r.value[uid].plan == "enterprise" && !IsPlan(r.value[uid].plan)
  {
  }

  /** A deletion drops the user to an active free plan; applying it again
      changes nothing more. */
  lemma DeletionIdempotent(users: set<string>, subs: map<string, Subscription>, uid: string, now: int)
    requires uid in subs && uid != ""
    ensures var e := SubscriptionDeleted(Some(uid));
      var r := ApplyEvent(users, subs, e, now);
      && r.Some? && r.value[uid].plan == "free" && r.value[uid].status == "active"
      && r.value[uid].endDate.None?
      && ApplyEvent(users, r.value, e, now) == r
  {
    var r := ApplyEvent(users, subs, SubscriptionDeleted(Some(uid)), now).value;
    assert r[uid].(plan := "free", status := "active", endDate := None) == r[uid];
    assert r[uid := r[uid]] == r;
  }

  /** A deletion for a known subscription resets it to an active free plan
      with no end date and touches nothing else; one for an unknown
      subscription throws, and one without a user id is ignored. */
  lemma DeletionResetsToFree(users: set<string>, subs: map<string, Subscription>, uid: Option<string>, now: int)
    ensures var r := ApplyEvent(users, subs, SubscriptionDeleted(uid), now);
      && (r.None? <==> Truthy(uid) && uid.value !in subs)
      && (!Truthy(uid) ==> r == Some(subs))
      && (Truthy(uid) && uid.value in subs ==>
            r == Some(subs[uid.value := subs[uid.value].(plan := "free", status := "active", endDate := None)]))
  {
  }

  /** An update event never changes a plan or a start date. */
  lemma UpdateKeepsPlan(users: set<string>, subs: map<string, Subscription>, uid: Option<string>,
                        status: string, cancelAt: Option<int>, now: int)
    ensures var r := ApplyEvent(users, subs, SubscriptionUpdated(uid, status, cancelAt), now);
      r.Some? ==> forall id :: id in subs ==>
        r.value[id].plan == subs[id].plan && r.value[id].startDate == subs[id].startDate
  {
  }

  /** An update for a known subscription records the mapped status and the
      end date in milliseconds; one for an unknown subscription throws, and
      one without a user id is ignored. */
  lemma UpdateSetsStatusAndEnd(users: set<string>, subs: map<string, Subscription>, uid: Option<string>,
                               status: string, cancelAt: Option<int>, now: int)
    ensures var r := ApplyEvent(users, subs, SubscriptionUpdated(uid, status, cancelAt), now);
      && (r.None? <==> Truthy(uid) && uid.value !in subs)
      && (!Truthy(uid) ==> r == Some(subs))
      && (Truthy(uid) && uid.value in subs ==>
            r.Some? && uid.value in r.value
            && r.value[uid.value].status == UpdatedStatus(status)
            && r.value[uid.value].endDate == EndDate(cancelAt))
  {
  }

  /** Events of any other type leave the store alone. */
  lemma OtherEventsChangeNothing(users: set<string>, subs: map<string, Subscription>, kind: string, now: int)
    ensures ApplyEvent(users, subs, OtherEvent(kind), now) == Some(subs)
  {
  }

  datatype RegisterOutcome =
    | Registered(user: PublicUser)
    | RegisterRejected(failure: Failure)
    | RegisterCrashed   // 500 carrying a library error's message

  class AccountStore {
    var users: map<string, User>
    var subscriptions: map<string, Subscription>
    var nextId: nat

    /** Each user is filed under its own id, emails are unique, every
        subscription belongs to a user, and no id from `nextId` on is
        taken yet. */
    ghost predicate Valid()
      reads this
    {
      && (forall id :: id in users ==> users[id].id == id)
      && (forall a, b :: a in users && b in users && users[a].email == users[b].email ==> a == b)
      && subscriptions.Keys <= users.Keys
      && (forall n: nat :: n >= nextId ==> IdFor(n) !in users)
    }

    constructor ()
      ensures Valid()
      ensures users == map[] && subscriptions == map[] && nextId == 0
    {
      users := map[];
      subscriptions := map[];
      nextId := 0;
    }

    predicate EmailTaken(email: string)
      reads this
    {
      exists id :: id in users && users[id].email == email
    }

    /** `POST /api/auth/register`: both fields are required, an email may
        be registered once, and a new user starts on an active free plan.
        `hash` is the password hash; `now` the creation time; `lookupOk`
        and `createOk` say whether the lookup by email and the nested
        create of user and subscription complete or throw (a 500). */
    method Register(email: Option<string>, password: Option<string>, name: Option<string>,
                    hash: string -> string, now: int, lookupOk: bool, createOk: bool)
      returns (out: RegisterOutcome)
      requires Valid()
      modifies this
      ensures Valid()
      ensures !Truthy(email) || !Truthy(password) ==>
        && out == RegisterRejected(Failure(400, "Email and password are required"))
        && unchanged(this)
      ensures Truthy(email) && Truthy(password) && !lookupOk ==>
        out == RegisterCrashed && unchanged(this)
      ensures Truthy(email) && Truthy(password) && lookupOk && old(EmailTaken(email.value)) ==>
        && out == RegisterRejected(Failure(400, "User already exists"))
        && unchanged(this)
      ensures Truthy(email) && Truthy(password) && lookupOk && !old(EmailTaken(email.value)) && !createOk ==>
        out == RegisterCrashed && unchanged(this)
      ensures Truthy(email) && Truthy(password) && lookupOk && !old(EmailTaken(email.value)) && createOk ==>
        var id := IdFor(old(nextId));
        && id !in old(users)
        && out == Registered(PublicUser(id, email.value, name))
        && users == old(users)[id := User(id, email.value, name, hash(password.value))]
        && subscriptions == old(subscriptions)[id := Subscription("free", "active", now, None)]
        && nextId == old(nextId) + 1
    {
      if !Truthy(email) || !Truthy(password) {
        return RegisterRejected(Failure(400, "Email and password are required"));
      }
      if !lookupOk {
        return RegisterCrashed;
      }
      if EmailTaken(email.value) {
        return RegisterRejected(Failure(400, "User already exists"));
      }
      if !createOk {
        return RegisterCrashed;
      }
      var id := IdFor(nextId);
      var user := User(id, email.value, name, hash(password.value));
      users := users[id := user];
      subscriptions := subscriptions[id := Subscription("free", "active", now, None)];
      nextId := nextId + 1;
      forall n: nat | n >= nextId ensures IdFor(n) !in users {
        if IdFor(n) == id { IdForInjective(n, nextId - 1); }
      }
      out := Registered(Public(user));
    }

    /** `POST /api/subscription/create`. The session token comes from the
        cookie header and `verify` checks it. A token that does not verify
        is a 500; so is a missing `userId` claim, but only once the plan
        has passed its check, since the lookup by an undefined id is what
        throws. The free plan is written at once (`writeOk` false: the
        write throws, a 500); a paid plan opens a checkout (`sessionOk`
        false: the provider call throws, a 500) and leaves the store alone. */
    method CreateSubscription(cookie: Option<string>, verify: string -> Verified,
                              plan: Option<string>, now: int, writeOk: bool, sessionOk: bool)
      returns (out: CreateOutcome)
      requires Valid()
      modifies this
      ensures Valid()
      ensures users == old(users) && nextId == old(nextId)
      ensures !HasToken(cookie) ==>
        out == CreateRejected(Failure(401, "Authentication required")) && unchanged(this)
      ensures HasToken(cookie) && verify(Token(cookie).value).VerifyThrows? ==>
        out == CreateCrashed && unchanged(this)
      ensures HasToken(cookie) && verify(Token(cookie).value).Decoded? ==>
        var claim := verify(Token(cookie).value).userId;
        && (!Truthy(plan) || !IsPlan(plan.value) ==>
              out == CreateRejected(Failure(400, "Invalid plan selected")) && unchanged(this))
        && (Truthy(plan) && IsPlan(plan.value) && claim.None? ==>
              out == CreateCrashed && unchanged(this))
        && (Truthy(plan) && IsPlan(plan.value) && claim.Some? && claim.value !in old(users) ==>
              out == CreateRejected(Failure(404, "User not found")) && unchanged(this))
        && (plan == Some("free") && claim.Some? && claim.value in old(users) && writeOk ==>
              var uid := claim.value;
              && out == FreePlanSet
              && subscriptions == old(subscriptions)[uid := FreeSubscription(
                   if uid in old(subscriptions) then Some(old(subscriptions)[uid]) else None, now)])
        && (plan == Some("free") && claim.Some? && claim.value in old(users) && !writeOk ==>
              out == CreateCrashed && unchanged(this))
        && (Truthy(plan) && IsPlan(plan.value) && plan.value != "free"
            && claim.Some? && claim.value in old(users) ==>
              && unchanged(this)
              && (sessionOk ==> out == CheckoutOpened(Checkout(claim.value, old(users)[claim.value].email,
                                                               ProductName(plan.value), Price(plan.value))))
              && (!sessionOk ==> out == CreateCrashed))
    {
      var token := Token(cookie);
      if !Truthy(token) {
        return CreateRejected(Failure(401, "Authentication required"));
      }
      var decoded := verify(token.value);
      if decoded.VerifyThrows? {
        return CreateCrashed;
      }
      if !Truthy(plan) || !IsPlan(plan.value) {
        return CreateRejected(Failure(400, "Invalid plan selected"));
      }
      if decoded.userId.None? {
        return CreateCrashed;
      }
      var uid := decoded.userId.value;
      if uid !in users {
        return CreateRejected(Failure(404, "User not found"));
      }
      if plan.value == "free" {
        if !writeOk {
          return CreateCrashed;
        }
        if uid in subscriptions {
          subscriptions := subscriptions[uid := subscriptions[uid].(plan := "free", status := "active", endDate := None)];
        } else {
          subscriptions := subscriptions[uid := Subscription("free", "active", now, None)];
        }
        return FreePlanSet;
      }
      if !sessionOk {
        return CreateCrashed;
      }
      out := CheckoutOpened(Checkout(uid, users[uid].email, ProductName(plan.value), Price(plan.value)));
    }

    /** `POST /api/webhooks/stripe`: without a signature, or with one that
        does not verify, nothing changes and the answer is a 400; otherwise
        the event is applied to the subscription table. */
    method HandleWebhook(signature: Option<string>, construct: Construct, now: int)
      returns (out: WebhookOutcome)
      requires Valid()
      modifies this
      ensures Valid()
      ensures users == old(users) && nextId == old(nextId)
      ensures !Truthy(signature) ==>
        out == WebhookRejected(Failure(400, "No signature found")) && unchanged(this)
      ensures Truthy(signature) && construct.SignatureError? ==>
        out == WebhookRejected(Failure(400, "Webhook Error: " + construct.message)) && unchanged(this)
      ensures Truthy(signature) && construct.Constructed? ==>
        var r := ApplyEvent(old(users).Keys, old(subscriptions), construct.event, now);
        && (r.Some? ==> out == Received && subscriptions == r.value)
        && (r.None? ==> out == WebhookCrashed && unchanged(this))
    {
      if !Truthy(signature) {
        return WebhookRejected(Failure(400, "No signature found"));
      }
      if construct.SignatureError? {
        return WebhookRejected(Failure(400, "Webhook Error: " + construct.message));
      }
      match construct.event {
      case CheckoutCompleted(ref, metaPlan) =>
        if ref.None? {
          return WebhookCrashed;
        }
        var uid := ref.value;
        var plan := CheckoutPlan(metaPlan);
        if uid in subscriptions {
          subscriptions := subscriptions[uid := subscriptions[uid].(plan := plan, status := "active",
                                                                    startDate := now, endDate := None)];
        } else if uid in users {
          subscriptions := subscriptions[uid := Subscription(plan, "active", now, None)];
        } else {
          return WebhookCrashed;
        }
      case SubscriptionDeleted(uid) =>
        if Truthy(uid) {
          if uid.value !in subscriptions {
            return WebhookCrashed;
          }
          subscriptions := subscriptions[uid.value := subscriptions[uid.value].(plan := "free", status := "active", endDate := None)];
        }
      case SubscriptionUpdated(uid, status, cancelAt) =>
        if Truthy(uid) {
          if uid.value !in subscriptions {
            return WebhookCrashed;
          }
          subscriptions := subscriptions[uid.value := subscriptions[uid.value].(status := UpdatedStatus(status),
                                                                                endDate := EndDate(cancelAt))];
        }
      case OtherEvent(_) =>
      }
      out := Received;
    }
  }
}
