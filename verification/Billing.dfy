/** Prepaid API-key credit: the operations on the store, one caller at a time. */
module Billing {
  import opened Common
  import opened Store

  type AccountId = string
  type Stroops = int

  const STROOPS_PER_CENT: nat := 100_000
  const THIRTY_DAYS_MS: nat := 2_592_000_000

  function CreditKey(a: AccountId): Key { "credit:" + a }
  function EventKey(id: string): Key { "stripe-event:" + id }
  function IntentKey(pi: string): Key { "stripe-pi:" + pi }

  /** Distinct accounts, events and payment intents never share a key. */
  lemma KeysAreDistinct(a: AccountId, b: AccountId, id: string, pi: string)
    ensures CreditKey(a) == CreditKey(b) ==> a == b
    ensures CreditKey(a) != EventKey(id) && CreditKey(a) != IntentKey(pi) && EventKey(id) != IntentKey(pi)
  {
    assert CreditKey(a)[7..] == a && CreditKey(b)[7..] == b;
    assert CreditKey(a)[0] == 'c' && EventKey(id)[0] == 's' && IntentKey(pi)[0] == 's';
    assert EventKey(id)[7] == 'e' && IntentKey(pi)[7] == 'p';
  }

  function Min(a: int, b: int): int { if a <= b then a else b }

  function CentsToStroops(cents: nat): nat { cents * STROOPS_PER_CENT }

  // ---- Stripe events -------------------------------------------------------------------------

  datatype EventType = CheckoutCompleted | ChargeRefunded | DisputeCreated | OtherType

  /** `account` is the checkout metadata, None when absent or empty; `cents` is amount_total,
      amount_refunded or amount. */
  datatype StripeEvent = StripeEvent(id: string, kind: EventType, account: Option<AccountId>,
                                     intent: Option<string>, cents: nat)

  datatype Reversal = Reversal(account: AccountId, requested: nat, debited: nat, shortfall: nat)

  /** The account a reversal is charged to: the one its payment intent funded, else the metadata. */
  function Correlate(m: Entries, now: nat, e: StripeEvent): Option<AccountId> {
    var mapped := if e.intent.Some? then Live(m, now, IntentKey(e.intent.value)) else None;
    match mapped
    case Some(Text(a)) => if a != "" then Some(a) else e.account
    case _ => e.account
  }

  /** Every account's balance is a number and none is negative. */
  ghost predicate Sound(m: Entries) {
    forall a :: Counter(m, CreditKey(a)) && Balance(m, CreditKey(a)) >= 0
  }

  /** Balances of all accounts but one are untouched. */
  ghost predicate OnlyAccount(m: Entries, m': Entries, account: AccountId) {
    forall a :: a != account ==> Balance(m', CreditKey(a)) == Balance(m, CreditKey(a))
  }

  ghost predicate SameBalances(m: Entries, m': Entries) {
    forall a :: Balance(m', CreditKey(a)) == Balance(m, CreditKey(a))
  }

  /** Nothing but the account's own entry is touched. */
  ghost predicate OnlyKey(m: Entries, m': Entries, now: nat, account: AccountId) {
    && OnlyAccount(m, m', account)
    && forall k :: k != CreditKey(account) ==> Live(m', now, k) == Live(m, now, k)
  }

  /** What is taken and what is left, when rivals move the balance between read and decrement. */
  function FlooredDebit(balance: nat, stroops: nat, rivals: seq<nat>, attempt: nat): (nat, nat)
    decreases 5 - attempt
  {
    var take := Min(balance, stroops);
    if attempt >= 5 || take == 0 then (0, balance)
    else
      var found := if attempt < |rivals| then rivals[attempt] else balance;
      if found >= take then (take, found - take) else FlooredDebit(found, stroops, rivals, attempt + 1)
  }

  lemma FlooredNext(balance: nat, stroops: nat, rivals: seq<nat>, attempt: nat)
    ensures var take, found := Min(balance, stroops), if attempt < |rivals| then rivals[attempt] else balance;
      FlooredDebit(balance, stroops, rivals, attempt) ==
      if attempt >= 5 || take == 0 then (0, balance)
      else if found >= take then (take, found - take) else FlooredDebit(found, stroops, rivals, attempt + 1)
  {}

  /** Never more than requested, and left alone exactly the smaller of balance and request. */
  lemma {:induction false} DebitIsFloored(balance: nat, stroops: nat, rivals: seq<nat>, attempt: nat)
    requires attempt <= 5
    ensures FlooredDebit(balance, stroops, rivals, attempt).0 <= stroops
    ensures attempt < 5 && |rivals| <= attempt ==>
      FlooredDebit(balance, stroops, rivals, attempt) == (Min(balance, stroops), balance - Min(balance, stroops))
    decreases 5 - attempt
  {
    var take := Min(balance, stroops);
    if attempt < 5 && take > 0 {
      var found := if attempt < |rivals| then rivals[attempt] else balance;
      if found < take { DebitIsFloored(found, stroops, rivals, attempt + 1); }
    }
  }

  /** Five lost races in a row and nothing is debited, however much is left: the reversal is then
      recorded as a shortfall in full. */
  lemma DebitGivesUp(balance: nat)
    requires balance >= 6
    ensures FlooredDebit(balance, balance,
      [balance - 1, balance - 2, balance - 3, balance - 4, balance - 5], 0) == (0, balance - 5)
  {
    var r := [balance - 1, balance - 2, balance - 3, balance - 4, balance - 5];
    assert FlooredDebit(balance - 5, balance, r, 5) == (0, balance - 5);
    assert FlooredDebit(balance - 4, balance, r, 4) == (0, balance - 5);
    assert FlooredDebit(balance - 3, balance, r, 3) == (0, balance - 5);
    assert FlooredDebit(balance - 2, balance, r, 2) == (0, balance - 5);
  }

  // ---- Partial refunds -----------------------------------------------------------------------

  function Sum(xs: seq<nat>): nat { if xs == [] then 0 else xs[0] + Sum(xs[1..]) }

  /** Each charge.refunded carries all that has been refunded of the charge so far. */
  function Cumulative(parts: seq<nat>, before: nat): seq<nat> {
    if parts == [] then [] else [before + parts[0]] + Cumulative(parts[1..], before + parts[0])
  }

  /** What reversals requesting `cents` one after the other debit, left alone. */
  function DebitAll(balance: nat, cents: seq<nat>): nat
    decreases |cents|
  {
    if cents == [] then 0
    else
      var (debited, left) := FlooredDebit(balance, CentsToStroops(cents[0]), [], 0);
      debited + DebitAll(left, cents[1..])
  }

  lemma {:induction false} DebitAllIsFloored(balance: nat, cents: seq<nat>)
    ensures DebitAll(balance, cents) == Min(balance, CentsToStroops(Sum(cents)))
    decreases |cents|
  {
    hide FlooredDebit;
    if cents != [] {
      var stroops := CentsToStroops(cents[0]);
      DebitIsFloored(balance, stroops, [], 0);
      DebitAllIsFloored(balance - Min(balance, stroops), cents[1..]);
    }
  }

  lemma {:induction false} CumulativeExceeds(parts: seq<nat>, before: nat)
    requires forall p :: p in parts ==> p > 0
    ensures Sum(Cumulative(parts, before)) >= Sum(parts) + if parts == [] then 0 else before
    ensures |parts| > 1 ==> Sum(Cumulative(parts, before)) > Sum(parts) + before
    decreases |parts|
  {
    if parts != [] {
      assert parts[0] in parts && forall p :: p in parts[1..] ==> p in parts;
      CumulativeExceeds(parts[1..], before + parts[0]);
      assert Cumulative(parts, before)[1..] == Cumulative(parts[1..], before + parts[0]);
    }
  }

  /** Refunding one charge in parts takes from the account what was refunded exactly when the charge
      was refunded in one go and the balance covers it, or when the balance happened to be just that:
      otherwise earlier parts are debited again with every later one. */
  lemma RefundedInParts(balance: nat, parts: seq<nat>)
    requires forall p :: p in parts ==> p > 0
    ensures var refunded := CentsToStroops(Sum(parts));
      DebitAll(balance, Cumulative(parts, 0)) == refunded
      <==> balance == refunded || (|parts| <= 1 && balance >= refunded)
  {
    var c := Cumulative(parts, 0);
    DebitAllIsFloored(balance, c);
    CumulativeExceeds(parts, 0);
    if |parts| == 1 {
      assert parts[1..] == [] && c[1..] == [];
    }
  }

  class Billing {
    const store: MemoryStore

    constructor (store: MemoryStore)
      ensures this.store == store
    {
      this.store := store;
    }

    ghost function BalanceOf(account: AccountId): int
      reads this, store
    {
      Balance(store.entries, CreditKey(account))
    }

    ghost predicate Valid()
      reads this, store
    {
      Sound(store.entries)
    }

    method ReserveCredit(account: AccountId, maxStroops: nat) returns (ok: bool)
      requires Valid()
      modifies store`entries
      ensures Valid() && OnlyAccount(old(store.entries), store.entries, account)
      ensures ok <==> old(BalanceOf(account)) >= maxStroops
      ensures BalanceOf(account) == old(BalanceOf(account)) - if ok then maxStroops else 0
    {
      ok := store.DecrIfAtLeast(CreditKey(account), maxStroops);
      CreditWrite(old(store.entries), store.entries, account);
    }

    method SettleReservation(account: AccountId, reserved: nat, actual: nat)
      requires Valid()
      modifies store`entries
      ensures Valid() && OnlyAccount(old(store.entries), store.entries, account)
      ensures BalanceOf(account) == old(BalanceOf(account)) + reserved - Min(reserved, actual)
    {
      var refund := reserved - actual;
      if refund > 0 {
        var _ := store.IncrBy(CreditKey(account), refund);
        CreditWrite(old(store.entries), store.entries, account);
      }
    }

    method RestoreCredit(account: AccountId, stroops: nat)
      requires Valid()
      modifies store`entries
      ensures Valid() && OnlyAccount(old(store.entries), store.entries, account)
      ensures BalanceOf(account) == old(BalanceOf(account)) + stroops
    {
      if stroops > 0 {
        var _ := store.IncrBy(CreditKey(account), stroops);
        CreditWrite(old(store.entries), store.entries, account);
      }
    }

    /** `rivals[i]` is the balance that other callers leave between attempt i's read and its
        decrement; past the end of the list nobody interferes. */
    method DebitCreditFloored(account: AccountId, stroops: nat, rivals: seq<nat>) returns (debited: nat)
      requires Valid()
      modifies store`entries
      ensures Valid() && OnlyKey(old(store.entries), store.entries, store.now, account)
      ensures (debited, BalanceOf(account)) == FlooredDebit(old(BalanceOf(account)), stroops, rivals, 0)
    {
      hide OnlyKey, Live, Sound, CreditKey, FlooredDebit;
      var key := CreditKey(account);
      SoundAt(store.entries, account);
      KeyWrite(store.entries, store.entries, store.now, account);
      for attempt := 0 to 5
        invariant Valid() && OnlyKey(old(store.entries), store.entries, store.now, account)
        invariant Counter(store.entries, key) && Balance(store.entries, key) >= 0
        invariant FlooredDebit(old(BalanceOf(account)), stroops, rivals, 0)
               == FlooredDebit(BalanceOf(account), stroops, rivals, attempt)
      {
        FlooredNext(BalanceOf(account), stroops, rivals, attempt);
        var balance := if key in store.entries then store.entries[key].value.n else 0;
        var take := if balance < stroops then balance else stroops;
        if take <= 0 { return 0; }
        ghost var before := store.entries;
        if attempt < |rivals| { store.Set(key, Num(rivals[attempt]), 0); }
        KeyWrite(before, store.entries, store.now, account);
        OnlyKeyChains(old(store.entries), before, store.entries, store.now, account);
        ghost var contended := store.entries;
        var ok := store.DecrIfAtLeast(key, take);
        KeyWrite(contended, store.entries, store.now, account);
        OnlyKeyChains(old(store.entries), contended, store.entries, store.now, account);
        if ok { return take; }
      }
      FlooredNext(BalanceOf(account), stroops, rivals, 5);
      return 0;
    }

    /** A delivery is applied once per event id; a repeat changes no balance. */
    method HandleStripeWebhook(e: StripeEvent, rivals: seq<nat>) returns (reversal: Option<Reversal>)
      requires Valid()
      modifies store`entries
      ensures Valid()
      ensures var seen := Live(old(store.entries), store.now, EventKey(e.id)).Some?;
        var target := if e.kind.CheckoutCompleted? then e.account else Correlate(old(store.entries), store.now, e);
        if e.kind.OtherType? || seen || target.None?
        then reversal.None? && SameBalances(old(store.entries), store.entries)
        else
          var a := target.value;
          && OnlyAccount(old(store.entries), store.entries, a)
          && if e.kind.CheckoutCompleted?
             then reversal.None? && BalanceOf(a) == old(BalanceOf(a)) + CentsToStroops(e.cents)
             else reversal.Some? && reversal.value.account == a
                  && reversal.value.requested == CentsToStroops(e.cents)
                  && reversal.value.debited + reversal.value.shortfall == reversal.value.requested
                  && (reversal.value.debited, BalanceOf(a))
                     == FlooredDebit(old(BalanceOf(a)), reversal.value.requested, rivals, 0)
      ensures !e.kind.OtherType? ==> Live(store.entries, store.now, EventKey(e.id)).Some?
    {
      reversal := None;
      if e.kind.OtherType? { return; }
      EventWrite(store.entries, e.id, store.now);
      var isNew := store.SetNX(EventKey(e.id), Num(1), THIRTY_DAYS_MS);
      if !isNew { return; }
      if e.kind.CheckoutCompleted? {
        CreditCheckout(e);
      } else {
        reversal := ReverseCharge(e, rivals);
      }
    }

    method CreditCheckout(e: StripeEvent)
      requires Valid()
      modifies store`entries
      ensures Valid()
      ensures Live(store.entries, store.now, EventKey(e.id)) == Live(old(store.entries), store.now, EventKey(e.id))
      ensures match e.account {
        case None => SameBalances(old(store.entries), store.entries)
        case Some(a) => OnlyAccount(old(store.entries), store.entries, a)
                        && BalanceOf(a) == old(BalanceOf(a)) + CentsToStroops(e.cents)
      }
    {
      if e.account.None? { return; }
      var a := e.account.value;
      if e.intent.Some? {
        IntentWrite(store.entries, e, Entry(Text(a), None));
        store.Set(IntentKey(e.intent.value), Text(a), 0);
      }
      ghost var before := store.entries;
      var _ := store.IncrBy(CreditKey(a), CentsToStroops(e.cents));
      CreditWrite(before, store.entries, a);
      KeysAreDistinct(a, a, e.id, "");
    }

    method ReverseCharge(e: StripeEvent, rivals: seq<nat>) returns (reversal: Option<Reversal>)
      requires Valid()
      modifies store`entries
      ensures Valid()
      ensures Live(store.entries, store.now, EventKey(e.id)) == Live(old(store.entries), store.now, EventKey(e.id))
      ensures match Correlate(old(store.entries), store.now, e) {
        case None => reversal.None? && SameBalances(old(store.entries), store.entries)
        case Some(a) =>
          && OnlyAccount(old(store.entries), store.entries, a)
          && reversal.Some? && reversal.value.account == a
          && reversal.value.requested == CentsToStroops(e.cents)
          && reversal.value.debited + reversal.value.shortfall == reversal.value.requested
          && (reversal.value.debited, BalanceOf(a))
             == FlooredDebit(old(BalanceOf(a)), reversal.value.requested, rivals, 0)
      }
    {
      var account := e.account;
      if e.intent.Some? {
        ghost var before := store.entries;
        var mapped := store.Get(IntentKey(e.intent.value));
        ReadIntent(before, store.entries, e.intent.value);
        if mapped.Some? && mapped.value.Text? && mapped.value.s != "" { account := Some(mapped.value.s); }
      }
      if account.None? { return None; }
      var a := account.value;
      var requested := CentsToStroops(e.cents);
      KeysAreDistinct(a, a, e.id, "");
      DebitIsFloored(BalanceOf(a), requested, rivals, 0);
      var debited := DebitCreditFloored(a, requested, rivals);
      return Some(Reversal(a, requested, debited, requested - debited));
    }
  }

  // ---- Frames --------------------------------------------------------------------------------

  /** Writing one account's key concerns that account only. */
  lemma CreditWrite(m: Entries, m': Entries, account: AccountId)
    requires Sound(m)
    requires m' == m || exists n: nat :: m' == m[CreditKey(account) := Entry(Num(n), None)]
    ensures Sound(m') && OnlyAccount(m, m', account)
  {
    forall a ensures Counter(m', CreditKey(a)) && Balance(m', CreditKey(a)) >= 0
    ensures a != account ==> Balance(m', CreditKey(a)) == Balance(m, CreditKey(a))
    {
      KeysAreDistinct(a, account, "", "");
      assert Counter(m, CreditKey(a)) && Balance(m, CreditKey(a)) >= 0;
    }
  }

  lemma SoundAt(m: Entries, account: AccountId)
    requires Sound(m)
    ensures Counter(m, CreditKey(account)) && Balance(m, CreditKey(account)) >= 0
  {}

  lemma KeyWrite(m: Entries, m': Entries, now: nat, account: AccountId)
    requires Sound(m)
    requires m' == m || exists n: nat :: m' == m[CreditKey(account) := Entry(Num(n), None)]
    ensures Sound(m') && OnlyKey(m, m', now, account)
  {
    CreditWrite(m, m', account);
  }

  lemma OnlyKeyChains(m: Entries, m1: Entries, m2: Entries, now: nat, account: AccountId)
    requires OnlyKey(m, m1, now, account) && OnlyKey(m1, m2, now, account)
    ensures OnlyKey(m, m2, now, account)
  {
    hide Live;
  }

  lemma EventWrite(m: Entries, id: string, now: nat)
    requires Sound(m)
    ensures var m' := SetNXOn(m, now, EventKey(id), Num(1), THIRTY_DAYS_MS);
      && Sound(m') && SameBalances(m, m')
      && forall e: StripeEvent :: e.id == id ==> Correlate(m', now, e) == Correlate(m, now, e)
  {
    var m' := SetNXOn(m, now, EventKey(id), Num(1), THIRTY_DAYS_MS);
    forall a ensures Counter(m', CreditKey(a)) && Balance(m', CreditKey(a)) >= 0
    ensures Balance(m', CreditKey(a)) == Balance(m, CreditKey(a))
    {
      KeysAreDistinct(a, a, id, "");
      assert Counter(m, CreditKey(a)) && Balance(m, CreditKey(a)) >= 0;
    }
    forall e: StripeEvent | e.id == id ensures Correlate(m', now, e) == Correlate(m, now, e) {
      if e.intent.Some? { KeysAreDistinct("", "", id, e.intent.value); }
    }
  }

  lemma IntentWrite(m: Entries, e: StripeEvent, entry: Entry)
    requires Sound(m) && e.intent.Some?
    ensures var m' := m[IntentKey(e.intent.value) := entry];
      Sound(m') && SameBalances(m, m') && forall now: nat :: Live(m', now, EventKey(e.id)) == Live(m, now, EventKey(e.id))
  {
    var m' := m[IntentKey(e.intent.value) := entry];
    KeysAreDistinct("", "", e.id, e.intent.value);
    forall a ensures Counter(m', CreditKey(a)) && Balance(m', CreditKey(a)) >= 0
    ensures Balance(m', CreditKey(a)) == Balance(m, CreditKey(a))
    {
      KeysAreDistinct(a, a, "", e.intent.value);
      assert Counter(m, CreditKey(a)) && Balance(m, CreditKey(a)) >= 0;
    }
  }

  lemma ReadIntent(m: Entries, m': Entries, pi: string)
    requires Sound(m) && (m' == m || m' == m - {IntentKey(pi)})
    ensures Sound(m') && SameBalances(m, m')
  {
    forall a ensures Counter(m', CreditKey(a)) && Balance(m', CreditKey(a)) >= 0
    ensures Balance(m', CreditKey(a)) == Balance(m, CreditKey(a))
    {
      KeysAreDistinct(a, a, "", pi);
      assert Counter(m, CreditKey(a)) && Balance(m, CreditKey(a)) >= 0;
    }
  }
}
