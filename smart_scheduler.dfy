/**
 * The smart rent scheduler: on the day after a property's rent fell due it
 * fetches the owner's recent bank transactions once, imports the credits,
 * looks for the rent among them, and notifies the owner when none is found.
 * The clock is the `today` parameter, the bank gateway a function, the
 * notifier an object that records what it was asked to send.
 */
module SmartScheduling {
  import opened Common
  import opened Dates
  import opened Domain
  import opened Bank
  import opened CheckDays
  import Sorting

  // ---------------------------------------------------------------------------
  // Detecting rent payments

  /** `abs(float(txn.get('amount', 0)))`: a missing amount reads as zero. */
  function DetectedAmount(t: RawTxn): (r: Result<int>)
    ensures r.Ok? ==> r.value >= 0
    ensures r.Err? <==> t.amountCents.Malformed?
  {
    match t.amountCents
    case Absent => Ok(0)
    case Malformed(e) => Err(e)
    case Value(v) => Ok(Abs(v))
  }

  /** `txn.get('description', '').lower()`. */
  function DetectedText(t: RawTxn): string
  {
    Lower(if t.description.Some? then t.description.value else "")
  }

  /** Within 5% of the rent, both ends included. */
  predicate NearRent(amountCents: int, rentCents: int)
  {
    Abs(amountCents - rentCents) * 20 <= rentCents
  }

  predicate HasKeyword(p: Property)
  {
    p.keyword.Some? && p.keyword.value != ""
  }

  predicate HasNickname(p: Property)
  {
    p.tenantNickname.Some? && p.tenantNickname.value != ""
  }

  /** The keyword condition, widened by the tenant nickname. */
  predicate TextMatches(p: Property, text: string)
  {
    (HasKeyword(p) ==> Contains(text, Lower(p.keyword.value)))
    || (HasNickname(p) && Contains(text, Lower(p.tenantNickname.value)))
  }

  predicate IsDetected(p: Property, t: RawTxn)
  {
    && DetectedAmount(t).Ok?
    && NearRent(DetectedAmount(t).value, p.rentCents)
    && TextMatches(p, DetectedText(t))
  }

  function DetectedFor(p: Property): RawTxn -> bool
  {
    t => IsDetected(p, t)
  }

  /** The error of the first amount that does not convert, in list order. */
  function FirstAmountError(txns: seq<RawTxn>): (r: Option<string>)
  {
    if txns == [] then None
    else
      var before := FirstAmountError(txns[..|txns| - 1]);
      var last := DetectedAmount(txns[|txns| - 1]);
      if before.Some? then before
      else if last.Err? then Some(last.error)
      else None
  }

  /**
   * `_detect_rent_payments`: the detected payments in list order, or the
   * error the first unconvertible amount raises.
   */
  function Detect(txns: seq<RawTxn>, p: Property): Result<seq<RawTxn>>
  {
    var e := FirstAmountError(txns);
    if e.Some? then Err(e.value) else Ok(Sorting.Filter(DetectedFor(p), txns))
  }

  method DetectRentPayments(txns: seq<RawTxn>, p: Property) returns (r: Result<seq<RawTxn>>)
    ensures r == Detect(txns, p)
  {
    var payments := [];
    var i := 0;
    while i < |txns|
      invariant 0 <= i <= |txns|
      invariant FirstAmountError(txns[..i]) == None
      invariant payments == Sorting.Filter(DetectedFor(p), txns[..i])
    {
      var t := txns[i];
      assert txns[..i + 1][..i] == txns[..i];
      var amount: int;
      match t.amountCents {
        case Absent =>
          amount := 0;
        case Malformed(e) =>
          FirstAmountErrorPrefix(txns, i + 1);
          return Err(e);
        case Value(v) =>
          amount := Abs(v);
      }
      var isRent := MatchesRent(t, amount, p);
      if isRent {
        payments := payments + [t];
      }
      i := i + 1;
    }
    assert txns[..i] == txns;
    r := Ok(payments);
  }

  /** The amount and description tests for one transaction whose amount converted. */
  method MatchesRent(t: RawTxn, amount: int, p: Property) returns (b: bool)
    requires DetectedAmount(t) == Ok(amount)
    ensures b == IsDetected(p, t)
  {
    var description := Lower(if t.description.Some? then t.description.value else "");
    var amountMatch := Abs(amount - p.rentCents) * 20 <= p.rentCents;
    var keywordMatch := true;
    if p.keyword.Some? && p.keyword.value != "" {
      keywordMatch := Contains(description, Lower(p.keyword.value));
    }
    if p.tenantNickname.Some? && p.tenantNickname.value != "" {
      var tenantMatch := Contains(description, Lower(p.tenantNickname.value));
      keywordMatch := keywordMatch || tenantMatch;
    }
    b := amountMatch && keywordMatch;
  }

  /** An error found in a prefix is the error of the whole list. */
  lemma {:induction false} FirstAmountErrorPrefix(txns: seq<RawTxn>, i: nat)
    requires i <= |txns| && FirstAmountError(txns[..i]).Some?
    ensures FirstAmountError(txns) == FirstAmountError(txns[..i])
    decreases |txns| - i
  {
    if i < |txns| {
      var n := |txns| - 1;
      assert txns[..n][..i] == txns[..i];
      FirstAmountErrorPrefix(txns[..n], i);
    } else {
      assert txns[..i] == txns;
    }
  }

  /**
   * The error is that of the first unconvertible amount; with none, there
   * is no error.
   */
  lemma {:induction false} FirstAmountErrorSpec(txns: seq<RawTxn>)
    ensures FirstAmountError(txns).None? <==> forall i :: 0 <= i < |txns| ==> !txns[i].amountCents.Malformed?
    ensures FirstAmountError(txns).Some? ==>
      exists i :: 0 <= i < |txns| && FirstMalformedAt(txns, i) && FirstAmountError(txns).value == txns[i].amountCents.error
  {
    if txns != [] {
      var n := |txns| - 1;
      FirstAmountErrorSpec(txns[..n]);
      if FirstAmountError(txns[..n]).Some? {
        var i :| 0 <= i < n && FirstMalformedAt(txns[..n], i)
          && FirstAmountError(txns[..n]).value == txns[..n][i].amountCents.error;
        assert txns[..n][i] == txns[i];
        assert FirstMalformedAt(txns, i);
      } else if txns[n].amountCents.Malformed? {
        assert FirstMalformedAt(txns, n);
      } else {
        forall i | 0 <= i < |txns| ensures !txns[i].amountCents.Malformed? {
          if i < n { assert txns[..n][i] == txns[i]; }
        }
      }
    }
  }

  /** `i` holds the first unconvertible amount of the list. */
  predicate FirstMalformedAt(txns: seq<RawTxn>, i: int)
    requires 0 <= i < |txns|
  {
    txns[i].amountCents.Malformed? && forall j :: 0 <= j < i ==> !txns[j].amountCents.Malformed?
  }

  /**
   * The payments are exactly the transactions, debits included, whose
   * absolute amount lies within 5% of the rent and whose description
   * passes the keyword rule, kept in list order.
   */
  lemma DetectSpec(txns: seq<RawTxn>, p: Property)
    ensures Detect(txns, p).Err? <==> exists i :: 0 <= i < |txns| && txns[i].amountCents.Malformed?
    ensures Detect(txns, p).Ok? ==> forall t :: t in Detect(txns, p).value <==>
      t in txns && NearRent(DetectedAmount(t).value, p.rentCents) && TextMatches(p, DetectedText(t))
    ensures Detect(txns, p).Ok? ==> |Detect(txns, p).value| <= |txns|
  {
    FirstAmountErrorSpec(txns);
    Sorting.FilterMembership(DetectedFor(p), txns);
  }

  /** Detection distributes over a split of the list, so it keeps the order. */
  lemma DetectAppend(a: seq<RawTxn>, b: seq<RawTxn>, p: Property)
    requires Detect(a + b, p).Ok?
    ensures Detect(a, p).Ok? && Detect(b, p).Ok?
    ensures Detect(a + b, p).value == Detect(a, p).value + Detect(b, p).value
  {
    FirstAmountErrorSpec(a + b);
    FirstAmountErrorSpec(a);
    FirstAmountErrorSpec(b);
    forall i | 0 <= i < |a| ensures !a[i].amountCents.Malformed? {
      assert a[i] == (a + b)[i];
    }
    forall i | 0 <= i < |b| ensures !b[i].amountCents.Malformed? {
      assert b[i] == (a + b)[|a| + i];
    }
    Sorting.FilterAppend(DetectedFor(p), a, b);
  }

  /**
   * The keyword rule: with no keyword the description is never needed; with
   * one, the keyword or the nickname must occur in it.
   */
  lemma KeywordRule(p: Property, text: string)
    ensures !HasKeyword(p) ==> TextMatches(p, text)
    ensures HasKeyword(p) ==> (TextMatches(p, text) <==>
      Contains(text, Lower(p.keyword.value)) || (HasNickname(p) && Contains(text, Lower(p.tenantNickname.value))))
  {
  }

  /** Matching ignores the case of the description. */
  lemma {:induction false} DetectionIgnoresCase(p: Property, t: RawTxn)
    requires t.description.Some?
    ensures IsDetected(p, t) == IsDetected(p, t.(description := Some(Lower(t.description.value))))
  {
    LowerIdempotent(t.description.value);
  }

  /** A debit of the rent's size matches as well as the credit does. */
  lemma DebitsMatch(p: Property, t: RawTxn)
    requires t.amountCents.Value?
    ensures IsDetected(p, t) == IsDetected(p, t.(amountCents := Value(-t.amountCents.v)))
  {
  }

  // ---------------------------------------------------------------------------
  // Notifications

  /** An overdue notice: whom it goes to, for which property, how late, how much. */
  datatype Notice = Notice(recipient: string, propertyId: int, daysOverdue: nat, amountCents: int)

  function LateNotice(u: User, p: Property): Notice
  {
    Notice(u.email, p.id, 1, p.rentCents)
  }

  /**
   * The notification service, reduced to the notices it was asked to send.
   * Delivery can fail; the scheduler swallows that failure, so the model
   * does not track it.
   */
  class Notifier {
    var sent: seq<Notice>

    constructor ()
      ensures sent == []
    {
      sent := [];
    }

    /** `_send_late_rent_notification`: one notice, one day overdue, for the rent amount. */
    method SendLateRent(u: User, p: Property)
      modifies this
      ensures sent == old(sent) + [LateNotice(u, p)]
    {
      sent := sent + [LateNotice(u, p)];
    }
  }

  // ---------------------------------------------------------------------------
  // Fetching one property's transactions

  /** The record `fetch_transactions_for_property` returns. */
  datatype FetchResult =
    | Fetched(propertyId: int, transactionsFetched: nat, transactionsStored: nat,
              rentPaymentsDetected: nat, apiCallsUsed: nat, notificationSent: bool)
    | FetchFailed(error: string)

  const NoTokenError := "No Akahu token"

  /**
   * The bank gateway: the transactions of every account of the token's
   * owner between two dates, or the text of the exception it raised.
   */
  type Gateway = (string, CalDate, CalDate) -> Result<seq<RawTxn>>

  /** A token Python treats as true: present and not empty. */
  predicate HasToken(u: User)
  {
    u.accessToken.Some? && u.accessToken.value != ""
  }

  /** The dates a fetch asks the gateway for. */
  datatype Window = Window(start: CalDate, end: CalDate)

  /** From two days before today to the day after. */
  function FetchWindow(today: CalDate): Window
  {
    Window(AddDays(today, -2), AddDays(today, 1))
  }

  /** One gateway call for the window. */
  function CallGateway(u: User, gateway: Gateway, w: Window): Result<seq<RawTxn>>
    requires HasToken(u)
  {
    gateway(u.accessToken.value, w.start, w.end)
  }

  /** What `fetch_transactions_for_property` returns, as a function of its inputs. */
  function FetchOutcome(connected: bool, u: User, p: Property, gateway: Gateway, w: Window): FetchResult
  {
    if !HasToken(u) then FetchFailed(NoTokenError)
    else
      var fetched := CallGateway(u, gateway, w);
      if fetched.Err? then FetchFailed(fetched.error)
      else
        var detected := Detect(fetched.value, p);
        if detected.Err? then FetchFailed(detected.error)
        else Fetched(p.id, |fetched.value|, |Imported(connected, fetched.value, p.id, 0)|,
                     |detected.value|, 1, detected.value == [])
  }

  /**
   * The rows a fetch imports. The import runs before detection, so an amount
   * that stops detection does not undo it.
   */
  function FetchImports(connected: bool, u: User, p: Property, gateway: Gateway, w: Window, firstId: nat): seq<Transaction>
  {
    if HasToken(u) && CallGateway(u, gateway, w).Ok?
    then Imported(connected, CallGateway(u, gateway, w).value, p.id, firstId)
    else []
  }

  /** The notice a fetch sends: one exactly when it succeeded and detected nothing. */
  function FetchNotices(connected: bool, u: User, p: Property, gateway: Gateway, w: Window): seq<Notice>
  {
    var r := FetchOutcome(connected, u, p, gateway, w);
    if r.Fetched? && r.notificationSent then [LateNotice(u, p)] else []
  }

  /**
   * `SmartRentScheduler.fetch_transactions_for_property`, with the gateway
   * called with the window it is meant to fetch, the window around `today`.
   */
  method FetchTransactionsForProperty(store: TransactionStore, notifier: Notifier, u: User, p: Property,
                                      gateway: Gateway, today: CalDate)
    returns (r: FetchResult)
    requires store.Valid()
    modifies store, notifier
    ensures store.Valid()
    ensures var w := FetchWindow(today);
      && r == FetchOutcome(store.connected, u, p, gateway, w)
      && store.rows == old(store.rows) + FetchImports(store.connected, u, p, gateway, w, old(store.nextId))
      && store.nextId == old(store.nextId) + |FetchImports(store.connected, u, p, gateway, w, old(store.nextId))|
      && notifier.sent == old(notifier.sent) + FetchNotices(store.connected, u, p, gateway, w)
  {
    r := FetchInWindow(store, notifier, u, p, gateway, FetchWindow(today));
  }

  /** The body of `fetch_transactions_for_property`, once the window is known. */
  method FetchInWindow(store: TransactionStore, notifier: Notifier, u: User, p: Property,
                       gateway: Gateway, w: Window)
    returns (r: FetchResult)
    requires store.Valid()
    modifies store, notifier
    ensures store.Valid()
    ensures r == FetchOutcome(store.connected, u, p, gateway, w)
    ensures store.rows == old(store.rows) + FetchImports(store.connected, u, p, gateway, w, old(store.nextId))
    ensures store.nextId == old(store.nextId) + |FetchImports(store.connected, u, p, gateway, w, old(store.nextId))|
    ensures notifier.sent == old(notifier.sent) + FetchNotices(store.connected, u, p, gateway, w)
  {
    if !HasToken(u) {
      return FetchFailed(NoTokenError);
    }
    var transactions := gateway(u.accessToken.value, w.start, w.end);
    if transactions.Err? {
      return FetchFailed(transactions.error);
    }
    var storedCount := StoreTransactions(store, transactions.value, p.id);
    ImportedLength(store.connected, transactions.value, p.id, old(store.nextId));
    var payments := DetectRentPayments(transactions.value, p);
    if payments.Err? {
      return FetchFailed(payments.error);
    }
    var notificationSent := false;
    if |payments.value| == 0 {
      notifier.SendLateRent(u, p);
      notificationSent := true;
    }
    r := Fetched(p.id, |transactions.value|, storedCount, |payments.value|, 1, notificationSent);
  }

  /** The number of imported rows does not depend on where their ids start. */
  lemma {:induction false} ImportedLength(connected: bool, txns: seq<RawTxn>, propertyId: int, firstId: nat)
    ensures |Imported(connected, txns, propertyId, firstId)| == |Imported(connected, txns, propertyId, 0)|
    ensures |Imported(connected, txns, propertyId, firstId)| <= |txns|
  {
    ImportRowsLength(txns, propertyId, firstId);
    ImportRowsLength(txns, propertyId, 0);
  }

  /**
   * A successful fetch costs one gateway call, stores no more rows than it
   * fetched, and notifies exactly when it detected no payment. Without a
   * token the gateway plays no part in the outcome.
   */
  lemma FetchOutcomeFacts(connected: bool, u: User, p: Property, gateway: Gateway, other: Gateway, w: Window)
    ensures var r := FetchOutcome(connected, u, p, gateway, w);
      r.Fetched? ==>
        && r.propertyId == p.id && r.apiCallsUsed == 1
        && r.transactionsStored <= r.transactionsFetched
        && r.rentPaymentsDetected <= r.transactionsFetched
        && (r.notificationSent <==> r.rentPaymentsDetected == 0)
    ensures !HasToken(u) ==>
      FetchOutcome(connected, u, p, gateway, w) == FetchOutcome(connected, u, p, other, w) == FetchFailed(NoTokenError)
    ensures FetchOutcome(connected, u, p, gateway, w).Fetched? <==>
      HasToken(u) && CallGateway(u, gateway, w).Ok? && Detect(CallGateway(u, gateway, w).value, p).Ok?
  {
    if HasToken(u) && CallGateway(u, gateway, w).Ok? {
      var txns := CallGateway(u, gateway, w).value;
      ImportedLength(connected, txns, p.id, 0);
      DetectSpec(txns, p);
    }
  }

  /**
   * The call as the scheduler writes it passes `start_date` and `end_date`
   * keywords the gateway's `get_transactions` does not accept. The
   * resulting TypeError (worded here as CPython 3.10 and later word it for
   * the mock service the scheduler uses by default) is caught and reported.
   */
  const GatewayCallError := "MockAkahuService.get_transactions() got an unexpected keyword argument 'start_date'"

  /** `fetch_transactions_for_property` as written: it fails before storing or detecting anything. */
  function FetchAsWritten(u: User, p: Property): FetchResult
  {
    if !HasToken(u) then FetchFailed(NoTokenError) else FetchFailed(GatewayCallError)
  }

  /** As written, no fetch ever succeeds, whatever the user, property or bank data. */
  lemma FetchAsWrittenNeverSucceeds(u: User, p: Property)
    ensures FetchAsWritten(u, p).FetchFailed?
    ensures HasToken(u) ==> FetchAsWritten(u, p).error == GatewayCallError
  {
  }

  /**
   * With the gateway called as intended, a user with a token whose bank
   * data reads cleanly gets a successful check.
   */
  lemma FetchCanSucceed(connected: bool, u: User, p: Property, gateway: Gateway, w: Window)
    requires HasToken(u) && CallGateway(u, gateway, w).Ok?
    requires forall i :: 0 <= i < |CallGateway(u, gateway, w).value| ==>
      !CallGateway(u, gateway, w).value[i].amountCents.Malformed?
    ensures FetchOutcome(connected, u, p, gateway, w).Fetched?
  {
    DetectSpec(CallGateway(u, gateway, w).value, p);
  }

  // ---------------------------------------------------------------------------
  // Which properties are due for a check

  /** `User.get_all_with_bank_connected` selects these users. */
  predicate BankLinked(u: User)
  {
    u.bankConnected && u.accessToken.Some?
  }

  /** `u`'s properties, paired with `u`, in the order the properties are listed. */
  function Owned(u: User, props: seq<Property>): (r: seq<(User, Property)>)
    ensures forall k :: 0 <= k < |r| ==> r[k].0 == u
  {
    if props == [] then []
    else
      var p := props[|props| - 1];
      Owned(u, props[..|props| - 1]) + (if p.userId == u.id then [(u, p)] else [])
  }

  /** Every property of every bank-linked user, user by user. */
  function Linked(users: seq<User>, props: seq<Property>): seq<(User, Property)>
  {
    if users == [] then []
    else
      var u := users[|users| - 1];
      Linked(users[..|users| - 1], props) + (if BankLinked(u) then Owned(u, props) else [])
  }

  lemma {:induction false} OwnedSpec(u: User, props: seq<Property>)
    ensures forall pair :: pair in Owned(u, props) <==> pair.0 == u && pair.1 in props && pair.1.userId == u.id
  {
    if props != [] {
      var n := |props| - 1;
      OwnedSpec(u, props[..n]);
      assert props == props[..n] + [props[n]];
    }
  }

  /** The pairs are exactly the bank-linked users with the properties they own. */
  lemma {:induction false} LinkedSpec(users: seq<User>, props: seq<Property>)
    ensures forall pair :: pair in Linked(users, props) <==>
      pair.0 in users && BankLinked(pair.0) && pair.1 in props && pair.1.userId == pair.0.id
  {
    if users != [] {
      var n := |users| - 1;
      LinkedSpec(users[..n], props);
      OwnedSpec(users[n], props);
      assert users == users[..n] + [users[n]];
    }
  }

  /** The users' and properties' loops that pair each property with its owner. */
  method CollectLinkedProperties(users: seq<User>, props: seq<Property>) returns (all: seq<(User, Property)>)
    ensures all == Linked(users, props)
  {
    all := [];
    var i := 0;
    while i < |users|
      invariant 0 <= i <= |users|
      invariant all == Linked(users[..i], props)
    {
      var u := users[i];
      assert users[..i + 1][..i] == users[..i];
      if BankLinked(u) {
        var j := 0;
        while j < |props|
          invariant 0 <= j <= |props|
          invariant all == Linked(users[..i], props) + Owned(u, props[..j])
        {
          assert props[..j + 1][..j] == props[..j];
          if props[j].userId == u.id {
            all := all + [(u, props[j])];
          }
          j := j + 1;
        }
        assert props[..j] == props;
      }
      i := i + 1;
    }
    assert users[..i] == users;
  }

  function DueOn(yesterday: CalDate): ((User, Property)) -> bool
  {
    (pair: (User, Property)) => ShouldCheck(pair.1, yesterday)
  }

  /** The linked properties whose rent fell due yesterday. */
  function DueToday(users: seq<User>, props: seq<Property>, today: CalDate): seq<(User, Property)>
  {
    Sorting.Filter(DueOn(PrevDay(today)), Linked(users, props))
  }

  /** `get_properties_due_for_check_today`. */
  method PropertiesDueForCheckToday(users: seq<User>, props: seq<Property>, today: CalDate)
    returns (due: seq<(User, Property)>)
    ensures due == DueToday(users, props, today)
  {
    var yesterday := PrevDay(today);
    var all := CollectLinkedProperties(users, props);
    due := [];
    var i := 0;
    while i < |all|
      invariant 0 <= i <= |all|
      invariant due == Sorting.Filter(DueOn(yesterday), all[..i])
    {
      assert all[..i + 1][..i] == all[..i];
      if ShouldCheck(all[i].1, yesterday) {
        due := due + [all[i]];
      }
      i := i + 1;
    }
    assert all[..i] == all;
  }

  /** A property is due today exactly when its owner is linked and yesterday was its due day. */
  lemma DueTodaySpec(users: seq<User>, props: seq<Property>, today: CalDate)
    ensures forall pair :: pair in DueToday(users, props, today) <==>
      && pair.0 in users && BankLinked(pair.0) && pair.1 in props && pair.1.userId == pair.0.id
      && ShouldCheck(pair.1, PrevDay(today))
  {
    LinkedSpec(users, props);
    Sorting.FilterMembership(DueOn(PrevDay(today)), Linked(users, props));
  }

  // ---------------------------------------------------------------------------
  // The daily run

  /**
   * What `run_daily_smart_check` reports: four zero counters when nothing is
   * due, otherwise the full counters and the per-property records. The cost
   * is in cents, ten per gateway call.
   */
  datatype Summary =
    | NothingDue
    | Ran(propertiesChecked: nat, apiCallsUsed: nat, notificationsSent: nat,
          successfulChecks: nat, failedChecks: nat, totalCostCents: nat, details: seq<FetchResult>)

  const CostPerCallCents := 10

  function Successes(details: seq<FetchResult>): nat
  {
    if details == [] then 0
    else Successes(details[..|details| - 1]) + (if details[|details| - 1].Fetched? then 1 else 0)
  }

  function Failures(details: seq<FetchResult>): nat
  {
    if details == [] then 0
    else Failures(details[..|details| - 1]) + (if details[|details| - 1].FetchFailed? then 1 else 0)
  }

  function ApiCalls(details: seq<FetchResult>): nat
  {
    if details == [] then 0
    else
      var d := details[|details| - 1];
      ApiCalls(details[..|details| - 1]) + (if d.Fetched? then d.apiCallsUsed else 0)
  }

  function NotificationsSent(details: seq<FetchResult>): nat
  {
    if details == [] then 0
    else
      var d := details[|details| - 1];
      NotificationsSent(details[..|details| - 1]) + (if d.Fetched? && d.notificationSent then 1 else 0)
  }

  /** One more record adds to each counter what the loop adds. */
  lemma CountStep(details: seq<FetchResult>, r: FetchResult)
    ensures var more := details + [r];
      && Successes(more) == Successes(details) + (if r.Fetched? then 1 else 0)
      && Failures(more) == Failures(details) + (if r.FetchFailed? then 1 else 0)
      && ApiCalls(more) == ApiCalls(details) + (if r.Fetched? then r.apiCallsUsed else 0)
      && NotificationsSent(more) == NotificationsSent(details) + (if r.Fetched? && r.notificationSent then 1 else 0)
  {
    assert (details + [r])[..|details|] == details;
  }

  /** The summary of a run that produced `details`. */
  function Summarize(details: seq<FetchResult>): Summary
  {
    Ran(|details|, ApiCalls(details), NotificationsSent(details), Successes(details), Failures(details),
        CostPerCallCents * ApiCalls(details), details)
  }

  /** The per-property records of a run over `due`. */
  function Outcomes(connected: bool, due: seq<(User, Property)>, gateway: Gateway, w: Window): (r: seq<FetchResult>)
    ensures |r| == |due|
  {
    seq(|due|, i requires 0 <= i < |due| => FetchOutcome(connected, due[i].0, due[i].1, gateway, w))
  }

  /** The rows a run over `due` imports, property after property. */
  function RunImports(connected: bool, due: seq<(User, Property)>, gateway: Gateway, w: Window, firstId: nat): seq<Transaction>
  {
    if due == [] then []
    else
      var before := RunImports(connected, due[..|due| - 1], gateway, w, firstId);
      var last := due[|due| - 1];
      before + FetchImports(connected, last.0, last.1, gateway, w, firstId + |before|)
  }

  /** The notices a run over `due` sends, property after property. */
  function RunNotices(connected: bool, due: seq<(User, Property)>, gateway: Gateway, w: Window): seq<Notice>
  {
    if due == [] then []
    else
      var last := due[|due| - 1];
      RunNotices(connected, due[..|due| - 1], gateway, w) + FetchNotices(connected, last.0, last.1, gateway, w)
  }

  /** `SmartRentScheduler.run_daily_smart_check`. */
  method RunDailySmartCheck(store: TransactionStore, notifier: Notifier, users: seq<User>, props: seq<Property>,
                            gateway: Gateway, today: CalDate)
    returns (s: Summary)
    requires store.Valid()
    modifies store, notifier
    ensures store.Valid()
    ensures var due := DueToday(users, props, today);
      s == if due == [] then NothingDue else Summarize(Outcomes(store.connected, due, gateway, FetchWindow(today)))
    ensures var due := DueToday(users, props, today);
      store.rows == old(store.rows) + RunImports(store.connected, due, gateway, FetchWindow(today), old(store.nextId))
    ensures notifier.sent == old(notifier.sent) + RunNotices(store.connected, DueToday(users, props, today), gateway, FetchWindow(today))
  {
    var due := PropertiesDueForCheckToday(users, props, today);
    if |due| == 0 {
      return NothingDue;
    }
    s := CheckDueProperties(store, notifier, due, gateway, FetchWindow(today));
  }

  /** The loop of the daily run over the due properties, with its counters. */
  method CheckDueProperties(store: TransactionStore, notifier: Notifier, due: seq<(User, Property)>, gateway: Gateway, w: Window)
    returns (s: Summary)
    requires store.Valid()
    modifies store, notifier
    ensures store.Valid()
    ensures s == Summarize(Outcomes(store.connected, due, gateway, w))
    ensures store.rows == old(store.rows) + RunImports(store.connected, due, gateway, w, old(store.nextId))
    ensures notifier.sent == old(notifier.sent) + RunNotices(store.connected, due, gateway, w)
  {
    ghost var rows0 := store.rows;
    ghost var id0 := store.nextId;
    ghost var sent0 := notifier.sent;
    var checked, apiCalls, notifications, successful, failed := 0, 0, 0, 0, 0;
    var details: seq<FetchResult> := [];
    var i := 0;
    while i < |due|
      invariant 0 <= i <= |due|
      invariant RunSoFar(store, notifier, due, i, gateway, w, rows0, id0, sent0, details)
      invariant checked == i && successful == Successes(details) && failed == Failures(details)
      invariant apiCalls == ApiCalls(details) && notifications == NotificationsSent(details)
    {
      var result := CheckDueProperty(store, notifier, due, i, gateway, w, rows0, id0, sent0, details);
      CountStep(details, result);
      checked := checked + 1;
      details := details + [result];
      if result.Fetched? {
        successful := successful + 1;
        apiCalls := apiCalls + result.apiCallsUsed;
        if result.notificationSent {
          notifications := notifications + 1;
        }
      } else {
        failed := failed + 1;
      }
      i := i + 1;
    }
    assert due[..i] == due;
    s := Ran(checked, apiCalls, notifications, successful, failed, CostPerCallCents * apiCalls, details);
  }

  /**
   * After the first `k` due properties: the records of their fetches, and
   * the table and the notices extended by what those fetches imported and sent.
   */
  ghost predicate RunSoFar(store: TransactionStore, notifier: Notifier, due: seq<(User, Property)>, k: nat,
                           gateway: Gateway, w: Window,
                           rows0: seq<Transaction>, id0: nat, sent0: seq<Notice>, details: seq<FetchResult>)
    requires k <= |due|
    reads store, notifier
  {
    && store.Valid()
    && details == Outcomes(store.connected, due[..k], gateway, w)
    && store.rows == rows0 + RunImports(store.connected, due[..k], gateway, w, id0)
    && store.nextId == id0 + |RunImports(store.connected, due[..k], gateway, w, id0)|
    && notifier.sent == sent0 + RunNotices(store.connected, due[..k], gateway, w)
  }

  /** One turn of the daily run: the fetch for `due[i]`, which extends the run's imports and notices. */
  method CheckDueProperty(store: TransactionStore, notifier: Notifier, due: seq<(User, Property)>, i: nat,
                          gateway: Gateway, w: Window,
                          ghost rows0: seq<Transaction>, ghost id0: nat, ghost sent0: seq<Notice>,
                          ghost details: seq<FetchResult>)
    returns (result: FetchResult)
    requires i < |due| && RunSoFar(store, notifier, due, i, gateway, w, rows0, id0, sent0, details)
    modifies store, notifier
    ensures RunSoFar(store, notifier, due, i + 1, gateway, w, rows0, id0, sent0, details + [result])
  {
    ghost var r0, n0, s0 := store.rows, store.nextId, notifier.sent;
    result := FetchInWindow(store, notifier, due[i].0, due[i].1, gateway, w);
    RunImportsNext(store.connected, due, i, gateway, w, id0, rows0, r0, n0);
    RunNoticesNext(store.connected, due, i, gateway, w, sent0, s0);
    OutcomesStep(store.connected, due[..i + 1], gateway, w);
    assert due[..i + 1][..i] == due[..i];
  }

  /** The table after one more fetch is that of the run one property longer... */
  lemma RunImportsNext(connected: bool, due: seq<(User, Property)>, i: nat, gateway: Gateway, w: Window, id0: nat,
                       rows0: seq<Transaction>, r0: seq<Transaction>, n0: nat)
    requires i < |due|
    requires r0 == rows0 + RunImports(connected, due[..i], gateway, w, id0)
    requires n0 == id0 + |RunImports(connected, due[..i], gateway, w, id0)|
    ensures var added := FetchImports(connected, due[i].0, due[i].1, gateway, w, n0);
      && r0 + added == rows0 + RunImports(connected, due[..i + 1], gateway, w, id0)
      && n0 + |added| == id0 + |RunImports(connected, due[..i + 1], gateway, w, id0)|
  {
    var prior := RunImports(connected, due[..i], gateway, w, id0);
    var added := FetchImports(connected, due[i].0, due[i].1, gateway, w, n0);
    RunImportsStep(connected, due, i, gateway, w, id0);
    assert RunImports(connected, due[..i + 1], gateway, w, id0) == prior + added;
    AppendAssociative(rows0, prior, added);
  }

  /** ... and so are the notices. */
  lemma RunNoticesNext(connected: bool, due: seq<(User, Property)>, i: nat, gateway: Gateway, w: Window,
                       sent0: seq<Notice>, s0: seq<Notice>)
    requires i < |due|
    requires s0 == sent0 + RunNotices(connected, due[..i], gateway, w)
    ensures s0 + FetchNotices(connected, due[i].0, due[i].1, gateway, w)
         == sent0 + RunNotices(connected, due[..i + 1], gateway, w)
  {
    RunNoticesStep(connected, due, i, gateway, w);
    AppendAssociative(sent0, RunNotices(connected, due[..i], gateway, w), FetchNotices(connected, due[i].0, due[i].1, gateway, w));
  }

  lemma AppendAssociative<T>(a: seq<T>, b: seq<T>, c: seq<T>)
    ensures a + b + c == a + (b + c)
  {
  }

  /** One more property extends the imports of a run... */
  lemma RunImportsStep(connected: bool, due: seq<(User, Property)>, i: nat, gateway: Gateway, w: Window, firstId: nat)
    requires i < |due|
    ensures RunImports(connected, due[..i + 1], gateway, w, firstId)
         == RunImports(connected, due[..i], gateway, w, firstId)
          + FetchImports(connected, due[i].0, due[i].1, gateway, w,
                         firstId + |RunImports(connected, due[..i], gateway, w, firstId)|)
  {
    var longer := due[..i + 1];
    assert longer[..i] == due[..i] && longer[i] == due[i];
  }

  /** ... and its notices. */
  lemma RunNoticesStep(connected: bool, due: seq<(User, Property)>, i: nat, gateway: Gateway, w: Window)
    requires i < |due|
    ensures RunNotices(connected, due[..i + 1], gateway, w)
         == RunNotices(connected, due[..i], gateway, w) + FetchNotices(connected, due[i].0, due[i].1, gateway, w)
  {
    var longer := due[..i + 1];
    assert longer[..i] == due[..i] && longer[i] == due[i];
  }

  lemma OutcomesStep(connected: bool, due: seq<(User, Property)>, gateway: Gateway, w: Window)
    requires due != []
    ensures var n := |due| - 1;
      Outcomes(connected, due, gateway, w)
        == Outcomes(connected, due[..n], gateway, w) + [FetchOutcome(connected, due[n].0, due[n].1, gateway, w)]
  {
    var n := |due| - 1;
    var a := Outcomes(connected, due, gateway, w);
    var b := Outcomes(connected, due[..n], gateway, w) + [FetchOutcome(connected, due[n].0, due[n].1, gateway, w)];
    forall k | 0 <= k < |a| ensures a[k] == b[k] {
      if k < n {
        assert due[..n][k] == due[k];
      }
    }
  }

  /**
   * Every property checked is either a success or a failure; calls and
   * notices come from successes only; the cost is ten cents a call. For the
   * records of a run, every success is exactly one call.
   */
  lemma {:induction false} SummarizeFacts(details: seq<FetchResult>)
    ensures var s := Summarize(details);
      && s.successfulChecks + s.failedChecks == s.propertiesChecked == |details|
      && s.notificationsSent <= s.successfulChecks
      && s.totalCostCents == 10 * s.apiCallsUsed
    ensures (forall k :: 0 <= k < |details| && details[k].Fetched? ==> details[k].apiCallsUsed == 1)
      ==> ApiCalls(details) == Successes(details)
  {
    if details != [] {
      var n := |details| - 1;
      SummarizeFacts(details[..n]);
      if forall k :: 0 <= k < |details| && details[k].Fetched? ==> details[k].apiCallsUsed == 1 {
        forall k | 0 <= k < n && details[..n][k].Fetched? ensures details[..n][k].apiCallsUsed == 1 {
          assert details[..n][k] == details[k];
        }
      }
    }
  }

  /** In a run's records every success used one call, so the cost is ten cents per success. */
  lemma RunCost(connected: bool, due: seq<(User, Property)>, gateway: Gateway, w: Window)
    ensures var s := Summarize(Outcomes(connected, due, gateway, w));
      s.apiCallsUsed == s.successfulChecks && s.totalCostCents == 10 * s.successfulChecks
  {
    var details := Outcomes(connected, due, gateway, w);
    forall k | 0 <= k < |details| && details[k].Fetched? ensures details[k].apiCallsUsed == 1 {
      FetchOutcomeFacts(connected, due[k].0, due[k].1, gateway, gateway, w);
    }
    SummarizeFacts(details);
  }

  /**
   * With the gateway call as written every check fails: a run reports no
   * success, no call and no cost, whatever is due.
   */
  lemma {:induction false} RunAsWrittenFindsNothing(details: seq<FetchResult>, due: seq<(User, Property)>)
    requires |details| == |due|
    requires forall k :: 0 <= k < |due| ==> details[k] == FetchAsWritten(due[k].0, due[k].1)
    ensures var s := Summarize(details);
      s.successfulChecks == 0 && s.failedChecks == |due| && s.apiCallsUsed == 0 && s.totalCostCents == 0
  {
    if details != [] {
      var n := |details| - 1;
      RunAsWrittenFindsNothing(details[..n], due[..n]);
    }
  }

  // ---------------------------------------------------------------------------
  // The 30-day schedule

  /** One line of the schedule. The address is None when the property has none. */
  datatype ScheduleEntry = ScheduleEntry(
    checkDate: CalDate,
    propertyId: int,
    propertyAddress: Option<string>,
    userEmail: string,
    rentCents: int,
    frequency: string)

  function EntryFor(checkDate: CalDate, pair: (User, Property)): ScheduleEntry
  {
    ScheduleEntry(checkDate, pair.1.id, pair.1.address, pair.0.email, pair.1.rentCents, pair.1.frequency)
  }

  /** The entries of one check date, in the order of the pairs. */
  function DayEntries(pairs: seq<(User, Property)>, checkDate: CalDate): (r: seq<ScheduleEntry>)
    ensures forall e :: e in r ==> e.checkDate == checkDate
  {
    if pairs == [] then []
    else
      var pair := pairs[|pairs| - 1];
      DayEntries(pairs[..|pairs| - 1], checkDate)
      + (if ShouldCheck(pair.1, PrevDay(checkDate)) then [EntryFor(checkDate, pair)] else [])
  }

  /** The entries of the check dates one to `days` days after today, date by date. */
  function Planned(pairs: seq<(User, Property)>, today: CalDate, days: nat): seq<ScheduleEntry>
  {
    if days == 0 then [] else Planned(pairs, today, days - 1) + DayEntries(pairs, AddDays(today, days))
  }

  function CheckDateKey(e: ScheduleEntry): int
  {
    Ordinal(e.checkDate)
  }

  /** `SmartRentScheduler.schedule_rent_checks`. */
  method ScheduleRentChecks(users: seq<User>, props: seq<Property>, today: CalDate)
    returns (schedule: seq<ScheduleEntry>)
    ensures schedule == Planned(Linked(users, props), today, 30)
  {
    var all := CollectLinkedProperties(users, props);
    schedule := [];
    var daysAhead := 1;
    while daysAhead <= 30
      invariant 1 <= daysAhead <= 31
      invariant schedule == Planned(all, today, daysAhead - 1)
    {
      var checkDate := AddDays(today, daysAhead);
      schedule := AppendDayEntries(schedule, all, checkDate);
      daysAhead := daysAhead + 1;
    }
    assert daysAhead - 1 == 30;
    PlannedSortIsIdentity(all, today, 30);
    schedule := Sorting.SortBy(schedule, CheckDateKey);
  }

  /** The plan is already in date order, so the final sort leaves it as it is. */
  lemma PlannedSortIsIdentity(pairs: seq<(User, Property)>, today: CalDate, days: nat)
    ensures Sorting.SortBy(Planned(pairs, today, days), CheckDateKey) == Planned(pairs, today, days)
  {
    PlannedSorted(pairs, today, days);
    Sorting.SortBySortedIsIdentity(Planned(pairs, today, days), CheckDateKey);
  }

  /** The inner loop of the schedule: the entries of one check date appended in property order. */
  method AppendDayEntries(schedule: seq<ScheduleEntry>, all: seq<(User, Property)>, checkDate: CalDate)
    returns (r: seq<ScheduleEntry>)
    ensures r == schedule + DayEntries(all, checkDate)
  {
    var rentDueDate := PrevDay(checkDate);
    r := schedule;
    var j := 0;
    while j < |all|
      invariant 0 <= j <= |all|
      invariant r == schedule + DayEntries(all[..j], checkDate)
    {
      assert all[..j + 1][..j] == all[..j];
      if ShouldCheck(all[j].1, rentDueDate) {
        r := r + [EntryFor(checkDate, all[j])];
      }
      j := j + 1;
    }
    assert all[..j] == all;
  }

  /** `e` is the entry of a pair whose property passes the check for the day before `e`'s date. */
  predicate Justified(e: ScheduleEntry, pairs: seq<(User, Property)>)
  {
    exists pair :: pair in pairs && ShouldCheck(pair.1, PrevDay(e.checkDate)) && e == EntryFor(e.checkDate, pair)
  }

  /** `e` is dated one to `days` days after today. */
  predicate DatedWithin(e: ScheduleEntry, today: CalDate, days: nat)
  {
    exists k :: 1 <= k <= days && e.checkDate == AddDays(today, k)
  }

  /**
   * Every entry is dated one to `days` days after today, for a pair whose
   * property passes the check for the day before that date.
   */
  lemma {:induction false} PlannedSound(pairs: seq<(User, Property)>, today: CalDate, days: nat)
    ensures forall e :: e in Planned(pairs, today, days) ==> Justified(e, pairs) && DatedWithin(e, today, days)
  {
    if days > 0 {
      PlannedSound(pairs, today, days - 1);
      var before := Planned(pairs, today, days - 1);
      var check := AddDays(today, days);
      DayEntriesSpec(pairs, check);
      forall e | e in Planned(pairs, today, days)
        ensures Justified(e, pairs) && DatedWithin(e, today, days)
      {
        if e in before {
          var k :| 1 <= k <= days - 1 && e.checkDate == AddDays(today, k);
        } else {
          assert e in DayEntries(pairs, check);
        }
      }
    }
  }

  /** Every pair and date whose check passes has its entry. */
  lemma {:induction false} PlannedComplete(pairs: seq<(User, Property)>, today: CalDate, days: nat)
    ensures forall k, pair ::
      (1 <= k <= days && pair in pairs && ShouldCheck(pair.1, PrevDay(AddDays(today, k))))
      ==> EntryFor(AddDays(today, k), pair) in Planned(pairs, today, days)
  {
    if days > 0 {
      PlannedComplete(pairs, today, days - 1);
      DayEntriesSpec(pairs, AddDays(today, days));
    }
  }

  lemma {:induction false} DayEntriesSpec(pairs: seq<(User, Property)>, checkDate: CalDate)
    ensures forall e :: e in DayEntries(pairs, checkDate) <==> e.checkDate == checkDate && Justified(e, pairs)
  {
    if pairs != [] {
      var n := |pairs| - 1;
      DayEntriesSpec(pairs[..n], checkDate);
      assert pairs == pairs[..n] + [pairs[n]];
    }
  }

  /** The schedule is in ascending check-date order. */
  lemma {:induction false} PlannedSorted(pairs: seq<(User, Property)>, today: CalDate, days: nat)
    ensures Sorting.SortedBy(Planned(pairs, today, days), CheckDateKey)
    ensures forall e :: e in Planned(pairs, today, days) ==> Ordinal(e.checkDate) <= Ordinal(today) + days
  {
    if days > 0 {
      PlannedSorted(pairs, today, days - 1);
      var before := Planned(pairs, today, days - 1);
      var day := DayEntries(pairs, AddDays(today, days));
      AddDaysOrdinal(today, days);
      var r := before + day;
      forall i, j | 0 <= i < j < |r| ensures CheckDateKey(r[i]) <= CheckDateKey(r[j]) {
        if j < |before| {
          assert r[i] == before[i] && r[j] == before[j];
        } else if i >= |before| {
          assert r[i] in day && r[j] in day;
        } else {
          assert r[i] in before && r[j] in day;
        }
      }
      forall e | e in r ensures Ordinal(e.checkDate) <= Ordinal(today) + days {
        if e in before {} else { assert e in day; }
      }
    }
  }

  /** Every check date lies between tomorrow and thirty days ahead. */
  lemma ScheduleWindow(users: seq<User>, props: seq<Property>, today: CalDate)
    ensures forall e :: e in Planned(Linked(users, props), today, 30) ==>
      Ordinal(today) + 1 <= Ordinal(e.checkDate) <= Ordinal(today) + 30
  {
    var pairs := Linked(users, props);
    PlannedSound(pairs, today, 30);
    forall e | e in Planned(pairs, today, 30)
      ensures Ordinal(today) + 1 <= Ordinal(e.checkDate) <= Ordinal(today) + 30
    {
      var k :| 1 <= k <= 30 && e.checkDate == AddDays(today, k);
      AddDaysOrdinal(today, k);
    }
  }
}
