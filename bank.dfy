/**
 * The bank-feed service: the authorisation URL, the mock account list, and
 * the import of fetched transactions into the transactions table. The HTTP
 * calls themselves are not modelled; what a fetch returned is an input.
 */
module Bank {
  import opened Common
  import opened Dates
  import opened Domain

  /**
   * A field of a fetched transaction: missing from the record, present but
   * not convertible (a date `fromisoformat` rejects, an amount `float`
   * rejects; `error` is the text of the exception), or present with its
   * converted value.
   */
  datatype Field<T> = Absent | Malformed(error: string) | Value(v: T)

  /**
   * One transaction as the bank feed returns it. `date` is the calendar date
   * of the timestamp; `amountCents` the signed amount; `description` None
   * when the record has no description key.
   */
  datatype RawTxn = RawTxn(date: Field<CalDate>, amountCents: Field<int>, description: Option<string>)

  const BaseUrl := "https://api.akahu.io/v1"

  /** `get_authorization_url`. */
  function AuthorizationUrl(clientId: string, userId: nat, redirectUri: string): string
  {
    BaseUrl + "/auth?client_id=" + clientId + "&" + "redirect_uri=" + redirectUri + "&" + "state=" + NatToString(userId)
  }

  /**
   * When neither the client id nor the redirect URI holds an '&', the query
   * splits into exactly the three parameters, in order, after `/auth?`.
   */
  lemma AuthorizationUrlParameters(clientId: string, userId: nat, redirectUri: string)
    requires '&' !in clientId && '&' !in redirectUri
    ensures Split(AuthorizationUrl(clientId, userId, redirectUri), '&')
         == [BaseUrl + "/auth?client_id=" + clientId, "redirect_uri=" + redirectUri, "state=" + NatToString(userId)]
  {
    var a := BaseUrl + "/auth?client_id=" + clientId;
    var b := "redirect_uri=" + redirectUri;
    var c := "state=" + NatToString(userId);
    UrlPiecesPlain();
    CharNotInConcat('&', BaseUrl + "/auth?client_id=", clientId);
    CharNotInConcat('&', "redirect_uri=", redirectUri);
    CharNotInConcat('&', "state=", NatToString(userId));
    UrlJoin(a, b, c);
    assert AuthorizationUrl(clientId, userId, redirectUri) == a + "&" + b + "&" + c by {
      AppendFour(a, "&", "redirect_uri=", redirectUri);
      AppendFour(a + "&" + b, "&", "state=", NatToString(userId));
    }
    SplitJoin([a, b, c], '&');
  }

  lemma UrlPiecesPlain()
    ensures '&' !in BaseUrl + "/auth?client_id=" && '&' !in "redirect_uri=" && '&' !in "state="
  {
    assert '&' !in BaseUrl;
    assert '&' !in "/auth?client_id=";
    CharNotInConcat('&', BaseUrl, "/auth?client_id=");
  }

  lemma AppendFour(a: string, b: string, c: string, d: string)
    ensures a + b + c + d == a + b + (c + d)
  {
  }

  lemma UrlJoin(a: string, b: string, c: string)
    ensures Join([a, b, c], '&') == a + "&" + b + "&" + c
  {
    assert [a, b, c][1..] == [b, c] && [b, c][1..] == [c];
    assert Join([b, c], '&') == b + "&" + c;
  }

  datatype Account = Account(id: string, name: string, bank: string, kind: string)

  /** `MockAkahuService.get_accounts`: two fixed accounts, whatever the token. */
  function MockGetAccounts(accessToken: string): (r: seq<Account>)
    ensures |r| == 2 && r[0].id == "acc_test_123" && r[1].id == "acc_test_456"
    ensures r[0].kind == "CHECKING" && r[1].kind == "SAVINGS"
  {
    [Account("acc_test_123", "BNZ Everyday Account", "BNZ", "CHECKING"),
     Account("acc_test_456", "ASB Savings Account", "ASB", "SAVINGS")]
  }

  /** A fetched transaction the import turns into a row: both fields convert and the amount is a credit. */
  predicate Importable(t: RawTxn)
  {
    t.date.Value? && t.amountCents.Value? && t.amountCents.v > 0
  }

  /** The rows the import writes for `txns`, numbered from `firstId`. */
  function ImportRows(txns: seq<RawTxn>, propertyId: int, firstId: nat): (r: seq<Transaction>)
    ensures |r| <= |txns|
    decreases |txns|
  {
    if txns == [] then []
    else
      var n := |txns| - 1;
      var before := ImportRows(txns[..n], propertyId, firstId);
      var t := txns[n];
      if Importable(t) then
        before + [Transaction(firstId + |before|, propertyId, t.date.v, Abs(t.amountCents.v),
                              if t.description.Some? then t.description.value else "", false)]
      else before
  }

  /** The number of fetched transactions that are credits with a readable date. */
  function CountImportable(txns: seq<RawTxn>): (n: nat)
  {
    if txns == [] then 0
    else CountImportable(txns[..|txns| - 1]) + (if Importable(txns[|txns| - 1]) then 1 else 0)
  }

  function CountCredits(txns: seq<RawTxn>): (n: nat)
  {
    if txns == [] then 0
    else CountCredits(txns[..|txns| - 1]) + (if IsCredit(txns[|txns| - 1]) then 1 else 0)
  }

  /** The amount converts and is positive. */
  predicate IsCredit(t: RawTxn)
  {
    t.amountCents.Value? && t.amountCents.v > 0
  }

  /** `row` is the import of some importable transaction of `txns`. */
  predicate ImportedFrom(row: Transaction, txns: seq<RawTxn>)
  {
    exists i :: 0 <= i < |txns| && Importable(txns[i]) && FromRaw(row, txns[i])
  }

  predicate FromRaw(row: Transaction, t: RawTxn)
    requires Importable(t)
  {
    row.date == t.date.v && row.amountCents == t.amountCents.v
  }

  /**
   * Every imported row is a credit of the property, stored unmatched with
   * the transaction's own positive amount; one row per importable
   * transaction, so never more than the credits, nor than the fetched list.
   */
  lemma {:induction false} ImportRowsSpec(txns: seq<RawTxn>, propertyId: int, firstId: nat)
    ensures var r := ImportRows(txns, propertyId, firstId);
      && |r| == CountImportable(txns) <= CountCredits(txns) <= |txns|
      && (forall k :: 0 <= k < |r| ==> r[k].id == firstId + k && r[k].propertyId == propertyId)
      && (forall k :: 0 <= k < |r| ==> r[k].amountCents > 0 && !r[k].matched)
      && (forall k :: 0 <= k < |r| ==> ImportedFrom(r[k], txns))
    decreases |txns|
  {
    if txns != [] {
      var n := |txns| - 1;
      ImportRowsSpec(txns[..n], propertyId, firstId);
      var r := ImportRows(txns, propertyId, firstId);
      var before := ImportRows(txns[..n], propertyId, firstId);
      forall k | 0 <= k < |r|
        ensures ImportedFrom(r[k], txns)
      {
        if k < |before| {
          assert r[k] == before[k];
          assert ImportedFrom(before[k], txns[..n]);
          var i :| 0 <= i < n && Importable(txns[..n][i]) && FromRaw(before[k], txns[..n][i]);
          assert txns[..n][i] == txns[i];
        } else {
          assert FromRaw(r[k], txns[n]);
        }
      }
    }
  }

  /**
   * `store_transactions`: imports the credits with a readable date and
   * amount, skipping the others, and counts the rows the store created.
   */
  method StoreTransactions(store: TransactionStore, txns: seq<RawTxn>, propertyId: int)
    returns (storedCount: nat)
    requires store.Valid()
    modifies store
    ensures store.Valid()
    ensures store.rows == old(store.rows) + Imported(store.connected, txns, propertyId, old(store.nextId))
    ensures store.nextId == old(store.nextId) + storedCount
    ensures storedCount == |Imported(store.connected, txns, propertyId, old(store.nextId))|
  {
    storedCount := 0;
    ghost var rows0 := store.rows;
    ghost var first := store.nextId;
    var i := 0;
    while i < |txns|
      invariant 0 <= i <= |txns|
      invariant store.Valid()
      invariant store.rows == rows0 + Imported(store.connected, txns[..i], propertyId, first)
      invariant storedCount == |Imported(store.connected, txns[..i], propertyId, first)|
      invariant store.nextId == first + storedCount
    {
      var t := txns[i];
      assert txns[..i + 1][..i] == txns[..i];
      if t.date.Value? && t.amountCents.Value? {
        var description := if t.description.Some? then t.description.value else "";
        if t.amountCents.v > 0 {
          var created := store.Create(propertyId, t.date.v, Abs(t.amountCents.v), description);
          if created.Some? {
            storedCount := storedCount + 1;
          }
        }
      }
      i := i + 1;
    }
    assert txns[..i] == txns;
  }

  /** The rows an import writes: none without a database connection. */
  function Imported(connected: bool, txns: seq<RawTxn>, propertyId: int, firstId: nat): seq<Transaction>
  {
    if connected then ImportRows(txns, propertyId, firstId) else []
  }

  lemma ImportRowsLength(txns: seq<RawTxn>, propertyId: int, firstId: nat)
    ensures |ImportRows(txns, propertyId, firstId)| == CountImportable(txns)
    decreases |txns|
  {
    if txns != [] {
      ImportRowsLength(txns[..|txns| - 1], propertyId, firstId);
    }
  }

  datatype SyncResult = Synced(transactionsFound: nat, transactionsStored: nat) | SyncFailed(error: string)

  /**
   * `sync_property_transactions`, given what fetching the account's recent
   * transactions produced (an error stands for an exception escaping it).
   */
  method SyncPropertyTransactions(store: TransactionStore, fetched: Result<seq<RawTxn>>, propertyId: int)
    returns (r: SyncResult)
    requires store.Valid()
    modifies store
    ensures store.Valid()
    ensures fetched.Err? ==> r == SyncFailed(fetched.error) && store.rows == old(store.rows)
    ensures fetched.Ok? ==>
      && r.Synced?
      && r.transactionsFound == |fetched.value|
      && r.transactionsStored == (if store.connected then CountImportable(fetched.value) else 0)
      && r.transactionsStored <= r.transactionsFound
      && store.rows == old(store.rows) + Imported(store.connected, fetched.value, propertyId, old(store.nextId))
  {
    if fetched.Err? {
      return SyncFailed(fetched.error);
    }
    var stored := StoreTransactions(store, fetched.value, propertyId);
    ImportRowsSpec(fetched.value, propertyId, old(store.nextId));
    r := Synced(|fetched.value|, stored);
  }
}
