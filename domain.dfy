/**
 * The records the rent engine reads (users, properties) and the transaction
 * table it writes, held in memory. A property's due day is stored as an
 * integer day of month by one schema and as a weekday name by the other, and
 * each function of the engine treats it as the type it expects; `DueDay`
 * keeps both forms so that every function can be modelled on the value it
 * actually receives.
 */
module Domain {
  import opened Common
  import opened Dates
  import Sorting

  datatype DueDay = DayNumber(n: int) | DayName(name: string)

  datatype User = User(id: int, email: string, accessToken: Option<string>, bankConnected: bool)

  /**
   * A rental property. `keyword` is None when the property record has no
   * keyword attribute at all (the Property class of the models package has
   * none); rent is in cents.
   */
  datatype Property = Property(
    id: int,
    userId: int,
    name: string,
    address: Option<string>,
    rentCents: int,
    dueDay: DueDay,
    frequency: string,
    keyword: Option<string>,
    tenantNickname: Option<string>)

  datatype Transaction = Transaction(
    id: nat,
    propertyId: int,
    date: CalDate,
    amountCents: int,
    description: string,
    matched: bool)

  /** Ids strictly increase along the table and stay below the next id. */
  ghost predicate WellNumbered(rows: seq<Transaction>, nextId: nat)
  {
    (forall i, j :: 0 <= i < j < |rows| ==> rows[i].id < rows[j].id)
    && (forall i :: 0 <= i < |rows| ==> rows[i].id < nextId)
  }

  /** The rows of one property dated within [lo, hi] (ordinals), in table order. */
  function InRange(rows: seq<Transaction>, propertyId: int, lo: int, hi: int): (r: seq<Transaction>)
    ensures forall t :: t in r ==> t in rows
    ensures |r| <= |rows|
  {
    if rows == [] then []
    else
      var t := rows[0];
      (if t.propertyId == propertyId && lo <= Ordinal(t.date) <= hi then [t] else [])
      + InRange(rows[1..], propertyId, lo, hi)
  }

  /** The key of `ORDER BY date DESC`. */
  function DateDescending(t: Transaction): int
  {
    -Ordinal(t.date)
  }

  /** `UPDATE transactions SET matched = TRUE WHERE id = ...` for each id of `ids`. */
  function MarkIds(rows: seq<Transaction>, ids: set<nat>): (r: seq<Transaction>)
    ensures |r| == |rows|
    ensures forall i :: 0 <= i < |rows| ==>
      r[i] == if rows[i].id in ids then rows[i].(matched := true) else rows[i]
  {
    seq(|rows|, i requires 0 <= i < |rows| =>
      if rows[i].id in ids then rows[i].(matched := true) else rows[i])
  }

  /**
   * The transactions table. `connected` is false when no database connection
   * can be had: every call then returns its failure value (None, [], False)
   * and changes nothing, as each model method of the transactions module does.
   */
  class TransactionStore {
    var rows: seq<Transaction>
    var nextId: nat
    const connected: bool

    ghost predicate Valid()
      reads this
    {
      WellNumbered(rows, nextId)
    }

    constructor (connected: bool)
      ensures Valid() && rows == [] && this.connected == connected
    {
      rows := [];
      nextId := 1;
      this.connected := connected;
    }

    /** `Transaction.create_transaction`: the new row, or None. */
    method Create(propertyId: int, date: CalDate, amountCents: int, description: string)
      returns (t: Option<Transaction>)
      requires Valid()
      modifies this
      ensures Valid()
      ensures !connected ==> t == None && rows == old(rows) && nextId == old(nextId)
      ensures connected ==>
        && t == Some(Transaction(old(nextId), propertyId, date, amountCents, description, false))
        && rows == old(rows) + [t.value]
        && nextId == old(nextId) + 1
    {
      if !connected {
        t := None;
      } else {
        var row := Transaction(nextId, propertyId, date, amountCents, description, false);
        rows := rows + [row];
        nextId := nextId + 1;
        t := Some(row);
      }
    }

    /**
     * `Transaction.get_by_date_range`: the property's rows dated within
     * [lo, hi], latest first; ties keep table order.
     */
    function RangeQuery(propertyId: int, lo: CalDate, hi: CalDate): seq<Transaction>
      reads this
    {
      if !connected then [] else DateRange(rows, propertyId, lo, hi)
    }

    /** `Transaction.mark_as_matched`. */
    method MarkAsMatched(id: nat) returns (ok: bool)
      requires Valid()
      modifies this
      ensures Valid() && nextId == old(nextId)
      ensures ok == connected
      ensures rows == if connected then MarkIds(old(rows), {id}) else old(rows)
    {
      ok := connected;
      if connected {
        rows := MarkIds(rows, {id});
      }
    }
  }

  /** The rows the date-range query selects, latest first; ties keep table order. */
  function DateRange(rows: seq<Transaction>, propertyId: int, lo: CalDate, hi: CalDate): seq<Transaction>
  {
    Sorting.SortBy(InRange(rows, propertyId, Ordinal(lo), Ordinal(hi)), DateDescending)
  }

  /** The query returns exactly the property's rows in the range, latest first. */
  lemma DateRangeSpec(rows: seq<Transaction>, propertyId: int, lo: CalDate, hi: CalDate)
    ensures multiset(DateRange(rows, propertyId, lo, hi))
         == multiset(InRange(rows, propertyId, Ordinal(lo), Ordinal(hi)))
    ensures Sorting.SortedBy(DateRange(rows, propertyId, lo, hi), DateDescending)
    ensures forall t :: t in DateRange(rows, propertyId, lo, hi) <==>
      t in rows && t.propertyId == propertyId && Ordinal(lo) <= Ordinal(t.date) <= Ordinal(hi)
  {
    var w := InRange(rows, propertyId, Ordinal(lo), Ordinal(hi));
    Sorting.SortBySorted(w, DateDescending);
    InRangeSpec(rows, propertyId, Ordinal(lo), Ordinal(hi));
    forall t
      ensures t in DateRange(rows, propertyId, lo, hi) <==> t in w
    {
      assert t in DateRange(rows, propertyId, lo, hi) <==> t in multiset(DateRange(rows, propertyId, lo, hi));
      assert t in w <==> t in multiset(w);
    }
  }

  /** InRange keeps exactly the rows of the property inside the range. */
  lemma {:induction false} InRangeSpec(rows: seq<Transaction>, propertyId: int, lo: int, hi: int)
    ensures forall t :: t in InRange(rows, propertyId, lo, hi) <==>
      t in rows && t.propertyId == propertyId && lo <= Ordinal(t.date) <= hi
  {
    if rows != [] {
      InRangeSpec(rows[1..], propertyId, lo, hi);
      assert rows == [rows[0]] + rows[1..];
    }
  }

  /** Marking one id after a set of ids is marking their union. */
  lemma MarkIdsUnion(rows: seq<Transaction>, a: set<nat>, b: set<nat>)
    ensures MarkIds(MarkIds(rows, a), b) == MarkIds(rows, a + b)
  {
  }

  /** A row with its matched flag set. */
  function SetMatched(t: Transaction): Transaction
  {
    t.(matched := true)
  }

  /**
   * Marking rows changes only their matched flags: with every flag set, the
   * range query returns the same rows before and after.
   */
  lemma {:induction false} MarkIdsDateRange(rows: seq<Transaction>, ids: set<nat>, propertyId: int, lo: CalDate, hi: CalDate)
    ensures Sorting.Map(SetMatched, DateRange(MarkIds(rows, ids), propertyId, lo, hi))
         == Sorting.Map(SetMatched, DateRange(rows, propertyId, lo, hi))
  {
    var a := InRange(MarkIds(rows, ids), propertyId, Ordinal(lo), Ordinal(hi));
    var b := InRange(rows, propertyId, Ordinal(lo), Ordinal(hi));
    MarkIdsInRange(rows, ids, propertyId, Ordinal(lo), Ordinal(hi));
    Sorting.SortByMap(a, DateDescending, SetMatched);
    Sorting.SortByMap(b, DateDescending, SetMatched);
  }

  lemma {:induction false} MarkIdsInRange(rows: seq<Transaction>, ids: set<nat>, propertyId: int, lo: int, hi: int)
    ensures Sorting.Map(SetMatched, InRange(MarkIds(rows, ids), propertyId, lo, hi))
         == Sorting.Map(SetMatched, InRange(rows, propertyId, lo, hi))
  {
    if rows != [] {
      MarkIdsInRange(rows[1..], ids, propertyId, lo, hi);
      assert MarkIds(rows, ids)[1..] == MarkIds(rows[1..], ids);
      var x := MarkIds(rows, ids)[0];
      var hx := if x.propertyId == propertyId && lo <= Ordinal(x.date) <= hi then [x] else [];
      var hr := if rows[0].propertyId == propertyId && lo <= Ordinal(rows[0].date) <= hi then [rows[0]] else [];
      MapConcat(hx, InRange(MarkIds(rows[1..], ids), propertyId, lo, hi));
      MapConcat(hr, InRange(rows[1..], propertyId, lo, hi));
    }
  }

  lemma {:induction false} MapConcat(a: seq<Transaction>, b: seq<Transaction>)
    ensures Sorting.Map(SetMatched, a + b) == Sorting.Map(SetMatched, a) + Sorting.Map(SetMatched, b)
  {
  }
}
