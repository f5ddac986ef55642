/**
 * The InvoiceCounter collection and `getNextInvoiceNumber`: one counter per
 * (companyName, date, warrantyStatus) key, the key the compound unique
 * index declares; allocation is find-or-create-then-increment.
 */
module InvoiceCounters {
  import opened InvoiceFormat

  /** One independent numbering stream. */
  datatype CounterKey = CounterKey(companyName: string, date: string, warrantyStatus: string)

  /** The key an allocation on the given day uses. */
  function TodayKey(companyName: string, warrantyStatus: string, day: nat, monthIndex: nat, year: int): (key: CounterKey)
    ensures key.companyName == companyName && key.warrantyStatus == warrantyStatus
    ensures '/' !in key.date
  {
    CounterKey(companyName, FormatDateToDDMMYYYY(day, monthIndex, year), warrantyStatus)
  }

  /** The value a key's counter has reached: 0 while it has no record. */
  function Current(counters: map<CounterKey, nat>, key: CounterKey): nat
  {
    if key in counters then counters[key] else 0
  }

  /** The counter an allocation stores and returns: a new record starts at 1, a found one goes up by 1. */
  function NextCounter(counters: map<CounterKey, nat>, key: CounterKey): (n: nat)
    ensures n == Current(counters, key) + 1
  {
    if key !in counters then 1 else counters[key] + 1
  }

  /** The counter table after one allocation for `key`: that entry alone changes. */
  function Allocate(counters: map<CounterKey, nat>, key: CounterKey): (after: map<CounterKey, nat>)
    ensures after.Keys == counters.Keys + {key}
    ensures after[key] == Current(counters, key) + 1
    ensures Current(after, key) == Current(counters, key) + 1
    ensures forall other :: other in counters && other != key ==> after[other] == counters[other]
  {
    counters[key := NextCounter(counters, key)]
  }

  /** The table after allocating for each key of `keys` in turn. */
  function Run(counters: map<CounterKey, nat>, keys: seq<CounterKey>): map<CounterKey, nat>
    decreases |keys|
  {
    if keys == [] then counters
    else Allocate(Run(counters, keys[..|keys| - 1]), keys[|keys| - 1])
  }

  /** The counters those allocations return, in order. */
  function Returned(counters: map<CounterKey, nat>, keys: seq<CounterKey>): seq<nat>
    decreases |keys|
  {
    if keys == [] then []
    else
      var before := keys[..|keys| - 1];
      Returned(counters, before) + [NextCounter(Run(counters, before), keys[|keys| - 1])]
  }

  /** After any run of allocations, each key has moved on by the number of allocations for it. */
  lemma {:induction false} RunCurrent(counters: map<CounterKey, nat>, keys: seq<CounterKey>, key: CounterKey)
    ensures Current(Run(counters, keys), key) == Current(counters, key) + multiset(keys)[key]
    decreases |keys|
  {
    if keys != [] {
      var before := keys[..|keys| - 1];
      assert keys == before + [keys[|keys| - 1]];
      RunCurrent(counters, before, key);
    }
  }

  /**
   * The i-th allocation of a run returns one more than the counter its key
   * had, plus the number of earlier allocations for the same key: other keys
   * in between do not matter.
   */
  lemma {:induction false} ReturnedAt(counters: map<CounterKey, nat>, keys: seq<CounterKey>, i: nat)
    requires i < |keys|
    ensures |Returned(counters, keys)| == |keys|
    ensures Returned(counters, keys)[i] == Current(counters, keys[i]) + multiset(keys[..i + 1])[keys[i]]
    decreases |keys|
  {
    var before := keys[..|keys| - 1];
    ReturnedLength(counters, before);
    if i == |keys| - 1 {
      RunCurrent(counters, before, keys[i]);
      assert keys[..i + 1] == before + [keys[i]];
    } else {
      ReturnedAt(counters, before, i);
      assert before[..i + 1] == keys[..i + 1];
    }
  }

  lemma {:induction false} ReturnedLength(counters: map<CounterKey, nat>, keys: seq<CounterKey>)
    ensures |Returned(counters, keys)| == |keys|
    decreases |keys|
  {
    if keys != [] {
      ReturnedLength(counters, keys[..|keys| - 1]);
    }
  }

  /** Two allocations for the same key never return the same counter: the later one is larger. */
  lemma AllocationsNeverRepeat(counters: map<CounterKey, nat>, keys: seq<CounterKey>, i: nat, j: nat)
    requires i < j < |keys| && keys[i] == keys[j]
    ensures |Returned(counters, keys)| == |keys|
    ensures Returned(counters, keys)[i] < Returned(counters, keys)[j]
  {
    ReturnedAt(counters, keys, i);
    ReturnedAt(counters, keys, j);
    assert keys[..j + 1] == keys[..i + 1] + keys[i + 1..j + 1];
    assert keys[j] in multiset(keys[i + 1..j + 1]) by {
      assert keys[i + 1..j + 1][j - i - 1] == keys[j];
    }
  }

  /** n allocations for a key with no record return exactly 1, 2, ..., n. */
  lemma FreshKeyCountsFromOne(counters: map<CounterKey, nat>, key: CounterKey, n: nat)
    requires key !in counters
    ensures Returned(counters, seq(n, _ => key)) == seq(n, i => i + 1)
  {
    var keys := seq(n, _ => key);
    ReturnedLength(counters, keys);
    forall i | 0 <= i < n ensures Returned(counters, keys)[i] == i + 1 {
      ReturnedAt(counters, keys, i);
      assert keys[..i + 1] == seq(i + 1, _ => key);
      SameKeyCount(key, i + 1);
    }
  }

  lemma {:induction false} SameKeyCount(key: CounterKey, n: nat)
    ensures multiset(seq(n, _ => key))[key] == n
  {
    if n > 0 {
      assert seq(n, _ => key) == seq(n - 1, _ => key) + [key];
      SameKeyCount(key, n - 1);
    }
  }

  /** "Before" and "After" on the same company and day both start at 1, in either order. */
  lemma WarrantyStatusesNumberSeparately(companyName: string, date: string)
    ensures var before := CounterKey(companyName, date, "Before");
      var after := CounterKey(companyName, date, "After");
      Returned(map[], [before, after]) == [1, 1]
      && Returned(map[], [after, before, before]) == [1, 1, 2]
  {
    var before := CounterKey(companyName, date, "Before");
    var after := CounterKey(companyName, date, "After");
    assert before != after by {
      assert "Before"[0] != "After"[0];
    }
    assert [before, after][..1] == [before];
    assert [after, before, before][..2] == [after, before];
    assert [after, before][..1] == [after];
    assert [before][..0] == [] && [after][..0] == [];
    assert Run(map[], [before]) == map[before := 1];
    assert Run(map[], [after]) == map[after := 1];
    assert Run(map[], [after, before]) == map[after := 1, before := 1];
    assert Returned(map[], [before]) == [1];
    assert Returned(map[], [after]) == [1];
    assert Returned(map[], [after, before]) == [1, 1];
    assert Returned(map[], [before, after]) == [1, 1];
  }

  /** The outcome of allocation: the invoice number, or a storage error thrown to the caller. */
  datatype Allocation = Allocated(invoiceNumber: string) | AllocationFailed

  /** The InvoiceCounter collection, as a table from key to counter. */
  class CounterStore {
    var counters: map<CounterKey, nat>

    constructor ()
      ensures counters == map[]
    {
      counters := map[];
    }

    /**
     * `getNextInvoiceNumber` with today's date passed in. A storage failure
     * (of the lookup or of the save) leaves the table as it was.
     */
    method NextInvoiceNumber(companyName: string, warrantyStatus: string, day: nat, monthIndex: nat, year: int,
                             storageFails: bool)
      returns (r: Allocation)
      modifies this
      ensures var key := TodayKey(companyName, warrantyStatus, day, monthIndex, year);
        (storageFails ==> r == AllocationFailed && counters == old(counters))
        && (!storageFails ==>
              counters == Allocate(old(counters), key)
              && r == Allocated(InvoiceNumber(companyName, key.date, counters[key], warrantyStatus)))
    {
      var today := FormatDateToDDMMYYYY(day, monthIndex, year);
      var key := CounterKey(companyName, today, warrantyStatus);
      if storageFails {
        return AllocationFailed;
      }
      var counter: nat;
      if key !in counters {
        counter := 1;
      } else {
        counter := counters[key] + 1;
      }
      counters := counters[key := counter];
      var paddedCounter := PadCounter(counter);
      var warrantySuffix := WarrantySuffix(warrantyStatus);
      r := Allocated(companyName + "/" + today + "/" + paddedCounter + "/" + warrantySuffix);
    }
  }
}
