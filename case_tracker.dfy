/**
 * The case ledger: a dictionary from the decimal text of a case number to the
 * case record, and a counter that hands out case numbers. Reading and writing
 * the JSON case file is abstracted: the constructor receives the dictionary
 * the file held (or nothing when it was missing or unreadable), and writing
 * the file back after each change has no effect on the model's state.
 */
module CaseTracking {
  import opened Wrappers
  import opened Decimal
  import OrderedDict

  /** One stored case. The two time stamps come from the clock and are opaque text. */
  datatype CaseRecord = CaseRecord(
    caseNumber: int,
    action: string,
    targetId: int,
    moderatorId: int,
    reason: string,
    timestamp: string,
    createdAt: string)

  /** The clock readings a save stamps on its record. */
  datatype Clock = Clock(timestamp: string, createdAt: string)

  type Cases = OrderedDict.Dict<CaseRecord>

  /** A snapshot of the whole ledger state: the stored cases and the counter. */
  datatype Ledger = Ledger(cases: Cases, next: int)

  /** The three history queries: by target, by moderator, by action kind. */
  datatype Query = ByTarget(targetId: int) | ByModerator(moderatorId: int) | ByAction(action: string)

  predicate Matches(q: Query, c: CaseRecord) {
    match q
    case ByTarget(t) => c.targetId == t
    case ByModerator(m) => c.moderatorId == m
    case ByAction(a) => c.action == a
  }

  /** The records of `s` that match `q`, in the order of `s`. */
  function Filter(s: seq<CaseRecord>, q: Query): (r: seq<CaseRecord>)
    ensures |r| <= |s|
  {
    if s == [] then []
    else
      var init, last := s[..|s| - 1], s[|s| - 1];
      Filter(init, q) + if Matches(q, last) then [last] else []
  }

  /** The filter keeps exactly the matching records, each as often as it occurs in the input. */
  lemma {:induction false} FilterSpec(s: seq<CaseRecord>, q: Query)
    ensures forall x :: x in Filter(s, q) <==> x in s && Matches(q, x)
    ensures forall x :: multiset(Filter(s, q))[x] == if Matches(q, x) then multiset(s)[x] else 0
  {
    if s != [] {
      var init, last := s[..|s| - 1], s[|s| - 1];
      assert s == init + [last];
      FilterSpec(init, q);
    }
  }

  /** Filtering one more record at the end extends the result by it exactly when it matches. */
  lemma FilterAppend(s: seq<CaseRecord>, x: CaseRecord, q: Query)
    ensures Filter(s + [x], q) == Filter(s, q) + if Matches(q, x) then [x] else []
  {
    assert (s + [x])[..|s + [x]| - 1] == s;
  }

  predicate SortedByNumber(s: seq<CaseRecord>) {
    forall i, j :: 0 <= i < j < |s| ==> s[i].caseNumber <= s[j].caseNumber
  }

  /** Inserts `x` in front of the first record whose number is not smaller. */
  function InsertByNumber(x: CaseRecord, s: seq<CaseRecord>): (r: seq<CaseRecord>)
    ensures |r| == |s| + 1
    ensures multiset(r) == multiset(s) + multiset{x}
  {
    if s == [] || x.caseNumber <= s[0].caseNumber then
      [x] + s
    else
      assert s == [s[0]] + s[1..];
      [s[0]] + InsertByNumber(x, s[1..])
  }

  /** Every record of `s` has a number of at least `lo`. */
  predicate AllAtLeast(lo: int, s: seq<CaseRecord>) {
    forall i :: 0 <= i < |s| ==> lo <= s[i].caseNumber
  }

  /** A record in front of a sorted sequence of records not below it gives a sorted sequence. */
  lemma SortedCons(h: CaseRecord, t: seq<CaseRecord>)
    requires SortedByNumber(t) && AllAtLeast(h.caseNumber, t)
    ensures SortedByNumber([h] + t)
  {
    var r := [h] + t;
    assert forall i :: 0 < i < |r| ==> r[i] == t[i - 1];
  }

  /** Inserting a record keeps a lower bound that it and the sequence both respect. */
  lemma {:induction false} InsertKeepsBound(lo: int, x: CaseRecord, s: seq<CaseRecord>)
    requires lo <= x.caseNumber && AllAtLeast(lo, s)
    ensures AllAtLeast(lo, InsertByNumber(x, s))
  {
    if !(s == [] || x.caseNumber <= s[0].caseNumber) {
      InsertKeepsBound(lo, x, s[1..]);
      var rest := InsertByNumber(x, s[1..]);
      var r := [s[0]] + rest;
      assert forall i :: 0 < i < |r| ==> r[i] == rest[i - 1];
    } else {
      var r := [x] + s;
      assert forall i :: 0 < i < |r| ==> r[i] == s[i - 1];
    }
  }

  /** Inserting into a sorted sequence keeps it sorted. */
  lemma {:induction false} InsertKeepsSorted(x: CaseRecord, s: seq<CaseRecord>)
    requires SortedByNumber(s)
    ensures SortedByNumber(InsertByNumber(x, s))
  {
    if s == [] || x.caseNumber <= s[0].caseNumber {
      SortedCons(x, s);
    } else {
      InsertKeepsSorted(x, s[1..]);
      InsertKeepsBound(s[0].caseNumber, x, s[1..]);
      SortedCons(s[0], InsertByNumber(x, s[1..]));
    }
  }

  /**
   * A stable sort by case number, as the sort with a key function that the
   * queries apply: records with equal numbers keep their relative order.
   */
  function SortByNumber(s: seq<CaseRecord>): (r: seq<CaseRecord>)
    ensures SortedByNumber(r)
    ensures multiset(r) == multiset(s)
  {
    if s == [] then []
    else
      assert s == [s[0]] + s[1..];
      var sorted := SortByNumber(s[1..]);
      InsertKeepsSorted(s[0], sorted);
      InsertByNumber(s[0], sorted)
  }

  /**
   * The largest value among the all-digit keys, or 0 when there is none;
   * keys that are not all digits are skipped.
   */
  function HighestCaseNumber(keys: seq<string>): (h: nat)
    ensures forall k :: k in keys && IsDigits(k) ==> DigitsValue(k) <= h
    ensures h == 0 || exists k :: k in keys && IsDigits(k) && DigitsValue(k) == h
  {
    if keys == [] then 0
    else
      var rest := HighestCaseNumber(keys[1..]);
      assert keys == [keys[0]] + keys[1..];
      if IsDigits(keys[0]) && DigitsValue(keys[0]) > rest then DigitsValue(keys[0]) else rest
  }

  /** `r` answers `q` over `cases`: exactly the matching records, sorted by case number. */
  ghost predicate IsAnswer(cases: Cases, q: Query, r: seq<CaseRecord>)
    requires OrderedDict.Valid(cases)
  {
    && SortedByNumber(r)
    && multiset(r) == multiset(Filter(OrderedDict.Values(cases), q))
    && forall x :: x in r <==> exists k :: k in cases.entries && cases.entries[k] == x && Matches(q, x)
  }

  /** Filtering the values and sorting them by number answers the query. */
  lemma QueryAnswer(cases: Cases, q: Query)
    requires OrderedDict.Valid(cases)
    ensures IsAnswer(cases, q, SortByNumber(Filter(OrderedDict.Values(cases), q)))
  {
    var values := OrderedDict.Values(cases);
    var found := Filter(values, q);
    var r := SortByNumber(found);
    FilterSpec(values, q);
    OrderedDict.ValuesMembership(cases);
    forall x ensures x in r <==> x in found {
      assert x in r <==> x in multiset(r);
      assert x in found <==> x in multiset(found);
    }
  }

  /** A file holding cases 1, 2 and 5 and a non-digit key restarts the counter at 6, not at the gap 3. */
  lemma RestartAfterGap()
    ensures HighestCaseNumber(["1", "2", "notes", "5"]) + 1 == 6
  {
    var keys := ["1", "2", "notes", "5"];
    NatToStringRoundTrip(1);
    NatToStringRoundTrip(2);
    NatToStringRoundTrip(5);
    assert NatToString(1) == "1" && NatToString(2) == "2" && NatToString(5) == "5";
    assert !IsDigitChar("notes"[0]);
    assert keys[1..][1..][1..][1..] == [];
  }

  /** Every all-digit key names a number below the counter. */
  ghost predicate KeysBelow(cases: Cases, next: int) {
    forall k :: k in cases.entries && IsDigits(k) ==> DigitsValue(k) < next
  }

  /** A number at or above the counter has no stored case. */
  lemma FreshKeyAbsent(cases: Cases, next: int, n: int)
    requires KeysBelow(cases, next)
    requires 0 <= next <= n
    ensures IntToString(n) !in cases.entries
  {
    IntToStringDigits(n);
  }

  /** Storing a number below the counter keeps all digit keys below it. */
  lemma PutKeepsKeysBelow(cases: Cases, next: int, n: int, c: CaseRecord)
    requires OrderedDict.Valid(cases)
    requires KeysBelow(cases, next)
    requires n < next
    ensures KeysBelow(OrderedDict.Put(cases, IntToString(n), c), next)
  {
    var after := OrderedDict.Put(cases, IntToString(n), c);
    forall k | k in after.entries && IsDigits(k) ensures DigitsValue(k) < next {
      if k == IntToString(n) {
        IntToStringDigits(n);
      } else {
        assert OrderedDict.Get(after, k) == OrderedDict.Get(cases, k);
      }
    }
  }

  /** Scans the records once, in order, keeping those the query selects. */
  method CollectMatching(values: seq<CaseRecord>, q: Query) returns (found: seq<CaseRecord>)
    ensures found == Filter(values, q)
  {
    found := [];
    var i := 0;
    while i < |values|
      invariant 0 <= i <= |values|
      invariant found == Filter(values[..i], q)
    {
      var record := values[i];
      assert values[..i + 1] == values[..i] + [record];
      FilterAppend(values[..i], record, q);
      if Matches(q, record) {
        found := found + [record];
      }
      i := i + 1;
    }
    assert values[..i] == values;
  }

  class CaseTracker {
    var cases: Cases
    var nextCaseNumber: int
    /** Every number this instance has handed out. */
    ghost var issued: set<int>

    ghost predicate Valid()
      reads this
    {
      && OrderedDict.Valid(cases)
      && nextCaseNumber >= 1
      && forall n :: n in issued ==> n < nextCaseNumber
    }

    /** No stored all-digit key reaches the counter. */
    ghost predicate KeysBelowCounter()
      reads this
    {
      KeysBelow(cases, nextCaseNumber)
    }

    function State(): Ledger
      reads this
    {
      Ledger(cases, nextCaseNumber)
    }

    /**
     * Starts from the dictionary loaded from the case file, or from an empty
     * one when the file is missing or cannot be read; the counter starts one
     * above the highest all-digit key.
     */
    constructor (loaded: Option<Cases>)
      requires loaded.Some? ==> OrderedDict.Valid(loaded.value)
      ensures Valid() && KeysBelowCounter()
      ensures cases == if loaded.Some? then loaded.value else OrderedDict.Empty()
      ensures nextCaseNumber == HighestCaseNumber(cases.order) + 1
      ensures issued == {}
    {
      var start := if loaded.Some? then loaded.value else OrderedDict.Empty();
      cases := start;
      nextCaseNumber := HighestCaseNumber(start.order) + 1;
      issued := {};
    }

    /** Hands out the current counter value and raises the counter by one. */
    method GetNextCaseNumber() returns (n: int)
      requires Valid()
      modifies this
      ensures Valid()
      ensures n == old(nextCaseNumber) && nextCaseNumber == n + 1
      ensures n >= 1 && n !in old(issued) && issued == old(issued) + {n}
      ensures cases == old(cases)
      ensures old(KeysBelowCounter()) ==> KeysBelowCounter() && IntToString(n) !in cases.entries
    {
      n := nextCaseNumber;
      nextCaseNumber := nextCaseNumber + 1;
      issued := issued + {n};
      if old(KeysBelowCounter()) {
        FreshKeyAbsent(cases, n, n);
      }
    }

    /**
     * Stores the record of a case under the text of its number, replacing
     * any record already stored there; the counter is not touched.
     */
    method SaveCase(caseNumber: int, action: string, targetId: int, moderatorId: int, reason: string, clock: Clock)
      requires Valid()
      modifies this
      ensures Valid()
      ensures cases == OrderedDict.Put(old(cases), IntToString(caseNumber),
        CaseRecord(caseNumber, action, targetId, moderatorId, reason, clock.timestamp, clock.createdAt))
      ensures GetCase(caseNumber) == Some(CaseRecord(caseNumber, action, targetId, moderatorId, reason, clock.timestamp, clock.createdAt))
      ensures forall m :: m != caseNumber ==> GetCase(m) == old(GetCase(m))
      ensures nextCaseNumber == old(nextCaseNumber) && issued == old(issued)
      ensures old(KeysBelowCounter()) && caseNumber < nextCaseNumber ==> KeysBelowCounter()
    {
      var record := CaseRecord(caseNumber, action, targetId, moderatorId, reason, clock.timestamp, clock.createdAt);
      if KeysBelowCounter() && caseNumber < nextCaseNumber {
        PutKeepsKeysBelow(cases, nextCaseNumber, caseNumber, record);
      }
      cases := OrderedDict.Put(cases, IntToString(caseNumber), record);
      forall m | m != caseNumber ensures IntToString(m) != IntToString(caseNumber) {
        if IntToString(m) == IntToString(caseNumber) {
          IntToStringInjective(m, caseNumber);
        }
      }
    }

    /** The stored record of a case, or nothing (the empty record) when there is none. */
    function GetCase(caseNumber: int): (r: Option<CaseRecord>)
      reads this
      requires Valid()
      ensures r.Some? <==> IntToString(caseNumber) in cases.entries
      ensures r.Some? ==> r.value == cases.entries[IntToString(caseNumber)]
    {
      OrderedDict.Get(cases, IntToString(caseNumber))
    }

    /** Collects the matching records in iteration order, then sorts them by case number. */
    method CasesWhere(q: Query) returns (r: seq<CaseRecord>)
      requires Valid()
      ensures r == SortByNumber(Filter(OrderedDict.Values(cases), q))
      ensures IsAnswer(cases, q, r)
    {
      var found := CollectMatching(OrderedDict.Values(cases), q);
      r := SortByNumber(found);
      QueryAnswer(cases, q);
    }

    method GetCasesByTarget(targetId: int) returns (r: seq<CaseRecord>)
      requires Valid()
      ensures r == SortByNumber(Filter(OrderedDict.Values(cases), ByTarget(targetId)))
      ensures IsAnswer(cases, ByTarget(targetId), r)
    {
      r := CasesWhere(ByTarget(targetId));
    }

    method GetCasesByModerator(moderatorId: int) returns (r: seq<CaseRecord>)
      requires Valid()
      ensures r == SortByNumber(Filter(OrderedDict.Values(cases), ByModerator(moderatorId)))
      ensures IsAnswer(cases, ByModerator(moderatorId), r)
    {
      r := CasesWhere(ByModerator(moderatorId));
    }

    method GetCasesByAction(action: string) returns (r: seq<CaseRecord>)
      requires Valid()
      ensures r == SortByNumber(Filter(OrderedDict.Values(cases), ByAction(action)))
      ensures IsAnswer(cases, ByAction(action), r)
    {
      r := CasesWhere(ByAction(action));
    }

    /** The number of stored cases. */
    function GetTotalCases(): (n: nat)
      reads this
      requires Valid()
      ensures n == |cases.entries|
    {
      OrderedDict.Size(cases)
    }

    /**
     * Removes the case with this number when there is one and reports whether
     * there was; the counter is not touched, so the number is not handed out again.
     */
    method DeleteCase(caseNumber: int) returns (deleted: bool)
      requires Valid()
      modifies this
      ensures Valid()
      ensures deleted == (IntToString(caseNumber) in old(cases).entries)
      ensures cases == if deleted then OrderedDict.Remove(old(cases), IntToString(caseNumber)) else old(cases)
      ensures GetCase(caseNumber) == None
      ensures forall m :: m != caseNumber ==> GetCase(m) == old(GetCase(m))
      ensures nextCaseNumber == old(nextCaseNumber) && issued == old(issued)
      ensures old(KeysBelowCounter()) ==> KeysBelowCounter()
    {
      var key := IntToString(caseNumber);
      deleted := key in cases.entries;
      if deleted {
        cases := OrderedDict.Remove(cases, key);
      }
      forall m | m != caseNumber ensures IntToString(m) != key {
        if IntToString(m) == key {
          IntToStringInjective(m, caseNumber);
        }
      }
    }
  }
}
