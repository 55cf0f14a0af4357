/** Flight rows of a voucher and `sortFlights`: a stable sort of a copy of the
    rows by direction, OUTBOUND (rank 0) before RETURN (rank 1) before any
    other direction (rank 99, the `?? 99` fallback). */
module Flights {
  import opened Js

  /** One stored flight row. Every field but the direction is an optional
      string, as `f.flightNumber?.toString()` produces. */
  datatype Flight = Flight(
    direction: string,
    flightNumber: Option<string>,
    departureTime: Option<string>,
    arrivalTime: Option<string>,
    embarkAirport: Option<string>,
    disembarkAirport: Option<string>)

  /** `flightOrder[direction] ?? 99` with `flightOrder = { OUTBOUND: 0, RETURN: 1 }`. */
  function DirectionRank(direction: string): nat {
    if direction == "OUTBOUND" then 0 else if direction == "RETURN" then 1 else 99
  }

  function Rank(f: Flight): nat {
    DirectionRank(f.direction)
  }

  predicate SortedByRank(s: seq<Flight>) {
    forall i, j :: 0 <= i < j < |s| ==> Rank(s[i]) <= Rank(s[j])
  }

  /** The rows of `s` whose rank is `k`, in their order in `s`. */
  function WithRank(s: seq<Flight>, k: nat): seq<Flight> {
    if s == [] then []
    else (if Rank(s[0]) == k then [s[0]] else []) + WithRank(s[1..], k)
  }

  lemma PrependSorted(y: Flight, t: seq<Flight>)
    requires SortedByRank(t)
    requires t != [] ==> Rank(y) <= Rank(t[0])
    ensures SortedByRank([y] + t)
  {
    var u := [y] + t;
    forall i, j | 0 <= i < j < |u| ensures Rank(u[i]) <= Rank(u[j]) {
      assert u[j] == t[j - 1];
      if i > 0 {
        assert u[i] == t[i - 1];
      } else if j > 1 {
        assert t[0] == u[1];
      }
    }
  }

  lemma SortedTail(s: seq<Flight>)
    requires SortedByRank(s) && s != []
    ensures SortedByRank(s[1..])
  {
    var t := s[1..];
    forall i, j | 0 <= i < j < |t| ensures Rank(t[i]) <= Rank(t[j]) {
      assert t[i] == s[i + 1] && t[j] == s[j + 1];
    }
  }

  /** Inserts `x` into a sorted sequence before the first row of equal or
      greater rank. */
  function InsertByRank(x: Flight, s: seq<Flight>): (r: seq<Flight>)
    requires SortedByRank(s)
    ensures SortedByRank(r)
    ensures multiset(r) == multiset(s) + multiset{x}
    ensures r != [] && (r[0] == x || (s != [] && r[0] == s[0]))
  {
    if s == [] || Rank(x) <= Rank(s[0]) then
      PrependSorted(x, s);
      [x] + s
    else
      var t := s[1..];
      SortedTail(s);
      var rest := InsertByRank(x, t);
      assert t != [] ==> s[0] == s[..2][0] && t[0] == s[..2][1];
      PrependSorted(s[0], rest);
      assert s == [s[0]] + t;
      [s[0]] + rest
  }

  /** `[...flights].sort((a, b) => rank(a) - rank(b))`: a sorted permutation of
      its argument. The argument, a sequence value, is left as it was. */
  function SortFlights(flights: seq<Flight>): (r: seq<Flight>)
    ensures SortedByRank(r)
    ensures multiset(r) == multiset(flights)
  {
    if flights == [] then []
    else
      assert flights == [flights[0]] + flights[1..];
      InsertByRank(flights[0], SortFlights(flights[1..]))
  }

  lemma {:induction false} InsertByRankStable(x: Flight, s: seq<Flight>, k: nat)
    requires SortedByRank(s)
    ensures WithRank(InsertByRank(x, s), k)
         == (if Rank(x) == k then [x] else []) + WithRank(s, k)
  {
    if s == [] || Rank(x) <= Rank(s[0]) {
      assert ([x] + s)[1..] == s;
    } else {
      var rest := InsertByRank(x, s[1..]);
      InsertByRankStable(x, s[1..], k);
      assert ([s[0]] + rest)[1..] == rest;
    }
  }

  /** The sort is stable: the rows of each rank keep their relative order. */
  lemma {:induction false} SortFlightsStable(flights: seq<Flight>, k: nat)
    ensures WithRank(SortFlights(flights), k) == WithRank(flights, k)
  {
    if flights != [] {
      SortFlightsStable(flights[1..], k);
      InsertByRankStable(flights[0], SortFlights(flights[1..]), k);
    }
  }

  lemma {:induction false} WithRankAbsent(s: seq<Flight>, k: nat)
    requires forall i :: 0 <= i < |s| ==> Rank(s[i]) != k
    ensures WithRank(s, k) == []
  {
    if s != [] {
      WithRankAbsent(s[1..], k);
    }
  }

  lemma WithRankCons(h: Flight, t: seq<Flight>, k: nat)
    ensures WithRank([h] + t, k) == (if Rank(h) == k then [h] else []) + WithRank(t, k)
  {
    assert ([h] + t)[1..] == t;
  }

  /** Where a new first element lands in a sequence made of three groups. */
  lemma PrependToGroups<T>(h: T, a: seq<T>, b: seq<T>, c: seq<T>)
    ensures [h] + (a + b + c) == ([h] + a) + b + c
    ensures a == [] ==> [h] + (a + b + c) == a + ([h] + b) + c
    ensures a == [] && b == [] ==> [h] + (a + b + c) == a + b + ([h] + c)
  {
  }

  /** Putting a row in front of a grouped sequence whose ranks are all at
      least its own keeps it grouped. */
  lemma GroupedCons(h: Flight, t: seq<Flight>)
    requires t == WithRank(t, 0) + WithRank(t, 1) + WithRank(t, 99)
    requires forall i :: 0 <= i < |t| ==> Rank(h) <= Rank(t[i])
    ensures [h] + t == WithRank([h] + t, 0) + WithRank([h] + t, 1) + WithRank([h] + t, 99)
  {
    var a, b, c := WithRank(t, 0), WithRank(t, 1), WithRank(t, 99);
    WithRankCons(h, t, 0);
    WithRankCons(h, t, 1);
    WithRankCons(h, t, 99);
    PrependToGroups(h, a, b, c);
    if Rank(h) == 0 {
      assert WithRank([h] + t, 0) == [h] + a;
      assert WithRank([h] + t, 1) == b;
      assert WithRank([h] + t, 99) == c;
    } else if Rank(h) == 1 {
      WithRankAbsent(t, 0);
      assert WithRank([h] + t, 0) == a == [];
      assert WithRank([h] + t, 1) == [h] + b;
      assert WithRank([h] + t, 99) == c;
    } else {
      WithRankAbsent(t, 0);
      WithRankAbsent(t, 1);
      assert WithRank([h] + t, 0) == a == [];
      assert WithRank([h] + t, 1) == b == [];
      assert WithRank([h] + t, 99) == [h] + c;
    }
  }

  /** A sorted sequence is its OUTBOUND rows, then its RETURN rows, then the rest. */
  lemma {:induction false} SortedIsGrouped(s: seq<Flight>)
    requires SortedByRank(s)
    ensures s == WithRank(s, 0) + WithRank(s, 1) + WithRank(s, 99)
  {
    if s != [] {
      var h, t := s[0], s[1..];
      assert s == [h] + t;
      SortedTail(s);
      SortedIsGrouped(t);
      forall i | 0 <= i < |t| ensures Rank(h) <= Rank(t[i]) {
        assert t[i] == s[i + 1];
      }
      GroupedCons(h, t);
    }
  }

  /** What `sortFlights` returns, exactly: the OUTBOUND rows in input order,
      then the RETURN rows in input order, then every other row in input order. */
  lemma SortFlightsGroups(flights: seq<Flight>)
    ensures SortFlights(flights)
         == WithRank(flights, 0) + WithRank(flights, 1) + WithRank(flights, 99)
  {
    SortedIsGrouped(SortFlights(flights));
    SortFlightsStable(flights, 0);
    SortFlightsStable(flights, 1);
    SortFlightsStable(flights, 99);
  }

  /** In a sorted result every OUTBOUND row precedes every RETURN row, and every
      row of another direction follows both. */
  lemma OutboundThenReturnThenOthers(flights: seq<Flight>, i: nat, j: nat)
    requires i < j < |SortFlights(flights)|
    ensures var r := SortFlights(flights);
            (r[j].direction == "OUTBOUND" ==> r[i].direction == "OUTBOUND")
            && (r[i].direction != "OUTBOUND" && r[i].direction != "RETURN"
                ==> r[j].direction != "OUTBOUND" && r[j].direction != "RETURN")
  {
  }
}
