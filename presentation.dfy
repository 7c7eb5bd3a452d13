/**
 * The two rules `print_table` applies before it formats anything
 * (monitor.py:130-168): which clients count as online, and the order of the
 * table rows, by total traffic, largest first.
 */
module Presentation {
  import opened StatusParser
  import opened Accounting

  /** A client is online when it has been seen and no more than `grace` seconds
      have passed since (monitor.py:147). */
  predicate Online(st: Record, now: int, grace: int) {
    st.lastSeen > 0 && now - st.lastSeen <= grace
  }

  /** Every client in this pass's rows is shown online when the clock is past the
      epoch and the grace period is not negative. */
  lemma SeenIsOnline(states: map<string, Record>, rows: seq<Row>, now: int, grace: int, i: nat)
    requires i < |rows| && now > 0 && grace >= 0
    ensures rows[i].cn in Fold(states, rows, now)
    ensures Online(Fold(states, rows, now)[rows[i].cn], now, grace)
  {
    FoldSeen(states, rows, now, i);
  }

  /** A client missing from this pass keeps its record and goes offline once the
      grace period since its last sighting has passed. */
  lemma AbsentGoesOffline(states: map<string, Record>, rows: seq<Row>, now: int, grace: int, cn: string)
    requires forall k :: 0 <= k < |rows| ==> rows[k].cn != cn
    requires cn in states && now - states[cn].lastSeen > grace
    ensures cn in Fold(states, rows, now)
    ensures !Online(Fold(states, rows, now)[cn], now, grace)
  {
    FoldAbsentUnchanged(states, rows, now, cn);
  }

  /** One table row before formatting: total traffic and common name. */
  datatype Entry = Entry(total: int, cn: string)

  /** `order` lists every common name of `states` once: the dictionary's
      iteration order. */
  predicate ListsKeys(order: seq<string>, states: map<string, Record>) {
    |order| == |states| &&
    (forall k :: 0 <= k < |order| ==> order[k] in states) &&
    (forall i, j :: 0 <= i < j < |order| ==> order[i] != order[j])
  }

  /** `(st.total_rx + st.total_tx, cn)` for the common names in dictionary order. */
  function Entries(order: seq<string>, states: map<string, Record>): (r: seq<Entry>)
    requires ListsKeys(order, states)
    ensures |r| == |order|
    ensures forall k :: 0 <= k < |r| ==>
      r[k].cn == order[k] && r[k].total == states[order[k]].totalRx + states[order[k]].totalTx
  {
    seq(|order|, k requires 0 <= k < |order| => Entry(states[order[k]].totalRx + states[order[k]].totalTx, order[k]))
  }

  /** A duplicate-free listing as long as the key set names every key. */
  lemma {:induction false} ListsEveryKey(order: seq<string>, keys: set<string>)
    requires |order| == |keys|
    requires forall k :: 0 <= k < |order| ==> order[k] in keys
    requires forall i, j :: 0 <= i < j < |order| ==> order[i] != order[j]
    ensures forall cn :: cn in keys ==> cn in order
  {
    if order != [] {
      var rest := order[1..];
      forall k | 0 <= k < |rest|
        ensures rest[k] in keys - {order[0]}
      {
        assert rest[k] == order[k + 1];
      }
      ListsEveryKey(rest, keys - {order[0]});
      assert order == [order[0]] + rest;
    }
  }

  /** In a sequence without repetitions every element occurs once. */
  lemma {:induction false} DistinctOccursOnce(s: seq<Entry>, x: Entry)
    requires forall i, j :: 0 <= i < j < |s| ==> s[i] != s[j]
    ensures multiset(s)[x] == if x in s then 1 else 0
  {
    if s != [] {
      var rest := s[1..];
      assert s == [s[0]] + rest;
      DistinctOccursOnce(rest, x);
      if x == s[0] {
        assert x !in rest;
      }
    }
  }

  /** Before sorting, each client has exactly one entry. */
  lemma EntriesOnce(order: seq<string>, states: map<string, Record>, cn: string)
    requires ListsKeys(order, states)
    requires cn in states
    ensures multiset(Entries(order, states))[Entry(states[cn].totalRx + states[cn].totalTx, cn)] == 1
  {
    var es := Entries(order, states);
    var x := Entry(states[cn].totalRx + states[cn].totalTx, cn);
    ListsEveryKey(order, states.Keys);
    var k :| 0 <= k < |order| && order[k] == cn;
    assert es[k] == x;
    forall i, j | 0 <= i < j < |es|
      ensures es[i] != es[j]
    {
      assert es[i].cn == order[i] && es[j].cn == order[j];
    }
    DistinctOccursOnce(es, x);
  }

  /** The table holds one row per client, carrying the client's total. */
  lemma TableListsEachClientOnce(order: seq<string>, states: map<string, Record>, cn: string)
    requires ListsKeys(order, states)
    requires cn in states
    ensures multiset(SortByTotal(Entries(order, states)))[Entry(states[cn].totalRx + states[cn].totalTx, cn)] == 1
    ensures forall e :: e in SortByTotal(Entries(order, states)) && e.cn == cn ==>
      e.total == states[cn].totalRx + states[cn].totalTx
  {
    var es := Entries(order, states);
    var x := Entry(states[cn].totalRx + states[cn].totalTx, cn);
    EntriesOnce(order, states, cn);
    SortSorted(es);
    forall e | e in SortByTotal(es) && e.cn == cn
      ensures e.total == x.total
    {
      assert e in multiset(es);
      var m :| 0 <= m < |es| && es[m] == e;
    }
  }

  /** Every entry's total is at least the totals after it. */
  predicate Descending(s: seq<Entry>) {
    forall i, j :: 0 <= i < j < |s| ==> s[i].total >= s[j].total
  }

  /** Every entry's total is at least the next one's. */
  predicate StepDescending(s: seq<Entry>) {
    forall k :: 0 < k < |s| ==> s[k - 1].total >= s[k].total
  }

  /** The entries with the given total, in order. */
  function WithTotal(s: seq<Entry>, t: int): seq<Entry> {
    if s == [] then []
    else (if s[0].total == t then [s[0]] else []) + WithTotal(s[1..], t)
  }

  /** `x` placed after every entry whose total is at least its own. */
  function Insert(x: Entry, s: seq<Entry>): seq<Entry> {
    if s == [] then [x]
    else if s[0].total >= x.total then [s[0]] + Insert(x, s[1..])
    else [x] + s
  }

  /** `sorted(entries, key=total, reverse=True)` (monitor.py:139-143), as insertion
      of each entry, in dictionary order, after the entries of at least its total. */
  function SortByTotal(s: seq<Entry>): (r: seq<Entry>)
    ensures StepDescending(r)
    ensures multiset(r) == multiset(s)
  {
    if s == [] then []
    else
      var init := s[..|s| - 1];
      var x := s[|s| - 1];
      assert s == init + [x];
      var sorted := SortByTotal(init);
      InsertDescending(x, sorted);
      InsertMultiset(x, sorted);
      Insert(x, sorted)
  }

  lemma {:induction false} InsertMultiset(x: Entry, s: seq<Entry>)
    ensures multiset(Insert(x, s)) == multiset(s) + multiset{x}
  {
    if s != [] && s[0].total >= x.total {
      assert s == [s[0]] + s[1..];
      InsertMultiset(x, s[1..]);
    }
  }

  /** The first entry after an insertion is the inserted one or the old first one. */
  lemma InsertHead(x: Entry, s: seq<Entry>)
    ensures Insert(x, s) != []
    ensures Insert(x, s)[0] == x || (s != [] && Insert(x, s)[0] == s[0])
  {
  }

  /** Inserting into a descending sequence keeps it descending. */
  lemma {:induction false} InsertDescending(x: Entry, s: seq<Entry>)
    requires StepDescending(s)
    ensures StepDescending(Insert(x, s))
  {
    if s != [] && s[0].total >= x.total {
      var tail := s[1..];
      assert StepDescending(tail) by {
        forall k | 0 < k < |tail|
          ensures tail[k - 1].total >= tail[k].total
        {
          assert tail[k - 1] == s[k] && tail[k] == s[k + 1];
        }
      }
      InsertDescending(x, tail);
      var rest := Insert(x, tail);
      InsertHead(x, tail);
      var r := [s[0]] + rest;
      forall k | 0 < k < |r|
        ensures r[k - 1].total >= r[k].total
      {
        assert r[k] == rest[k - 1];
        if k > 1 {
          assert r[k - 1] == rest[k - 2];
        }
      }
    }
  }

  /** In a descending sequence the first total bounds all the others. */
  lemma {:induction false} StepDescendingHead(s: seq<Entry>)
    requires s != [] && StepDescending(s)
    ensures forall k :: 0 <= k < |s| ==> s[k].total <= s[0].total
  {
    if |s| > 1 {
      var tail := s[1..];
      assert StepDescending(tail) by {
        forall k | 0 < k < |tail|
          ensures tail[k - 1].total >= tail[k].total
        {
          assert tail[k - 1] == s[k] && tail[k] == s[k + 1];
        }
      }
      StepDescendingHead(tail);
      assert forall k :: 1 <= k < |s| ==> s[k] == tail[k - 1];
    }
  }

  /** Each total is at least every later one, not only the next. */
  lemma {:induction false} StepDescendingIsDescending(s: seq<Entry>)
    requires StepDescending(s)
    ensures Descending(s)
  {
    if |s| > 1 {
      var tail := s[1..];
      assert StepDescending(tail) by {
        forall k | 0 < k < |tail|
          ensures tail[k - 1].total >= tail[k].total
        {
          assert tail[k - 1] == s[k] && tail[k] == s[k + 1];
        }
      }
      StepDescendingIsDescending(tail);
      StepDescendingHead(s);
      forall i, j | 0 <= i < j < |s|
        ensures s[i].total >= s[j].total
      {
        if i > 0 {
          assert s[i] == tail[i - 1] && s[j] == tail[j - 1];
        }
      }
    }
  }

  /** The table order is sorted by total, largest first, and holds every entry. */
  lemma SortSorted(s: seq<Entry>)
    ensures Descending(SortByTotal(s))
    ensures multiset(SortByTotal(s)) == multiset(s)
  {
    StepDescendingIsDescending(SortByTotal(s));
  }

  lemma {:induction false} WithTotalAppend(a: seq<Entry>, b: seq<Entry>, t: int)
    ensures WithTotal(a + b, t) == WithTotal(a, t) + WithTotal(b, t)
  {
    if a != [] {
      WithTotalAppend(a[1..], b, t);
      assert (a + b)[1..] == a[1..] + b;
    } else {
      assert a + b == b;
    }
  }

  lemma {:induction false} WithTotalNone(s: seq<Entry>, t: int)
    requires forall k :: 0 <= k < |s| ==> s[k].total < t
    ensures WithTotal(s, t) == []
  {
    if s != [] {
      WithTotalNone(s[1..], t);
    }
  }

  /** The entries of total `t` among `x` alone. */
  function Added(x: Entry, t: int): seq<Entry> {
    if x.total == t then [x] else []
  }

  /** Insertion behind the first entry, given what it does on the rest. */
  lemma InsertStableBehind(x: Entry, s: seq<Entry>, t: int)
    requires s != [] && s[0].total >= x.total
    requires WithTotal(Insert(x, s[1..]), t) == WithTotal(s[1..], t) + Added(x, t)
    ensures WithTotal(Insert(x, s), t) == WithTotal(s, t) + Added(x, t)
  {
    var head := if s[0].total == t then [s[0]] else [];
    var rest := Insert(x, s[1..]);
    assert Insert(x, s) == [s[0]] + rest;
    assert ([s[0]] + rest)[1..] == rest;
    calc {
      WithTotal(Insert(x, s), t);
      head + WithTotal(rest, t);
      head + (WithTotal(s[1..], t) + Added(x, t));
      (head + WithTotal(s[1..], t)) + Added(x, t);
    }
  }

  /** Insertion in front of a sequence whose totals are all below the new one's. */
  lemma InsertStableInFront(x: Entry, s: seq<Entry>, t: int)
    requires StepDescending(s)
    requires s == [] || s[0].total < x.total
    ensures WithTotal(Insert(x, s), t) == WithTotal(s, t) + Added(x, t)
  {
    assert Insert(x, s) == [x] + s;
    assert ([x] + s)[1..] == s;
    assert WithTotal(Insert(x, s), t) == Added(x, t) + WithTotal(s, t);
    if x.total == t {
      if s != [] {
        StepDescendingHead(s);
      }
      WithTotalNone(s, t);
      assert [x] + [] == [] + [x];
    } else {
      assert [] + WithTotal(s, t) == WithTotal(s, t) + [];
    }
  }

  /** Inserting places the new entry after every entry of the same total. */
  lemma {:induction false} InsertStable(x: Entry, s: seq<Entry>, t: int)
    requires StepDescending(s)
    ensures WithTotal(Insert(x, s), t) == WithTotal(s, t) + Added(x, t)
  {
    if s != [] && s[0].total >= x.total {
      var tail := s[1..];
      assert StepDescending(tail) by {
        forall k | 0 < k < |tail|
          ensures tail[k - 1].total >= tail[k].total
        {
          assert tail[k - 1] == s[k] && tail[k] == s[k + 1];
        }
      }
      InsertStable(x, tail, t);
      InsertStableBehind(x, s, t);
    } else {
      InsertStableInFront(x, s, t);
    }
  }

  /** The sort is stable: for every total, the entries with that total come out in
      the order they went in, so equal totals keep their dictionary order. */
  lemma {:induction false} SortStable(s: seq<Entry>, t: int)
    ensures WithTotal(SortByTotal(s), t) == WithTotal(s, t)
  {
    if s != [] {
      var init := s[..|s| - 1];
      var x := s[|s| - 1];
      assert s == init + [x];
      var sorted := SortByTotal(init);
      assert SortByTotal(s) == Insert(x, sorted);
      SortStable(init, t);
      InsertStable(x, sorted, t);
      WithTotalAppend(init, [x], t);
      assert WithTotal([x], t) == Added(x, t) by {
        assert [x][1..] == [];
      }
    }
  }
}
