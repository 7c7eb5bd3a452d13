/**
 * Per-client delta accounting: the body of the update loop in `main`
 * (monitor.py:272-302). Every extracted row is folded into the record of its
 * common name; the raw counters of the previous sighting give the delta that
 * is added to the running totals.
 */
module Accounting {
  import opened Wrappers
  import opened StatusParser

  /** The contents of the record kept per common name (`ClientState`, monitor.py:115-124).
      `lastRx`/`lastTx` are the raw counters of the previous sighting, `None`
      before the first one. */
  datatype Record = Record(
    lastRx: Option<int>,
    lastTx: Option<int>,
    totalRx: int,
    totalTx: int,
    realAddress: string,
    since: string,
    lastSeen: int)

  /** The contents of a new `ClientState()`: no sighting yet, nothing counted. */
  const NewClient: Record := Record(None, None, 0, 0, "", "", 0)

  /** The record of `cn`, or a new one for a common name never seen before. */
  function Lookup(states: map<string, Record>, cn: string): Record {
    if cn in states then states[cn] else NewClient
  }

  /** The amount one raw counter adds to its total (monitor.py:279-294): nothing on
      the first sighting, the advance when the counter advanced, and the new raw
      value when the counter dropped (taken as a reset), never less than 0. */
  function Credit(last: Option<int>, raw: int): (d: int)
    ensures d >= 0
  {
    match last
    case None => 0
    case Some(l) =>
      var delta := if raw - l < 0 then raw else raw - l;
      if delta < 0 then 0 else delta
  }

  /** One row folded into the record of its common name (monitor.py:279-301). */
  function Observe(st: Record, row: Row, now: int): (r: Record)
    ensures r.totalRx >= st.totalRx && r.totalTx >= st.totalTx
    ensures st.lastRx.None? ==> r.totalRx == st.totalRx
    ensures st.lastTx.None? ==> r.totalTx == st.totalTx
    ensures st.lastRx.Some? && row.rx >= st.lastRx.value ==>
      r.totalRx == st.totalRx + (row.rx - st.lastRx.value)
    ensures st.lastTx.Some? && row.tx >= st.lastTx.value ==>
      r.totalTx == st.totalTx + (row.tx - st.lastTx.value)
    ensures st.lastRx.Some? && row.rx < st.lastRx.value ==>
      r.totalRx == st.totalRx + (if row.rx > 0 then row.rx else 0)
    ensures st.lastTx.Some? && row.tx < st.lastTx.value ==>
      r.totalTx == st.totalTx + (if row.tx > 0 then row.tx else 0)
    ensures r.lastRx == Some(row.rx) && r.lastTx == Some(row.tx)
    ensures row.realAddress != "" ==> r.realAddress == row.realAddress
    ensures row.realAddress == "" ==> r.realAddress == st.realAddress
    ensures row.since != "" ==> r.since == row.since
    ensures row.since == "" ==> r.since == st.since
    ensures r.lastSeen == now
  {
    Record(
      Some(row.rx), Some(row.tx),
      st.totalRx + Credit(st.lastRx, row.rx),
      st.totalTx + Credit(st.lastTx, row.tx),
      if row.realAddress != "" then row.realAddress else st.realAddress,
      if row.since != "" then row.since else st.since,
      now)
  }

  /** One iteration of the update loop: the row's record is looked up or created,
      then updated. */
  function Step(states: map<string, Record>, row: Row, now: int): map<string, Record> {
    states[row.cn := Observe(Lookup(states, row.cn), row, now)]
  }

  /** The records after the update loop has run over `rows`, in order. */
  function Fold(states: map<string, Record>, rows: seq<Row>, now: int): map<string, Record> {
    if rows == [] then states
    else Step(Fold(states, rows[..|rows| - 1], now), rows[|rows| - 1], now)
  }

  /** `ClientState` (monitor.py:115-124): the record object the update loop and
      `load_state` change field by field. */
  class ClientState {
    var lastRx: Option<int>
    var lastTx: Option<int>
    var totalRx: int
    var totalTx: int
    var realAddress: string
    var since: string
    var lastSeen: int

    /** `ClientState()`: a record holding `NewClient`. */
    constructor ()
      ensures Value() == NewClient
    {
      lastRx, lastTx := None, None;
      totalRx, totalTx := 0, 0;
      realAddress, since := "", "";
      lastSeen := 0;
    }

    /** The record's current contents. */
    function Value(): Record
      reads this
    {
      Record(lastRx, lastTx, totalRx, totalTx, realAddress, since, lastSeen)
    }
  }

  /** The contents of every record object in a map of them. */
  function Contents(states: map<string, ClientState>): map<string, Record>
    reads set cn | cn in states :: states[cn]
  {
    map cn | cn in states :: states[cn].Value()
  }

  /** No two common names share one record object. */
  predicate Unshared(states: map<string, ClientState>) {
    forall a, b :: a in states && b in states && a != b ==> states[a] != states[b]
  }

  /** The body of the update loop for one row (monitor.py:279-301), on the record
      object in place: each total grows by its counter's `Credit`, then the raw
      counters, the text fields the row carries and the last-seen time are set. */
  method UpdateRecord(st: ClientState, row: Row, now: int)
    modifies st
    ensures st.Value() == Observe(old(st.Value()), row, now)
  {
    st.totalRx := st.totalRx + Credit(st.lastRx, row.rx);
    st.totalTx := st.totalTx + Credit(st.lastTx, row.tx);
    st.lastRx := Some(row.rx);
    st.lastTx := Some(row.tx);
    if row.realAddress != "" {
      st.realAddress := row.realAddress;
    }
    if row.since != "" {
      st.since := row.since;
    }
    st.lastSeen := now;
  }

  /** Entering a record object under a name gives that name the object's contents. */
  lemma ContentsPut(states: map<string, ClientState>, cn: string, st: ClientState)
    ensures Contents(states[cn := st]) == Contents(states)[cn := st.Value()]
  {
  }

  /** `states.get(cn)`, or a new record object entered under `cn` when there is
      none (monitor.py:273-276). */
  method Enter(states: map<string, ClientState>, cn: string)
    returns (next: map<string, ClientState>, st: ClientState)
    requires Unshared(states)
    ensures cn in next && next[cn] == st
    ensures Unshared(next)
    ensures forall c :: c in states ==> c in next && next[c] == states[c]
    ensures forall c :: c in next && c !in states ==> fresh(next[c])
    ensures Contents(next) == Contents(states)[cn := Lookup(Contents(states), cn)]
  {
    if cn in states {
      st := states[cn];
      next := states;
    } else {
      st := new ClientState();
      next := states[cn := st];
    }
  }

  /** One iteration of the update loop (monitor.py:273-301): the row's record object
      is looked up or created, then updated in place. */
  method Visit(states: map<string, ClientState>, row: Row, now: int)
    returns (next: map<string, ClientState>)
    requires Unshared(states)
    modifies set cn | cn in states :: states[cn]
    ensures Unshared(next)
    ensures forall cn :: cn in states ==> cn in next && next[cn] == states[cn]
    ensures forall cn :: cn in next && cn !in states ==> fresh(next[cn])
    ensures Contents(next) == Step(old(Contents(states)), row, now)
  {
    ghost var start := Contents(states);
    var st;
    next, st := Enter(states, row.cn);
    ghost var before := Contents(next);
    assert before[row.cn] == st.Value();
    StepEntered(start, before, row, now);
    UpdateRecord(st, row, now);
    ghost var after := before[row.cn := Observe(before[row.cn], row, now)];
    forall c | c in next
      ensures next[c].Value() == after[c]
    {
      if c != row.cn {
        assert next[c] != st;
      }
    }
    assert next.Keys == after.Keys;
    assert Contents(next) == after;
  }

  /** A step on a map whose row's name has already been entered is the step on
      the map before the entry. */
  lemma StepEntered(start: map<string, Record>, before: map<string, Record>, row: Row, now: int)
    requires before == start[row.cn := Lookup(start, row.cn)]
    ensures before[row.cn := Observe(before[row.cn], row, now)] == Step(start, row, now)
  {
  }

  /** The update loop of `main` (monitor.py:272-302). The dictionary is returned
      with an entry added for each new common name; the record objects already in
      it are updated in place, and their contents end as `Fold` says. */
  method ApplyRows(states: map<string, ClientState>, rows: seq<Row>, now: int)
    returns (next: map<string, ClientState>)
    requires Unshared(states)
    modifies set cn | cn in states :: states[cn]
    ensures Unshared(next)
    ensures forall cn :: cn in states ==> cn in next && next[cn] == states[cn]
    ensures forall cn :: cn in next && cn !in states ==> fresh(next[cn])
    ensures Contents(next) == Fold(old(Contents(states)), rows, now)
  {
    ghost var start := Contents(states);
    next := states;
    for i := 0 to |rows|
      invariant Unshared(next)
      invariant forall cn :: cn in states ==> cn in next && next[cn] == states[cn]
      invariant forall cn :: cn in next && cn !in states ==> fresh(next[cn])
      invariant Contents(next) == Fold(start, rows[..i], now)
    {
      assert rows[..i + 1][..i] == rows[..i];
      next := Visit(next, rows[i], now);
    }
    assert rows[..|rows|] == rows;
  }

  // ---------------------------------------------------------------------------
  // One client's history

  /** The rows of `cn`, in order. */
  function RowsOf(rows: seq<Row>, cn: string): (r: seq<Row>)
    ensures |r| <= |rows|
    ensures forall k :: 0 <= k < |r| ==> r[k].cn == cn
  {
    if rows == [] then []
    else
      var init := RowsOf(rows[..|rows| - 1], cn);
      if rows[|rows| - 1].cn == cn then init + [rows[|rows| - 1]] else init
  }

  /** One record folded over a run of rows, in order. */
  function Track(st: Record, rows: seq<Row>, now: int): Record {
    if rows == [] then st
    else Observe(Track(st, rows[..|rows| - 1], now), rows[|rows| - 1], now)
  }

  /** The loop treats every common name on its own: the record of `cn` afterwards
      is its old record (or a new one) folded over exactly the rows of `cn`, and
      the loop adds a record for every common name of a row and removes none. */
  lemma {:induction false} FoldPerClient(states: map<string, Record>, rows: seq<Row>, now: int, cn: string)
    ensures cn in Fold(states, rows, now) <==> cn in states || RowsOf(rows, cn) != []
    ensures Lookup(Fold(states, rows, now), cn) == Track(Lookup(states, cn), RowsOf(rows, cn), now)
  {
    if rows != [] {
      var init := rows[..|rows| - 1];
      FoldPerClient(states, init, now, cn);
      var last := rows[|rows| - 1];
      if last.cn == cn {
        var own := RowsOf(rows, cn);
        assert own[..|own| - 1] == RowsOf(init, cn);
      }
    }
  }

  /** A common name with no row keeps its record unchanged, every field included
      (monitor.py:272-302 touches only the records of the rows' common names). */
  lemma FoldAbsentUnchanged(states: map<string, Record>, rows: seq<Row>, now: int, cn: string)
    requires forall k :: 0 <= k < |rows| ==> rows[k].cn != cn
    ensures cn in Fold(states, rows, now) <==> cn in states
    ensures cn in states ==> Fold(states, rows, now)[cn] == states[cn]
  {
    FoldPerClient(states, rows, now, cn);
    if RowsOf(rows, cn) != [] {
      RowsOfFrom(rows, cn, 0);
    }
  }

  /** Each row of `RowsOf` is one of the rows. */
  lemma {:induction false} RowsOfFrom(rows: seq<Row>, cn: string, k: nat)
    requires k < |RowsOf(rows, cn)|
    ensures exists i :: 0 <= i < |rows| && rows[i] == RowsOf(rows, cn)[k]
  {
    var init := rows[..|rows| - 1];
    if k < |RowsOf(init, cn)| {
      RowsOfFrom(init, cn, k);
      var i :| 0 <= i < |init| && init[i] == RowsOf(init, cn)[k];
      assert rows[i] == init[i];
    } else {
      assert rows[|rows| - 1] == RowsOf(rows, cn)[k];
    }
  }

  /** The common names that have a row also have one in `RowsOf`. */
  lemma {:induction false} RowsOfNonEmpty(rows: seq<Row>, i: nat)
    requires i < |rows|
    ensures RowsOf(rows, rows[i].cn) != []
    ensures RowsOf(rows, rows[i].cn)[|RowsOf(rows, rows[i].cn)| - 1].cn == rows[i].cn
  {
    var cn := rows[i].cn;
    if i < |rows| - 1 {
      RowsOfNonEmpty(rows[..|rows| - 1], i);
      assert rows[..|rows| - 1][i] == rows[i];
    }
  }

  /** Totals never decrease however many rows are folded in. */
  lemma {:induction false} TrackMonotone(st: Record, rows: seq<Row>, now: int)
    ensures Track(st, rows, now).totalRx >= st.totalRx
    ensures Track(st, rows, now).totalTx >= st.totalTx
  {
    if rows != [] {
      TrackMonotone(st, rows[..|rows| - 1], now);
    }
  }

  /** After a run of rows the record holds the raw counters of the last row and
      was last seen now (monitor.py:295-301). */
  lemma TrackLast(st: Record, rows: seq<Row>, now: int)
    requires rows != []
    ensures Track(st, rows, now).lastRx == Some(rows[|rows| - 1].rx)
    ensures Track(st, rows, now).lastTx == Some(rows[|rows| - 1].tx)
    ensures Track(st, rows, now).lastSeen == now
  {
  }

  /** The address and the connected-since text are only ever replaced by non-empty
      values taken from a row (monitor.py:297-300). */
  lemma {:induction false} TrackTextFields(st: Record, rows: seq<Row>, now: int)
    ensures var r := Track(st, rows, now);
      r.realAddress == st.realAddress ||
      exists k :: 0 <= k < |rows| && rows[k].realAddress != "" && rows[k].realAddress == r.realAddress
    ensures var r := Track(st, rows, now);
      r.since == st.since ||
      exists k :: 0 <= k < |rows| && rows[k].since != "" && rows[k].since == r.since
    ensures (forall k :: 0 <= k < |rows| ==> rows[k].realAddress == "") ==>
      Track(st, rows, now).realAddress == st.realAddress
    ensures (forall k :: 0 <= k < |rows| ==> rows[k].since == "") ==>
      Track(st, rows, now).since == st.since
  {
    if rows != [] {
      var init := rows[..|rows| - 1];
      TrackTextFields(st, init, now);
      var r0 := Track(st, init, now);
      if r0.realAddress != st.realAddress {
        var k :| 0 <= k < |init| && init[k].realAddress != "" && init[k].realAddress == r0.realAddress;
        assert rows[k] == init[k];
      }
      if r0.since != st.since {
        var k :| 0 <= k < |init| && init[k].since != "" && init[k].since == r0.since;
        assert rows[k] == init[k];
      }
      if forall k :: 0 <= k < |rows| ==> rows[k].realAddress == "" {
        assert forall k :: 0 <= k < |init| ==> init[k] == rows[k];
      }
      if forall k :: 0 <= k < |rows| ==> rows[k].since == "" {
        assert forall k :: 0 <= k < |init| ==> init[k] == rows[k];
      }
    }
  }

  /** Raw counters that never drop. */
  predicate NonDecreasingRx(rows: seq<Row>) {
    forall k :: 0 < k < |rows| ==> rows[k - 1].rx <= rows[k].rx
  }

  predicate NonDecreasingTx(rows: seq<Row>) {
    forall k :: 0 < k < |rows| ==> rows[k - 1].tx <= rows[k].tx
  }

  /** Within one connection, where the raw counters only advance from the
      previous sighting on, the totals grow by exactly the advance of the raw
      counters: nothing is lost and nothing is counted twice. */
  lemma {:induction false} TrackContinuing(st: Record, rows: seq<Row>, now: int)
    requires rows != [] && st.lastRx.Some? && st.lastTx.Some?
    requires st.lastRx.value <= rows[0].rx && st.lastTx.value <= rows[0].tx
    requires NonDecreasingRx(rows) && NonDecreasingTx(rows)
    ensures Track(st, rows, now).totalRx == st.totalRx + (rows[|rows| - 1].rx - st.lastRx.value)
    ensures Track(st, rows, now).totalTx == st.totalTx + (rows[|rows| - 1].tx - st.lastTx.value)
  {
    if |rows| > 1 {
      var init := rows[..|rows| - 1];
      TrackContinuing(st, init, now);
      TrackLast(st, init, now);
    }
  }

  /** Folding a run of rows one row at a time, from the front. */
  lemma {:induction false} TrackFront(st: Record, rows: seq<Row>, now: int)
    requires rows != []
    ensures Track(st, rows, now) == Track(Observe(st, rows[0], now), rows[1..], now)
  {
    if |rows| > 1 {
      var init := rows[..|rows| - 1];
      TrackFront(st, init, now);
      assert init[1..] == rows[1..][..|rows[1..]| - 1];
    }
  }

  /** From the first sighting on, within one connection: the first row only sets
      the starting line, and the totals then grow by the advance of the raw
      counters since that first row. */
  lemma TrackFirstSighting(st: Record, rows: seq<Row>, now: int)
    requires rows != [] && st.lastRx.None? && st.lastTx.None?
    requires NonDecreasingRx(rows) && NonDecreasingTx(rows)
    ensures Track(st, rows, now).totalRx == st.totalRx + (rows[|rows| - 1].rx - rows[0].rx)
    ensures Track(st, rows, now).totalTx == st.totalTx + (rows[|rows| - 1].tx - rows[0].tx)
  {
    TrackFront(st, rows, now);
    if |rows| > 1 {
      var first := Observe(st, rows[0], now);
      var rest := rows[1..];
      TrackContinuing(first, rest, now);
    }
  }

  /** The loop-level form of `TrackMonotone`: across any sequence of rows, no total
      of any existing record decreases. */
  lemma FoldMonotone(states: map<string, Record>, rows: seq<Row>, now: int, cn: string)
    requires cn in states
    ensures cn in Fold(states, rows, now)
    ensures Fold(states, rows, now)[cn].totalRx >= states[cn].totalRx
    ensures Fold(states, rows, now)[cn].totalTx >= states[cn].totalTx
  {
    FoldPerClient(states, rows, now, cn);
    TrackMonotone(states[cn], RowsOf(rows, cn), now);
  }

  lemma FoldSeen(states: map<string, Record>, rows: seq<Row>, now: int, i: nat)
    requires i < |rows|
    ensures rows[i].cn in Fold(states, rows, now)
    ensures Fold(states, rows, now)[rows[i].cn].lastSeen == now
  {
    var cn := rows[i].cn;
    RowsOfNonEmpty(rows, i);
    FoldPerClient(states, rows, now, cn);
    TrackLast(Lookup(states, cn), RowsOf(rows, cn), now);
  }

  // ---------------------------------------------------------------------------
  // The scenarios a reader of the loop would check by hand

  /** A first sighting with raw counters (1000, 2000) counts nothing. */
  lemma FirstSightingCountsNothing(row: Row, now: int)
    requires row.rx == 1000 && row.tx == 2000
    ensures var s := Fold(map[], [row], now);
      s[row.cn].totalRx == 0 && s[row.cn].totalTx == 0 && s[row.cn].lastRx == Some(1000)
  {
    assert [row][..0] == [];
  }

  /** Counters that advance from (1000, 2000) to (1500, 2600) add (500, 600). */
  lemma AdvanceAddsDifference(st: Record, row: Row, now: int)
    requires st.lastRx == Some(1000) && st.lastTx == Some(2000) && st.totalRx == 0 && st.totalTx == 0
    requires row.rx == 1500 && row.tx == 2600
    ensures var s := Fold(map[row.cn := st], [row], now);
      s[row.cn].totalRx == 500 && s[row.cn].totalTx == 600
  {
    assert [row][..0] == [];
  }

  /** Counters that drop from (1500, 2600) to (50, 80) are taken as a reconnect, and
      the new raw values are added: (500, 600) becomes (550, 680). */
  lemma DropAddsNewValue(st: Record, row: Row, now: int)
    requires st.lastRx == Some(1500) && st.lastTx == Some(2600) && st.totalRx == 500 && st.totalTx == 600
    requires row.rx == 50 && row.tx == 80
    ensures var s := Fold(map[row.cn := st], [row], now);
      s[row.cn].totalRx == 550 && s[row.cn].totalTx == 680 && s[row.cn].lastRx == Some(50)
  {
    assert [row][..0] == [];
  }

  /** Two connections under one common name in the same snapshot, with received
      counters 1000 and 10 that do not move, add 1000 to the received total on
      every pass: each row is measured against the other connection's counter. */
  lemma SharedNameAlternates(st: Record, a: Row, b: Row, now: int)
    requires st.lastRx == Some(10)
    requires a.cn == b.cn && a.rx == 1000 && b.rx == 10
    ensures var s := Fold(map[a.cn := st], [a, b], now);
      s[a.cn].totalRx == st.totalRx + 1000 && s[a.cn].lastRx == Some(10)
  {
    var rows := [a, b];
    assert rows[..1] == [a];
    assert [a][..0] == [];
    var s0 := map[a.cn := st];
    assert Fold(s0, [], now) == s0;
    var s1 := Fold(s0, [a], now);
    assert s1 == Step(s0, a, now);
    assert s1[a.cn] == Observe(st, a, now);
    assert s1[a.cn].totalRx == st.totalRx + 990 && s1[a.cn].lastRx == Some(1000);
  }
}
