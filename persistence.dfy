/**
 * The state file (monitor.py:171-231): `save_state` writes every record's
 * totals, address, connected-since text and last-seen time under a schema
 * version; `load_state` accepts only that version and rebuilds records from
 * it, without the raw counters. The JSON document is modelled as the value
 * tree `json.load` produces, not as text.
 */
module Persistence {
  import opened Wrappers
  import opened Text
  import opened Accounting

  /** A decoded JSON value: null, boolean, integer, string, array or object. */
  datatype Value =
    | VNull
    | VBool(b: bool)
    | VInt(i: int)
    | VStr(s: string)
    | VList(items: seq<Value>)
    | VObj(fields: map<string, Value>)

  const StateVersion: int := 1
  /** `real` is restored to at most this many characters. */
  const RealLimit: nat := 128
  /** `since` is restored to at most this many characters. */
  const SinceLimit: nat := 64

  /** `d.get(key, default)`. */
  function Get(m: map<string, Value>, key: string, default: Value): Value {
    if key in m then m[key] else default
  }

  /** `s[:n]`. */
  function Truncate(s: string, n: nat): (r: string)
    ensures |r| == if |s| <= n then |s| else n
    ensures r == s[..|r|]
    ensures |s| <= n ==> r == s
  {
    if |s| <= n then s else s[..n]
  }

  /** Python's `int(v)` on a decoded JSON value; `None` is the `TypeError` or
      `ValueError` it raises. */
  function PyInt(v: Value): Option<int> {
    match v
    case VInt(i) => Some(i)
    case VBool(b) => Some(if b then 1 else 0)
    case VStr(s) => ParseInt(Strip(s))
    case _ => None
  }

  /** Python's `str(v)` on a decoded JSON scalar. */
  function PyStr(v: Value): string {
    match v
    case VStr(s) => s
    case VInt(i) => Decimal(i)
    case VBool(b) => if b then "True" else "False"
    case VNull => "None"
    case _ => ""
  }

  /** `raw.get("version") != STATE_VERSION` is false: the version is 1, or `true`,
      which Python compares equal to 1. */
  predicate VersionMatches(m: map<string, Value>) {
    "version" in m && (m["version"] == VInt(StateVersion) || m["version"] == VBool(true))
  }

  /** The record one saved client entry gives back (monitor.py:192-200); `None` is the
      exception that makes the loop skip the entry. The raw counters stay unset. */
  function RestoreRecord(obj: Value): (r: Option<Record>)
    ensures r.Some? ==> obj.VObj?
    ensures r.Some? ==> r.value.lastRx.None? && r.value.lastTx.None?
    ensures r.Some? ==> |r.value.realAddress| <= RealLimit && |r.value.since| <= SinceLimit
  {
    match obj
    case VObj(m) =>
      var totalRx := PyInt(Get(m, "total_rx", VInt(0)));
      var totalTx := PyInt(Get(m, "total_tx", VInt(0)));
      var address := Truncate(PyStr(Get(m, "real", VStr(""))), RealLimit);
      var since := Truncate(PyStr(Get(m, "since", VStr(""))), SinceLimit);
      var lastSeen := PyInt(Get(m, "last_seen", VInt(0)));
      if totalRx.Some? && totalTx.Some? && lastSeen.Some? then
        Some(Record(None, None, totalRx.value, totalTx.value, address, since, lastSeen.value))
      else None
    case _ => None
  }

  /** The records restored from the entries of `clients` named in `keys`. */
  function RestoreEntries(clients: map<string, Value>, keys: set<string>): map<string, Record> {
    map cn | cn in keys && cn in clients && RestoreRecord(clients[cn]).Some? :: RestoreRecord(clients[cn]).value
  }

  /** What `load_state` returns for a decoded document (monitor.py:184-203). */
  function Restore(raw: Value): (r: map<string, Record>)
    ensures !(raw.VObj? && VersionMatches(raw.fields)) ==> r == map[]
    ensures forall cn :: cn in r ==> r[cn].lastRx.None? && r[cn].lastTx.None?
    ensures forall cn :: cn in r ==> |r[cn].realAddress| <= RealLimit && |r[cn].since| <= SinceLimit
  {
    if !raw.VObj? || !VersionMatches(raw.fields) then map[]
    else
      match Get(raw.fields, "clients", VObj(map[]))
      case VObj(clients) => RestoreEntries(clients, clients.Keys)
      case _ => map[]
  }

  /** `load_state` after `json.load` (monitor.py:174-203): the version gate, then the
      loop that builds a new record object for each saved entry it can read. */
  method LoadState(raw: Value) returns (data: map<string, ClientState>)
    ensures Unshared(data)
    ensures forall cn :: cn in data ==> fresh(data[cn])
    ensures Contents(data) == Restore(raw)
  {
    data := map[];
    if !raw.VObj? || !VersionMatches(raw.fields) {
      return;
    }
    var payload := Get(raw.fields, "clients", VObj(map[]));
    if !payload.VObj? {
      return;
    }
    data := LoadClients(payload.fields);
  }

  /** The loop of `load_state` over the saved entries (monitor.py:190-202): a new
      record object for each entry that reads back, none for the others. */
  method LoadClients(clients: map<string, Value>) returns (data: map<string, ClientState>)
    ensures Unshared(data)
    ensures forall cn :: cn in data ==> fresh(data[cn])
    ensures Contents(data) == RestoreEntries(clients, clients.Keys)
  {
    data := map[];
    var remaining := clients.Keys;
    while remaining != {}
      invariant remaining <= clients.Keys
      invariant Unshared(data)
      invariant forall cn :: cn in data ==> fresh(data[cn])
      invariant Contents(data) == RestoreEntries(clients, clients.Keys - remaining)
      decreases remaining
    {
      var cn :| cn in remaining;
      var done := clients.Keys - remaining;
      assert clients.Keys - (remaining - {cn}) == done + {cn};
      RestoreEntriesAdd(clients, done, cn);
      var r := RestoreRecord(clients[cn]);
      if r.Some? {
        var st := Build(r.value);
        ContentsPut(data, cn, st);
        data := data[cn := st];
      }
      remaining := remaining - {cn};
    }
    assert clients.Keys - remaining == clients.Keys;
  }

  /** `st = ClientState()` with its restored fields set (monitor.py:193-198). */
  method Build(rec: Record) returns (st: ClientState)
    requires rec.lastRx.None? && rec.lastTx.None?
    ensures fresh(st)
    ensures st.Value() == rec
  {
    st := new ClientState();
    st.totalRx := rec.totalRx;
    st.totalTx := rec.totalTx;
    st.realAddress := rec.realAddress;
    st.since := rec.since;
    st.lastSeen := rec.lastSeen;
  }

  /** Restoring one more entry adds its record when it has one. */
  lemma RestoreEntriesAdd(clients: map<string, Value>, done: set<string>, cn: string)
    requires cn in clients && cn !in done
    ensures RestoreEntries(clients, done + {cn}) ==
      if RestoreRecord(clients[cn]).Some?
      then RestoreEntries(clients, done)[cn := RestoreRecord(clients[cn]).value]
      else RestoreEntries(clients, done)
  {
  }

  /** One client entry as `save_state` writes it (monitor.py:221-227): no raw counters. */
  function SaveRecord(st: Record): Value {
    VObj(map[
      "total_rx" := VInt(st.totalRx),
      "total_tx" := VInt(st.totalTx),
      "real" := VStr(st.realAddress),
      "since" := VStr(st.since),
      "last_seen" := VInt(st.lastSeen)])
  }

  /** The document `save_state` writes (monitor.py:217-230); `savedAt` is the
      clock reading taken at save time. */
  function SavePayload(states: map<string, Record>, savedAt: int): Value {
    VObj(map[
      "version" := VInt(StateVersion),
      "saved_at" := VInt(savedAt),
      "clients" := VObj(SavedClients(states))])
  }

  /** A saved entry holds exactly the five persisted fields, never the raw counters. */
  lemma SavedFields(st: Record)
    ensures SaveRecord(st).fields.Keys == {"total_rx", "total_tx", "real", "since", "last_seen"}
    ensures "last_rx" !in SaveRecord(st).fields && "last_tx" !in SaveRecord(st).fields
  {
  }

  /** A record as a save and a load leave it: the same totals and last-seen time,
      the address and connected-since text cut to 128 and 64 characters, and no raw
      counters, so that the next sighting only sets a new starting line. */
  function Reloaded(st: Record): Record {
    Record(None, None, st.totalRx, st.totalTx,
      Truncate(st.realAddress, RealLimit), Truncate(st.since, SinceLimit), st.lastSeen)
  }

  /** The `clients` object `save_state` writes. */
  function SavedClients(states: map<string, Record>): map<string, Value> {
    map cn | cn in states :: SaveRecord(states[cn])
  }

  /** A saved entry reads back as the reloaded record. */
  lemma RecordRoundTrip(st: Record)
    ensures RestoreRecord(SaveRecord(st)) == Some(Reloaded(st))
  {
  }

  /** The saved document passes the version gate and hands its client entries on. */
  lemma RestoreSaved(states: map<string, Record>, savedAt: int)
    ensures Restore(SavePayload(states, savedAt)) == RestoreEntries(SavedClients(states), states.Keys)
  {
    var doc := SavePayload(states, savedAt);
    assert VersionMatches(doc.fields);
    assert Get(doc.fields, "clients", VObj(map[])) == VObj(SavedClients(states));
  }

  /** Loading what was saved (monitor.py:216-231 then 174-203) gives back a record for
      every saved common name and no other, each the reloaded form of the saved one. */
  lemma SaveRestoreRoundTrip(states: map<string, Record>, savedAt: int)
    ensures Restore(SavePayload(states, savedAt)) == map cn | cn in states :: Reloaded(states[cn])
  {
    RestoreSaved(states, savedAt);
    var clients := SavedClients(states);
    forall cn | cn in states
      ensures RestoreRecord(clients[cn]) == Some(Reloaded(states[cn]))
    {
      RecordRoundTrip(states[cn]);
    }
  }

  /** Saving and loading a second time changes nothing more: the restored state is
      a fixed point of the save/load cycle. */
  lemma SaveRestoreStable(states: map<string, Record>, t1: int, t2: int)
    ensures var once := Restore(SavePayload(states, t1));
      Restore(SavePayload(once, t2)) == once
  {
    var once := Restore(SavePayload(states, t1));
    SaveRestoreRoundTrip(states, t1);
    SaveRestoreRoundTrip(once, t2);
    forall cn | cn in once
      ensures Reloaded(once[cn]) == once[cn]
    {
      ReloadedStable(states[cn]);
    }
  }

  /** A reloaded record reloads as itself. */
  lemma ReloadedStable(st: Record)
    ensures Reloaded(Reloaded(st)) == Reloaded(st)
  {
  }

  /** A document of another schema version restores nothing (monitor.py:184-185). */
  lemma OtherVersionRestoresNothing(fields: map<string, Value>, v: int)
    requires v != StateVersion
    ensures Restore(VObj(fields["version" := VInt(v)])) == map[]
  {
  }
}
