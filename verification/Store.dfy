/** The tick store (server/db/store.go): inserts, asynchronous trims and history reads over one
    table. The table is the sequence of its rows in id order. */
module Store {
  import opened Types

  datatype Row = Row(id: nat, ts: int, raw: string)

  const KEEP: nat := 10_000

  /** Every id is below the next one. */
  predicate Ascending(rows: seq<Row>) {
    var n := |rows| - 1;
    n < 1 || (rows[n - 1].id < rows[n].id && Ascending(rows[..n]))
  }

  /** No time stamp is above the next one. */
  predicate InTime(rows: seq<Row>) {
    var n := |rows| - 1;
    n < 1 || (rows[n - 1].ts <= rows[n].ts && InTime(rows[..n]))
  }

  lemma {:induction false} LastId(rows: seq<Row>, k: nat)
    requires Ascending(rows) && k < |rows| - 1
    ensures rows[k].id < rows[|rows| - 1].id
  {
    if k < |rows| - 2 { LastId(rows[..|rows| - 1], k); }
  }

  lemma {:induction false} LastTime(rows: seq<Row>, k: nat)
    requires InTime(rows) && k < |rows|
    ensures rows[k].ts <= rows[|rows| - 1].ts
  {
    if k < |rows| - 1 { LastTime(rows[..|rows| - 1], k); }
  }

  lemma {:induction false} DropAscending(rows: seq<Row>, d: nat)
    requires Ascending(rows) && d <= |rows|
    ensures Ascending(rows[d..])
  {
    var n := |rows| - 1;
    if d < n {
      DropAscending(rows[..n], d);
      assert rows[d..][..n - d] == rows[..n][d..];
    }
  }

  lemma {:induction false} DropInTime(rows: seq<Row>, d: nat)
    requires InTime(rows) && d <= |rows|
    ensures InTime(rows[d..])
  {
    var n := |rows| - 1;
    if d < n {
      DropInTime(rows[..n], d);
      assert rows[d..][..n - d] == rows[..n][d..];
    }
  }

  // ---------------------------------------------------------------- the statements

  /** How many rows have a greater id. */
  function Above(rows: seq<Row>, id: nat): nat {
    if rows == [] then 0
    else Above(rows[..|rows| - 1], id) + if rows[|rows| - 1].id > id then 1 else 0
  }

  /** `id IN (SELECT id ... ORDER BY id DESC LIMIT n)` */
  predicate AmongLatest(rows: seq<Row>, id: nat, n: nat) { Above(rows, id) < n }

  function KeepLatest(rows: seq<Row>, all: seq<Row>, n: nat): seq<Row> {
    if rows == [] then []
    else (if AmongLatest(all, rows[0].id, n) then [rows[0]] else []) + KeepLatest(rows[1..], all, n)
  }

  /** `DELETE ... WHERE id NOT IN (...)` */
  function Trim(rows: seq<Row>): seq<Row> { KeepLatest(rows, rows, KEEP) }

  /** `ORDER BY id DESC LIMIT n`, oldest first: SQLite takes a negative limit as none. */
  function Newest(rows: seq<Row>, limit: int): seq<Row> {
    if limit < 0 || |rows| <= limit then rows else rows[|rows| - limit..]
  }

  predicate Before(a: Row, b: Row) { a.ts < b.ts || (a.ts == b.ts && a.id < b.id) }

  function Place(r: Row, rows: seq<Row>): seq<Row> {
    if rows == [] || Before(r, rows[0]) then [r] + rows else [rows[0]] + Place(r, rows[1..])
  }

  /** `ORDER BY ts ASC, id ASC` */
  function Order(rows: seq<Row>): seq<Row> {
    if rows == [] then [] else Place(rows[|rows| - 1], Order(rows[..|rows| - 1]))
  }

  function Raws(rows: seq<Row>): seq<string> {
    if rows == [] then [] else Raws(rows[..|rows| - 1]) + [rows[|rows| - 1].raw]
  }

  function History(rows: seq<Row>, limit: int): seq<string> { Raws(Order(Newest(rows, limit))) }

  // ---------------------------------------------------------------- ordering

  predicate Ordered(rows: seq<Row>) { |rows| <= 1 || (!Before(rows[1], rows[0]) && Ordered(rows[1..])) }

  lemma {:induction false} OrderOrdered(rows: seq<Row>)
    ensures Ordered(Order(rows))
  {
    if rows != [] {
      OrderOrdered(rows[..|rows| - 1]);
      PlaceOrdered(rows[|rows| - 1], Order(rows[..|rows| - 1]));
    }
  }

  lemma {:induction false} OrderSame(rows: seq<Row>)
    ensures multiset(Order(rows)) == multiset(rows) && |Order(rows)| == |rows|
  {
    if rows != [] {
      var init := rows[..|rows| - 1];
      OrderSame(init);
      PlaceAdds(rows[|rows| - 1], Order(init));
      assert rows == init + [rows[|rows| - 1]];
    }
  }

  /** The sort is a sort: in order, and the same rows. */
  lemma OrderSorts(rows: seq<Row>)
    ensures Ordered(Order(rows)) && multiset(Order(rows)) == multiset(rows) && |Order(rows)| == |rows|
  {
    OrderOrdered(rows);
    OrderSame(rows);
  }

  lemma {:induction false} PlaceOrdered(r: Row, rows: seq<Row>)
    requires Ordered(rows)
    ensures Ordered(Place(r, rows)) && Place(r, rows) != []
    ensures Place(r, rows)[0] == r || (rows != [] && Place(r, rows)[0] == rows[0])
  {
    if rows == [] || Before(r, rows[0]) {
      assert ([r] + rows)[1..] == rows;
    } else {
      PlaceOrdered(r, rows[1..]);
      assert Place(r, rows)[1..] == Place(r, rows[1..]);
    }
  }

  lemma {:induction false} PlaceAdds(r: Row, rows: seq<Row>)
    ensures multiset(Place(r, rows)) == multiset(rows) + multiset{r} && |Place(r, rows)| == |rows| + 1
  {
    if rows != [] {
      PlaceAdds(r, rows[1..]);
      assert rows == [rows[0]] + rows[1..];
    }
  }

  lemma {:induction false} PlaceLast(r: Row, rows: seq<Row>)
    requires forall i :: 0 <= i < |rows| ==> rows[i].ts <= r.ts && rows[i].id < r.id
    ensures Place(r, rows) == rows + [r]
  {
    if rows != [] {
      PlaceLast(r, rows[1..]);
      assert rows == [rows[0]] + rows[1..];
    }
  }

  lemma {:induction false} OrderInTime(rows: seq<Row>)
    requires Ascending(rows) && InTime(rows)
    ensures Order(rows) == rows
  {
    if rows != [] {
      var n := |rows| - 1;
      var init := rows[..n];
      OrderInTime(init);
      forall i | 0 <= i < |init| ensures init[i].ts <= rows[n].ts && init[i].id < rows[n].id {
        LastId(rows, i);
        LastTime(rows, i);
      }
      PlaceLast(rows[n], init);
    }
  }

  // ---------------------------------------------------------------- trimming

  lemma {:induction false} AboveNone(rows: seq<Row>, id: nat)
    requires Ascending(rows) && (rows != [] ==> rows[|rows| - 1].id <= id)
    ensures Above(rows, id) == 0
  {
    if rows != [] { AboveNone(rows[..|rows| - 1], id); }
  }

  lemma {:induction false} AboveAt(rows: seq<Row>, k: nat)
    requires Ascending(rows) && k < |rows|
    ensures Above(rows, rows[k].id) == |rows| - 1 - k
  {
    var n := |rows| - 1;
    if k == n {
      AboveNone(rows, rows[k].id);
    } else {
      LastId(rows, k);
      AboveAt(rows[..n], k);
    }
  }

  lemma {:induction false} KeepLatestFrom(all: seq<Row>, k: nat, n: nat)
    requires Ascending(all) && k <= |all|
    ensures KeepLatest(all[k..], all, n) == if |all| - k <= n then all[k..] else all[|all| - n..]
    decreases |all| - k
  {
    if k < |all| {
      KeepLatestFrom(all, k + 1, n);
      AboveAt(all, k);
      assert all[k..][0] == all[k] && all[k..][1..] == all[k + 1..];
      assert all[k..] == [all[k]] + all[k + 1..];
    }
  }

  /** The delete leaves exactly the newest 10000 rows. */
  lemma TrimKeepsNewest(rows: seq<Row>)
    requires Ascending(rows)
    ensures Trim(rows) == Newest(rows, KEEP)
    ensures Trim(rows) == if |rows| <= 10_000 then rows else rows[|rows| - 10_000..]
  {
    assert rows[0..] == rows;
    KeepLatestFrom(rows, 0, KEEP);
  }

  // ---------------------------------------------------------------- every interleaving

  /** An insert, or one of the trims that inserts have started. */
  datatype Step = Insert(ts: int, raw: string) | TrimRuns

  /** `all` is the table as it would be had no trim run. */
  datatype State = State(rows: seq<Row>, nextId: nat, all: seq<Row>)

  const Start := State([], 1, [])

  function Next(s: State, step: Step): State {
    match step
    case Insert(ts, raw) =>
      var r := Row(s.nextId, ts, raw);
      State(s.rows + [r], s.nextId + 1, s.all + [r])
    case TrimRuns => s.(rows := Trim(s.rows))
  }

  function Final(steps: seq<Step>): State {
    if steps == [] then Start else Next(Final(steps[..|steps| - 1]), steps[|steps| - 1])
  }

  predicate SuffixOf(rows: seq<Row>, all: seq<Row>) { |rows| <= |all| && rows == all[|all| - |rows|..] }

  predicate Sound(s: State) {
    && Ascending(s.all) && Below(s.all, s.nextId)
    && SuffixOf(s.rows, s.all)
    && (|s.rows| >= KEEP || s.rows == s.all)
  }

  predicate Below(rows: seq<Row>, id: nat) { rows == [] || rows[|rows| - 1].id < id }

  lemma AppendAscending(rows: seq<Row>, r: Row)
    requires Ascending(rows) && Below(rows, r.id)
    ensures Ascending(rows + [r])
  {
    assert (rows + [r])[..|rows|] == rows;
  }

  lemma AppendSuffix(rows: seq<Row>, all: seq<Row>, r: Row)
    requires SuffixOf(rows, all)
    ensures SuffixOf(rows + [r], all + [r])
  {
  }

  lemma InsertSound(s: State, ts: int, raw: string)
    requires Sound(s)
    ensures Sound(Next(s, Insert(ts, raw)))
  {
    var r := Row(s.nextId, ts, raw);
    AppendAscending(s.all, r);
    AppendSuffix(s.rows, s.all, r);
  }

  lemma NewestSuffix(rows: seq<Row>, all: seq<Row>, limit: nat)
    requires SuffixOf(rows, all)
    ensures SuffixOf(Newest(rows, limit), all)
  {
  }

  lemma TrimSound(s: State)
    requires Sound(s)
    ensures Sound(Next(s, TrimRuns)) && Next(s, TrimRuns).rows == Newest(s.rows, KEEP)
  {
    DropAscending(s.all, |s.all| - |s.rows|);
    TrimKeepsNewest(s.rows);
    NewestSuffix(s.rows, s.all, KEEP);
  }

  /** A trim leaves the newest of all rows ever inserted. */
  lemma TrimmedAll(s: State)
    requires Sound(s)
    ensures Next(s, TrimRuns).rows == Newest(s.all, KEEP)
  {
    TrimSound(s);
    NewestAgree(s, KEEP);
  }

  lemma StepSound(s: State, step: Step)
    requires Sound(s)
    ensures Sound(Next(s, step))
  {
    match step
    case Insert(ts, raw) => InsertSound(s, ts, raw);
    case TrimRuns => TrimSound(s);
  }

  lemma {:induction false} RunSound(steps: seq<Step>)
    ensures Sound(Final(steps))
  {
    if steps != [] {
      RunSound(steps[..|steps| - 1]);
      StepSound(Final(steps[..|steps| - 1]), steps[|steps| - 1]);
    }
  }

  lemma NewestAgree(s: State, limit: int)
    requires Sound(s) && 0 <= limit <= KEEP
    ensures Newest(s.rows, limit) == Newest(s.all, limit)
  {
    if s.rows != s.all && |s.rows| > limit {
      assert s.rows[|s.rows| - limit..] == s.all[|s.all| - limit..];
    }
  }

  /** However inserts and trims interleave, a history of at most KEEP rows is what it would be on
      a table that is never trimmed. */
  lemma HistoryUntouched(steps: seq<Step>, limit: int)
    requires 0 <= limit <= KEEP
    ensures History(Final(steps).rows, limit) == History(Final(steps).all, limit)
  {
    RunSound(steps);
    NewestAgree(Final(steps), limit);
  }

  lemma {:induction false} RawsLength(rows: seq<Row>)
    ensures |Raws(rows)| == |rows|
  {
    if rows != [] { RawsLength(rows[..|rows| - 1]); }
  }

  lemma HistoryLength(rows: seq<Row>, limit: int)
    ensures |History(rows, limit)| == |Newest(rows, limit)|
  {
    OrderSorts(Newest(rows, limit));
    RawsLength(Order(Newest(rows, limit)));
  }

  lemma {:induction false} RawsAt(rows: seq<Row>, i: nat)
    requires i < |rows|
    ensures |Raws(rows)| == |rows| && Raws(rows)[i] == rows[i].raw
  {
    RawsLength(rows);
    RawsLength(rows[..|rows| - 1]);
    if i < |rows| - 1 { RawsAt(rows[..|rows| - 1], i); }
  }

  lemma {:induction false} OrderedPair(rows: seq<Row>, i: nat, j: nat)
    requires Ordered(rows) && i < j < |rows|
    ensures rows[i].ts < rows[j].ts || (rows[i].ts == rows[j].ts && rows[i].id <= rows[j].id)
    decreases |rows|
  {
    if i > 0 {
      OrderedPair(rows[1..], i - 1, j - 1);
    } else if j > 1 {
      OrderedPair(rows[1..], 0, j - 1);
    }
  }

  lemma {:induction false} AscendingPair(rows: seq<Row>, i: nat, j: nat)
    requires Ascending(rows) && i < j < |rows|
    ensures rows[i].id < rows[j].id
  {
    if j < |rows| - 1 { AscendingPair(rows[..|rows| - 1], i, j); } else { LastId(rows, i); }
  }

  /** A history is the raw text of as many rows as asked for, or of all there are: those with the
      greatest ids, each once, by time stamp and then id. */
  lemma HistoryMeans(rows: seq<Row>, limit: int) returns (chosen: seq<Row>)
    ensures |chosen| == if limit < 0 || |rows| < limit then |rows| else limit
    ensures multiset(chosen) == multiset(rows[|rows| - |chosen|..])
    ensures |History(rows, limit)| == |chosen| && forall i :: 0 <= i < |chosen| ==> History(rows, limit)[i] == chosen[i].raw
    ensures forall i, j :: 0 <= i < j < |chosen| ==> InOrder(chosen[i], chosen[j])
  {
    var newest := Newest(rows, limit);
    chosen := Order(newest);
    OrderSorts(newest);
    assert newest == rows[|rows| - |chosen|..];
    RawsLength(chosen);
    forall i | 0 <= i < |chosen| ensures History(rows, limit)[i] == chosen[i].raw { RawsAt(chosen, i); }
    forall i, j | 0 <= i < j < |chosen| ensures InOrder(chosen[i], chosen[j]) { OrderedPair(chosen, i, j); }
  }

  predicate InOrder(a: Row, b: Row) { a.ts < b.ts || (a.ts == b.ts && a.id <= b.id) }

  /** In every run ids go up along the table, so the rows left out have smaller ids. */
  lemma RowsByAge(steps: seq<Step>, i: nat, j: nat)
    requires i < j < |Final(steps).rows|
    ensures Final(steps).rows[i].id < Final(steps).rows[j].id
  {
    var s := Final(steps);
    RunSound(steps);
    DropAscending(s.all, |s.all| - |s.rows|);
    AscendingPair(s.rows, i, j);
  }

  /** The ticks inserted in a run, in order. */
  function Inserted(steps: seq<Step>): seq<(int, string)> {
    if steps == [] then []
    else
      var last := steps[|steps| - 1];
      Inserted(steps[..|steps| - 1]) + if last.Insert? then [(last.ts, last.raw)] else []
  }

  function Contents(rows: seq<Row>): seq<(int, string)> {
    if rows == [] then [] else Contents(rows[..|rows| - 1]) + [(rows[|rows| - 1].ts, rows[|rows| - 1].raw)]
  }

  /** The rows ever inserted are the run's ticks, each with its own time stamp and raw text. */
  lemma {:induction false} AllInserted(steps: seq<Step>)
    ensures Contents(Final(steps).all) == Inserted(steps)
  {
    if steps != [] {
      var init := steps[..|steps| - 1];
      AllInserted(init);
      var before, after := Final(init).all, Final(steps).all;
      if steps[|steps| - 1].Insert? { assert after[..|after| - 1] == before; }
    }
  }

  /** Keeping the newest KEEP rows shows in exactly the histories that ask for more. */
  lemma KeepVisibleExactly(all: seq<Row>, limit: int)
    ensures History(Newest(all, KEEP), limit) == History(all, limit) <==> 0 <= limit <= KEEP || |all| <= KEEP
  {
    if limit < 0 || KEEP < limit {
      HistoryLength(Newest(all, KEEP), limit);
      HistoryLength(all, limit);
    } else {
      NewestTwice(all, limit);
    }
  }

  lemma NewestTwice(all: seq<Row>, limit: nat)
    requires limit <= KEEP
    ensures Newest(Newest(all, KEEP), limit) == Newest(all, limit)
  {
  }

  /** Once a trim has run, exactly the limits from 0 to KEEP hide it, unless nothing was trimmed. */
  lemma TrimVisibleExactly(steps: seq<Step>, limit: int)
    requires steps != [] && steps[|steps| - 1].TrimRuns?
    ensures var s := Final(steps);
            History(s.rows, limit) == History(s.all, limit) <==> 0 <= limit <= KEEP || |s.all| <= KEEP
  {
    RunSound(steps[..|steps| - 1]);
    TrimmedAll(Final(steps[..|steps| - 1]));
    KeepVisibleExactly(Final(steps).all, limit);
  }

  /** With time stamps that never go back, a history is the last rows in insertion order. */
  lemma HistoryInInsertionOrder(steps: seq<Step>, limit: int)
    requires 0 <= limit <= KEEP && InTime(Final(steps).all)
    ensures History(Final(steps).rows, limit) == Raws(Newest(Final(steps).all, limit))
  {
    RunSound(steps);
    HistoryUntouched(steps, limit);
    HistoryInTime(Final(steps).all, limit);
  }

  lemma NewestInTime(rows: seq<Row>, limit: int)
    requires Ascending(rows) && InTime(rows)
    ensures Ascending(Newest(rows, limit)) && InTime(Newest(rows, limit))
  {
    if limit >= 0 && |rows| > limit {
      DropAscending(rows, |rows| - limit);
      DropInTime(rows, |rows| - limit);
    }
  }

  lemma HistoryInTime(rows: seq<Row>, limit: int)
    requires Ascending(rows) && InTime(rows)
    ensures History(rows, limit) == Raws(Newest(rows, limit))
  {
    NewestInTime(rows, limit);
    OrderInTime(Newest(rows, limit));
  }

  // ---------------------------------------------------------------- the store

  /** What some run leads to, so what the statements above are about. */
  ghost predicate Reachable(s: State) { exists steps :: Final(steps) == s }

  lemma Reached(s: State, step: Step)
    requires Reachable(s)
    ensures Reachable(Next(s, step))
  {
    var steps :| Final(steps) == s;
    var more := steps + [step];
    assert more[..|more| - 1] == steps;
    assert Final(more) == Next(s, step);
  }

  lemma TrimReached(s: State)
    requires Reachable(s)
    ensures Next(s, TrimRuns).rows == Newest(s.all, KEEP)
  {
    var steps :| Final(steps) == s;
    RunSound(steps);
    TrimmedAll(s);
  }

  lemma HistoryReached(s: State, limit: int)
    requires Reachable(s) && 0 <= limit <= KEEP
    ensures History(s.rows, limit) == History(s.all, limit)
  {
    var steps :| Final(steps) == s;
    HistoryUntouched(steps, limit);
  }

  /** What StoreTick reads out of a message that parses. */
  datatype Header = Header(kind: string, ts: int)

  function StoreStep(s: State, parsed: Option<Header>, raw: string): State {
    if parsed.Some? && parsed.value.kind == "tick" then Next(s, Insert(parsed.value.ts, raw)) else s
  }

  /** The database table. `all` records every row ever inserted. */
  class Table {
    var rows: seq<Row>
    var nextId: nat
    ghost var all: seq<Row>

    ghost function View(): State reads this { State(rows, nextId, all) }

    ghost predicate Valid() reads this { Reachable(View()) }

    constructor ()
      ensures Valid() && View() == Start
    {
      rows, nextId, all := [], 1, [];
      new;
      assert Final([]) == View();
    }

    /** The INSERT statement. */
    method InsertRow(ts: int, raw: string)
      requires Valid()
      modifies this
      ensures Valid() && View() == Next(old(View()), Insert(ts, raw))
      ensures rows == old(rows) + [Row(old(nextId), ts, raw)] && all == old(all) + [Row(old(nextId), ts, raw)]
    {
      Reached(View(), Insert(ts, raw));
      var r := Row(nextId, ts, raw);
      rows, nextId, all := rows + [r], nextId + 1, all + [r];
    }

    /** Fails on a message that does not parse; ignores one that is not a tick. */
    method StoreTick(parsed: Option<Header>, raw: string) returns (ok: bool)
      requires Valid()
      modifies this
      ensures Valid() && ok == parsed.Some? && View() == StoreStep(old(View()), parsed, raw)
      ensures parsed.Some? && parsed.value.kind == "tick" ==>
        exists id :: rows == old(rows) + [Row(id, parsed.value.ts, raw)] && all == old(all) + [Row(id, parsed.value.ts, raw)]
      ensures parsed.None? || parsed.value.kind != "tick" ==> rows == old(rows) && all == old(all)
    {
      ok := parsed.Some?;
      if ok && parsed.value.kind == "tick" {
        InsertRow(parsed.value.ts, raw);
      }
    }

    method TrimOldTicks()
      requires Valid()
      modifies this
      ensures Valid() && View() == Next(old(View()), TrimRuns) && rows == Newest(all, KEEP)
    {
      Reached(View(), TrimRuns);
      TrimReached(View());
      rows := Trim(rows);
    }

    /** The read loop over the ordered result. */
    static method Scan(found: seq<Row>) returns (result: seq<string>)
      ensures result == Raws(found)
    {
      result := [];
      for i := 0 to |found|
        invariant result == Raws(found[..i])
      {
        assert found[..i + 1][..i] == found[..i];
        result := result + [found[i].raw];
      }
      assert found[..|found|] == found;
    }

    /** No trim shows in a history of at most KEEP rows. */
    method ReadHistory(limit: int) returns (result: seq<string>)
      requires Valid()
      ensures result == History(rows, limit)
      ensures 0 <= limit <= KEEP ==> result == History(all, limit)
    {
      result := Scan(Order(Newest(rows, limit)));
      if 0 <= limit <= KEEP { HistoryReached(View(), limit); }
    }
  }
}
