/** The sandbox manager's status machine (server/sandbox/manager.go). A step is one critical
    section under the manager's lock; Docker and the file system decide only which step comes. */
module Manager {
  import opened Types

  datatype Status = Spawning | Running | Error | Stopped {
    predicate Active() { Spawning? || Running? }
  }

  const MAX_CONCURRENT: nat := 5
  const MAX_SCRIPT: nat := 50 * 1024

  datatype Refusal = InvalidTraderId | ScriptTooLarge | DuplicateTraderId | TooManySandboxes

  datatype Verdict = Admitted | Refused(reason: Refusal)

  predicate IdChar(c: char) {
    'a' <= c <= 'z' || 'A' <= c <= 'Z' || '0' <= c <= '9' || c == '_' || c == '-'
  }

  /** `[a-zA-Z0-9_-]`, one by one. */
  lemma IdCharIs(c: char)
    ensures IdChar(c) <==>
      c in "abcdefghijklmnopqrstuvwxyz" || c in "ABCDEFGHIJKLMNOPQRSTUVWXYZ" || c in "0123456789_-"
  {
    Letters(c, 'a', "abcdefghijklmnopqrstuvwxyz");
    Letters(c, 'A', "ABCDEFGHIJKLMNOPQRSTUVWXYZ");
    Letters(c, '0', "0123456789");
    assert "0123456789_-" == "0123456789" + "_-";
  }

  /** A word of consecutive characters holds those from its first to its last. */
  lemma Letters(c: char, first: char, word: string)
    requires word != "" && forall i :: 0 <= i < |word| ==> word[i] as int == first as int + i
    ensures c in word <==> first <= c <= word[|word| - 1]
  {
    if first <= c <= word[|word| - 1] { assert word[c as int - first as int] == c; }
  }

  /** `^[a-zA-Z0-9_-]{3,32}$` */
  predicate ValidId(id: string) { 3 <= |id| <= 32 && forall i :: 0 <= i < |id| ==> IdChar(id[i]) }

  function ActiveIds(entries: map<string, Status>): set<string> {
    set id | id in entries && entries[id].Active()
  }

  /** The entries; the ids whose Spawn has been admitted and has not yet written its result; the
      ids with a monitor; every admission so far; and how many times Kill has written Stopped to
      an entry in flight. */
  datatype State = State(
    entries: map<string, Status>, inFlight: set<string>, monitored: set<string>,
    admitted: seq<string>, lateKills: nat)

  datatype Step =
    | Spawn(id: string, scriptSize: nat)
    | SetRunning(id: string)
    | SetError(id: string)
    | MonitorStops(id: string)
    | KillWrites(id: string)

  function Judge(entries: map<string, Status>, id: string, scriptSize: nat): Verdict {
    if !ValidId(id) then Refused(InvalidTraderId)
    else if scriptSize > MAX_SCRIPT then Refused(ScriptTooLarge)
    else if id in entries then Refused(DuplicateTraderId)
    else if |ActiveIds(entries)| >= MAX_CONCURRENT then Refused(TooManySandboxes)
    else Admitted
  }

  predicate GoodId(id: string) { 3 <= |id| <= 32 && forall i :: 0 <= i < |id| ==> IdChar(id[i]) }

  /** Each refusal has its own reason, the first that applies. */
  lemma JudgeReasons(entries: map<string, Status>, id: string, size: nat)
    ensures var v := Judge(entries, id, size);
            && (v == Refused(InvalidTraderId) <==> !GoodId(id))
            && (v == Refused(ScriptTooLarge) <==> GoodId(id) && size > 51200)
            && (v == Refused(DuplicateTraderId) <==> GoodId(id) && size <= 51200 && id in entries)
            && (v == Refused(TooManySandboxes) <==> GoodId(id) && size <= 51200 && id !in entries && |ActiveIds(entries)| >= 5)
  {
  }

  predicate Enabled(s: State, step: Step) {
    match step
    case Spawn(_, _) => true
    case SetRunning(id) => id in s.inFlight
    case SetError(id) => id in s.inFlight
    case MonitorStops(id) => id in s.monitored
    case KillWrites(id) => id in s.entries
  }

  function Next(s: State, step: Step): State {
    match step
    case Spawn(id, size) =>
      if Judge(s.entries, id, size).Admitted?
      then s.(entries := s.entries[id := Spawning], inFlight := s.inFlight + {id}, admitted := s.admitted + [id])
      else s
    case SetRunning(id) =>
      s.(entries := s.entries[id := Running], inFlight := s.inFlight - {id}, monitored := s.monitored + {id})
    case SetError(id) => s.(entries := s.entries[id := Error], inFlight := s.inFlight - {id})
    case MonitorStops(id) => s.(entries := s.entries[id := Stopped], monitored := s.monitored - {id})
    case KillWrites(id) =>
      s.(entries := s.entries[id := Stopped], lateKills := s.lateKills + if id in s.inFlight then 1 else 0)
  }

  datatype Trace = Nil | Snoc(before: Trace, step: Step)

  const Start := State(map[], {}, {}, [], 0)

  /** The state after a run; a step that is not enabled does not happen. */
  function Final(t: Trace): State {
    match t
    case Nil => Start
    case Snoc(b, step) => if Enabled(Final(b), step) then Next(Final(b), step) else Final(b)
  }

  // ---------------------------------------------------------------- no id twice

  predicate NoRepeats(ids: seq<string>) { forall i, j :: 0 <= i < j < |ids| ==> ids[i] != ids[j] }

  predicate Remembered(s: State) {
    && NoRepeats(s.admitted)
    && (forall i :: 0 <= i < |s.admitted| ==> s.admitted[i] in s.entries)
    && s.inFlight <= s.entries.Keys && s.monitored <= s.entries.Keys && s.inFlight !! s.monitored
  }

  /** No id is admitted twice in any run: entries are never removed. */
  lemma {:induction false} NeverAdmittedTwice(t: Trace)
    ensures Remembered(Final(t))
  {
    match t
    case Nil =>
    case Snoc(b, step) => NeverAdmittedTwice(b);
  }

  // ---------------------------------------------------------------- what a run tells

  /** Whether a step has its effect after a run, told from the run: an admission needs a good id that
      was never admitted, a script of at most 50 KiB and fewer than five active entries; the end of
      a Spawn needs that Spawn in flight; a monitor needs to be watching; Kill needs an entry. */
  predicate Occurs(t: Trace, step: Step)
    decreases t, 1
  {
    match step
    case Spawn(id, size) =>
      && GoodId(id) && size <= 51200
      && LastWrite(t, id).None? && |ActiveIds(Final(t).entries)| < 5
    case SetRunning(id) => SpawnOpen(t, id)
    case SetError(id) => SpawnOpen(t, id)
    case MonitorStops(id) => Watched(t, id)
    case KillWrites(id) => LastWrite(t, id).Some?
  }

  /** The status last written to an id's entry, by name. */
  function LastWrite(t: Trace, id: string): Option<Status>
    decreases t, 0
  {
    if t.Nil? then None
    else if t.step.id != id || !Occurs(t.before, t.step) then LastWrite(t.before, id)
    else
      match t.step
      case Spawn(_, _) => Some(Spawning)
      case SetRunning(_) => Some(Running)
      case SetError(_) => Some(Error)
      case MonitorStops(_) => Some(Stopped)
      case KillWrites(_) => Some(Stopped)
  }

  /** The id's Spawn was admitted and has neither succeeded nor failed. */
  predicate SpawnOpen(t: Trace, id: string)
    decreases t, 0
  {
    if t.Nil? then false
    else if t.step.id != id || !Occurs(t.before, t.step) then SpawnOpen(t.before, id)
    else
      match t.step
      case Spawn(_, _) => true
      case SetRunning(_) => false
      case SetError(_) => false
      case _ => SpawnOpen(t.before, id)
  }

  /** The id's Spawn succeeded and its monitor has not yet found the container gone. */
  predicate Watched(t: Trace, id: string)
    decreases t, 0
  {
    if t.Nil? then false
    else if t.step.id != id || !Occurs(t.before, t.step) then Watched(t.before, id)
    else
      match t.step
      case SetRunning(_) => true
      case MonitorStops(_) => false
      case _ => Watched(t.before, id)
  }

  /** How many kills met an open Spawn. */
  function LateKills(t: Trace): nat {
    if t.Nil? then 0
    else LateKills(t.before)
         + if t.step.KillWrites? && Occurs(t.before, t.step) && SpawnOpen(t.before, t.step.id) then 1 else 0
  }

  /** The ids admitted, in order. */
  function Admissions(t: Trace): seq<string> {
    if t.Nil? then []
    else Admissions(t.before) + if t.step.Spawn? && Occurs(t.before, t.step) then [t.step.id] else []
  }

  function StatusOf(entries: map<string, Status>, id: string): Option<Status> {
    if id in entries then Some(entries[id]) else None
  }

  /** The state says of an id what the run tells. */
  predicate Agrees(t: Trace, s: State, id: string) {
    && StatusOf(s.entries, id) == LastWrite(t, id)
    && (id in s.inFlight <==> SpawnOpen(t, id))
    && (id in s.monitored <==> Watched(t, id))
  }

  lemma OccursExactly(t: Trace, step: Step)
    requires Agrees(t, Final(t), step.id)
    ensures Occurs(t, step) <==> if step.Spawn? then Judge(Final(t).entries, step.id, step.scriptSize).Admitted?
                                 else Enabled(Final(t), step)
  {
  }

  lemma StepAgrees(t: Trace, step: Step, id: string)
    requires Agrees(t, Final(t), id) && Agrees(t, Final(t), step.id)
    ensures Agrees(Snoc(t, step), Final(Snoc(t, step)), id)
  {
    OccursExactly(t, step);
  }

  /** After every run each entry has the status last written to it: Spawning if its id was only
      admitted, Running after a Spawn that succeeded, Error after one that failed, Stopped after a
      monitor or a Kill; and a Spawn is in flight, or a monitor watching, as the run tells. */
  lemma {:induction false} StatusByName(t: Trace, id: string)
    ensures Agrees(t, Final(t), id)
  {
    if t.Snoc? {
      StatusByName(t.before, id);
      StatusByName(t.before, t.step.id);
      StepAgrees(t.before, t.step, id);
    }
  }

  /** And the admissions and late kills are those of the run. */
  lemma {:induction false} RunCounts(t: Trace)
    ensures Final(t).admitted == Admissions(t) && Final(t).lateKills == LateKills(t)
  {
    if t.Snoc? {
      RunCounts(t.before);
      StatusByName(t.before, t.step.id);
      OccursExactly(t.before, t.step);
    }
  }

  // ---------------------------------------------------------------- the cap

  /** In flight but no longer counted as active. */
  function Ghosts(s: State): set<string> { s.inFlight - ActiveIds(s.entries) }

  function Busy(s: State): set<string> { s.inFlight + ActiveIds(s.entries) }

  predicate Capped(s: State) {
    |Busy(s)| <= MAX_CONCURRENT + s.lateKills && |Ghosts(s)| <= s.lateKills
  }

  lemma ActiveAfter(entries: map<string, Status>, id: string, status: Status)
    ensures ActiveIds(entries[id := status])
         == if status.Active() then ActiveIds(entries) + {id} else ActiveIds(entries) - {id}
  {
  }

  lemma Fewer(a: set<string>, b: set<string>)
    requires a <= b
    ensures |a| <= |b|
  {
    assert b == a + (b - a);
  }

  lemma Split(s: State)
    ensures |Busy(s)| == |ActiveIds(s.entries)| + |Ghosts(s)|
  {
  }

  lemma SpawnCapped(s: State, id: string, size: nat)
    requires Remembered(s) && Capped(s) && Judge(s.entries, id, size).Admitted?
    ensures Capped(Next(s, Spawn(id, size)))
  {
    var r := Next(s, Spawn(id, size));
    ActiveAfter(s.entries, id, Spawning);
    Split(s);
    assert Busy(r) == Busy(s) + {id};
    assert Ghosts(r) == Ghosts(s);
  }

  lemma SettledCapped(s: State, step: Step)
    requires Remembered(s) && Capped(s) && Enabled(s, step) && !step.Spawn? && !step.KillWrites?
    ensures Capped(Next(s, step))
  {
    var r := Next(s, step);
    ActiveAfter(s.entries, step.id, r.entries[step.id]);
    Fewer(Busy(r), Busy(s));
    Fewer(Ghosts(r), Ghosts(s));
  }

  lemma KillCapped(s: State, id: string)
    requires Remembered(s) && Capped(s) && id in s.entries
    ensures Capped(Next(s, KillWrites(id)))
  {
    var r := Next(s, KillWrites(id));
    ActiveAfter(s.entries, id, Stopped);
    Fewer(Busy(r), Busy(s));
    Fewer(Ghosts(r), Ghosts(s) + if id in s.inFlight then {id} else {});
  }

  lemma {:induction false} RunCapped(t: Trace)
    ensures Capped(Final(t))
  {
    match t
    case Nil => assert Busy(Start) == {} && Ghosts(Start) == {};
    case Snoc(b, step) =>
      RunCapped(b);
      NeverAdmittedTwice(b);
      var s := Final(b);
      if Enabled(s, step) {
        match step
        case Spawn(id, size) => if Judge(s.entries, id, size).Admitted? { SpawnCapped(s, id, size); }
        case KillWrites(id) => KillCapped(s, id);
        case _ => SettledCapped(s, step);
      }
  }

  /** In every run at most five entries are spawning or running, plus one for each time Kill wrote
      Stopped to an entry whose Spawn was in flight; so at most five when that never happened. */
  lemma ActiveBounded(t: Trace)
    ensures |ActiveIds(Final(t).entries)| <= MAX_CONCURRENT + Final(t).lateKills
  {
    RunCapped(t);
    Fewer(ActiveIds(Final(t).entries), Busy(Final(t)));
  }

  /** From a state within the cap, one step leaves it exactly when Spawn writes Running over an
      entry that is no longer active while five others are. */
  lemma CapLeftExactly(s: State, step: Step)
    requires Remembered(s) && Enabled(s, step) && |ActiveIds(s.entries)| <= MAX_CONCURRENT
    ensures |ActiveIds(Next(s, step).entries)| > MAX_CONCURRENT
       <==> step.SetRunning? && !s.entries[step.id].Active() && |ActiveIds(s.entries)| == MAX_CONCURRENT
  {
    var r := Next(s, step);
    if !step.Spawn? || Judge(s.entries, step.id, step.scriptSize).Admitted? {
      ActiveAfter(s.entries, step.id, r.entries[step.id]);
      if !r.entries[step.id].Active() { Fewer(ActiveIds(r.entries), ActiveIds(s.entries)); }
      if step.SetRunning? && s.entries[step.id].Active() { assert ActiveIds(r.entries) == ActiveIds(s.entries); }
    }
  }

  // ---------------------------------------------------------------- the runs that leave the cap

  function Firsts(ids: seq<string>, n: nat): set<string>
    requires n <= |ids|
  {
    if n == 0 then {} else Firsts(ids, n - 1) + {ids[n - 1]}
  }

  predicate GoodIds(ids: seq<string>) { NoRepeats(ids) && forall i :: 0 <= i < |ids| ==> ValidId(ids[i]) }

  lemma {:induction false} FirstsAre(ids: seq<string>, n: nat, i: nat)
    requires GoodIds(ids) && n <= |ids| && i < |ids|
    ensures ids[i] in Firsts(ids, n) <==> i < n
  {
    if n > 0 { FirstsAre(ids, n - 1, i); }
  }

  lemma {:induction false} FirstsSize(ids: seq<string>, n: nat)
    requires GoodIds(ids) && n <= |ids|
    ensures |Firsts(ids, n)| == n
  {
    if n > 0 {
      FirstsSize(ids, n - 1);
      FirstsAre(ids, n - 1, n - 1);
    }
  }

  lemma {:induction false} FirstsWithin(ids: seq<string>, m: nat, n: nat)
    requires GoodIds(ids) && m <= n <= |ids|
    ensures Firsts(ids, m) <= Firsts(ids, n) && |Firsts(ids, n) - Firsts(ids, m)| == n - m
  {
    FirstsSize(ids, n);
    FirstsSize(ids, m);
    if m < n { FirstsWithin(ids, m, n - 1); }
    assert Firsts(ids, n) == Firsts(ids, m) + (Firsts(ids, n) - Firsts(ids, m));
  }

  /** The first n ids have been admitted, none has written its result, and the first j of them were
      killed meanwhile. */
  predicate Rotated(s: State, ids: seq<string>, j: nat, n: nat)
    requires j <= n <= |ids|
  {
    && s.entries.Keys == Firsts(ids, n) && s.inFlight == Firsts(ids, n)
    && ActiveIds(s.entries) == Firsts(ids, n) - Firsts(ids, j) && s.lateKills == j
  }

  lemma AdmitOne(s: State, ids: seq<string>, j: nat, n: nat)
    requires GoodIds(ids) && j <= n < |ids| && n < j + MAX_CONCURRENT && Rotated(s, ids, j, n)
    ensures Rotated(Next(s, Spawn(ids[n], 0)), ids, j, n + 1)
  {
    FirstsAre(ids, n, n);
    FirstsAre(ids, j, n);
    FirstsWithin(ids, j, n);
    ActiveAfter(s.entries, ids[n], Spawning);
  }

  lemma KillOne(s: State, ids: seq<string>, j: nat, n: nat)
    requires GoodIds(ids) && j < n <= |ids| && Rotated(s, ids, j, n)
    ensures Enabled(s, KillWrites(ids[j])) && Rotated(Next(s, KillWrites(ids[j])), ids, j + 1, n)
  {
    FirstsAre(ids, n, j);
    ActiveAfter(s.entries, ids[j], Stopped);
  }

  lemma {:induction false} FillUp(ids: seq<string>, n: nat) returns (t: Trace)
    requires GoodIds(ids) && n <= |ids| && n <= MAX_CONCURRENT
    ensures Rotated(Final(t), ids, 0, n)
  {
    t := Nil;
    if n > 0 {
      var b := FillUp(ids, n - 1);
      AdmitOne(Final(b), ids, 0, n - 1);
      t := Snoc(b, Spawn(ids[n - 1], 0));
      assert Final(t) == Next(Final(b), Spawn(ids[n - 1], 0));
    }
  }

  /** Each id killed in flight gives its place to one more. */
  lemma {:induction false} Rotate(ids: seq<string>, j: nat) returns (t: Trace)
    requires GoodIds(ids) && j + MAX_CONCURRENT <= |ids|
    ensures Rotated(Final(t), ids, j, j + MAX_CONCURRENT)
  {
    if j == 0 {
      t := FillUp(ids, MAX_CONCURRENT);
    } else {
      var b := Rotate(ids, j - 1);
      var n := j - 1 + MAX_CONCURRENT;
      KillOne(Final(b), ids, j - 1, n);
      var killed := Snoc(b, KillWrites(ids[j - 1]));
      assert Final(killed) == Next(Final(b), KillWrites(ids[j - 1]));
      AdmitOne(Final(killed), ids, j, n);
      t := Snoc(killed, Spawn(ids[n], 0));
      assert Final(t) == Next(Final(killed), Spawn(ids[n], 0));
    }
  }

  /** Of the killed ids the first k have come back. */
  predicate Returned(s: State, ids: seq<string>, k: nat, j: nat, n: nat)
    requires k <= j <= n <= |ids|
  {
    && ActiveIds(s.entries) == Firsts(ids, n) - (Firsts(ids, j) - Firsts(ids, k))
    && s.inFlight == Firsts(ids, n) - Firsts(ids, k) && s.lateKills == j
  }

  lemma ReturnOne(s: State, ids: seq<string>, k: nat, j: nat, n: nat)
    requires GoodIds(ids) && k < j <= n <= |ids| && Returned(s, ids, k, j, n)
    ensures Enabled(s, SetRunning(ids[k])) && Returned(Next(s, SetRunning(ids[k])), ids, k + 1, j, n)
  {
    FirstsAre(ids, n, k);
    FirstsAre(ids, k, k);
    ActiveAfter(s.entries, ids[k], Running);
  }

  lemma {:induction false} Return(ids: seq<string>, k: nat, j: nat) returns (t: Trace)
    requires GoodIds(ids) && k <= j && j + MAX_CONCURRENT <= |ids|
    ensures Returned(Final(t), ids, k, j, j + MAX_CONCURRENT)
  {
    if k == 0 {
      t := Rotate(ids, j);
    } else {
      var b := Return(ids, k - 1, j);
      ReturnOne(Final(b), ids, k - 1, j, j + MAX_CONCURRENT);
      t := Snoc(b, SetRunning(ids[k - 1]));
      assert Final(t) == Next(Final(b), SetRunning(ids[k - 1]));
    }
  }

  /** The bound is met for every number of late kills: with any 5 + n valid ids there is a run in
      which n are killed while their Spawn is in flight, each replaced by one more, and then write
      Running. All 5 + n are active. */
  lemma LateKillsLeaveCap(ids: seq<string>, n: nat) returns (t: Trace)
    requires GoodIds(ids) && |ids| == MAX_CONCURRENT + n
    ensures Final(t).lateKills == n && |ActiveIds(Final(t).entries)| == MAX_CONCURRENT + n
  {
    t := Return(ids, n, n);
    assert ActiveIds(Final(t).entries) == Firsts(ids, |ids|);
    FirstsSize(ids, |ids|);
  }

  // ---------------------------------------------------------------- the critical sections

  /** What some run leads to, so what the statements above are about. */
  ghost predicate Reachable(s: State) { exists t :: Final(t) == s }

  lemma Reached(s: State, step: Step)
    requires Reachable(s) && Enabled(s, step)
    ensures Reachable(Next(s, step))
  {
    var t :| Final(t) == s;
    assert Final(Snoc(t, step)) == Next(s, step);
  }

  lemma ReachedBounds(s: State)
    requires Reachable(s)
    ensures |ActiveIds(s.entries)| <= MAX_CONCURRENT + s.lateKills && s.inFlight <= s.entries.Keys
    ensures s.monitored <= s.entries.Keys
  {
    var t :| Final(t) == s;
    ActiveBounded(t);
    NeverAdmittedTwice(t);
  }

  class Sandboxes {
    var entries: map<string, Status>
    ghost var inFlight: set<string>
    ghost var monitored: set<string>
    ghost var admitted: seq<string>
    ghost var lateKills: nat

    ghost function View(): State reads this { State(entries, inFlight, monitored, admitted, lateKills) }

    ghost predicate Valid() reads this { Reachable(View()) }

    constructor ()
      ensures Valid() && View() == Start
    {
      entries, inFlight, monitored, admitted, lateKills := map[], {}, {}, [], 0;
      new;
      assert Final(Nil) == View();
    }

    /** The counting loop, over the map in whatever order it yields. */
    static method CountActive(entries: map<string, Status>) returns (active: nat)
      ensures active == |ActiveIds(entries)|
    {
      active := 0;
      var todo := entries.Keys;
      ghost var seen: set<string> := {};
      while todo != {}
        invariant todo <= entries.Keys && seen == ActiveIds(entries) - todo && active == |seen|
        decreases |todo|
      {
        var id :| id in todo;
        todo := todo - {id};
        if entries[id].Active() {
          active := active + 1;
          seen := seen + {id};
        }
      }
      assert ActiveIds(entries) - {} == ActiveIds(entries);
    }

    /** The guarded part of Spawn, up to the reservation of the slot. */
    method Reserve(id: string, scriptSize: nat) returns (v: Verdict)
      requires Valid()
      modifies this
      ensures Valid() && View() == Next(old(View()), Spawn(id, scriptSize))
      ensures v == Judge(old(entries), id, scriptSize)
    {
      Reached(View(), Spawn(id, scriptSize));
      if !ValidId(id) { return Refused(InvalidTraderId); }
      if scriptSize > MAX_SCRIPT { return Refused(ScriptTooLarge); }
      if id in entries { return Refused(DuplicateTraderId); }
      var active := CountActive(entries);
      if active >= MAX_CONCURRENT { return Refused(TooManySandboxes); }
      entries, inFlight, admitted := entries[id := Spawning], inFlight + {id}, admitted + [id];
      v := Admitted;
    }

    /** The end of a Spawn whose container started: it has kept its own entry. */
    method SetRunning(id: string)
      requires Valid() && id in inFlight
      modifies this
      ensures Valid() && View() == Next(old(View()), Step.SetRunning(id))
    {
      Reached(View(), Step.SetRunning(id));
      entries, inFlight, monitored := entries[id := Running], inFlight - {id}, monitored + {id};
    }

    /** The end of a Spawn that failed. */
    method SetError(id: string)
      requires Valid() && id in inFlight
      modifies this
      ensures Valid() && View() == Next(old(View()), Step.SetError(id))
    {
      Reached(View(), Step.SetError(id));
      ReachedBounds(View());
      if id in entries { entries := entries[id := Error]; }
      inFlight := inFlight - {id};
    }

    /** The monitor finds the container gone. */
    method MonitorStops(id: string)
      requires Valid() && id in monitored
      modifies this
      ensures Valid() && View() == Next(old(View()), Step.MonitorStops(id))
    {
      Reached(View(), Step.MonitorStops(id));
      ReachedBounds(View());
      if id in entries { entries := entries[id := Stopped]; }
      monitored := monitored - {id};
    }

    /** Kill looks the id up, stops the container, and writes Stopped whatever the entry says. */
    method Kill(id: string) returns (found: bool)
      requires Valid()
      modifies this
      ensures Valid() && found == (id in old(entries))
      ensures View() == if found then Next(old(View()), KillWrites(id)) else old(View())
    {
      found := id in entries;
      if found {
        Reached(View(), KillWrites(id));
        entries := entries[id := Stopped];
        lateKills := lateKills + if id in inFlight then 1 else 0;
      }
    }
  }
}
