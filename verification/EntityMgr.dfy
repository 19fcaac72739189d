/** The entity manager: marking entities dead, reclaiming them, and its statistics. */
module EntityMgr {
  import opened Seqs

  type EntityId = nat

  datatype EntityType =
    | PlainEntity | Std | SockV4Tcp | SockV4Udp | SockV6Tcp | SockV6Udp | TimerEntity
    | EpV4Tcp | EpV4Udp | EpV6Tcp | EpV6Udp | EpTimer | EpTxnTimer

  datatype Status = Active | Inactive | Dead

  /** `closed` counts how often the entity's resources were released. */
  datatype Entity = Entity(kind: EntityType, status: Status, txns: set<nat>, taskCnt: int, closed: nat)

  datatype Stat = Stat(total: int, inactive: int, byKind: map<EntityType, int>)

  /** `freed` lists the entities freed so far, in order. */
  datatype Mgr = Mgr(table: map<EntityId, Entity>, inactive: seq<EntityId>, stat: Stat, freed: seq<EntityId>)

  function KindCount(s: Stat, k: EntityType): int { if k in s.byKind then s.byKind[k] else 0 }

  /** The statistics switch: a positive change of the inactive count touches nothing else. */
  function UpdateStat(s: Stat, k: EntityType, inactive: bool, value: int): Stat {
    if value == 0 then s
    else
      var s1 := if inactive then s.(inactive := s.inactive + value) else s;
      if inactive && value > 0 then s1
      else s1.(total := s1.total + value, byKind := s1.byKind[k := KindCount(s1, k) + value])
  }

  // ----- operations -----

  function Add(m: Mgr, e: EntityId, x: Entity): Mgr {
    m.(table := m.table[e := x], stat := UpdateStat(m.stat, x.kind, false, 1))
  }

  /** Mark an entity dead, releasing its resources first; a dead one stays as it is. */
  function Del(m: Mgr, e: EntityId): Mgr
    requires e in m.table
  {
    var x := m.table[e];
    if x.status == Dead then m
    else
      m.(table := m.table[e := x.(status := Dead, closed := x.closed + 1)],
         inactive := m.inactive + [e], stat := UpdateStat(m.stat, x.kind, true, 1))
  }

  /** Set an entity's status mark. */
  function MarkInactive(m: Mgr, e: EntityId): Mgr
    requires e in m.table
  {
    m.(table := m.table[e := m.table[e].(status := Inactive)])
  }

  function TxnAdd(m: Mgr, e: EntityId, t: nat): Mgr
    requires e in m.table
  {
    var x := m.table[e];
    m.(table := m.table[e := x.(txns := x.txns + {t}, taskCnt := x.taskCnt + 1)])
  }

  function TxnDel(m: Mgr, e: EntityId, t: nat): Mgr
    requires e in m.table
  {
    var x := m.table[e];
    m.(table := m.table[e := x.(txns := x.txns - {t}, taskCnt := x.taskCnt - 1)])
  }

  predicate Busy(m: Mgr, e: EntityId) { e in m.table && m.table[e].taskCnt != 0 }

  function IsBusy(m: Mgr): EntityId -> bool { (e: EntityId) => Busy(m, e) }
  function IsIdle(m: Mgr): EntityId -> bool { (e: EntityId) => !Busy(m, e) }

  function FreeOne(m: Mgr, e: EntityId): Mgr
    requires e in m.table
  {
    m.(table := m.table - {e}, stat := UpdateStat(m.stat, m.table[e].kind, true, -1), freed := m.freed + [e])
  }

  // ----- the invariant -----

  ghost predicate NoDup(s: seq<EntityId>) { forall i, j :: 0 <= i < j < |s| ==> s[i] != s[j] }

  predicate EntityOk(x: Entity) {
    x.taskCnt == |x.txns| && x.closed == if x.status == Dead then 1 else 0
  }

  ghost function OfKind(m: Mgr, k: EntityType): set<EntityId> { set e | e in m.table && m.table[e].kind == k }

  ghost predicate StatOk(m: Mgr, inactive: int) {
    && m.stat.total == |m.table.Keys| && m.stat.inactive == inactive
    && forall k :: KindCount(m.stat, k) == |OfKind(m, k)|
  }

  /** The inactive list is the dead entities, each once; the statistics are the true counts;
      an entity's task count is its number of transactions; resources are released once. */
  ghost predicate Valid(m: Mgr) {
    && NoDup(m.inactive)
    && (forall e :: e in m.inactive <==> e in m.table && m.table[e].status == Dead)
    && StatOk(m, |m.inactive|)
    && (forall e :: e in m.table ==> EntityOk(m.table[e]))
    && NoDup(m.freed) && (forall e :: e in m.freed ==> e !in m.table)
  }

  ghost predicate Fresh(m: Mgr, e: EntityId) { e !in m.table && e !in m.freed }

  /** Adding or removing one entity changes one kind's count by one. */
  lemma KindChange(m: Mgr, q: Mgr, e: EntityId)
    requires e !in m.table && e in q.table && m.table == q.table - {e}
    ensures |q.table.Keys| == |m.table.Keys| + 1
    ensures forall k :: |OfKind(q, k)| == |OfKind(m, k)| + if k == q.table[e].kind then 1 else 0
  {
    assert q.table.Keys == m.table.Keys + {e};
    forall k ensures |OfKind(q, k)| == |OfKind(m, k)| + if k == q.table[e].kind then 1 else 0 {
      if k == q.table[e].kind {
        assert OfKind(q, k) == OfKind(m, k) + {e};
      } else {
        assert OfKind(q, k) == OfKind(m, k);
      }
    }
  }

  lemma AddValid(m: Mgr, e: EntityId, k: EntityType)
    requires Valid(m) && Fresh(m, e)
    ensures Valid(Add(m, e, Entity(k, Active, {}, 0, 0)))
  {
    var q := Add(m, e, Entity(k, Active, {}, 0, 0));
    AddStat(m, e, Entity(k, Active, {}, 0, 0), |m.inactive|);
    assert forall x :: x in q.table ==> EntityOk(q.table[x]);
  }

  lemma AddStat(m: Mgr, e: EntityId, x: Entity, inactive: int)
    requires StatOk(m, inactive) && e !in m.table
    ensures StatOk(Add(m, e, x), inactive)
  {
    var q := Add(m, e, x);
    assert m.table == q.table - {e};
    KindChange(m, q, e);
    forall j ensures KindCount(q.stat, j) == |OfKind(q, j)| { assert KindCount(m.stat, j) == |OfKind(m, j)|; }
  }

  /** Changing an entity's record but not its kind keeps the counts. */
  lemma SameCounts(m: Mgr, q: Mgr, e: EntityId)
    requires e in m.table && e in q.table && q.table == m.table[e := q.table[e]] && q.table[e].kind == m.table[e].kind
    ensures q.table.Keys == m.table.Keys && forall k :: OfKind(q, k) == OfKind(m, k)
  {
    assert q.table.Keys == m.table.Keys;
    forall k ensures OfKind(q, k) == OfKind(m, k) {
      assert forall x :: x in OfKind(q, k) <==> x in OfKind(m, k);
    }
  }

  lemma DelValid(m: Mgr, e: EntityId)
    requires Valid(m) && e in m.table
    ensures Valid(Del(m, e))
  {
    if m.table[e].status != Dead {
      var q := Del(m, e);
      SameCounts(m, q, e);
      assert e !in m.inactive;
      forall j ensures KindCount(q.stat, j) == |OfKind(q, j)| { assert KindCount(m.stat, j) == |OfKind(m, j)|; }
    }
  }

  /** Marking an entity inactive keeps the invariant exactly when it is not dead yet. */
  lemma MarkInactiveValid(m: Mgr, e: EntityId)
    requires Valid(m) && e in m.table
    ensures Valid(MarkInactive(m, e)) <==> m.table[e].status != Dead
  {
    var q := MarkInactive(m, e);
    if m.table[e].status != Dead {
      SameCounts(m, q, e);
      forall j ensures KindCount(q.stat, j) == |OfKind(q, j)| { assert KindCount(m.stat, j) == |OfKind(m, j)|; }
    } else {
      assert e in q.inactive && q.table[e].status != Dead;
    }
  }

  lemma TxnAddValid(m: Mgr, e: EntityId, t: nat)
    requires Valid(m) && e in m.table && t !in m.table[e].txns
    ensures Valid(TxnAdd(m, e, t))
  {
    var q := TxnAdd(m, e, t);
    SameCounts(m, q, e);
    forall j ensures KindCount(q.stat, j) == |OfKind(q, j)| { assert KindCount(m.stat, j) == |OfKind(m, j)|; }
  }

  lemma TxnDelValid(m: Mgr, e: EntityId, t: nat)
    requires Valid(m) && e in m.table && t in m.table[e].txns
    ensures Valid(TxnDel(m, e, t))
  {
    var q := TxnDel(m, e, t);
    SameCounts(m, q, e);
    forall j ensures KindCount(q.stat, j) == |OfKind(q, j)| { assert KindCount(m.stat, j) == |OfKind(m, j)|; }
  }

  // ----- reclamation -----

  /** Walk the list: keep busy entities aside, free the others. */
  function CleanLoop(m: Mgr, todo: seq<EntityId>): Mgr
    decreases |todo|
  {
    if todo == [] then m
    else if Busy(m, todo[0]) then CleanLoop(m.(inactive := m.inactive + [todo[0]]), todo[1..])
    else if todo[0] in m.table then CleanLoop(FreeOne(m, todo[0]), todo[1..])
    else m
  }

  function Clean(m: Mgr): Mgr { CleanLoop(m.(inactive := []), m.inactive) }

  lemma FreeOneValid(m: Mgr, e: EntityId, rest: seq<EntityId>)
    requires Valid(m.(inactive := m.inactive + ([e] + rest))) && e in m.table
    ensures Valid(FreeOne(m, e).(inactive := m.inactive + rest))
  {
    var p := m.(inactive := m.inactive + ([e] + rest));
    var q := FreeOne(m, e).(inactive := m.inactive + rest);
    KindChange(q, p, e);
    assert StatOk(q, |q.inactive|) by {
      forall j ensures KindCount(q.stat, j) == |OfKind(q, j)| { assert KindCount(p.stat, j) == |OfKind(p, j)|; }
    }
    Cut(m.inactive, e, rest);
    assert NoDup(m.freed + [e]) by { assert e !in m.freed; }
  }

  lemma Cut(a: seq<EntityId>, e: EntityId, b: seq<EntityId>)
    requires NoDup(a + ([e] + b))
    ensures NoDup(a + b) && e !in a + b
    ensures forall x :: x in a + ([e] + b) <==> x == e || x in a + b
  {
    var s := a + ([e] + b);
    assert s[|a|] == e;
    forall i, j | 0 <= i < j < |a + b| ensures (a + b)[i] != (a + b)[j] {
      assert (a + b)[i] == s[if i < |a| then i else i + 1];
      assert (a + b)[j] == s[if j < |a| then j else j + 1];
    }
    forall i | 0 <= i < |a + b| ensures (a + b)[i] != e {
      assert (a + b)[i] == s[if i < |a| then i else i + 1];
    }
  }

  lemma {:induction false} CleanLoopValid(m: Mgr, todo: seq<EntityId>)
    requires Valid(m.(inactive := m.inactive + todo))
    ensures Valid(CleanLoop(m, todo))
    decreases |todo|
  {
    if todo == [] {
      assert m.inactive + todo == m.inactive;
    } else {
      var e, rest := todo[0], todo[1..];
      assert todo == [e] + rest && e in m.inactive + todo;
      if Busy(m, e) {
        var m1 := m.(inactive := m.inactive + [e]);
        assert m1.inactive + rest == m.inactive + todo;
        CleanLoopValid(m1, rest);
      } else {
        FreeOneValid(m, e, rest);
        CleanLoopValid(FreeOne(m, e), rest);
      }
    }
  }

  /** What the walk keeps and frees is decided by who has no transaction when it starts; each
      entity is met once, and order is kept. */
  ghost predicate WalkedLists(m: Mgr, todo: seq<EntityId>, q: Mgr) {
    q.inactive == m.inactive + Filter(todo, IsBusy(m)) && q.freed == m.freed + Filter(todo, IsIdle(m))
  }

  ghost predicate WalkedTable(m: Mgr, todo: seq<EntityId>, q: Mgr) {
    && (forall e :: e in q.table <==> e in m.table && !(e in todo && !Busy(m, e)))
    && (forall e :: e in q.table ==> q.table[e] == m.table[e])
  }

  lemma {:induction false} CleanLoopTable(m: Mgr, todo: seq<EntityId>)
    requires NoDup(todo) && forall e :: e in todo ==> e in m.table
    ensures WalkedTable(m, todo, CleanLoop(m, todo))
    decreases |todo|
  {
    if todo != [] {
      var e, rest := todo[0], todo[1..];
      assert e !in rest && forall x :: x in todo <==> x == e || x in rest;
      CleanLoopTable(if Busy(m, e) then m.(inactive := m.inactive + [e]) else FreeOne(m, e), rest);
    }
  }

  lemma {:induction false} CleanLoopLists(m: Mgr, todo: seq<EntityId>)
    requires NoDup(todo) && forall e :: e in todo ==> e in m.table
    ensures WalkedLists(m, todo, CleanLoop(m, todo))
    decreases |todo|
  {
    if todo != [] {
      var e, rest := todo[0], todo[1..];
      assert e !in rest;
      FilterHead(m, todo);
      var m1 := if Busy(m, e) then m.(inactive := m.inactive + [e]) else FreeOne(m, e);
      CleanLoopLists(m1, rest);
      SameFilter(m, m1, rest);
      if Busy(m, e) {
        Regroup(m.inactive, [e], Filter(rest, IsBusy(m)));
      } else {
        Regroup(m.freed, [e], Filter(rest, IsIdle(m)));
      }
    }
  }

  lemma FilterHead(m: Mgr, todo: seq<EntityId>)
    requires todo != []
    ensures var (e, rest) := (todo[0], todo[1..]);
      && Filter(todo, IsBusy(m)) == (if Busy(m, e) then [e] else []) + Filter(rest, IsBusy(m))
      && Filter(todo, IsIdle(m)) == (if Busy(m, e) then [] else [e]) + Filter(rest, IsIdle(m))
  {
  }

  lemma {:induction false} SameFilter(m: Mgr, q: Mgr, s: seq<EntityId>)
    requires forall e :: e in s ==> Busy(m, e) == Busy(q, e)
    ensures Filter(s, IsBusy(m)) == Filter(s, IsBusy(q)) && Filter(s, IsIdle(m)) == Filter(s, IsIdle(q))
  {
    if s != [] { SameFilter(m, q, s[1..]); }
  }

  /** Unforced clean-up frees exactly the dead entities without transactions, each once, and
      keeps the other dead ones in order; live entities are untouched. */
  lemma CleanFreesTheIdleDead(m: Mgr)
    requires Valid(m)
    ensures var q := Clean(m);
      && Valid(q)
      && q.inactive == Filter(m.inactive, IsBusy(m)) && q.freed == m.freed + Filter(m.inactive, IsIdle(m))
      && (forall e :: e in m.table ==>
            (e !in q.table <==> m.table[e].status == Dead && m.table[e].txns == {}))
      && (forall e :: e in q.table ==> e in m.table && q.table[e] == m.table[e])
  {
    var m0 := m.(inactive := []);
    assert m0.(inactive := m0.inactive + m.inactive) == m by { assert m0.inactive + m.inactive == m.inactive; }
    CleanLoopValid(m0, m.inactive);
    CleanLoopTable(m0, m.inactive);
    CleanLoopLists(m0, m.inactive);
    SameFilter(m, m0, m.inactive);
    forall e | e in m.table ensures Busy(m, e) <==> m.table[e].txns != {} { assert EntityOk(m.table[e]); }
  }

  // ----- runs -----

  datatype Step =
    | DoAdd(e: EntityId, kind: EntityType) | DoDel(e: EntityId) | DoMark(e: EntityId)
    | DoTxnAdd(e: EntityId, txn: nat) | DoTxnDel(e: EntityId, txn: nat) | DoClean

  /** What callers respect: new entities are new, transactions are added and removed once. */
  ghost predicate Possible(m: Mgr, step: Step) {
    match step
    case DoAdd(e, _) => Fresh(m, e)
    case DoDel(e) => e in m.table
    case DoMark(e) => e in m.table
    case DoTxnAdd(e, t) => e in m.table && t !in m.table[e].txns
    case DoTxnDel(e, t) => e in m.table && t in m.table[e].txns
    case DoClean => true
  }

  ghost function Apply(m: Mgr, step: Step): Mgr
    requires Possible(m, step)
  {
    match step
    case DoAdd(e, k) => Add(m, e, Entity(k, Active, {}, 0, 0))
    case DoDel(e) => Del(m, e)
    case DoMark(e) => MarkInactive(m, e)
    case DoTxnAdd(e, t) => TxnAdd(m, e, t)
    case DoTxnDel(e, t) => TxnDel(m, e, t)
    case DoClean => Clean(m)
  }

  function NewMgr(): Mgr { Mgr(map[], [], Stat(0, 0, map[]), []) }

  ghost predicate MgrStep(m: Mgr, step: Step, q: Mgr) { Possible(m, step) && q == Apply(m, step) }

  ghost predicate IsMgrRun(trace: seq<Mgr>, steps: seq<Step>) {
    && |trace| == |steps| + 1 && trace[0] == NewMgr()
    && forall i :: 0 <= i < |steps| ==> MgrStep(trace[i], steps[i], trace[i + 1])
  }

  /** No dead entity is marked inactive again. */
  ghost predicate MarksOnlyLive(trace: seq<Mgr>, steps: seq<Step>)
    requires |trace| == |steps| + 1
  {
    forall i :: 0 <= i < |steps| && steps[i].DoMark? && steps[i].e in trace[i].table ==>
      trace[i].table[steps[i].e].status != Dead
  }

  lemma StepValid(m: Mgr, step: Step)
    requires Valid(m) && Possible(m, step) && (step.DoMark? ==> m.table[step.e].status != Dead)
    ensures Valid(Apply(m, step))
  {
    match step
    case DoAdd(e, k) => AddValid(m, e, k);
    case DoDel(e) => DelValid(m, e);
    case DoMark(e) => MarkInactiveValid(m, e);
    case DoTxnAdd(e, t) => TxnAddValid(m, e, t);
    case DoTxnDel(e, t) => TxnDelValid(m, e, t);
    case DoClean => CleanFreesTheIdleDead(m);
  }

  lemma NewValid()
    ensures Valid(NewMgr())
  {
    forall k ensures |OfKind(NewMgr(), k)| == 0 { assert OfKind(NewMgr(), k) == {}; }
  }

  /** In every run that marks only live entities the inactive list is the dead entities, each
      once, the statistics are exact, and nothing is freed twice. */
  lemma {:induction false} ReclamationExact(trace: seq<Mgr>, steps: seq<Step>, n: nat)
    requires IsMgrRun(trace, steps) && MarksOnlyLive(trace, steps) && n < |trace|
    ensures Valid(trace[n])
  {
    if n == 0 {
      NewValid();
    } else {
      ReclamationExact(trace, steps, n - 1);
      assert MgrStep(trace[n - 1], steps[n - 1], trace[n]);
      StepValid(trace[n - 1], steps[n - 1]);
    }
  }

  // ----- one entity's history -----

  /** What has been done to one entity: added, then used, then freed. */
  datatype History = NotThere | There(kind: EntityType, status: Status, txns: set<nat>)

  /** The step as entity `e` sees it; a clean-up frees it if it is dead and has no transaction. */
  function Seen(h: History, step: Step, e: EntityId): History {
    match step
    case DoAdd(d, k) => if d == e then There(k, Active, {}) else h
    case DoDel(d) => if d == e && h.There? then h.(status := Dead) else h
    case DoMark(d) => if d == e && h.There? then h.(status := Inactive) else h
    case DoTxnAdd(d, t) => if d == e && h.There? then h.(txns := h.txns + {t}) else h
    case DoTxnDel(d, t) => if d == e && h.There? then h.(txns := h.txns - {t}) else h
    case DoClean => if h.There? && h.status == Dead && h.txns == {} then NotThere else h
  }

  function HistoryOf(steps: seq<Step>, n: nat, e: EntityId): History
    requires n <= |steps|
  {
    if n == 0 then NotThere else Seen(HistoryOf(steps, n - 1, e), steps[n - 1], e)
  }

  /** The table's entry for the entity is what its history says. */
  ghost predicate Shows(m: Mgr, h: History, e: EntityId) {
    if h.NotThere? then e !in m.table
    else e in m.table && m.table[e].kind == h.kind && m.table[e].status == h.status && m.table[e].txns == h.txns
  }

  lemma StepShows(m: Mgr, step: Step, h: History, e: EntityId)
    requires Valid(m) && Possible(m, step) && Shows(m, h, e)
    ensures Shows(Apply(m, step), Seen(h, step, e), e)
  {
    if step.DoClean? { CleanFreesTheIdleDead(m); }
  }

  /** In every run that marks only live entities the table shows, for each entity, exactly what was
      done to it, and only clean-up frees it, when it is dead and has no transaction. */
  lemma {:induction false} EntitiesAsDone(trace: seq<Mgr>, steps: seq<Step>, n: nat, e: EntityId)
    requires IsMgrRun(trace, steps) && MarksOnlyLive(trace, steps) && n < |trace|
    ensures Shows(trace[n], HistoryOf(steps, n, e), e)
  {
    if n > 0 {
      EntitiesAsDone(trace, steps, n - 1, e);
      ReclamationExact(trace, steps, n - 1);
      assert MgrStep(trace[n - 1], steps[n - 1], trace[n]);
      StepShows(trace[n - 1], steps[n - 1], HistoryOf(steps, n - 1, e), e);
    }
  }

  // ----- marking a dead entity -----

  /** The first `i` of: add, start a transaction, delete, mark inactive, end the transaction, delete. */
  function Stage(e: EntityId, k: EntityType, t: nat, i: nat): Mgr {
    var m1 := Add(NewMgr(), e, Entity(k, Active, {}, 0, 0));
    if i == 0 then NewMgr()
    else if i == 1 then m1
    else
      var m2 := TxnAdd(m1, e, t);
      if i == 2 then m2
      else
        var m3 := Del(m2, e);
        if i == 3 then m3
        else
          var m4 := MarkInactive(m3, e);
          if i == 4 then m4
          else
            var m5 := TxnDel(m4, e, t);
            if i == 5 then m5 else Del(m5, e)
  }

  /** Deleting, marking inactive and deleting again lists any live entity twice. */
  lemma ListedTwice(m: Mgr, e: EntityId, t: nat)
    requires e in m.table && m.table[e].status != Dead
    ensures var d := TxnDel(MarkInactive(Del(m, e), e), e, t); Del(d, e).inactive == (m.inactive + [e]) + [e]
  {
  }

  /** A transaction whose pack step fails after its entity died marks the entity inactive, and
      the delete that follows lists it a second time. */
  lemma DeadListedTwice(e: EntityId, k: EntityType, t: nat) returns (trace: seq<Mgr>, steps: seq<Step>)
    ensures IsMgrRun(trace, steps) && |trace| == 7
    ensures trace[6].inactive == [e, e] && !Valid(trace[6])
  {
    steps := [DoAdd(e, k), DoTxnAdd(e, t), DoDel(e), DoMark(e), DoTxnDel(e, t), DoDel(e)];
    trace := [Stage(e, k, t, 0), Stage(e, k, t, 1), Stage(e, k, t, 2), Stage(e, k, t, 3),
              Stage(e, k, t, 4), Stage(e, k, t, 5), Stage(e, k, t, 6)];
    ListedTwice(Stage(e, k, t, 2), e, t);
    assert ([] + [e]) + [e] == [e, e];
    assert trace[6].inactive[0] == trace[6].inactive[1];
  }

  // ----- the object -----

  class EntityManager {
    var table: map<EntityId, Entity>
    var inactive: seq<EntityId>
    var tmp: seq<EntityId>
    var stat: Stat
    ghost var freed: seq<EntityId>

    ghost function Model(): Mgr
      reads this
    {
      Mgr(table, inactive, stat, freed)
    }

    constructor ()
      ensures Model() == NewMgr() && tmp == []
    {
      table, inactive, tmp, stat, freed := map[], [], [], Stat(0, 0, map[]), [];
    }

    method UpdateStatistics(k: EntityType, inactiveChange: bool, value: int)
      modifies this`stat
      ensures stat == UpdateStat(old(stat), k, inactiveChange, value)
    {
      if value == 0 { return; }
      if inactiveChange {
        stat := stat.(inactive := stat.inactive + value);
        if value > 0 { return; }
      }
      var count := if k in stat.byKind then stat.byKind[k] else 0;
      stat := stat.(total := stat.total + value, byKind := stat.byKind[k := count + value]);
    }

    method AddEntity(e: EntityId, k: EntityType)
      requires e !in table
      modifies this
      ensures Model() == Add(old(Model()), e, Entity(k, Active, {}, 0, 0)) && tmp == old(tmp)
    {
      table := table[e := Entity(k, Active, {}, 0, 0)];
      UpdateStatistics(k, false, 1);
    }

    method DelEntity(e: EntityId)
      requires e in table
      modifies this
      ensures Model() == Del(old(Model()), e) && tmp == old(tmp)
    {
      if table[e].status == Dead { return; }
      var x := table[e].(status := Inactive);
      x := x.(closed := x.closed + 1);
      table := table[e := x.(status := Dead)];
      inactive := inactive + [e];
      UpdateStatistics(table[e].kind, true, 1);
    }

    method Mark(e: EntityId)
      requires e in table
      modifies this`table
      ensures Model() == MarkInactive(old(Model()), e)
    {
      table := table[e := table[e].(status := Inactive)];
    }

    method AddTxn(e: EntityId, t: nat)
      requires e in table
      modifies this`table
      ensures Model() == TxnAdd(old(Model()), e, t)
    {
      var x := table[e];
      table := table[e := x.(txns := x.txns + {t}, taskCnt := x.taskCnt + 1)];
    }

    method DelTxn(e: EntityId, t: nat)
      requires e in table && t in table[e].txns
      modifies this`table
      ensures Model() == TxnDel(old(Model()), e, t)
    {
      var x := table[e];
      table := table[e := x.(txns := x.txns - {t}, taskCnt := x.taskCnt - 1)];
    }

    /** Pop until the list is empty; busy entities wait in `tmp`, which then becomes the list.
        The entity popped is always still in the table. */
    method CleanDead()
      requires Valid(Model()) && tmp == []
      modifies this
      ensures Model() == Clean(old(Model())) && tmp == [] && Valid(Model())
    {
      ghost var was := Model();
      while inactive != []
        invariant NoDup(inactive) && forall e :: e in inactive ==> e in table
        invariant Clean(was) == CleanLoop(Mgr(table, tmp, stat, freed), inactive)
        decreases |inactive|
      {
        var e := inactive[0];
        assert e !in inactive[1..];
        inactive := inactive[1..];
        if table[e].taskCnt != 0 {
          tmp := tmp + [e];
          continue;
        }
        UpdateStatistics(table[e].kind, true, -1);
        table := table - {e};
        freed := freed + [e];
      }
      CleanFreesTheIdleDead(was);
      inactive, tmp := tmp, inactive;
    }
  }
}
