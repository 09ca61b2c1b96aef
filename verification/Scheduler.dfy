/**
 * The table of scheduled snapshots (browser_executor/collaboration.py): API calls and timers interleaved under one
 * lock.
 */
module Scheduler {
  import opened Common

  type ScheduleId = nat
  type Snapshot = int

  const MAX_ACTIVE_SCHEDULES := 4
  const MAX_RETAINED_SCHEDULES := 32

  /** The state of a schedule; the last two are no longer in the table. */
  datatype Phase =
    | Scheduled | Running | Complete(result: Snapshot) | Failed | Cancelled | Delivered(result: Snapshot) | Evicted

  /** A table row, in insertion order like the dictionary's. */
  datatype Entry = Entry(id: ScheduleId, phase: Phase)

  // ----- one schedule's life

  datatype Event = Began | Finished(result: Snapshot) | Broke | CancelAsked | Read(result: Snapshot) | Dropped

  /** The only moves a schedule makes. */
  function Move(p: Phase, e: Event): Option<Phase> {
    match (p, e)
    case (Scheduled, Began) => Some(Running)
    case (Scheduled, CancelAsked) => Some(Cancelled)
    case (Running, Finished(r)) => Some(Complete(r))
    case (Running, Broke) => Some(Failed)
    case (Complete(r), Read(r')) => if r == r' then Some(Delivered(r)) else None
    case (Failed, Dropped) => Some(Evicted)
    case (Cancelled, Dropped) => Some(Evicted)
    case _ => None
  }

  /** Where a life has led, if every move in it was allowed. */
  function After(life: seq<Event>): Option<Phase> {
    if life == [] then Some(Scheduled)
    else
      var before := After(life[..|life| - 1]);
      if before.None? then None else Move(before.value, life[|life| - 1])
  }

  predicate Gone(p: Phase) {
    p.Delivered? || p.Evicted?
  }

  predicate Active(p: Phase) {
    p == Scheduled || p == Running
  }

  /** What each phase says about the life that led there. */
  predicate Story(life: seq<Event>, p: Phase) {
    match p
    case Scheduled => life == []
    case Running => life == [Began]
    case Complete(r) => life == [Began, Finished(r)]
    case Failed => life == [Began, Broke]
    case Cancelled => life == [CancelAsked]
    case Delivered(r) => life == [Began, Finished(r), Read(r)]
    case Evicted => life == [CancelAsked, Dropped] || life == [Began, Broke, Dropped]
  }

  /** A life is allowed exactly when it tells the story of the phase it ends in. */
  lemma LifeIff(life: seq<Event>, p: Phase)
    ensures After(life) == Some(p) <==> Story(life, p)
  {
    if After(life) == Some(p) {
      LifeTellsStory(life, p);
    }
    if Story(life, p) {
      StoryIsLife(life, p);
    }
  }

  lemma {:induction false} LifeTellsStory(life: seq<Event>, p: Phase)
    requires After(life) == Some(p)
    ensures Story(life, p)
    decreases |life|
  {
    if life != [] {
      var front, last := life[..|life| - 1], life[|life| - 1];
      LifeTellsStory(front, After(front).value);
      OneMoreMove(front, After(front).value, last, p);
      assert life == front + [last];
    }
  }

  lemma OneMoreMove(front: seq<Event>, before: Phase, e: Event, p: Phase)
    requires Story(front, before) && Move(before, e) == Some(p)
    ensures Story(front + [e], p)
  {
  }

  lemma StoryIsLife(life: seq<Event>, p: Phase)
    requires Story(life, p)
    ensures After(life) == Some(p)
  {
    assert [] + [Began] == [Began] && [] + [CancelAsked] == [CancelAsked];
    LifeSnoc([], Began);
    LifeSnoc([], CancelAsked);
    match p {
      case Complete(r) =>
        TwoEvents(Began, Finished(r));
      case Failed =>
        TwoEvents(Began, Broke);
      case Delivered(r) =>
        TwoEvents(Began, Finished(r));
        ThreeEvents(Began, Finished(r), Read(r));
      case Evicted =>
        TwoEvents(CancelAsked, Dropped);
        TwoEvents(Began, Broke);
        ThreeEvents(Began, Broke, Dropped);
      case _ =>
    }
  }

  lemma TwoEvents(a: Event, b: Event)
    requires After([a]).Some?
    ensures After([a, b]) == Move(After([a]).value, b)
  {
    LifeSnoc([a], b);
    assert [a] + [b] == [a, b];
  }

  lemma ThreeEvents(a: Event, b: Event, c: Event)
    requires After([a, b]).Some?
    ensures After([a, b, c]) == Move(After([a, b]).value, c)
  {
    LifeSnoc([a, b], c);
    assert [a, b] + [c] == [a, b, c];
  }

  /** In an allowed life a cancelled schedule never ran, a result is read at most once, and what is dropped had none. */
  lemma LifeMeaning(life: seq<Event>)
    requires After(life).Some?
    ensures CancelAsked in life ==> Began !in life
    ensures forall i, k | 0 <= i < |life| && 0 <= k < |life| && life[i].Read? && life[k].Read? :: i == k
    ensures forall i | 0 <= i < |life| && life[i].Read? :: 0 < i && life[i - 1] == Finished(life[i].result)
    ensures Dropped in life ==> forall i | 0 <= i < |life| :: !life[i].Finished?
  {
    LifeIff(life, After(life).value);
  }

  // ----- the table

  function ActiveCount(table: seq<Entry>): nat {
    if table == [] then 0 else ActiveCount(table[1..]) + if Active(table[0].phase) then 1 else 0
  }

  ghost predicate Holds(table: seq<Entry>, id: ScheduleId) {
    exists i | 0 <= i < |table| :: table[i].id == id
  }

  ghost predicate DistinctIds(table: seq<Entry>) {
    forall i, k | 0 <= i < k < |table| :: table[i].id != table[k].id
  }

  /** Every schedule ever made: in the table with the phase of its life, or delivered, or evicted. */
  ghost predicate Recorded(table: seq<Entry>, lives: map<ScheduleId, seq<Event>>) {
    (forall i | 0 <= i < |table| :: table[i].id in lives && After(lives[table[i].id]) == Some(table[i].phase)) &&
    forall id | id in lives ::
      After(lives[id]).Some? && (Gone(After(lives[id]).value) <==> !Holds(table, id))
  }

  ghost predicate Lawful(
      table: seq<Entry>, executing: set<ScheduleId>, unused: ScheduleId, lives: map<ScheduleId, seq<Event>>) {
    |table| <= MAX_RETAINED_SCHEDULES && ActiveCount(table) <= MAX_ACTIVE_SCHEDULES && DistinctIds(table) &&
    Recorded(table, lives) && (forall id | id in lives :: id < unused) &&
    forall id :: id in executing <==> id in lives && After(lives[id]) == Some(Running)
  }

  lemma {:induction false} ActiveSet(table: seq<Entry>, i: nat, e: Entry)
    requires i < |table|
    ensures ActiveCount(table[i := e]) ==
            ActiveCount(table) + (if Active(e.phase) then 1 else 0) - (if Active(table[i].phase) then 1 else 0)
    decreases i
  {
    if i == 0 {
      assert table[0 := e][1..] == table[1..];
    } else {
      ActiveSet(table[1..], i - 1, e);
      assert table[i := e][1..] == table[1..][i - 1 := e];
    }
  }

  lemma {:induction false} ActiveSnoc(table: seq<Entry>, e: Entry)
    ensures ActiveCount(table + [e]) == ActiveCount(table) + if Active(e.phase) then 1 else 0
    decreases |table|
  {
    if table == [] {
      assert (table + [e])[1..] == [];
    } else {
      ActiveSnoc(table[1..], e);
      assert (table + [e])[1..] == table[1..] + [e];
    }
  }

  function Removed(table: seq<Entry>, i: nat): seq<Entry>
    requires i < |table|
  {
    table[..i] + table[i + 1..]
  }

  /** A full table without its oldest droppable row. */
  function MakeRoom(table: seq<Entry>): seq<Entry> {
    if |table| >= MAX_RETAINED_SCHEDULES && FirstDroppable(table) < |table| then Removed(table, FirstDroppable(table))
    else table
  }

  lemma {:induction false} ActiveRemoved(table: seq<Entry>, i: nat)
    requires i < |table|
    ensures ActiveCount(Removed(table, i)) == ActiveCount(table) - if Active(table[i].phase) then 1 else 0
    decreases i
  {
    if i == 0 {
      assert Removed(table, 0) == table[1..];
    } else {
      ActiveRemoved(table[1..], i - 1);
      assert Removed(table, i)[1..] == Removed(table[1..], i - 1);
    }
  }

  predicate Droppable(p: Phase) {
    p.Cancelled? || p.Failed?
  }

  /** The oldest row that may be dropped; the length of the table without one. */
  function FirstDroppable(table: seq<Entry>): (i: nat)
    ensures i <= |table| && (i < |table| ==> Droppable(table[i].phase))
    ensures forall k | 0 <= k < i :: !Droppable(table[k].phase)
  {
    if table == [] || Droppable(table[0].phase) then 0 else 1 + FirstDroppable(table[1..])
  }

  // ----- what an operation leaves of the table, row by row

  /** The row of `id`, if there is one, is in the phase `p`; every other row is as it was. */
  predicate RowBecomes(before: seq<Entry>, after: seq<Entry>, id: ScheduleId, p: Phase) {
    |after| == |before| &&
    forall k | 0 <= k < |before| :: after[k] == if before[k].id == id then Entry(id, p) else before[k]
  }

  /** The row of `id` is gone, and nothing else. */
  predicate RowLeaves(before: seq<Entry>, after: seq<Entry>, id: ScheduleId) {
    exists i | 0 <= i < |before| :: before[i].id == id && after == before[..i] + before[i + 1..]
  }

  /** The row `i` is the oldest cancelled or failed one. */
  predicate OldestDroppable(table: seq<Entry>, i: nat) {
    i < |table| && (table[i].phase.Cancelled? || table[i].phase.Failed?) &&
    forall k | 0 <= k < i :: !table[k].phase.Cancelled? && !table[k].phase.Failed?
  }

  /** A full table without its oldest cancelled or failed row; any other table unchanged. */
  predicate RoomMade(before: seq<Entry>, after: seq<Entry>) {
    if |before| < 32 then after == before
    else exists i: nat | i < |before| && OldestDroppable(before, i) :: after == before[..i] + before[i + 1..]
  }

  lemma RowUpdate(table: seq<Entry>, i: nat, p: Phase)
    requires DistinctIds(table) && i < |table|
    ensures RowBecomes(table, table[i := Entry(table[i].id, p)], table[i].id, p)
  {
    forall k | 0 <= k < |table| && k != i
      ensures table[k].id != table[i].id
    {
      DifferentIds(table, i, k);
    }
  }

  lemma RoomIsMade(table: seq<Entry>)
    requires |table| < 32 || FirstDroppable(table) < |table|
    ensures RoomMade(table, MakeRoom(table))
  {
    assert FirstDroppable(table) < |table| ==> OldestDroppable(table, FirstDroppable(table));
  }

  /** The active rows, counted as a set of positions. */
  lemma {:induction false} ActiveCountIs(table: seq<Entry>, n: nat)
    requires n <= |table|
    ensures ActiveCount(table[..n]) == |ActivePositions(table, n)|
    decreases n
  {
    if n > 0 {
      ActiveCountIs(table, n - 1);
      TakeOneMore(table, n - 1);
      ActiveSnoc(table[..n - 1], table[n - 1]);
      var before, now := ActivePositions(table, n - 1), ActivePositions(table, n);
      assert now == if Active(table[n - 1].phase) then before + {n - 1} else before;
    }
  }

  function ActivePositions(table: seq<Entry>, n: nat): set<int>
    requires n <= |table|
  {
    set i | 0 <= i < n && (table[i].phase == Scheduled || table[i].phase == Running)
  }

  // ----- what one move does to the record

  /** Row `i` makes the move `e` and stays in the table. */
  lemma MoveKeeps(table: seq<Entry>, executing: set<ScheduleId>, unused: ScheduleId, lives: map<ScheduleId, seq<Event>>,
                  i: nat, e: Event, p: Phase)
    requires Lawful(table, executing, unused, lives) && i < |table| && Move(table[i].phase, e) == Some(p) && !Gone(p)
    ensures var id := table[i].id;
            Lawful(table[i := Entry(id, p)], if p == Running then executing + {id} else executing - {id}, unused,
                   lives[id := lives[id] + [e]])
  {
    LifeSnoc(lives[table[i].id], e);
    ActiveSet(table, i, Entry(table[i].id, p));
    MoveRecorded(table, lives, i, e, p);
  }

  lemma MoveRecorded(table: seq<Entry>, lives: map<ScheduleId, seq<Event>>, i: nat, e: Event, p: Phase)
    requires DistinctIds(table) && Recorded(table, lives) && i < |table|
    requires Move(table[i].phase, e) == Some(p) && !Gone(p)
    ensures var id := table[i].id; Recorded(table[i := Entry(id, p)], lives[id := lives[id] + [e]])
    ensures DistinctIds(table[i := Entry(table[i].id, p)])
  {
    var id := table[i].id;
    var after := table[i := Entry(id, p)];
    var more := lives[id := lives[id] + [e]];
    LifeSnoc(lives[id], e);
    forall k | 0 <= k < |after|
      ensures after[k].id in more && After(more[after[k].id]) == Some(after[k].phase)
    {
      if k != i {
        DifferentIds(table, i, k);
      }
    }
    forall d | d in more
      ensures After(more[d]).Some? && (Gone(After(more[d]).value) <==> !Holds(after, d))
    {
      SameIds(table, after, d);
      assert after[i].id == id;
    }
  }

  lemma DifferentIds(table: seq<Entry>, i: nat, k: nat)
    requires DistinctIds(table) && i < |table| && k < |table| && i != k
    ensures table[i].id != table[k].id
  {
  }

  lemma SameIds(table: seq<Entry>, after: seq<Entry>, id: ScheduleId)
    requires |table| == |after| && forall k | 0 <= k < |table| :: table[k].id == after[k].id
    ensures Holds(table, id) <==> Holds(after, id)
  {
    if Holds(table, id) {
      var k :| 0 <= k < |table| && table[k].id == id;
      assert after[k].id == id;
    }
  }

  lemma LifeSnoc(life: seq<Event>, e: Event)
    requires After(life).Some?
    ensures After(life + [e]) == Move(After(life).value, e)
  {
    assert (life + [e])[..|life|] == life;
  }

  /** Row `i` makes its last move and leaves the table. */
  lemma LeaveKeeps(table: seq<Entry>, executing: set<ScheduleId>, unused: ScheduleId,
                   lives: map<ScheduleId, seq<Event>>,
                   i: nat, e: Event, p: Phase)
    requires Lawful(table, executing, unused, lives) && i < |table| && Move(table[i].phase, e) == Some(p) && Gone(p)
    ensures var id := table[i].id; Lawful(Removed(table, i), executing, unused, lives[id := lives[id] + [e]])
    ensures |Removed(table, i)| == |table| - 1
  {
    var id := table[i].id;
    var after := Removed(table, i);
    var more := lives[id := lives[id] + [e]];
    LifeSnoc(lives[id], e);
    ActiveRemoved(table, i);
    forall k | 0 <= k < |after|
      ensures after[k].id != id && after[k].id in more && After(more[after[k].id]) == Some(after[k].phase)
    {
      var n := if k < i then k else k + 1;
      assert after[k] == table[n];
      assert if n < i then table[n].id != table[i].id else table[i].id != table[n].id;
    }
    forall d | d in more
      ensures After(more[d]).Some? && (Gone(After(more[d]).value) <==> !Holds(after, d))
    {
      if d != id {
        HoldsRemoved(table, i, d);
      }
    }
    DistinctRemoved(table, i);
  }

  lemma HoldsRemoved(table: seq<Entry>, i: nat, id: ScheduleId)
    requires i < |table| && table[i].id != id
    ensures Holds(Removed(table, i), id) <==> Holds(table, id)
  {
    var after := Removed(table, i);
    if Holds(table, id) {
      var n :| 0 <= n < |table| && table[n].id == id;
      assert after[if n < i then n else n - 1] == table[n];
    }
    if Holds(after, id) {
      var k :| 0 <= k < |after| && after[k].id == id;
      assert after[k] == table[if k < i then k else k + 1];
    }
  }

  lemma DistinctRemoved(table: seq<Entry>, i: nat)
    requires i < |table| && DistinctIds(table)
    ensures DistinctIds(Removed(table, i))
  {
    var after := Removed(table, i);
    forall a, b | 0 <= a < b < |after|
      ensures after[a].id != after[b].id
    {
      var m, n := if a < i then a else a + 1, if b < i then b else b + 1;
      assert after[a] == table[m] && after[b] == table[n];
    }
  }

  lemma InsertKeeps(table: seq<Entry>, executing: set<ScheduleId>, unused: ScheduleId,
                   lives: map<ScheduleId, seq<Event>>)
    requires Lawful(table, executing, unused, lives)
    requires |table| < MAX_RETAINED_SCHEDULES && ActiveCount(table) < MAX_ACTIVE_SCHEDULES
    ensures Lawful(table + [Entry(unused, Scheduled)], executing, unused + 1, lives[unused := []])
  {
    ActiveSnoc(table, Entry(unused, Scheduled));
    assert unused !in lives;
    InsertRecorded(table, lives, unused);
  }

  lemma InsertRecorded(table: seq<Entry>, lives: map<ScheduleId, seq<Event>>, id: ScheduleId)
    requires DistinctIds(table) && Recorded(table, lives) && id !in lives
    ensures DistinctIds(table + [Entry(id, Scheduled)])
    ensures Recorded(table + [Entry(id, Scheduled)], lives[id := []])
  {
    var after := table + [Entry(id, Scheduled)];
    var more := lives[id := []];
    forall k | 0 <= k < |after|
      ensures after[k].id in more && After(more[after[k].id]) == Some(after[k].phase)
      ensures k < |table| ==> after[k].id != id
    {
      assert k < |table| ==> after[k] == table[k] && table[k].id in lives;
    }
    forall d | d in more
      ensures After(more[d]).Some? && (Gone(After(more[d]).value) <==> !Holds(after, d))
    {
      if d == id {
        assert after[|table|].id == d;
      } else {
        HoldsSnoc(table, Entry(id, Scheduled), d);
      }
    }
  }

  lemma HoldsSnoc(table: seq<Entry>, e: Entry, id: ScheduleId)
    requires e.id != id
    ensures Holds(table + [e], id) <==> Holds(table, id)
  {
    if Holds(table, id) {
      var k :| 0 <= k < |table| && table[k].id == id;
      assert (table + [e])[k].id == id;
    }
  }

  // ----- the API and the timers

  datatype ScheduleError = InvalidArgument | TooManyActive | TooManyAwaiting | NotCancellable | Unavailable

  /** One entry into the lock by any thread. */
  datatype Request =
    | ScheduleSnapshot(delaySeconds: int, maxItems: int)
    | TimerFires(id: ScheduleId)
    | TimerEnds(id: ScheduleId, outcome: Option<Snapshot>)
    | Cancel(id: ScheduleId)
    | FetchResult(id: ScheduleId)

  /** No recorded life is forgotten or rewritten; each may go on. */
  ghost predicate LivesGoOn(before: map<ScheduleId, seq<Event>>, now: map<ScheduleId, seq<Event>>) {
    forall id | id in before :: id in now && before[id] <= now[id]
  }

  /** The row of a schedule whose timer body is under way. */
  lemma ExecutingRow(table: seq<Entry>, executing: set<ScheduleId>, unused: ScheduleId,
                     lives: map<ScheduleId, seq<Event>>, id: ScheduleId, i: nat)
    requires Lawful(table, executing, unused, lives) && id in executing && i <= |table|
    requires (i == |table| <==> !Holds(table, id)) && (i < |table| ==> table[i].id == id)
    ensures i < |table| && table[i].phase == Running && id in lives && After(lives[id]) == Some(Running)
  {
  }

  class ScheduleTable {
    var schedules: seq<Entry>
    var executing: set<ScheduleId>
    var unused: ScheduleId
    ghost var lives: map<ScheduleId, seq<Event>>

    constructor ()
      ensures Valid() && schedules == [] && lives == map[]
    {
      schedules, executing, unused, lives := [], {}, 0, map[];
    }

    ghost predicate Valid()
      reads this
    {
      Lawful(schedules, executing, unused, lives)
    }

    method Find(id: ScheduleId) returns (i: nat)
      requires Valid()
      ensures i <= |schedules| && (i < |schedules| ==> schedules[i].id == id)
      ensures i == |schedules| <==> !Holds(schedules, id)
    {
      i := 0;
      while i < |schedules| && schedules[i].id != id
        invariant i <= |schedules| && forall k | 0 <= k < i :: schedules[k].id != id
      {
        i := i + 1;
      }
    }

    method FindDroppable() returns (i: nat)
      ensures i == FirstDroppable(schedules)
    {
      i := 0;
      while i < |schedules| && !Droppable(schedules[i].phase)
        invariant i <= |schedules| && forall k | 0 <= k < i :: !Droppable(schedules[k].phase)
      {
        i := i + 1;
      }
    }

    method CountActive() returns (n: nat)
      ensures n == ActiveCount(schedules)
    {
      n := 0;
      var i := 0;
      assert schedules[..0] == [];
      while i < |schedules|
        invariant i <= |schedules| && n == ActiveCount(schedules[..i])
      {
        ActiveSnoc(schedules[..i], schedules[i]);
        assert schedules[..i + 1] == schedules[..i] + [schedules[i]];
        n := n + if Active(schedules[i].phase) then 1 else 0;
        i := i + 1;
      }
      assert schedules[..i] == schedules;
    }

    /** A new row goes to the end; a full table first loses its oldest cancelled or failed row, and nothing else. */
    method ScheduleOne(delaySeconds: int, maxItems: int) returns (r: Result<ScheduleId, ScheduleError>)
      requires Valid()
      modifies this
      ensures Valid() && LivesGoOn(old(lives), lives)
      ensures var fine := 1 <= delaySeconds <= 86400 && 1 <= maxItems <= 1500;
              var busy := |ActivePositions(old(schedules), |old(schedules)|)| >= 4;
              var stuck := |old(schedules)| >= 32 && forall i: nat :: !OldestDroppable(old(schedules), i);
              r == if !fine then Err(InvalidArgument)
                   else if busy then Err(TooManyActive)
                   else if stuck then Err(TooManyAwaiting)
                   else Ok(old(unused))
      ensures r.Err? ==> schedules == old(schedules) && lives == old(lives)
      ensures r.Ok? ==>
                schedules != [] && schedules[|schedules| - 1] == Entry(r.value, Scheduled) &&
                RoomMade(old(schedules), schedules[..|schedules| - 1])
    {
      if !(1 <= delaySeconds <= 86400 && 1 <= maxItems <= 1500) {
        return Err(InvalidArgument);
      }
      var busy := TooBusy();
      if busy {
        return Err(TooManyActive);
      }
      var room := MakeSpace();
      if !room {
        return Err(TooManyAwaiting);
      }
      r := Ok(unused);
      ghost var left := schedules;
      Insert();
      assert schedules[..|schedules| - 1] == left;
    }

    method TooBusy() returns (busy: bool)
      ensures busy <==> |ActivePositions(schedules, |schedules|)| >= 4
      ensures busy <==> ActiveCount(schedules) >= MAX_ACTIVE_SCHEDULES
    {
      var active := CountActive();
      ActiveCountIs(schedules, |schedules|);
      assert schedules[..|schedules|] == schedules;
      busy := active >= MAX_ACTIVE_SCHEDULES;
    }

    /** A full table loses its oldest cancelled or failed row, if it has one. */
    method MakeSpace() returns (room: bool)
      requires Valid()
      modifies this`schedules, this`lives
      ensures Valid() && LivesGoOn(old(lives), lives) && ActiveCount(schedules) == old(ActiveCount(schedules))
      ensures room <==> |old(schedules)| < 32 || exists i: nat :: OldestDroppable(old(schedules), i)
      ensures room ==> RoomMade(old(schedules), schedules) && |schedules| < MAX_RETAINED_SCHEDULES
      ensures !room ==> schedules == old(schedules) && lives == old(lives)
    {
      if |schedules| >= MAX_RETAINED_SCHEDULES {
        var i := FindDroppable();
        assert i < |schedules| ==> OldestDroppable(schedules, i);
        if i == |schedules| {
          return false;
        }
        Evict(i);
      }
      RoomIsMade(old(schedules));
      return true;
    }

    method Insert()
      requires Valid() && |schedules| < MAX_RETAINED_SCHEDULES && ActiveCount(schedules) < MAX_ACTIVE_SCHEDULES
      modifies this
      ensures Valid() && schedules == old(schedules) + [Entry(old(unused), Scheduled)] && LivesGoOn(old(lives), lives)
    {
      InsertKeeps(schedules, executing, unused, lives);
      schedules := schedules + [Entry(unused, Scheduled)];
      lives := lives[unused := []];
      unused := unused + 1;
    }

    method Evict(i: nat)
      requires Valid() && i < |schedules| && Droppable(schedules[i].phase)
      modifies this`schedules, this`lives
      ensures Valid() && schedules == Removed(old(schedules), i) && |schedules| == old(|schedules|) - 1
      ensures ActiveCount(schedules) == old(ActiveCount(schedules)) && LivesGoOn(old(lives), lives)
    {
      LeaveKeeps(schedules, executing, unused, lives, i, Dropped, Evicted);
      ActiveRemoved(schedules, i);
      lives := lives[schedules[i].id := lives[schedules[i].id] + [Dropped]];
      schedules := Removed(schedules, i);
    }

    /** The timer body's first critical section. */
    method Begin(id: ScheduleId) returns (runs: bool)
      requires Valid()
      modifies this
      ensures Valid() && LivesGoOn(old(lives), lives)
      ensures runs <==> Entry(id, Scheduled) in old(schedules)
      ensures runs ==>
                RowBecomes(old(schedules), schedules, id, Running) && executing == old(executing) + {id} &&
                id in lives && lives[id] == [Began]
      ensures !runs ==> schedules == old(schedules) && executing == old(executing) && lives == old(lives)
    {
      var i := Find(id);
      runs := i < |schedules| && schedules[i].phase == Scheduled;
      if !runs {
        NotScheduled(schedules, id, i);
      } else {
        assert schedules[i] in schedules;
        RowUpdate(schedules, i, Running);
        MoveKeeps(schedules, executing, unused, lives, i, Began, Running);
        LifeIff(lives[id], Scheduled);
        lives := lives[id := lives[id] + [Began]];
        schedules := schedules[i := Entry(id, Running)];
        executing := executing + {id};
      }
    }

    /** Its last one, with the snapshot or after an exception. */
    method End(id: ScheduleId, outcome: Option<Snapshot>)
      requires Valid() && id in executing
      modifies this
      ensures Valid() && id !in executing && id in lives && LivesGoOn(old(lives), lives)
      ensures executing == old(executing) - {id}
      ensures lives[id] == [Began, if outcome.Some? then Finished(outcome.value) else Broke]
      ensures RowBecomes(old(schedules), schedules, id, if outcome.Some? then Complete(outcome.value) else Failed)
    {
      var i := Find(id);
      var e := if outcome.Some? then Finished(outcome.value) else Broke;
      var p := if outcome.Some? then Complete(outcome.value) else Failed;
      ExecutingRow(schedules, executing, unused, lives, id, i);
      MoveKeeps(schedules, executing, unused, lives, i, e, p);
      LifeIff(lives[id], Running);
      RowUpdate(schedules, i, p);
      lives, schedules, executing := lives[id := lives[id] + [e]], schedules[i := Entry(id, p)], executing - {id};
    }

    method CancelOne(id: ScheduleId) returns (r: Result<(), ScheduleError>)
      requires Valid()
      modifies this
      ensures Valid() && LivesGoOn(old(lives), lives)
      ensures r.Ok? <==> Entry(id, Scheduled) in old(schedules)
      ensures r.Ok? ==>
                id in lives && lives[id] == [CancelAsked] && RowBecomes(old(schedules), schedules, id, Cancelled)
      ensures r.Err? ==> schedules == old(schedules) && lives == old(lives)
    {
      var i := Find(id);
      if i == |schedules| || schedules[i].phase != Scheduled {
        NotScheduled(schedules, id, i);
        return Err(NotCancellable);
      }
      r := Ok(());
      assert schedules[i] in schedules;
      MoveKeeps(schedules, executing, unused, lives, i, CancelAsked, Cancelled);
      LifeIff(lives[id], Scheduled);
      RowUpdate(schedules, i, Cancelled);
      assert id !in executing;
      assert executing - {id} == executing;
      lives := lives[id := lives[id] + [CancelAsked]];
      schedules := schedules[i := Entry(id, Cancelled)];
    }

    /** A completed result is handed out once; afterwards the schedule is unknown. */
    method ResultOf(id: ScheduleId) returns (r: Result<Phase, ScheduleError>)
      requires Valid()
      modifies this
      ensures Valid() && LivesGoOn(old(lives), lives)
      ensures r.Err? <==> !old(Holds(schedules, id))
      ensures r.Ok? ==> Entry(id, r.value) in old(schedules)
      ensures r.Ok? && r.value.Complete? ==>
                !Holds(schedules, id) && id in lives &&
                lives[id] == [Began, Finished(r.value.result), Read(r.value.result)] &&
                RowLeaves(old(schedules), schedules, id)
      ensures r.Err? || !r.value.Complete? ==> schedules == old(schedules) && lives == old(lives)
    {
      var i := Find(id);
      if i == |schedules| {
        return Err(Unavailable);
      }
      var p := schedules[i].phase;
      r := Ok(p);
      assert schedules[i] in schedules;
      if p.Complete? {
        LeaveKeeps(schedules, executing, unused, lives, i, Read(p.result), Delivered(p.result));
        LifeIff(lives[id], p);
        LifeSnoc(lives[id], Read(p.result));
        lives := lives[id := lives[id] + [Read(p.result)]];
        schedules := Removed(schedules, i);
        assert !Holds(schedules, id) by {
          assert After(lives[id]) == Some(Delivered(p.result));
        }
      }
    }

    /**
     * Under any interleaving the table stays within its bounds and every schedule ever made has led an allowed life:
     * it is in the table with the phase of that life, was delivered, or was evicted after failing or being cancelled.
     */
    method Serve(requests: seq<Request>)
      requires Valid()
      modifies this
      ensures Valid() && LivesGoOn(old(lives), lives)
      ensures |schedules| <= MAX_RETAINED_SCHEDULES && ActiveCount(schedules) <= MAX_ACTIVE_SCHEDULES
      ensures forall id | id in lives :: After(lives[id]).Some?
      ensures forall id | id in lives && Unread(lives[id]) :: Holds(schedules, id)
    {
      var i := 0;
      while i < |requests|
        invariant Valid() && LivesGoOn(old(lives), lives)
      {
        match requests[i] {
          case ScheduleSnapshot(delaySeconds, maxItems) =>
            var _ := ScheduleOne(delaySeconds, maxItems);
          case TimerFires(id) =>
            var _ := Begin(id);
          case TimerEnds(id, outcome) =>
            if id in executing {
              End(id, outcome);
            }
          case Cancel(id) =>
            var _ := CancelOne(id);
          case FetchResult(id) =>
            var _ := ResultOf(id);
        }
        i := i + 1;
      }
      forall id | id in lives && Unread(lives[id])
        ensures Holds(schedules, id)
      {
        LifeIff(lives[id], After(lives[id]).value);
      }
    }
  }

  /** A life in which a result was produced and not read. */
  predicate Unread(life: seq<Event>) {
    (exists i | 0 <= i < |life| :: life[i].Finished?) && forall i | 0 <= i < |life| :: !life[i].Read?
  }

  lemma NotScheduled(table: seq<Entry>, id: ScheduleId, i: nat)
    requires DistinctIds(table) && i <= |table| && (i == |table| ==> !Holds(table, id))
    requires i < |table| ==> table[i].id == id && table[i].phase != Scheduled
    ensures Entry(id, Scheduled) !in table
  {
    forall k | 0 <= k < |table|
      ensures table[k] != Entry(id, Scheduled)
    {
      if i < |table| && k != i {
        var first, second := table[Min(i, k)], table[Max(i, k)];
        assert first.id != second.id;
      }
    }
  }
}
