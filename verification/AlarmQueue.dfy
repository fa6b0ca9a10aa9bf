/** An alarm context: an unordered array of pending alarms with back pointers from each alarm to
    its slot, a cached earliest alarm, and the doubly linked list of all alarms.  To a client it
    is a map from alarms to clock ticks. */
module AlarmQueue {

  const CLOCK_MAX := 0xffff_ffff_ffff_ffff
  const MAX_PENDING_ALARMS := 0x100

  type Clock = x: int | 0 <= x <= CLOCK_MAX

  class Alarm {
    var pendingIdx: int  // negative if the alarm is not pending
    var next: Alarm?
    var prev: Alarm?

    constructor ()
      ensures pendingIdx == -1
    {
      pendingIdx := -1;
    }
  }

  datatype Pending = Pending(alarm: Alarm?, clk: Clock)

  // ---- The queue as values ---------------------------------------------------------------

  /** Slots and back pointers are inverse to each other and hold the map. */
  ghost predicate Inverse(table: seq<Pending>, index: map<Alarm, int>, queue: map<Alarm, Clock>) {
    && (forall a :: a in queue ==> a in index)
    && (forall a :: a in index && a !in queue ==> index[a] < 0)
    && (forall a :: a in queue ==> 0 <= index[a] < |table| && table[index[a]] == Pending(a, queue[a]))
    && (forall i :: 0 <= i < |table| ==> table[i].alarm != null && table[i].alarm in queue && index[table[i].alarm] == i)
  }

  /** The cached clock is the earliest one, and the cached slot holds it. */
  ghost predicate Earliest(table: seq<Pending>, clk: Clock, idx: int) {
    && (forall i :: 0 <= i < |table| ==> clk <= table[i].clk)
    && (clk < CLOCK_MAX ==> 0 <= idx < |table| && table[idx].clk == clk)
  }

  lemma Append(table: seq<Pending>, index: map<Alarm, int>, queue: map<Alarm, Clock>, a: Alarm, clk: Clock)
    requires Inverse(table, index, queue) && a in index && a !in queue
    ensures Inverse(table + [Pending(a, clk)], index[a := |table|], queue[a := clk])
  {
  }

  lemma Overwrite(table: seq<Pending>, index: map<Alarm, int>, queue: map<Alarm, Clock>, a: Alarm, clk: Clock)
    requires Inverse(table, index, queue) && a in queue
    ensures Inverse(table[index[a] := Pending(a, clk)], index, queue[a := clk])
  {
  }

  lemma EarliestAppend(table: seq<Pending>, at: Clock, idx: int, p: Pending)
    requires Earliest(table, at, idx)
    ensures if p.clk < at then Earliest(table + [p], p.clk, |table|) else Earliest(table + [p], at, idx)
  {
  }

  /** Changing an entry to a time that is not before the cached one leaves the cache right, unless
      it is the cached entry. */
  lemma EarliestOverwrite(table: seq<Pending>, at: Clock, idx: int, k: nat, p: Pending)
    requires Earliest(table, at, idx) && k < |table| && at <= p.clk && k != idx
    ensures Earliest(table[k := p], at, idx)
  {
  }

  /** A new alarm is not pending, and one that is not pending can be forgotten. */
  lemma Learn(table: seq<Pending>, index: map<Alarm, int>, queue: map<Alarm, Clock>, a: Alarm)
    requires Inverse(table, index, queue) && a !in index
    ensures Inverse(table, index[a := -1], queue)
  {
  }

  lemma Forget(table: seq<Pending>, index: map<Alarm, int>, queue: map<Alarm, Clock>, a: Alarm, rest: map<Alarm, int>)
    requires Inverse(table, index, queue) && a !in queue
    requires forall b :: b in rest <==> b in index && b != a
    requires forall b :: b in rest ==> rest[b] == index[b]
    ensures Inverse(table, rest, queue)
  {
  }

  function Without(queue: map<Alarm, Clock>, a: Alarm): map<Alarm, Clock> {
    queue - {a}
  }

  lemma WithoutGone(queue: map<Alarm, Clock>, a: Alarm)
    ensures a !in Without(queue, a)
  {
  }

  lemma WithoutAbsent(queue: map<Alarm, Clock>, a: Alarm)
    requires a !in queue
    ensures Without(queue, a) == queue
  {
  }

  /** The last entry moves into the slot that becomes free. */
  function Vacated(table: seq<Pending>, idx: nat): seq<Pending>
    requires idx < |table|
  {
    table[idx := table[|table| - 1]][..|table| - 1]
  }

  lemma EarliestVacated(table: seq<Pending>, at: Clock, idx: int, k: nat)
    requires Earliest(table, at, idx) && k < |table|
    ensures idx != k ==> Earliest(Vacated(table, k), at, if idx == |table| - 1 then k else idx)
  {
    var last := |table| - 1;
    forall i | 0 <= i < last ensures at <= Vacated(table, k)[i].clk {
      assert Vacated(table, k)[i] == if i == k then table[last] else table[i];
    }
  }

  lemma Vacate(table: seq<Pending>, index: map<Alarm, int>, queue: map<Alarm, Clock>, a: Alarm, moved: Alarm)
    requires Inverse(table, index, queue) && a in queue && table[|table| - 1].alarm == moved
    ensures Inverse(Vacated(table, index[a]), index[moved := index[a]][a := -1], Without(queue, a))
  {
  }

  lemma VacatedSingle(table: seq<Pending>, index: map<Alarm, int>, a: Alarm)
    requires |table| == 1 && a in index && index[a] == 0
    ensures Vacated(table, 0) == [] && index[a := 0][a := -1] == index[a := -1]
  {
  }

  lemma EarliestNone()
    ensures Earliest([], CLOCK_MAX, -1)
  {
  }

  /** As many slots are used as alarms are pending. */
  lemma {:induction false} CountSlots(table: seq<Pending>, index: map<Alarm, int>, queue: map<Alarm, Clock>)
    requires Inverse(table, index, queue)
    ensures |table| == |queue|
    decreases |table|
  {
    if table == [] {
      assert queue.Keys == {};
    } else {
      var a := table[|table| - 1].alarm;
      Vacate(table, index, queue, a, a);
      CountSlots(Vacated(table, index[a]), index[a := index[a]][a := -1], Without(queue, a));
      assert queue.Keys == (Without(queue, a)).Keys + {a};
    }
  }

  /** Clock arithmetic is unsigned 64-bit. */
  function Warped(clk: Clock, amount: Clock, direction: int): Clock {
    (if direction > 0 then clk + amount else clk - amount) % (CLOCK_MAX + 1)
  }

  function WarpedTable(table: seq<Pending>, amount: Clock, direction: int): seq<Pending> {
    seq(|table|, i requires 0 <= i < |table| => Pending(table[i].alarm, Warped(table[i].clk, amount, direction)))
  }

  function WarpedQueue(queue: map<Alarm, Clock>, amount: Clock, direction: int): map<Alarm, Clock> {
    map a | a in queue :: Warped(queue[a], amount, direction)
  }

  /** Does the clock wrap around? */
  predicate Wraps(clk: Clock, amount: Clock, direction: int) {
    !(0 <= (if direction > 0 then clk + amount else clk - amount) <= CLOCK_MAX)
  }

  /** Either no pending clock wraps around or all of them do. */
  predicate WrapAlike(table: seq<Pending>, amount: Clock, direction: int) {
    forall i, j :: 0 <= i < |table| && 0 <= j < |table| ==>
      Wraps(table[i].clk, amount, direction) == Wraps(table[j].clk, amount, direction)
  }

  lemma WarpInverse(table: seq<Pending>, index: map<Alarm, int>, queue: map<Alarm, Clock>, amount: Clock, direction: int)
    requires Inverse(table, index, queue)
    ensures Inverse(WarpedTable(table, amount, direction), index, WarpedQueue(queue, amount, direction))
  {
  }

  /** Clocks that wrap alike keep their order; of two that do not, the one that wraps ends up
      on the other side. */
  lemma WarpedOrder(x: Clock, y: Clock, amount: Clock, direction: int)
    requires x <= y
    ensures Warped(x, amount, direction) <= Warped(y, amount, direction)
            <==> Wraps(x, amount, direction) == Wraps(y, amount, direction)
  {
    WarpedIs(x, amount, direction);
    WarpedIs(y, amount, direction);
  }

  lemma WarpedIs(clk: Clock, amount: Clock, direction: int)
    ensures var c := if direction > 0 then clk + amount else clk - amount;
            Warped(clk, amount, direction) == if c < 0 then c + (CLOCK_MAX + 1) else if c > CLOCK_MAX then c - (CLOCK_MAX + 1) else c
  {
  }

  /** Nothing moves, or the cached slot holds the cached clock and the clocks wrap alike. */
  predicate Survives(table: seq<Pending>, at: Clock, idx: int, amount: Clock, direction: int) {
    amount == 0 || (0 <= idx < |table| && table[idx].clk == at && WrapAlike(table, amount, direction))
  }

  /** Exactly then does shifting every clock keep the cache right: on an empty queue the sentinel is
      shifted as well and stops standing for "never". */
  lemma WarpEarliest(table: seq<Pending>, at: Clock, idx: int, amount: Clock, direction: int)
    requires Earliest(table, at, idx)
    ensures Earliest(WarpedTable(table, amount, direction), Warped(at, amount, direction), idx)
            <==> Survives(table, at, idx, amount, direction)
  {
    hide Warped, Wraps;
    var t, c := WarpedTable(table, amount, direction), Warped(at, amount, direction);
    WarpedIs(at, amount, direction);
    if amount == 0 {
      forall i | 0 <= i < |table| ensures t[i].clk == table[i].clk {
        WarpedIs(table[i].clk, amount, direction);
      }
    } else if 0 <= idx < |table| && table[idx].clk == at {
      forall i | 0 <= i < |table|
        ensures c <= t[i].clk <==> Wraps(table[i].clk, amount, direction) == Wraps(table[idx].clk, amount, direction)
      {
        WarpedOrder(at, table[i].clk, amount, direction);
      }
    } else {
      assert at == CLOCK_MAX && c != at;
    }
  }

  function Nth(l: seq<Alarm>, k: int): Alarm? {
    if 0 <= k < |l| then l[k] else null
  }

  function Deleted(l: seq<Alarm>, k: nat): seq<Alarm>
    requires k < |l|
  {
    l[..k] + l[k + 1..]
  }

  lemma NthIs(l: seq<Alarm>, k: int)
    ensures Nth(l, k) == if 0 <= k < |l| then l[k] else null
  {
  }

  lemma NthDeleted(l: seq<Alarm>, k: nat, j: int)
    requires k < |l|
    ensures Nth(Deleted(l, k), j) == Nth(l, if j < k then j else j + 1)
  {
  }

  lemma DeletedHead(l: seq<Alarm>)
    requires l != []
    ensures Deleted(l, 0) == l[1..] && Nth(l, 1) == Nth(l[1..], 0)
    ensures l[1..] == [] ==> Nth(l, 1) == null
    ensures l[1..] != [] ==> Nth(l, 1) == l[1..][0]
  {
  }

  predicate Distinct(l: seq<Alarm>) {
    forall i, j :: 0 <= i < j < |l| ==> l[i] != l[j]
  }

  lemma DistinctDeleted(l: seq<Alarm>, k: nat)
    requires Distinct(l) && k < |l|
    ensures Distinct(Deleted(l, k)) && forall a :: a in Deleted(l, k) <==> a in l && a != l[k]
  {
    forall a | a in l && a != l[k] ensures a in Deleted(l, k) {
      var j :| 0 <= j < |l| && l[j] == a;
      assert Deleted(l, k)[if j < k then j else j - 1] == a;
    }
  }

  class AlarmContext {
    var alarms: Alarm?
    const pending: array<Pending>
    var numPending: nat
    var nextClk: Clock
    var nextIdx: int
    ghost var list: seq<Alarm>            // every alarm of the context, in list order
    ghost var queue: map<Alarm, Clock>    // the pending ones

    /** The list is doubly linked in the order of `list`, and no alarm is on it twice. */
    ghost predicate Linked()
      reads `alarms, `list, list`next, list`prev
    {
      && Distinct(list)
      && alarms == Nth(list, 0)
      && (forall k :: 0 <= k < |list| ==> list[k].prev == Nth(list, k - 1) && list[k].next == Nth(list, k + 1))
    }

    ghost function Index(): map<Alarm, int>
      reads `list, list`pendingIdx
    {
      map a | a in list :: a.pendingIdx
    }

    ghost function Table(): seq<Pending>
      requires numPending <= pending.Length
      reads `numPending, pending
    {
      pending[..numPending]
    }

    ghost predicate Valid()
      reads this, pending, list
    {
      && Linked()
      && numPending <= pending.Length == MAX_PENDING_ALARMS
      && Inverse(Table(), Index(), queue)
      && Earliest(Table(), nextClk, nextIdx)
    }

    /** alarm_context_init; the cached index is left as it comes. */
    constructor (garbage: int)
      ensures Valid() && list == [] && queue == map[] && nextClk == CLOCK_MAX && fresh(pending)
    {
      pending := new Pending[MAX_PENDING_ALARMS](_ => Pending(null, 0));
      alarms, numPending, nextClk, nextIdx := null, 0, CLOCK_MAX, garbage;
      list, queue := [], map[];
    }

    /** alarm_context_update_next_pending: the last of the earliest alarms wins. */
    method UpdateNextPending()
      requires numPending <= pending.Length
      modifies `nextClk, `nextIdx
      ensures Earliest(Table(), nextClk, nextIdx)
      ensures numPending > 0 ==> 0 <= nextIdx < numPending && pending[nextIdx].clk == nextClk
    {
      var clk: Clock := CLOCK_MAX;
      var idx := nextIdx;
      var i := 0;
      while i < numPending
        invariant 0 <= i <= numPending
        invariant forall k :: 0 <= k < i ==> clk <= pending[k].clk
        invariant i > 0 || clk < CLOCK_MAX ==> 0 <= idx < i && pending[idx].clk == clk
      {
        var pendingClk := pending[i].clk;
        if pendingClk <= clk {
          clk, idx := pendingClk, i;
        }
        i := i + 1;
      }
      nextClk, nextIdx := clk, idx;
    }

    /** alarm_set for an alarm that is not pending. */
    method Add(alarm: Alarm, clk: Clock)
      requires Valid() && alarm in list && alarm !in queue && numPending < MAX_PENDING_ALARMS
      modifies `numPending, `nextClk, `nextIdx, `queue, pending, alarm`pendingIdx
      ensures Valid() && queue == old(queue)[alarm := clk]
    {
      hide Inverse, Earliest, Linked;
      ghost var table, index := Table(), Index();
      Append(table, index, queue, alarm, clk);
      EarliestAppend(table, nextClk, nextIdx, Pending(alarm, clk));
      var newIdx := numPending;
      pending[newIdx] := Pending(alarm, clk);
      numPending := numPending + 1;
      assert Table() == table + [Pending(alarm, clk)];
      if clk < nextClk {
        nextClk, nextIdx := clk, newIdx;
      }
      alarm.pendingIdx := newIdx;
      queue := queue[alarm := clk];
      assert Index() == index[alarm := newIdx];
    }

    lemma SlotOf(alarm: Alarm)
      requires Valid() && alarm in list
      ensures alarm in Index() && Index()[alarm] == alarm.pendingIdx
      ensures alarm in queue <==> alarm.pendingIdx >= 0
      ensures alarm in queue ==> alarm.pendingIdx < numPending && pending[alarm.pendingIdx].alarm == alarm
    {
      assert Index()[alarm] == alarm.pendingIdx;
      if alarm in queue {
        assert Table()[alarm.pendingIdx] == Pending(alarm, queue[alarm]);
      }
    }

    /** alarm_set for an alarm that is pending: rescan only if the cache may be wrong. */
    method Change(alarm: Alarm, clk: Clock)
      requires Valid() && alarm in list && alarm in queue
      modifies `nextClk, `nextIdx, `queue, pending
      ensures Valid() && queue == old(queue)[alarm := clk]
    {
      hide Inverse, Earliest, Linked, Index;
      ghost var table, index := Table(), Index();
      var idx := alarm.pendingIdx;
      SlotOf(alarm);
      Overwrite(table, index, queue, alarm, clk);
      pending[idx] := Pending(pending[idx].alarm, clk);
      assert Table() == table[idx := Pending(alarm, clk)];
      queue := queue[alarm := clk];
      if nextClk > clk || idx == nextIdx {
        UpdateNextPending();
      } else {
        EarliestOverwrite(table, nextClk, nextIdx, idx, Pending(alarm, clk));
      }
    }

    /** alarm_set.  A full queue silently refuses a new alarm. */
    method Set(alarm: Alarm, clk: Clock)
      requires Valid() && alarm in list
      modifies `numPending, `nextClk, `nextIdx, `queue, pending, alarm`pendingIdx
      ensures Valid()
      ensures queue == if alarm in old(queue) || |old(queue)| < MAX_PENDING_ALARMS then old(queue)[alarm := clk]
                       else old(queue)
    {
      CountSlots(Table(), Index(), queue);
      hide Inverse, Earliest, Linked;
      SlotOf(alarm);
      var idx := alarm.pendingIdx;
      if idx < 0 {
        if numPending < MAX_PENDING_ALARMS {
          Add(alarm, clk);
        }
      } else {
        Change(alarm, clk);
      }
    }

    /** Writes a back pointer. */
    method Mark(alarm: Alarm, idx: int)
      requires alarm in list
      modifies alarm`pendingIdx
      ensures alarm.pendingIdx == idx && Index() == old(Index())[alarm := idx]
    {
      ghost var index := Index();
      alarm.pendingIdx := idx;
      assert Index() == index[alarm := idx];
    }

    lemma LastSlot()
      requires Valid() && numPending > 0
      ensures var moved := pending[numPending - 1].alarm;
              moved != null && moved in list && moved in Index() && moved.pendingIdx == numPending - 1
    {
      assert Table()[numPending - 1] == pending[numPending - 1];
    }

    /** The last pending alarm moves into the slot that becomes free. */
    method Fill(idx: nat, ghost moved: Alarm)
      requires idx < numPending <= pending.Length && pending[numPending - 1].alarm == moved && moved in list
      requires moved.pendingIdx == numPending - 1
      modifies `numPending, pending, moved`pendingIdx
      ensures numPending == old(numPending) - 1
      ensures Table() == Vacated(old(Table()), idx)
      ensures Index() == old(Index())[moved := idx]
    {
      numPending := numPending - 1;
      var last := numPending;
      if last != idx {
        pending[idx] := Pending(pending[last].alarm, pending[last].clk);
        Mark(pending[idx].alarm, idx);
      }
    }

    /** The removal of one of several pending alarms. */
    method Remove(alarm: Alarm, idx: nat, ghost moved: Alarm)
      requires Valid() && alarm in list && alarm in queue && alarm.pendingIdx == idx && numPending > 1
      requires pending[numPending - 1].alarm == moved && moved in list && moved.pendingIdx == numPending - 1
      modifies `numPending, `nextClk, `nextIdx, `queue, pending, alarm`pendingIdx, moved`pendingIdx
      ensures Valid() && queue == Without(old(queue), alarm)
    {
      hide Inverse, Earliest, Linked, Index, Vacated, Without;
      SlotOf(alarm);
      Vacate(Table(), Index(), queue, alarm, moved);
      EarliestVacated(Table(), nextClk, nextIdx, idx);
      Fill(idx, moved);
      var last := numPending;
      if nextIdx == idx {
        UpdateNextPending();
      } else if nextIdx == last {
        nextIdx := idx;
      }
      Mark(alarm, -1);
      queue := Without(queue, alarm);
    }

    method RemoveOnly(alarm: Alarm)
      requires Valid() && alarm in list && alarm in queue && numPending <= 1
      modifies `numPending, `nextClk, `nextIdx, `queue, alarm`pendingIdx
      ensures Valid() && queue == Without(old(queue), alarm)
    {
      hide Inverse, Earliest, Linked, Index, Vacated, Without;
      SlotOf(alarm);
      Vacate(Table(), Index(), queue, alarm, alarm);
      EarliestNone();
      VacatedSingle(Table(), Index(), alarm);
      numPending, nextClk, nextIdx := 0, CLOCK_MAX, -1;
      Mark(alarm, -1);
      queue := Without(queue, alarm);
    }

    /** alarm_unset. */
    method Unset(alarm: Alarm)
      requires Valid() && alarm in list
      modifies `numPending, `nextClk, `nextIdx, `queue, pending, list`pendingIdx
      ensures Valid() && queue == Without(old(queue), alarm)
    {
      hide Inverse, Earliest, Linked, Index, Without;
      SlotOf(alarm);
      var idx := alarm.pendingIdx;
      if idx < 0 {
        WithoutAbsent(queue, alarm);
      } else {
        if numPending > 1 {
          LastSlot();
          Remove(alarm, idx, pending[numPending - 1].alarm);
        } else {
          RemoveOnly(alarm);
        }
      }
    }

    /** alarm_context_dispatch: which callback is called, and with which offset.  What the callback
        does to the queue is up to the caller. */
    method Dispatch(cpuClk: Clock) returns (alarm: Alarm, offset: nat)
      requires Valid() && nextClk <= cpuClk && nextClk < CLOCK_MAX
      ensures alarm in queue && alarm in list && offset == cpuClk - queue[alarm]
      ensures forall a :: a in queue ==> queue[alarm] <= queue[a]
    {
      offset := cpuClk - nextClk;
      var idx := nextIdx;
      assert pending[idx] == Table()[idx];
      alarm := pending[idx].alarm;
      assert alarm in Index() && queue[alarm] == nextClk;
      forall a | a in queue ensures nextClk <= queue[a] {
        assert Table()[Index()[a]].clk == queue[a];
      }
    }

    /** What the cached clock tells a client about the map. */
    lemma NextIsEarliest()
      requires Valid()
      ensures forall a :: a in queue ==> nextClk <= queue[a]
      ensures nextClk < CLOCK_MAX ==> exists a :: a in queue && queue[a] == nextClk
    {
      forall a | a in queue ensures nextClk <= queue[a] {
        assert Table()[Index()[a]].clk == queue[a];
      }
      if nextClk < CLOCK_MAX {
        assert Table()[nextIdx].alarm in queue;
      }
    }

    /** alarm_context_time_warp. */
    method TimeWarp(amount: Clock, direction: int)
      requires Valid()
      modifies `nextClk, `queue, pending
      ensures direction == 0 ==> Valid() && queue == old(queue)
      ensures direction != 0 ==> queue == WarpedQueue(old(queue), amount, direction)
      ensures direction != 0 ==>
                (Valid() <==> Survives(old(Table()), old(nextClk), nextIdx, amount, direction))
    {
      hide Inverse, Earliest, Linked, Index, Warped, WarpedQueue, Survives;
      if direction == 0 {
        return;
      }
      WarpInverse(Table(), Index(), queue, amount, direction);
      WarpEarliest(Table(), nextClk, nextIdx, amount, direction);
      ghost var table := Table();
      WarpPending(amount, direction);
      assert Table() == WarpedTable(table, amount, direction);
      nextClk := Warped(nextClk, amount, direction);
      queue := WarpedQueue(queue, amount, direction);
    }

    method WarpPending(amount: Clock, direction: int)
      requires numPending <= pending.Length
      modifies pending
      ensures forall i :: 0 <= i < numPending ==>
                pending[i] == Pending(old(pending[i].alarm), Warped(old(pending[i].clk), amount, direction))
    {
      hide Warped;
      var i := 0;
      while i < numPending
        invariant 0 <= i <= numPending
        invariant forall k :: 0 <= k < i ==>
                    pending[k] == Pending(old(pending[k].alarm), Warped(old(pending[k].clk), amount, direction))
        invariant forall k :: i <= k < pending.Length ==> pending[k] == old(pending[k])
      {
        pending[i] := Pending(pending[i].alarm, Warped(pending[i].clk, amount, direction));
        i := i + 1;
      }
    }

    // ---- The list of alarms ------------------------------------------------------------------

    /** alarm_new: the new alarm goes to the head of the list. */
    method New() returns (alarm: Alarm)
      requires Valid()
      modifies `alarms, `list, list`prev
      ensures Valid() && fresh(alarm) && list == [alarm] + old(list) && queue == old(queue)
    {
      hide Inverse, Earliest, Nth, Linked;
      ghost var index := Index();
      alarm := new Alarm();
      Learn(Table(), index, queue, alarm);
      Prepend(alarm);
      assert Index() == index[alarm := -1];
    }

    method Prepend(alarm: Alarm)
      requires Linked() && alarm !in list
      modifies `alarms, `list, list`prev, alarm`next, alarm`prev
      ensures Linked() && list == [alarm] + old(list)
    {
      if alarms == null {
        alarms := alarm;
        alarm.next := null;
      } else {
        alarm.next := alarms;
        alarms.prev := alarm;
        alarms := alarm;
      }
      alarm.prev := null;
      list := [alarm] + list;
    }

    /** What the links of the other alarms must be once the k-th is gone. */
    lemma Relinked(l: seq<Alarm>, k: nat)
      requires k < |l| && list == Deleted(l, k)
      requires forall j :: 0 <= j < |l| && j != k ==> l[j].next == Nth(l, if j == k - 1 then k + 1 else j + 1)
      requires forall j :: 0 <= j < |l| && j != k ==> l[j].prev == Nth(l, if j == k + 1 then k - 1 else j - 1)
      ensures forall j :: 0 <= j < |list| ==> list[j].prev == Nth(list, j - 1) && list[j].next == Nth(list, j + 1)
    {
      hide Nth;
      assert |list| == |l| - 1;
      forall j | 0 <= j < |list| ensures list[j].prev == Nth(list, j - 1) && list[j].next == Nth(list, j + 1) {
        NthDeleted(l, k, j - 1);
        NthDeleted(l, k, j + 1);
        assert list[j] == l[if j < k then j else j + 1];
      }
    }

    /** The pointer surgery of alarm_destroy. */
    method Unlink(alarm: Alarm, ghost k: nat)
      requires Linked() && k < |list| && list[k] == alarm
      modifies `alarms, `list, list`next, list`prev
      ensures Linked() && list == Deleted(old(list), k)
    {
      hide Nth, Deleted;
      ghost var l := list;
      NthIs(l, k - 1);
      NthIs(l, k + 1);
      NthIs(l, 0);
      NthDeleted(l, k, 0);
      if alarm == alarms {
        alarms := alarm.next;
      }
      if alarm.next != null {
        alarm.next.prev := alarm.prev;
      }
      if alarm.prev != null {
        alarm.prev.next := alarm.next;
      }
      list := Deleted(l, k);
      DistinctDeleted(l, k);
      Relinked(l, k);
    }

    /** alarm_destroy.  The alarm itself is freed and not looked at again. */
    method Destroy(alarm: Alarm, ghost k: nat)
      requires Valid() && k < |list| && list[k] == alarm
      modifies this, pending, list
      ensures Valid() && list == Deleted(old(list), k) && queue == Without(old(queue), alarm)
    {
      hide Inverse, Earliest, Nth, Linked, Deleted, Without;
      Heads();
      WithoutGone(queue, alarm);
      Unset(alarm);
      ghost var index, l := Index(), list;
      Unlink(alarm, k);
      DistinctDeleted(l, k);
      Forget(Table(), index, queue, alarm, Index());
    }

    lemma Heads()
      requires Linked()
      ensures Distinct(list) && (alarms == null <==> list == [])
      ensures list != [] ==> alarms == list[0] && list[0].next == Nth(list, 1)
    {
    }

    method DestroyHead(alarm: Alarm)
      requires Valid() && alarm == alarms
      modifies this, pending, list
      ensures Valid() && old(list) == [alarm] + list && alarms == old(alarm.next)
      ensures alarms == null <==> list == []
    {
      hide Inverse, Earliest, Without, Index, Nth, Linked, Deleted;
      Heads();
      DeletedHead(list);
      Destroy(alarm, 0);
      Heads();
    }

    /** alarm_context_destroy: each alarm is destroyed once, in list order. */
    method DestroyAll() returns (ghost destroyed: seq<Alarm>)
      requires Valid()
      modifies this, pending, list
      ensures Valid() && list == [] && queue == map[] && destroyed == old(list)
    {
      hide Inverse, Earliest, Without, Index, Nth, Linked, Deleted;
      destroyed := [];
      var ap := alarms;
      Heads();
      while ap != null
        invariant Valid() && ap == alarms && |destroyed| <= |old(list)|
        invariant destroyed == old(list)[..|destroyed|] && list == old(list)[|destroyed|..]
        invariant ap == null <==> list == []
        decreases |list|
      {
        ghost var alarm: Alarm := ap;
        var next := ap.next;
        DestroyHead(ap);
        destroyed := destroyed + [alarm];
        ap := next;
      }
      NothingPending();
    }

    lemma NothingPending()
      requires Valid() && list == []
      ensures queue == map[]
    {
      assert Index() == map[];
    }
  }
}
