/**
 * The keyed transfer scheduler: one lane per recipient, a bounded number of
 * lanes running at a time, and a bounded number of tasks outstanding.
 *
 * A task may call the scheduler back while it is being started, in the middle
 * of a pump. So no operation asks for more than what holds at that point, and
 * each keeps work conserved if it found it so, or pumps.
 */
module TransferScheduler {
  import opened Basics

  type Key = nat
  type Scope = nat

  /** Tasks are numbered in the order in which they were accepted. */
  type Task = nat

  datatype Lane = Lane(active: bool, pending: int, running: Option<Task>, queue: seq<Task>, scope: Scope)

  datatype Result = Done | Cancelled

  // ---- What lanes hold ----

  function TasksOf(lane: Lane): seq<Task> {
    (if lane.running.Some? then [lane.running.value] else []) + lane.queue
  }

  ghost predicate Rising(tasks: seq<Task>) {
    forall i, j :: 0 <= i < j < |tasks| ==> tasks[i] < tasks[j]
  }

  /** A lane in use holds tasks, counts them, and has them in the order they were accepted. */
  ghost predicate LaneOk(lane: Lane) {
    && lane.active == lane.running.Some?
    && TasksOf(lane) != [] && lane.pending == |TasksOf(lane)|
    && Rising(TasksOf(lane))
  }

  function ActiveKeys(lanes: map<Key, Lane>): set<Key> {
    set k | k in lanes && lanes[k].active
  }

  /** `owed` says for every task that has not settled which lane holds it. */
  ghost predicate Holds(lanes: map<Key, Lane>, owed: map<Task, Key>) {
    && (forall t :: t in owed ==> owed[t] in lanes && t in TasksOf(lanes[owed[t]]))
    && (forall k, t :: k in lanes && t in TasksOf(lanes[k]) ==> t in owed && owed[t] == k)
  }

  /** Every task ever accepted has settled or is owed, never both. */
  ghost predicate NoneLost(next: nat, settled: map<Task, Result>, owed: map<Task, Key>) {
    && settled.Keys !! owed.Keys
    && forall t: Task :: t < next <==> t in settled || t in owed
  }

  ghost predicate AllOk(lanes: map<Key, Lane>) {
    forall k :: k in lanes ==> LaneOk(lanes[k])
  }

  function SetOf(tasks: seq<Task>): set<Task> {
    set t | t in tasks
  }

  lemma {:induction false} Elements(tasks: seq<Task>)
    requires Rising(tasks)
    ensures |SetOf(tasks)| == |tasks|
  {
    if tasks == [] {
      assert SetOf(tasks) == {};
    } else {
      var front, last := tasks[..|tasks| - 1], tasks[|tasks| - 1];
      LastIsNew(tasks);
      Elements(front);
      assert SetOf(tasks) == SetOf(front) + {last};
      assert last !in SetOf(front);
    }
  }

  lemma LastIsNew(tasks: seq<Task>)
    requires Rising(tasks) && tasks != []
    ensures var front, last := tasks[..|tasks| - 1], tasks[|tasks| - 1];
            Rising(front) && last !in front && forall t :: t in tasks <==> t in front || t == last
  {
    assert tasks == tasks[..|tasks| - 1] + [tasks[|tasks| - 1]];
  }

  function Tasks(lanes: map<Key, Lane>, k: Key): seq<Task> {
    if k in lanes then TasksOf(lanes[k]) else []
  }

  /** The same tasks in the same order, and a lane that ran before runs the same task. */
  predicate SameTasks(a: Lane, b: Lane) {
    TasksOf(a) == TasksOf(b) && a.scope == b.scope && a.pending == b.pending && (a.active ==> b == a)
  }

  function Started(lane: Lane): Lane
    requires lane.queue != []
  {
    lane.(active := true, running := Some(lane.queue[0]), queue := lane.queue[1..])
  }

  lemma StartKeeps(lanes: map<Key, Lane>, owed: map<Task, Key>, key: Key)
    requires AllOk(lanes) && Holds(lanes, owed) && key in lanes && !lanes[key].active && lanes[key].queue != []
    ensures var after := lanes[key := Started(lanes[key])];
            && AllOk(after) && Holds(after, owed) && SameTasks(lanes[key], after[key])
            && ActiveKeys(after) == ActiveKeys(lanes) + {key} && key !in ActiveKeys(lanes)
  {
    var after := lanes[key := Started(lanes[key])];
    assert TasksOf(after[key]) == TasksOf(lanes[key]);
    assert LaneOk(lanes[key]);
  }

  // ---- Accepting a task ----

  function Opened(lanes: map<Key, Lane>, key: Key, scope: Scope): Lane {
    if key in lanes then lanes[key] else Lane(false, 0, None, [], scope)
  }

  function Queued(lane: Lane, task: Task): Lane {
    lane.(pending := lane.pending + 1, queue := lane.queue + [task])
  }

  lemma RisingSnoc(tasks: seq<Task>, next: nat)
    requires Rising(tasks) && forall t :: t in tasks ==> t < next
    ensures Rising(tasks + [next])
  {
    forall i | 0 <= i < |tasks|
      ensures tasks[i] < next
    {
      assert tasks[i] in tasks;
    }
  }

  lemma QueuedOk(lanes: map<Key, Lane>, key: Key, scope: Scope, next: nat)
    requires AllOk(lanes) && forall t :: t in Tasks(lanes, key) ==> t < next
    ensures var lane := Queued(Opened(lanes, key, scope), next);
            LaneOk(lane) && TasksOf(lane) == Tasks(lanes, key) + [next]
  {
    var before := Opened(lanes, key, scope);
    assert key in lanes ==> LaneOk(lanes[key]);
    assert TasksOf(before) == Tasks(lanes, key);
    assert TasksOf(Queued(before, next)) == TasksOf(before) + [next];
    RisingSnoc(TasksOf(before), next);
  }

  /** Replacing a lane by one that holds one task more. */
  lemma HoldsMore(lanes: map<Key, Lane>, owed: map<Task, Key>, key: Key, lane: Lane, t: Task)
    requires Holds(lanes, owed) && t !in owed && TasksOf(lane) == Tasks(lanes, key) + [t]
    ensures Holds(lanes[key := lane], owed[t := key])
  {
    hide TasksOf;
    assert forall u :: u in TasksOf(lane) <==> u in Tasks(lanes, key) || u == t;
  }

  lemma OwedBelow(lanes: map<Key, Lane>, next: nat, settled: map<Task, Result>, owed: map<Task, Key>, key: Key)
    requires Holds(lanes, owed) && NoneLost(next, settled, owed)
    ensures next !in owed && forall t :: t in Tasks(lanes, key) ==> t < next
  {
    hide TasksOf;
    forall t | t in Tasks(lanes, key)
      ensures t < next
    {
      assert t in owed;
    }
  }

  lemma QueueKeeps(lanes: map<Key, Lane>, next: nat, settled: map<Task, Result>, owed: map<Task, Key>, key: Key,
                   scope: Scope)
    requires AllOk(lanes) && Holds(lanes, owed) && NoneLost(next, settled, owed)
    ensures var lane := Queued(Opened(lanes, key, scope), next);
            && AllOk(lanes[key := lane]) && Holds(lanes[key := lane], owed[next := key])
            && NoneLost(next + 1, settled, owed[next := key]) && next !in owed
            && TasksOf(lane) == Tasks(lanes, key) + [next]
            && ActiveKeys(lanes[key := lane]) == ActiveKeys(lanes)
  {
    hide LaneOk, TasksOf, Holds;
    OwedBelow(lanes, next, settled, owed, key);
    QueuedOk(lanes, key, scope, next);
    HoldsMore(lanes, owed, key, Queued(Opened(lanes, key, scope), next), next);
  }

  /** One lane holds no more tasks than there are. */
  lemma LanePart(lanes: map<Key, Lane>, owed: map<Task, Key>, key: Key)
    requires AllOk(lanes) && Holds(lanes, owed) && key in lanes
    ensures lanes[key].pending <= |owed|
  {
    hide TasksOf, Rising;
    var tasks := TasksOf(lanes[key]);
    assert LaneOk(lanes[key]);
    Elements(tasks);
    assert SetOf(tasks) <= owed.Keys;
    Part(SetOf(tasks), owed.Keys);
  }

  lemma Part(a: set<Task>, b: set<Task>)
    requires a <= b
    ensures |a| <= |b| && |b - a| == |b| - |a|
  {
    assert b == a + (b - a);
  }

  // ---- Settling ----

  /** The lane after its running task settled, if others wait in it. */
  function Next(lane: Lane): Lane
    requires lane.queue != []
  {
    lane.(pending := lane.pending - 1, running := Some(lane.queue[0]), queue := lane.queue[1..])
  }

  /** A lane lost some of its tasks, or is gone with all of them. */
  lemma HoldsLess(lanes: map<Key, Lane>, owed: map<Task, Key>, key: Key, after: map<Key, Lane>, gone: set<Task>)
    requires Holds(lanes, owed) && key in lanes && gone <= owed.Keys
    requires forall k :: k != key ==> (k in after <==> k in lanes) && (k in lanes ==> after[k] == lanes[k])
    requires forall t :: t in Tasks(after, key) <==> t in Tasks(lanes, key) && t !in gone
    requires forall t :: t in gone ==> t in Tasks(lanes, key)
    ensures Holds(after, owed - gone)
  {
    hide TasksOf;
    assert forall u :: u in gone ==> owed[u] == key;
    forall t | t in owed - gone
      ensures (owed - gone)[t] in after && t in TasksOf(after[(owed - gone)[t]])
    {
      assert owed[t] == key ==> t in Tasks(after, key);
    }
    forall k, t | k in after && t in TasksOf(after[k])
      ensures t in owed - gone && owed[t] == k
    {
      assert k == key ==> t in Tasks(after, key);
    }
  }

  /** A lane's running task comes first and only once. */
  lemma HeadOfLane(lane: Lane)
    requires LaneOk(lane) && lane.active
    ensures lane.running.Some? && TasksOf(lane) == [lane.running.value] + lane.queue
      && lane.running.value !in lane.queue
    ensures Rising(lane.queue)
    ensures forall t :: t in TasksOf(lane) <==> t == lane.running.value || t in lane.queue
  {
    assert forall i :: 0 <= i < |lane.queue| ==> lane.queue[i] == TasksOf(lane)[i + 1];
    assert TasksOf(lane)[0] == lane.running.value;
  }

  lemma NextOk(lane: Lane)
    requires LaneOk(lane) && lane.active && lane.queue != []
    ensures LaneOk(Next(lane)) && TasksOf(Next(lane)) == lane.queue
  {
    HeadOfLane(lane);
    assert TasksOf(Next(lane)) == lane.queue;
  }

  lemma SettleKeeps(lanes: map<Key, Lane>, next: nat, settled: map<Task, Result>, owed: map<Task, Key>, key: Key)
    requires AllOk(lanes) && Holds(lanes, owed) && NoneLost(next, settled, owed) && key in lanes && lanes[key].active
    ensures lanes[key].running.Some?
    ensures var lane := lanes[key];
            var t := lane.running.value;
            var after := if lane.queue != [] then lanes[key := Next(lane)] else lanes - {key};
            && t in owed && t !in settled
            && AllOk(after) && Holds(after, owed - {t}) && NoneLost(next, settled[t := Done], owed - {t})
            && Tasks(lanes, key) == [t] + Tasks(after, key)
            && ActiveKeys(after) == (if lane.queue != [] then ActiveKeys(lanes) else ActiveKeys(lanes) - {key})
            && key in ActiveKeys(lanes)
  {
    hide TasksOf, LaneOk, Holds, Rising;
    var lane := lanes[key];
    HeadOfLane(lane);
    var t := lane.running.value;
    var after := if lane.queue != [] then lanes[key := Next(lane)] else lanes - {key};
    Held(lanes, owed, key, t);
    if lane.queue != [] {
      NextOk(lane);
    }
    HoldsLess(lanes, owed, key, after, {t});
  }

  lemma Held(lanes: map<Key, Lane>, owed: map<Task, Key>, key: Key, t: Task)
    requires Holds(lanes, owed) && key in lanes && t in TasksOf(lanes[key])
    ensures t in owed && owed[t] == key
  {
    hide TasksOf;
  }

  // ---- Cancelling ----

  function Running(lane: Lane): seq<Task> {
    if lane.running.Some? then [lane.running.value] else []
  }

  /** The lane without the tasks that wait in it. */
  function Emptied(lane: Lane): Lane {
    lane.(pending := lane.pending - |lane.queue|, queue := [])
  }

  function Cancel(settled: map<Task, Result>, tasks: seq<Task>): map<Task, Result> {
    settled + (map t | t in tasks :: Cancelled)
  }

  /** What waits in a lane comes after what runs. */
  lemma QueueOfLane(lane: Lane)
    requires LaneOk(lane)
    ensures Rising(lane.queue) && TasksOf(lane) == Running(lane) + lane.queue
    ensures forall t :: t in Running(lane) ==> t !in lane.queue
    ensures lane.active ==> LaneOk(Emptied(lane)) && TasksOf(Emptied(lane)) == Running(lane)
    ensures !lane.active ==> Running(lane) == []
  {
    if lane.active {
      HeadOfLane(lane);
      assert TasksOf(Emptied(lane)) == Running(lane);
    } else {
      assert TasksOf(lane) == lane.queue;
    }
  }

  lemma CancelledNotLost(next: nat, settled: map<Task, Result>, owed: map<Task, Key>, queue: seq<Task>)
    requires NoneLost(next, settled, owed) && forall t :: t in queue ==> t in owed
    ensures NoneLost(next, Cancel(settled, queue), owed - SetOf(queue))
    ensures forall t :: t in queue ==> t !in settled
  {
  }

  lemma CancelKeeps(lanes: map<Key, Lane>, next: nat, settled: map<Task, Result>, owed: map<Task, Key>, key: Key)
    requires AllOk(lanes) && Holds(lanes, owed) && NoneLost(next, settled, owed) && key in lanes
    ensures var lane := lanes[key];
            var gone := SetOf(lane.queue);
            var after := if lane.active then lanes[key := Emptied(lane)] else lanes - {key};
            && gone <= owed.Keys && |gone| == |lane.queue|
            && AllOk(after) && Holds(after, owed - gone) && NoneLost(next, Cancel(settled, lane.queue), owed - gone)
            && Tasks(after, key) == Running(lane)
            && ActiveKeys(after) == ActiveKeys(lanes)
            && forall t :: t in lane.queue ==> t !in settled
  {
    hide TasksOf, LaneOk, Holds, Rising, Running, NoneLost, Cancel;
    var lane := lanes[key];
    QueueOfLane(lane);
    Elements(lane.queue);
    var gone := SetOf(lane.queue);
    var after := if lane.active then lanes[key := Emptied(lane)] else lanes - {key};
    forall t | t in lane.queue
      ensures t in owed && t in Tasks(lanes, key)
    {
      Held(lanes, owed, key, t);
    }
    CancelledNotLost(next, settled, owed, lane.queue);
    HoldsLess(lanes, owed, key, after, gone);
  }

  class KeyedTransferScheduler {
    const maximum: nat
    const maximumPending: nat
    var lanes: map<Key, Lane>
    var ready: seq<Key>
    var active: int
    var pending: int
    /** How many tasks were ever accepted, what became of those that settled, and whose the others are. */
    var next: nat
    ghost var settled: map<Task, Result>
    ghost var owed: map<Task, Key>

    /** The counters are exact, so the source's clamps at zero never act. */
    ghost predicate Sound()
      reads this
    {
      && 1 <= maximum <= maximumPending
      && AllOk(lanes) && Holds(lanes, owed) && NoneLost(next, settled, owed)
      && pending == |owed| <= maximumPending
      && active == |ActiveKeys(lanes)| <= maximum
    }

    /** A lane that is not running is on the list of those to start; other entries of the list may be stale. */
    ghost predicate Listed()
      reads this
    {
      forall k :: k in lanes && !lanes[k].active ==> k in ready
    }

    /** A free slot means that no lane waits. */
    ghost predicate WorkConserving()
      reads this
    {
      active < maximum ==> forall k :: k in lanes ==> lanes[k].active
    }

    ghost predicate Valid()
      reads this
    {
      Sound() && Listed() && WorkConserving()
    }

    constructor (maximum: nat, maximumPending: nat)
      requires 1 <= maximum <= maximumPending
      ensures Valid() && lanes == map[] && next == 0
      ensures this.maximum == maximum && this.maximumPending == maximumPending
    {
      this.maximum, this.maximumPending := maximum, maximumPending;
      lanes, ready, active, pending, next, settled, owed := map[], [], 0, 0, 0, map[], map[];
      new;
      assert ActiveKeys(lanes) == {};
    }

    /** Starts lanes while there are free slots. Starting moves a task from waiting to running, nothing else. */
    method Pump()
      requires Sound() && Listed()
      modifies this`lanes, this`ready, this`active
      ensures Valid()
      ensures lanes.Keys == old(lanes).Keys && forall k :: k in lanes ==> SameTasks(old(lanes)[k], lanes[k])
    {
      hide AllOk, Holds, NoneLost, TasksOf, SameTasks, ActiveKeys;
      AllSame(lanes);
      while active < maximum && ready != []
        invariant Sound() && Listed()
        invariant lanes.Keys == old(lanes).Keys && forall k :: k in lanes ==> SameTasks(old(lanes)[k], lanes[k])
        decreases |ready|
      {
        var key := ready[0];
        ghost var before := ready;
        ready := ready[1..];
        assert before == [key] + ready;
        if key in lanes && !lanes[key].active && lanes[key].queue != [] {
          StartKeeps(lanes, owed, key);
          SameAsBefore(old(lanes)[key], lanes[key], Started(lanes[key]));
          lanes := lanes[key := Started(lanes[key])];
          active := active + 1;
        } else {
          Stale(lanes, key);
        }
      }
    }

    /** Takes a task for a lane, or refuses it and changes nothing. */
    method Enqueue(key: Key, scope: Scope) returns (task: Option<Task>)
      requires Sound() && Listed()
      modifies this
      ensures Sound() && Listed() && (task.Some? || old(WorkConserving()) ==> WorkConserving())
      ensures task == if old(pending) < maximumPending && (key in old(lanes) ==> old(lanes)[key].scope == scope)
        then Some(old(next)) else None
      ensures task.None? ==> unchanged(this)
      ensures task.Some? ==>
        && next == old(next) + 1 && settled == old(settled) && owed == old(owed)[task.value := key]
        && Tasks(lanes, key) == old(Tasks(lanes, key)) + [task.value]
        && forall k :: k != key ==> Tasks(lanes, k) == old(Tasks(lanes, k))
    {
      hide AllOk, Holds, NoneLost, TasksOf, SameTasks, LaneOk;
      if pending >= maximumPending {
        return None;
      }
      var lane := Opened(lanes, key, scope);
      if key in lanes {
        LanePart(lanes, owed, key);
      }
      if lane.scope != scope || lane.pending >= maximumPending {
        return None;
      }
      QueueKeeps(lanes, next, settled, owed, key, scope);
      ghost var grown := lanes[key := Queued(lane, next)];
      if key !in lanes {
        ready := ready + [key];
      }
      task := Some(next);
      lanes := lanes[key := Queued(lane, next)];
      owed := owed[next := key];
      pending := pending + 1;
      next := next + 1;
      Pump();
      SameTasksOverall(grown, lanes);
    }

    /** The running task of a lane finished, well or badly; the lane goes on with its next task or gives up its slot. */
    method Settle(key: Key) returns (task: Task)
      requires Sound() && Listed() && key in lanes && lanes[key].active
      modifies this
      ensures Sound() && Listed() && (old(WorkConserving()) ==> WorkConserving())
      ensures task !in old(settled) && settled == old(settled)[task := Done] && owed == old(owed) - {task}
        && next == old(next)
      ensures old(Tasks(lanes, key)) == [task] + Tasks(lanes, key)
      ensures forall k :: k != key ==> Tasks(lanes, k) == old(Tasks(lanes, k))
    {
      hide AllOk, Holds, NoneLost, Tasks, SameTasks, LaneOk, ActiveKeys, TasksOf;
      SettleKeeps(lanes, next, settled, owed, key);
      var lane := lanes[key];
      task := lane.running.value;
      Part({task}, owed.Keys);
      Part({key}, ActiveKeys(lanes));
      assert (owed - {task}).Keys == owed.Keys - {task};
      settled := settled[task := Done];
      owed := owed - {task};
      pending := Max(0, pending - 1);
      if lane.queue != [] {
        SameElsewhere(lanes, lanes[key := Next(lane)], key);
        lanes := lanes[key := Next(lane)];
      } else {
        SameElsewhere(lanes, lanes - {key}, key);
        lanes := lanes - {key};
        active := Max(0, active - 1);
        ghost var left := lanes;
        Pump();
        SameTasksOverall(left, lanes);
      }
    }

    /** Cancels what waits in the lanes of a scope; what runs goes on. */
    method CancelScope(scope: Scope)
      requires Sound() && Listed()
      modifies this
      ensures Valid() && next == old(next)
      ensures forall k :: Tasks(lanes, k) == if k in old(lanes) && old(lanes)[k].scope == scope
        then Running(old(lanes)[k]) else old(Tasks(lanes, k))
      ensures forall t :: t in old(settled) ==> t in settled && settled[t] == old(settled)[t]
      ensures forall t :: t in settled && t !in old(settled) ==> settled[t] == Cancelled
    {
      hide AllOk, Holds, NoneLost, TasksOf, SameTasks, LaneOk;
      ghost var before := lanes;
      var todo := lanes.Keys;
      while todo != {}
        invariant Sound() && Listed() && todo <= before.Keys
        invariant next == old(next)
        invariant forall k :: k in todo ==> k in lanes && lanes[k] == before[k]
        invariant forall k :: k !in todo ==>
          Tasks(lanes, k) == if k in before && before[k].scope == scope then Running(before[k]) else Tasks(before, k)
        invariant forall t :: t in old(settled) ==> t in settled && settled[t] == old(settled)[t]
        invariant forall t :: t in settled && t !in old(settled) ==> settled[t] == Cancelled
        decreases |todo|
      {
        var key :| key in todo;
        if lanes[key].scope == scope && lanes[key].queue != [] {
          CancelLane(key);
        } else {
          NothingWaits(lanes, key);
        }
        todo := todo - {key};
      }
      ghost var left := lanes;
      Pump();
      SameTasksOverall(left, lanes);
    }

    method CancelLane(key: Key)
      requires Sound() && Listed() && key in lanes && lanes[key].queue != []
      modifies this`lanes, this`pending, this`settled, this`owed
      ensures Sound() && Listed()
      ensures lanes.Keys <= old(lanes).Keys && forall k :: k in old(lanes) && k != key ==>
        k in lanes && lanes[k] == old(lanes)[k]
      ensures Tasks(lanes, key) == Running(old(lanes)[key])
      ensures settled == Cancel(old(settled), old(lanes)[key].queue)
      ensures forall t :: t in old(lanes)[key].queue ==> t !in old(settled)
      ensures next == old(next)
    {
      hide AllOk, Holds, NoneLost, Tasks, LaneOk, Running, Cancel, ActiveKeys;
      CancelKeeps(lanes, next, settled, owed, key);
      var lane := lanes[key];
      ghost var gone := SetOf(lane.queue);
      Part(gone, owed.Keys);
      assert (owed - gone).Keys == owed.Keys - gone;
      settled := Cancel(settled, lane.queue);
      owed := owed - gone;
      pending := Max(0, pending - |lane.queue|);
      if lane.active {
        lanes := lanes[key := Emptied(lane)];
      } else {
        lanes := lanes - {key};
      }
    }
  }

  lemma SameTasksOverall(a: map<Key, Lane>, b: map<Key, Lane>)
    requires a.Keys == b.Keys && forall k :: k in b ==> SameTasks(a[k], b[k])
    ensures forall k :: Tasks(b, k) == Tasks(a, k)
  {
  }

  lemma SameElsewhere(a: map<Key, Lane>, b: map<Key, Lane>, key: Key)
    requires forall k :: k != key ==> (k in a <==> k in b) && (k in a ==> a[k] == b[k])
    ensures forall k :: k != key ==> Tasks(a, k) == Tasks(b, k)
  {
  }

  lemma NothingWaits(lanes: map<Key, Lane>, key: Key)
    ensures key in lanes && lanes[key].queue == [] ==> Tasks(lanes, key) == Running(lanes[key])
  {
  }

  lemma AllSame(lanes: map<Key, Lane>)
    ensures forall k :: k in lanes ==> SameTasks(lanes[k], lanes[k])
  {
  }

  lemma SameAsBefore(a: Lane, b: Lane, c: Lane)
    requires SameTasks(a, b) && SameTasks(b, c) && !b.active
    ensures SameTasks(a, c)
  {
  }

  /** A lane that could not be started is running already. */
  lemma Stale(lanes: map<Key, Lane>, key: Key)
    requires AllOk(lanes) && !(key in lanes && !lanes[key].active && lanes[key].queue != [])
    ensures key in lanes ==> lanes[key].active
  {
    assert key in lanes ==> LaneOk(lanes[key]);
  }
}
