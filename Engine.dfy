/** The conventional optional value. */
module Wrappers {
  datatype Option<+T> = None | Some(value: T)
}

/**
 * The task/progression state machine of the quest page: the task list, the
 * player's experience points and level, and the handlers that change them.
 * Each handler rewrites the task list with a `map`/`filter` over tasks
 * (modelled as pure functions below) and updates the player counters
 * (modelled as the fields of class `Progression`).
 */
module Engine {
  import opened Wrappers

  // ---------------------------------------------------------------------
  // Data model
  // ---------------------------------------------------------------------

  /** Difficulty rank of a task, lowest (E) to highest (S). */
  datatype Rank = E | D | C | B | A | S

  datatype Subtask = Subtask(id: string, title: string, completed: bool)

  /** A task ("dungeon"). `xp` is the reward fixed when the task is created;
      `progress` is a percentage; times are in minutes; `createdAt` is the
      creation clock reading. */
  datatype Task = Task(
    id: string,
    title: string,
    description: string,
    rank: Rank,
    category: string,
    completed: bool,
    xp: nat,
    progress: real,
    subtasks: seq<Subtask>,
    timeSpent: int,
    estimatedTime: int,
    createdAt: int)

  /** The fields the caller supplies when registering a task. */
  datatype TaskInput = TaskInput(title: string, description: string, rank: Rank, category: string)

  /** Experience needed per level. */
  const XpPerLevel: nat := 200

  /** Estimated time (minutes) every new task gets. */
  const DefaultEstimate: int := 60

  // ---------------------------------------------------------------------
  // Rank -> reward table
  // ---------------------------------------------------------------------

  /** Position of a rank in the order E < D < C < B < A < S. */
  function Tier(r: Rank): nat {
    match r
    case E => 0
    case D => 1
    case C => 2
    case B => 3
    case A => 4
    case S => 5
  }

  /** The key under which the reward table stores a rank. */
  function RankKey(r: Rank): string {
    match r
    case E => "e"
    case D => "d"
    case C => "c"
    case B => "b"
    case A => "a"
    case S => "s"
  }

  /** The reward table, looked up by key as the object literal is; a key that
      is not one of its six yields nothing (JavaScript's `undefined`). */
  function RewardForKey(key: string): (r: Option<nat>)
    ensures r.Some? <==> exists rk: Rank :: RankKey(rk) == key
  {
    assert RankKey(E) == "e" && RankKey(D) == "d" && RankKey(C) == "c";
    assert RankKey(B) == "b" && RankKey(A) == "a" && RankKey(S) == "s";
    if key == "e" then Some(10)
    else if key == "d" then Some(25)
    else if key == "c" then Some(50)
    else if key == "b" then Some(100)
    else if key == "a" then Some(200)
    else if key == "s" then Some(500)
    else None
  }

  /** The reward of a rank: the table's entry under the rank's key. */
  function RewardXp(r: Rank): (xp: nat)
    ensures RewardForKey(RankKey(r)) == Some(xp)
    ensures xp >= 10
  {
    match r
    case E => 10
    case D => 25
    case C => 50
    case B => 100
    case A => 200
    case S => 500
  }

  /** A harder rank always pays strictly more. */
  lemma RewardIncreasesWithRank(r1: Rank, r2: Rank)
    requires Tier(r1) < Tier(r2)
    ensures RewardXp(r1) < RewardXp(r2)
  {
  }

  // ---------------------------------------------------------------------
  // Subtasks
  // ---------------------------------------------------------------------

  /** Number of completed subtasks (`subtasks.filter(st => st.completed).length`). */
  function CompletedSubtasks(subs: seq<Subtask>): (n: nat)
    ensures n <= |subs|
    ensures n == 0 <==> forall i :: 0 <= i < |subs| ==> !subs[i].completed
    ensures n == |subs| <==> forall i :: 0 <= i < |subs| ==> subs[i].completed
  {
    if subs == [] then 0
    else (if subs[0].completed then 1 else 0) + CompletedSubtasks(subs[1..])
  }

  /** Appending a subtask adds one to the count exactly when it is completed. */
  lemma {:induction false} CompletedSubtasksAppend(subs: seq<Subtask>, s: Subtask)
    ensures CompletedSubtasks(subs + [s]) == CompletedSubtasks(subs) + (if s.completed then 1 else 0)
  {
    if subs != [] {
      assert (subs + [s])[1..] == subs[1..] + [s];
      CompletedSubtasksAppend(subs[1..], s);
    }
  }

  /** The subtask-derived progress, `completedCount / length * 100`. */
  function SubtaskProgress(subs: seq<Subtask>): (p: real)
    requires |subs| > 0
    ensures 0.0 <= p <= 100.0
    ensures p == 100.0 <==> forall i :: 0 <= i < |subs| ==> subs[i].completed
    ensures p == 0.0 <==> forall i :: 0 <= i < |subs| ==> !subs[i].completed
  {
    var c := CompletedSubtasks(subs);
    FractionBounds(c as real, |subs| as real);
    (c as real / |subs| as real) * 100.0
  }

  /** A part `c` of a positive whole `n`, as a percentage, lies in [0, 100],
      is 100 only for the whole and 0 only for nothing. */
  lemma FractionBounds(c: real, n: real)
    requires 0.0 <= c <= n && n > 0.0
    ensures 0.0 <= (c / n) * 100.0 <= 100.0
    ensures (c / n) * 100.0 == 100.0 <==> c == n
    ensures (c / n) * 100.0 == 0.0 <==> c == 0.0
  {
    assert (c / n) * n == c;
  }

  /** Flips `completed` of every subtask whose id is `sid`, keeping all others. */
  function ToggledSubtasks(subs: seq<Subtask>, sid: string): (r: seq<Subtask>)
    ensures |r| == |subs|
    ensures forall i :: 0 <= i < |subs| ==>
      r[i] == if subs[i].id == sid then subs[i].(completed := !subs[i].completed) else subs[i]
  {
    if subs == [] then []
    else
      var s := subs[0];
      [if s.id == sid then s.(completed := !s.completed) else s] + ToggledSubtasks(subs[1..], sid)
  }

  /** Toggling the same subtask twice gives back the original list. */
  lemma {:induction false} ToggleSubtaskTwice(subs: seq<Subtask>, sid: string)
    ensures ToggledSubtasks(ToggledSubtasks(subs, sid), sid) == subs
  {
    if subs != [] {
      ToggleSubtaskTwice(subs[1..], sid);
    }
  }

  /** Subtask ids of a list are pairwise distinct. */
  predicate DistinctSubtaskIds(subs: seq<Subtask>) {
    forall i, j :: 0 <= i < j < |subs| ==> subs[i].id != subs[j].id
  }

  /** Some subtask in the list has this id. */
  predicate HasSubtaskId(subs: seq<Subtask>, sid: string) {
    exists j :: 0 <= j < |subs| && subs[j].id == sid
  }

  /** Appending a subtask under a fresh id keeps the ids distinct. */
  lemma AppendFreshKeepsDistinct(subs: seq<Subtask>, s: Subtask)
    requires DistinctSubtaskIds(subs) && !HasSubtaskId(subs, s.id)
    ensures DistinctSubtaskIds(subs + [s])
  {
    var r := subs + [s];
    forall i, j | 0 <= i < j < |r| ensures r[i].id != r[j].id {
      assert r[i] == subs[i];
    }
  }

  /** Toggling a subtask whose id occurs once moves the completed count by one:
      up when it was open, down when it was done. */
  lemma {:induction false} ToggleSubtaskCount(subs: seq<Subtask>, k: nat)
    requires k < |subs| && DistinctSubtaskIds(subs)
    ensures CompletedSubtasks(ToggledSubtasks(subs, subs[k].id)) ==
            if subs[k].completed then CompletedSubtasks(subs) - 1 else CompletedSubtasks(subs) + 1
  {
    var sid := subs[k].id;
    var r := ToggledSubtasks(subs, sid);
    if k == 0 {
      assert forall i :: 0 <= i < |subs| - 1 ==> subs[1..][i].id != sid;
      assert ToggledSubtasks(subs[1..], sid) == subs[1..];
      assert r[1..] == ToggledSubtasks(subs[1..], sid);
    } else {
      ToggleSubtaskCount(subs[1..], k - 1);
      assert r[1..] == ToggledSubtasks(subs[1..], sid);
    }
  }

  /** Toggling a subtask whose id occurs once moves the derived progress by
      one share, `100 / length`: up when it was open, down when it was done. */
  lemma ToggleSubtaskProgressStep(subs: seq<Subtask>, k: nat)
    requires k < |subs| && DistinctSubtaskIds(subs)
    ensures var share := 100.0 / |subs| as real;
      SubtaskProgress(ToggledSubtasks(subs, subs[k].id)) ==
        if subs[k].completed then SubtaskProgress(subs) - share else SubtaskProgress(subs) + share
  {
    var toggled := ToggledSubtasks(subs, subs[k].id);
    ToggleSubtaskCount(subs, k);
    var c, c', n := CompletedSubtasks(subs) as real, CompletedSubtasks(toggled) as real, |subs| as real;
    assert SubtaskProgress(subs) == (c / n) * 100.0;
    assert SubtaskProgress(toggled) == (c' / n) * 100.0;
    assert c' == if subs[k].completed then c - 1.0 else c + 1.0;
    OneShare(c, n);
  }

  /** One more (or one fewer) out of `n` is `100 / n` percentage points. */
  lemma OneShare(c: real, n: real)
    requires n > 0.0
    ensures ((c + 1.0) / n) * 100.0 == (c / n) * 100.0 + 100.0 / n
    ensures ((c - 1.0) / n) * 100.0 == (c / n) * 100.0 - 100.0 / n
  {
    assert (c + 1.0) / n == c / n + 1.0 / n;
    assert (c - 1.0) / n == c / n - 1.0 / n;
  }

  // ---------------------------------------------------------------------
  // Per-task rewrites (the object spreads inside the handlers' `map`)
  // ---------------------------------------------------------------------

  /** The task `addTask` builds from the caller's fields. */
  function NewTask(input: TaskInput, id: string, now: int): (t: Task)
    ensures t.id == id && t.createdAt == now
    ensures t.title == input.title && t.description == input.description
    ensures t.rank == input.rank && t.category == input.category
    ensures t.xp == RewardXp(input.rank) && !t.completed && t.progress == 0.0
    ensures t.subtasks == [] && t.timeSpent == 0 && t.estimatedTime == DefaultEstimate
  {
    Task(id, input.title, input.description, input.rank, input.category,
         false, RewardXp(input.rank), 0.0, [], 0, DefaultEstimate, now)
  }

  /** The rewrite `toggleTaskComplete` applies to the matching task: an open
      task is completed at 100%; a completed one is reopened with its progress
      recomputed from its subtasks, or raised to at least 50% without them. */
  function ToggledCompletion(t: Task): (r: Task)
    ensures r.completed == !t.completed
    ensures r == t.(completed := r.completed, progress := r.progress)
    ensures r.completed ==> r.progress == 100.0
    ensures !r.completed && |t.subtasks| > 0 ==> r.progress == SubtaskProgress(t.subtasks)
    ensures !r.completed && |t.subtasks| == 0 ==>
      r.progress >= 50.0 && r.progress >= t.progress && (r.progress == 50.0 || r.progress == t.progress)
  {
    if !t.completed then t.(completed := true, progress := 100.0)
    else
      t.(completed := false,
         progress := if |t.subtasks| > 0 then SubtaskProgress(t.subtasks)
                     else if t.progress > 50.0 then t.progress else 50.0)
  }

  /** Completing and then reopening a task without subtasks does not give its
      progress back: it stays at 100%. */
  lemma CompleteReopenLosesProgress(t: Task)
    requires !t.completed && t.subtasks == []
    ensures ToggledCompletion(ToggledCompletion(t)) == t.(progress := 100.0)
  {
  }

  /** Completing and then reopening a task with subtasks leaves its progress
      at the subtask-derived value, whatever it was before. */
  lemma CompleteReopenRederivesProgress(t: Task)
    requires !t.completed && |t.subtasks| > 0
    ensures ToggledCompletion(ToggledCompletion(t)) == t.(progress := SubtaskProgress(t.subtasks))
  {
  }

  /** `updateTaskProgress`: the value is stored as given, neither clamped nor
      refused when the task has subtasks. */
  function WithProgress(t: Task, p: real): (r: Task)
    ensures r.progress == p && r.(progress := t.progress) == t
  {
    t.(progress := p)
  }

  /** `addSubtask`: a new open subtask goes last; progress is not recomputed. */
  function WithNewSubtask(t: Task, sid: string, title: string): (r: Task)
    ensures |r.subtasks| == |t.subtasks| + 1 && r.subtasks[..|t.subtasks|] == t.subtasks
    ensures r.subtasks[|t.subtasks|] == Subtask(sid, title, false)
    ensures CompletedSubtasks(r.subtasks) == CompletedSubtasks(t.subtasks)
    ensures r.(subtasks := t.subtasks) == t
  {
    CompletedSubtasksAppend(t.subtasks, Subtask(sid, title, false));
    t.(subtasks := t.subtasks + [Subtask(sid, title, false)])
  }

  /** Because `addSubtask` keeps the old progress, a task whose progress was
      derived from partly completed subtasks no longer matches its subtasks. */
  lemma AddSubtaskLeavesProgressStale(t: Task, sid: string, title: string)
    requires |t.subtasks| > 0 && CompletedSubtasks(t.subtasks) > 0
    requires t.progress == SubtaskProgress(t.subtasks)
    ensures WithNewSubtask(t, sid, title).progress > SubtaskProgress(WithNewSubtask(t, sid, title).subtasks)
  {
    var s := Subtask(sid, title, false);
    CompletedSubtasksAppend(t.subtasks, s);
    var c, n := CompletedSubtasks(t.subtasks) as real, |t.subtasks| as real;
    assert |t.subtasks + [s]| as real == n + 1.0;
    SmallerShare(c, n);
  }

  /** A positive amount shared among one more gives each a smaller part. */
  lemma SmallerShare(c: real, n: real)
    requires c > 0.0 && n > 0.0
    ensures (c / (n + 1.0)) * 100.0 < (c / n) * 100.0
  {
    var a, b := c / (n + 1.0), c / n;
    assert a * (n + 1.0) == c;
    assert b * n == c;
  }

  /** `toggleSubtask`: flip the subtask and recompute progress from the list;
      `completed` of the task is left alone. */
  function WithSubtaskToggled(t: Task, sid: string): (r: Task)
    requires |t.subtasks| > 0
    ensures r.completed == t.completed && 0.0 <= r.progress <= 100.0
  {
    var subs := ToggledSubtasks(t.subtasks, sid);
    t.(subtasks := subs, progress := SubtaskProgress(subs))
  }

  /** `addTimeToTask`: add the minutes to the time spent. */
  function WithTimeAdded(t: Task, minutes: int): (r: Task)
    ensures r.timeSpent - t.timeSpent == minutes && r.(timeSpent := t.timeSpent) == t
  {
    t.(timeSpent := t.timeSpent + minutes)
  }

  // ---------------------------------------------------------------------
  // The task list
  // ---------------------------------------------------------------------

  /** Some task in the list has this id. */
  predicate HasId(tasks: seq<Task>, id: string) {
    exists i :: 0 <= i < |tasks| && tasks[i].id == id
  }

  /** Task ids are pairwise distinct. */
  predicate UniqueIds(tasks: seq<Task>) {
    forall i, j :: 0 <= i < j < |tasks| ==> tasks[i].id != tasks[j].id
  }

  /** Position of the first task with this id. */
  function IndexOf(tasks: seq<Task>, id: string): (k: Option<nat>)
    ensures k.None? <==> !HasId(tasks, id)
    ensures k.Some? ==> k.value < |tasks| && tasks[k.value].id == id
    ensures k.Some? ==> forall i :: 0 <= i < k.value ==> tasks[i].id != id
  {
    if tasks == [] then None
    else if tasks[0].id == id then Some(0)
    else match IndexOf(tasks[1..], id)
      case None => None
      case Some(j) => Some(j + 1)
  }

  /** `tasks.map(task => task.id === id ? f(task) : task)`. */
  function MapMatching(tasks: seq<Task>, id: string, f: Task --> Task): (r: seq<Task>)
    requires forall t :: t in tasks && t.id == id ==> f.requires(t)
    ensures |r| == |tasks|
    ensures forall i :: 0 <= i < |tasks| ==>
      r[i] == if tasks[i].id == id then f(tasks[i]) else tasks[i]
  {
    if tasks == [] then []
    else [if tasks[0].id == id then f(tasks[0]) else tasks[0]] + MapMatching(tasks[1..], id, f)
  }

  /** With distinct ids, rewriting the matching tasks rewrites exactly the one
      at the found index; an unknown id changes nothing. */
  lemma MapMatchingIsUpdate(tasks: seq<Task>, id: string, f: Task --> Task)
    requires UniqueIds(tasks)
    requires forall t :: t in tasks && t.id == id ==> f.requires(t)
    ensures IndexOf(tasks, id).None? ==> MapMatching(tasks, id, f) == tasks
    ensures IndexOf(tasks, id).Some? ==>
      var k := IndexOf(tasks, id).value;
      MapMatching(tasks, id, f) == tasks[k := f(tasks[k])]
  {
  }

  /** A rewrite that keeps ids keeps them distinct. */
  lemma MapMatchingKeepsUniqueIds(tasks: seq<Task>, id: string, f: Task --> Task)
    requires UniqueIds(tasks)
    requires forall t :: t in tasks && t.id == id ==> f.requires(t) && f(t).id == t.id
    ensures UniqueIds(MapMatching(tasks, id, f))
  {
    var r := MapMatching(tasks, id, f);
    forall i, j | 0 <= i < j < |r| ensures r[i].id != r[j].id {
      assert r[i].id == tasks[i].id && r[j].id == tasks[j].id;
    }
  }

  /** A rewrite that keeps each matching task's subtask ids distinct keeps
      them distinct in every task. */
  lemma MapMatchingKeepsSubtaskIds(tasks: seq<Task>, id: string, f: Task --> Task)
    requires SubtaskIdsDistinct(tasks)
    requires forall t :: t in tasks && t.id == id ==> f.requires(t)
    requires forall t :: t in tasks && t.id == id ==> DistinctSubtaskIds(f(t).subtasks)
    ensures SubtaskIdsDistinct(MapMatching(tasks, id, f))
  {
    var r := MapMatching(tasks, id, f);
    forall t | t in r ensures DistinctSubtaskIds(t.subtasks) {
      var i :| 0 <= i < |r| && r[i] == t;
      assert tasks[i] in tasks;
    }
  }

  /** `tasks.filter(task => task.id !== id)`. */
  function Without(tasks: seq<Task>, id: string): (r: seq<Task>)
    ensures |r| <= |tasks|
    ensures forall i :: 0 <= i < |r| ==> r[i].id != id
    ensures forall t :: t in r ==> t in tasks
  {
    if tasks == [] then []
    else if tasks[0].id == id then Without(tasks[1..], id)
    else [tasks[0]] + Without(tasks[1..], id)
  }

  /** With distinct ids, deleting removes exactly the task at the found index
      and keeps the others in order. */
  lemma {:induction false} WithoutRemovesOne(tasks: seq<Task>, id: string)
    requires UniqueIds(tasks) && HasId(tasks, id)
    ensures var k := IndexOf(tasks, id).value;
      Without(tasks, id) == tasks[..k] + tasks[k + 1..]
  {
    var tail := tasks[1..];
    var k := IndexOf(tasks, id).value;
    UniqueIdsTail(tasks);
    if tasks[0].id == id {
      assert k == 0;
      WithoutAbsent(tail, id);
      assert Without(tasks, id) == Without(tail, id);
      assert tasks[..k] + tasks[k + 1..] == tail;
    } else {
      assert tail[k - 1].id == id;
      var j := IndexOf(tail, id).value;
      assert k == j + 1;
      WithoutRemovesOne(tail, id);
      assert Without(tasks, id) == [tasks[0]] + Without(tail, id);
      assert tasks[..j + 1] == [tasks[0]] + tail[..j];
      assert tasks[j + 2..] == tail[j + 1..];
    }
  }

  /** The tasks after the first still have distinct ids, none equal to the first's. */
  lemma UniqueIdsTail(tasks: seq<Task>)
    requires UniqueIds(tasks) && tasks != []
    ensures UniqueIds(tasks[1..]) && !HasId(tasks[1..], tasks[0].id)
  {
    var tail := tasks[1..];
    forall i | 0 <= i < |tail| ensures tail[i].id != tasks[0].id {
      assert tail[i] == tasks[i + 1];
    }
    forall i, j | 0 <= i < j < |tail| ensures tail[i].id != tail[j].id {
      assert tail[i] == tasks[i + 1] && tail[j] == tasks[j + 1];
    }
  }

  /** Filtering out an id no task has changes nothing. */
  lemma {:induction false} WithoutAbsent(tasks: seq<Task>, id: string)
    requires !HasId(tasks, id)
    ensures Without(tasks, id) == tasks
  {
    if tasks != [] {
      assert tasks[0].id != id;
      assert !HasId(tasks[1..], id) by {
        forall i | 0 <= i < |tasks| - 1 ensures tasks[1..][i].id != id {
          assert tasks[1..][i] == tasks[i + 1];
        }
      }
      WithoutAbsent(tasks[1..], id);
      assert [tasks[0]] + tasks[1..] == tasks;
    }
  }

  /** Deleting keeps ids distinct. */
  lemma WithoutKeepsUniqueIds(tasks: seq<Task>, id: string)
    requires UniqueIds(tasks)
    ensures UniqueIds(Without(tasks, id))
  {
    match IndexOf(tasks, id)
    case None =>
      WithoutAbsent(tasks, id);
    case Some(k) =>
      WithoutRemovesOne(tasks, id);
      RemoveAtKeepsUniqueIds(tasks, k);
  }

  /** Dropping one task keeps the others' ids distinct. */
  lemma RemoveAtKeepsUniqueIds(tasks: seq<Task>, k: nat)
    requires UniqueIds(tasks) && k < |tasks|
    ensures UniqueIds(tasks[..k] + tasks[k + 1..])
  {
    var r := tasks[..k] + tasks[k + 1..];
    forall i, j | 0 <= i < j < |r| ensures r[i].id != r[j].id {
      var i', j' := if i < k then i else i + 1, if j < k then j else j + 1;
      assert r[i] == tasks[i'] && r[j] == tasks[j'];
    }
  }

  /** The tasks still open (`tasks.filter(task => !task.completed)`). */
  function ActiveTasks(tasks: seq<Task>): (r: seq<Task>)
    ensures forall t :: t in r <==> t in tasks && !t.completed
  {
    if tasks == [] then []
    else (if tasks[0].completed then [] else [tasks[0]]) + ActiveTasks(tasks[1..])
  }

  /** The tasks cleared (`tasks.filter(task => task.completed)`). */
  function ClearedTasks(tasks: seq<Task>): (r: seq<Task>)
    ensures forall t :: t in r <==> t in tasks && t.completed
  {
    if tasks == [] then []
    else (if tasks[0].completed then [tasks[0]] else []) + ClearedTasks(tasks[1..])
  }

  /** The active tab keeps the list's order: filtering a concatenation is
      concatenating the filtered parts. */
  lemma {:induction false} ActiveTasksAppend(a: seq<Task>, b: seq<Task>)
    ensures ActiveTasks(a + b) == ActiveTasks(a) + ActiveTasks(b)
  {
    if a == [] {
      assert a + b == b;
    } else {
      assert (a + b)[1..] == a[1..] + b;
      ActiveTasksAppend(a[1..], b);
    }
  }

  /** The cleared tab keeps the list's order in the same way. */
  lemma {:induction false} ClearedTasksAppend(a: seq<Task>, b: seq<Task>)
    ensures ClearedTasks(a + b) == ClearedTasks(a) + ClearedTasks(b)
  {
    if a == [] {
      assert a + b == b;
    } else {
      assert (a + b)[1..] == a[1..] + b;
      ClearedTasksAppend(a[1..], b);
    }
  }

  /** The two tabs together list every task once: their sizes add up to the
      number of tasks. */
  lemma {:induction false} ActiveClearedPartition(tasks: seq<Task>)
    ensures |ActiveTasks(tasks)| + |ClearedTasks(tasks)| == |tasks|
  {
    if tasks != [] {
      ActiveClearedPartition(tasks[1..]);
    }
  }

  /** Every task is cleared exactly when the cleared tab holds them all. */
  lemma {:induction false} AllClearedIff(tasks: seq<Task>)
    ensures |ClearedTasks(tasks)| <= |tasks|
    ensures |ClearedTasks(tasks)| == |tasks| <==> forall i :: 0 <= i < |tasks| ==> tasks[i].completed
  {
    if tasks != [] {
      AllClearedIff(tasks[1..]);
      if forall i :: 0 <= i < |tasks| - 1 ==> tasks[1..][i].completed {
        assert forall i :: 1 <= i < |tasks| ==> tasks[i].completed by {
          forall i | 1 <= i < |tasks| ensures tasks[i].completed {
            assert tasks[i] == tasks[1..][i - 1];
          }
        }
      } else {
        var i :| 0 <= i < |tasks| - 1 && !tasks[1..][i].completed;
        assert !tasks[i + 1].completed;
      }
    }
  }

  /** Within every task, subtask ids are pairwise distinct. */
  predicate SubtaskIdsDistinct(tasks: seq<Task>) {
    forall t :: t in tasks ==> DistinctSubtaskIds(t.subtasks)
  }

  /** The built-in tasks a fresh profile starts with. */
  function SeedTasks(now: int): (r: seq<Task>)
    ensures |r| == 2 && UniqueIds(r) && SubtaskIdsDistinct(r)
    ensures forall t :: t in r ==> !t.completed && t.createdAt == now
  {
    [ Task("1", "Master Advanced React Patterns",
           "Complete comprehensive training in React development",
           B, "Knowledge Dungeon", false, 100, 60.0,
           [ Subtask("1-1", "Study Hooks Architecture", true),
             Subtask("1-2", "Implement Context Patterns", true),
             Subtask("1-3", "Master Performance Optimization", false),
             Subtask("1-4", "Build Advanced Demo Project", false) ],
           120, 180, now),
      Task("2", "Daily Combat Training",
           "Physical conditioning and strength enhancement",
           C, "Training Ground", false, 50, 0.0, [], 0, 45, now) ]
  }

  /** The first seed task stores 60% although two of its four subtasks are
      done, which derives 50%: the seed data is not subtask-consistent. */
  lemma SeedProgressDisagreesWithSubtasks(now: int)
    ensures var t := SeedTasks(now)[0];
      t.progress == 60.0 && SubtaskProgress(t.subtasks) == 50.0
  {
    var subs := SeedTasks(now)[0].subtasks;
    assert CompletedSubtasks(subs) == 2 by {
      assert subs[1..][1..][1..][1..] == [];
    }
  }

  // ---------------------------------------------------------------------
  // Experience and level
  // ---------------------------------------------------------------------

  /** `Math.floor(xp / 200) + 1` (Dafny's division by a positive number
      rounds down like `Math.floor`). */
  function LevelFor(xp: int): (l: int)
    ensures (l - 1) * XpPerLevel <= xp < l * XpPerLevel
    ensures xp >= 0 ==> l >= 1
  {
    xp / XpPerLevel + 1
  }

  /** More experience never means a lower level. */
  lemma LevelForMonotone(x: int, y: int)
    requires x <= y
    ensures LevelFor(x) <= LevelFor(y)
  {
  }

  /** The player's experience and level. */
  datatype Standing = Standing(xp: int, level: int)

  /** What every handler keeps: experience is never negative and the level is
      never below the one the experience implies (so it is at least 1). */
  predicate Consistent(s: Standing) {
    s.xp >= 0 && s.level >= LevelFor(s.xp)
  }

  /** Completing a task: the reward is added; the level moves to the one the
      new total implies only when that is higher. */
  function Award(s: Standing, reward: nat): (r: Standing)
    ensures r.xp == s.xp + reward
    ensures r.level >= s.level && r.level >= LevelFor(r.xp)
    ensures r.level == s.level || r.level == LevelFor(r.xp)
  {
    var xp := s.xp + reward;
    Standing(xp, if LevelFor(xp) > s.level then LevelFor(xp) else s.level)
  }

  /** The level-up notice fires for this completion. */
  function LevelsUp(s: Standing, reward: nat): (up: bool)
    ensures up <==> Award(s, reward).level > s.level
  {
    LevelFor(s.xp + reward) > s.level
  }

  /** Reopening a task: the reward is taken back, but never below zero; the
      level is left as it is. */
  function Revoke(s: Standing, reward: nat): (r: Standing)
    ensures r.level == s.level
    ensures s.xp >= reward ==> r.xp == s.xp - reward
    ensures s.xp <= reward ==> r.xp == 0
  {
    Standing(if s.xp - reward > 0 then s.xp - reward else 0, s.level)
  }

  /** Awarding keeps the standing consistent, adds exactly the reward, never
      lowers the level, and raises it (to exactly the implied level) precisely
      when the level-up notice fires. */
  lemma AwardKeepsConsistent(s: Standing, reward: nat)
    requires Consistent(s)
    ensures var r := Award(s, reward);
      && Consistent(r)
      && r.xp == s.xp + reward
      && r.level >= s.level
      && (LevelsUp(s, reward) <==> r.level > s.level)
      && (LevelsUp(s, reward) ==> r.level == LevelFor(r.xp))
  {
  }

  /** Revoking keeps the standing consistent and the level unchanged. */
  lemma RevokeKeepsConsistent(s: Standing, reward: nat)
    requires Consistent(s)
    ensures var r := Revoke(s, reward);
      && Consistent(r)
      && r.level == s.level
      && r.xp <= s.xp
      && (s.xp >= reward ==> r.xp == s.xp - reward)
      && (s.xp <= reward ==> r.xp == 0)
  {
    LevelForMonotone(Revoke(s, reward).xp, s.xp);
  }

  /** Completing and reopening the same task restores the experience exactly
      but keeps any level gained. */
  lemma AwardRevokeRoundTrip(s: Standing, reward: nat)
    requires Consistent(s)
    ensures Revoke(Award(s, reward), reward).xp == s.xp
    ensures Revoke(Award(s, reward), reward).level >= s.level
  {
  }

  /** A rank-B task completed at 150 XP, level 1: 250 XP, level 2, with the
      level-up notice. */
  lemma RankBCompletionLevelsUp()
    ensures Award(Standing(150, 1), RewardXp(B)) == Standing(250, 2)
    ensures LevelsUp(Standing(150, 1), RewardXp(B))
  {
  }

  // ---------------------------------------------------------------------
  // The page state
  // ---------------------------------------------------------------------

  /** The page's task list and player counters. `streak` is loaded and shown
      but no handler changes it. */
  class Progression {
    var tasks: seq<Task>
    var xp: int
    var level: int
    var streak: int

    ghost predicate Valid()
      reads this
    {
      Consistent(Standing(xp, level)) && UniqueIds(tasks) && SubtaskIdsDistinct(tasks) && streak >= 0
    }

    /** A fresh profile: the seed tasks, level 1, no experience, no streak. */
    constructor (now: int)
      ensures Valid()
      ensures tasks == SeedTasks(now) && xp == 0 && level == 1 && streak == 0
    {
      tasks := SeedTasks(now);
      xp, level, streak := 0, 1, 0;
    }

    /** `completedTasks`: how many tasks are cleared. */
    function CompletedCount(): (n: nat)
      reads this
      ensures n <= |tasks|
    {
      ActiveClearedPartition(tasks);
      |ClearedTasks(tasks)|
    }

    /** `addTask`: the new task, with its rank's reward, goes in front. */
    method AddTask(input: TaskInput, id: string, now: int)
      requires Valid() && !HasId(tasks, id)
      modifies this
      ensures Valid()
      ensures tasks == [NewTask(input, id, now)] + old(tasks)
      ensures xp == old(xp) && level == old(level) && streak == old(streak)
    {
      tasks := [NewTask(input, id, now)] + tasks;
      forall i, j | 0 <= i < j < |tasks| ensures tasks[i].id != tasks[j].id {
        if i > 0 {
          assert tasks[i] == old(tasks)[i - 1] && tasks[j] == old(tasks)[j - 1];
        } else {
          assert tasks[j] == old(tasks)[j - 1];
        }
      }
    }

    /** `toggleTaskComplete`: an open task is completed and pays its reward,
        possibly raising the level (`leveledUp` is the level-up notice); a
        completed task is reopened and its reward taken back, floored at zero,
        without touching the level. An unknown id changes nothing. */
    method ToggleTaskComplete(id: string) returns (leveledUp: bool)
      requires Valid()
      modifies this
      ensures Valid()
      ensures tasks == MapMatching(old(tasks), id, ToggledCompletion)
      ensures match IndexOf(old(tasks), id)
        case None => tasks == old(tasks) && xp == old(xp) && level == old(level) && !leveledUp
        case Some(k) =>
          var s, t := Standing(old(xp), old(level)), old(tasks)[k];
          && tasks == old(tasks)[k := ToggledCompletion(t)]
          && (!t.completed ==> Standing(xp, level) == Award(s, t.xp) && leveledUp == LevelsUp(s, t.xp))
          && (t.completed ==> Standing(xp, level) == Revoke(s, t.xp) && !leveledUp)
      ensures level >= old(level) && streak == old(streak)
    {
      var before := Standing(xp, level);
      leveledUp := false;
      match IndexOf(tasks, id)
      case None =>
      case Some(k) =>
        var t := tasks[k];
        if !t.completed {
          AwardKeepsConsistent(before, t.xp);
          leveledUp := LevelsUp(before, t.xp);
          var after := Award(before, t.xp);
          xp, level := after.xp, after.level;
        } else {
          RevokeKeepsConsistent(before, t.xp);
          xp := Revoke(before, t.xp).xp;
        }
      MapMatchingIsUpdate(tasks, id, ToggledCompletion);
      MapMatchingKeepsUniqueIds(tasks, id, ToggledCompletion);
      tasks := MapMatching(tasks, id, ToggledCompletion);
    }

    /** `updateTaskProgress`: the matching task's progress becomes the given
        value; nothing else changes. */
    method UpdateTaskProgress(id: string, p: real)
      requires Valid()
      modifies this
      ensures Valid()
      ensures tasks == MapMatching(old(tasks), id, t => WithProgress(t, p))
      ensures match IndexOf(old(tasks), id)
        case None => tasks == old(tasks)
        case Some(k) => tasks == old(tasks)[k := old(tasks)[k].(progress := p)]
      ensures xp == old(xp) && level == old(level) && streak == old(streak)
    {
      MapMatchingIsUpdate(tasks, id, t => WithProgress(t, p));
      MapMatchingKeepsUniqueIds(tasks, id, t => WithProgress(t, p));
      tasks := MapMatching(tasks, id, t => WithProgress(t, p));
    }

    /** `addSubtask`: an open subtask goes last in the matching task; its
        progress and every other field stay as they were. */
    method AddSubtask(id: string, sid: string, title: string)
      requires Valid()
      requires forall t :: t in tasks && t.id == id ==> !HasSubtaskId(t.subtasks, sid)
      modifies this
      ensures Valid()
      ensures tasks == MapMatching(old(tasks), id, t => WithNewSubtask(t, sid, title))
      ensures match IndexOf(old(tasks), id)
        case None => tasks == old(tasks)
        case Some(k) =>
          var t := old(tasks)[k];
          tasks == old(tasks)[k := t.(subtasks := t.subtasks + [Subtask(sid, title, false)])]
      ensures xp == old(xp) && level == old(level) && streak == old(streak)
    {
      MapMatchingIsUpdate(tasks, id, t => WithNewSubtask(t, sid, title));
      MapMatchingKeepsUniqueIds(tasks, id, t => WithNewSubtask(t, sid, title));
      forall t | t in tasks && t.id == id
        ensures DistinctSubtaskIds(WithNewSubtask(t, sid, title).subtasks)
      {
        AppendFreshKeepsDistinct(t.subtasks, Subtask(sid, title, false));
      }
      MapMatchingKeepsSubtaskIds(tasks, id, t => WithNewSubtask(t, sid, title));
      tasks := MapMatching(tasks, id, t => WithNewSubtask(t, sid, title));
    }

    /** `toggleSubtask`: flips the matching subtasks and recomputes the task's
        progress from them, leaving the task's own `completed` alone. */
    method ToggleSubtask(id: string, sid: string)
      requires Valid()
      requires forall t :: t in tasks && t.id == id ==> |t.subtasks| > 0
      modifies this
      ensures Valid()
      ensures tasks == MapMatching(old(tasks), id, (t: Task) requires |t.subtasks| > 0 => WithSubtaskToggled(t, sid))
      ensures match IndexOf(old(tasks), id)
        case None => tasks == old(tasks)
        case Some(k) =>
          var t, subs := old(tasks)[k], ToggledSubtasks(old(tasks)[k].subtasks, sid);
          && tasks == old(tasks)[k := t.(subtasks := subs, progress := SubtaskProgress(subs))]
          && tasks[k].completed == t.completed
          && 0.0 <= tasks[k].progress <= 100.0
          && forall j :: 0 <= j < |t.subtasks| && t.subtasks[j].id == sid ==>
               var share := 100.0 / |t.subtasks| as real;
               tasks[k].progress ==
                 if t.subtasks[j].completed then SubtaskProgress(t.subtasks) - share
                 else SubtaskProgress(t.subtasks) + share
      ensures xp == old(xp) && level == old(level) && streak == old(streak)
    {
      var f := (t: Task) requires |t.subtasks| > 0 => WithSubtaskToggled(t, sid);
      match IndexOf(tasks, id)
      case None =>
      case Some(k) =>
        var subs := tasks[k].subtasks;
        assert tasks[k] in tasks;
        forall j | 0 <= j < |subs| && subs[j].id == sid
          ensures var share := 100.0 / |subs| as real;
            SubtaskProgress(ToggledSubtasks(subs, sid)) ==
              if subs[j].completed then SubtaskProgress(subs) - share else SubtaskProgress(subs) + share
        {
          ToggleSubtaskProgressStep(subs, j);
        }
      MapMatchingIsUpdate(tasks, id, f);
      MapMatchingKeepsUniqueIds(tasks, id, f);
      tasks := MapMatching(tasks, id, f);
    }

    /** `addTimeToTask`: the minutes are added to the matching task's time
        spent; nothing else changes. */
    method AddTimeToTask(id: string, minutes: int)
      requires Valid()
      modifies this
      ensures Valid()
      ensures tasks == MapMatching(old(tasks), id, t => WithTimeAdded(t, minutes))
      ensures match IndexOf(old(tasks), id)
        case None => tasks == old(tasks)
        case Some(k) =>
          var t := old(tasks)[k];
          tasks == old(tasks)[k := WithTimeAdded(t, minutes)] && tasks[k].timeSpent == t.timeSpent + minutes
      ensures xp == old(xp) && level == old(level) && streak == old(streak)
    {
      MapMatchingIsUpdate(tasks, id, t => WithTimeAdded(t, minutes));
      MapMatchingKeepsUniqueIds(tasks, id, t => WithTimeAdded(t, minutes));
      tasks := MapMatching(tasks, id, t => WithTimeAdded(t, minutes));
    }

    /** `deleteTask`: the matching task goes, the rest keep their order, and
        the experience it paid is kept. */
    method DeleteTask(id: string)
      requires Valid()
      modifies this
      ensures Valid()
      ensures tasks == Without(old(tasks), id)
      ensures match IndexOf(old(tasks), id)
        case None => tasks == old(tasks)
        case Some(k) => tasks == old(tasks)[..k] + old(tasks)[k + 1..]
      ensures xp == old(xp) && level == old(level) && streak == old(streak)
    {
      if HasId(tasks, id) {
        WithoutRemovesOne(tasks, id);
      } else {
        WithoutAbsent(tasks, id);
      }
      WithoutKeepsUniqueIds(tasks, id);
      tasks := Without(tasks, id);
    }
  }
}
