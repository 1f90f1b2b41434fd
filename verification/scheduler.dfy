/** The per-guild playback scheduler, `MusicPlayer` and its `player_loop`,
    as an explicit state record stepped by events. Each event is one thing
    the environment can make happen next: the play command enqueues, the
    queue hands out an item or the 100-second timeout expires, the voice
    transport calls an item's `after` callback, the loop returns from
    `next.wait()`, or a spawned task finishes. Presence updates and channel
    messages are external and not modelled. */
module Scheduler {
  import opened Wrappers
  import Voice
  import Resolver

  type Item = Resolver.AudioSource

  type TaskId = nat

  /** `MusicPlayer.__init__` spawns the loop itself as its first task. */
  const LoopTask: TaskId := 0

  /** The seconds `queue.get()` may wait before the player destroys itself. */
  const IdleTimeoutSeconds: nat := 100

  /** The coroutines `creat_referenced_task` schedules: the loop, the
      presence reset in each `after` callback, and `destroy` on timeout. */
  datatype TaskKind = PlayerLoop | PresenceReset | Destroy

  /** Where the loop is suspended. `Destroyed`: it returned after the idle
      timeout. `Crashed`: it ended with an exception, either the
      `AttributeError` of reading a `voice_client` slot that was never
      assigned, or the `ClientException` that `play` raises on a client that
      is no longer connected. */
  datatype Phase = WaitQueue | WaitCompletion | Destroyed | Crashed

  /** `audio_source.cleanup()` either returns or raises `ValueError`. */
  datatype CleanupOutcome = Cleaned | CleanupValueError

  /** A `MusicPlayer`. `nextSet` is the `next` event flag; `awaitingAfter`
      says an `after` callback was handed to the transport and has not fired
      yet. `taken` and `played` are observation logs: every item the loop
      took from the queue, and every item it handed to `voice_client.play`,
      in order. */
  datatype Player = Player(
    queue: seq<Item>,
    current: Option<Item>,
    nextSet: bool,
    phase: Phase,
    tasks: map<TaskId, TaskKind>,
    spawned: nat,
    voice: Voice.Slot,
    awaitingAfter: bool,
    taken: seq<Item>,
    played: seq<Item>)

  datatype Event =
    | Enqueue(item: Item)             // `player.queue.put(source)` from `play`
    | DequeueOk                       // `queue.get()` returns within the timeout
    | DequeueTimeout(waited: nat)     // `queue.get()` gives up after `waited` seconds
    | Complete(error: Option<string>) // the transport calls `after(error)`
    | Wake(cleanup: CleanupOutcome)   // `next.wait()` returns; the item is cleaned up
    | TaskDone(task: TaskId)          // a spawned task finishes
    | Attach(client: Voice.Client)    // `connect` stores the client on the player

  predicate Finished(phase: Phase) {
    phase == Destroyed || phase == Crashed
  }

  /** Waiting for a completion nobody will signal: the item was taken while
      `voice_client` was None, so no `after` callback exists. */
  predicate Hung(p: Player) {
    p.phase == WaitCompletion && !p.awaitingAfter && !p.nextSet
  }

  /** The player right after construction: the loop task is registered and
      the loop has cleared `next` and is waiting on the empty queue. The
      `voice_client` slot is declared but not assigned. */
  function Init(): (p: Player)
    ensures Inv(p)
    ensures p.queue == [] && p.phase == WaitQueue && p.tasks == map[LoopTask := PlayerLoop]
  {
    Player([], None, false, WaitQueue, map[LoopTask := PlayerLoop], 1, Voice.Unset, false, [], [])
  }

  /** What holds in every reachable state. */
  predicate Inv(p: Player) {
    && p.spawned > LoopTask
    && (forall t | t in p.tasks :: t < p.spawned)
    && (forall t | t in p.tasks :: p.tasks[t] == PlayerLoop <==> t == LoopTask)
    && (LoopTask !in p.tasks ==> Finished(p.phase))
    && (p.phase == WaitQueue ==> !p.nextSet && !p.awaitingAfter && p.current.None?)
    && (p.phase == WaitCompletion ==> p.current.Some?)
    && (p.awaitingAfter ==> p.phase == WaitCompletion && !p.nextSet)
    && (p.nextSet ==> p.phase == WaitCompletion)
    && (|| p.played == p.taken
        || (p.current.Some? && p.played + [p.current.value] == p.taken && (p.phase == Crashed || Hung(p))))
  }

  /** Which events can happen next. The queue times out only when it stayed
      empty for the whole idle timeout, and hands out an item only when
      non-empty; the transport calls `after`
      once per `play`; the loop task only finishes once the loop ended. */
  predicate Enabled(p: Player, e: Event) {
    match e
    case Enqueue(_) => true
    case DequeueOk => p.phase == WaitQueue && |p.queue| > 0
    case DequeueTimeout(waited) => p.phase == WaitQueue && |p.queue| == 0 && waited == IdleTimeoutSeconds
    case Complete(_) => p.awaitingAfter
    case Wake(_) => p.phase == WaitCompletion && p.nextSet
    case TaskDone(t) => t in p.tasks && (p.tasks[t] == PlayerLoop ==> Finished(p.phase))
    case Attach(_) => true
  }

  /** `creat_referenced_task`: the new task gets a fresh id and is
      registered in `player_tasks`. */
  function Spawn(p: Player, kind: TaskKind): (q: Player)
    ensures q.tasks == p.tasks[p.spawned := kind] && q.spawned == p.spawned + 1
    ensures q.phase == p.phase && q.queue == p.queue && q.played == p.played && q.taken == p.taken
  {
    p.(tasks := p.tasks[p.spawned := kind], spawned := p.spawned + 1)
  }

  function EnqueuedBy(e: Event): seq<Item> {
    if e.Enqueue? then [e.item] else []
  }

  /** One step of the player. */
  function Step(p: Player, e: Event): (q: Player)
    requires Enabled(p, e)
    ensures Inv(p) ==> Inv(q)
    ensures q.taken + q.queue == p.taken + p.queue + EnqueuedBy(e)
    ensures q.played == p.played || (e == DequeueOk && q.played == p.played + [p.queue[0]])
    ensures p.spawned <= q.spawned
    ensures !e.Attach? ==> q.voice == p.voice
    ensures q.phase == Destroyed <==> p.phase == Destroyed || e.DequeueTimeout?
  {
    match e
    case Enqueue(item) =>
      p.(queue := p.queue + [item])
    case DequeueOk =>
      var item := p.queue[0];
      var p1 := p.(queue := p.queue[1..], current := Some(item), taken := p.taken + [item]);
      assert p1.taken + p1.queue == p.taken + p.queue by {
        assert p.queue == [item] + p.queue[1..];
      }
      (match p.voice
       case Unset => p1.(phase := Crashed)
       case Assigned(None) => p1.(phase := WaitCompletion)
       case Assigned(Some(c)) =>
         if c.IsConnected() then p1.(phase := WaitCompletion, awaitingAfter := true, played := p.played + [item])
         else p1.(phase := Crashed))
    case DequeueTimeout(_) =>
      Spawn(p, Destroy).(phase := Destroyed)
    case Complete(_) =>
      Spawn(p, PresenceReset).(nextSet := true, awaitingAfter := false)
    case Wake(_) =>
      p.(current := None, nextSet := false, phase := WaitQueue)
    case TaskDone(t) =>
      p.(tasks := p.tasks - {t})
    case Attach(c) =>
      p.(voice := Voice.Assigned(Some(c)))
  }

  /** The items a trace of events enqueues, in order. */
  function Enqueued(evs: seq<Event>): seq<Item>
    decreases |evs|
  {
    if |evs| == 0 then [] else Enqueued(evs[..|evs| - 1]) + EnqueuedBy(evs[|evs| - 1])
  }

  /** Replays a trace from a start state; None when some event in it could
      not have happened at that point. */
  function Run(start: Player, evs: seq<Event>): (r: Option<Player>)
    ensures Inv(start) && r.Some? ==> Inv(r.value)
    ensures r.Some? ==> r.value.taken + r.value.queue == start.taken + start.queue + Enqueued(evs)
    decreases |evs|
  {
    if |evs| == 0 then Some(start)
    else
      match Run(start, evs[..|evs| - 1])
      case None => None
      case Some(p) =>
        var e := evs[|evs| - 1];
        if Enabled(p, e) then Some(Step(p, e)) else None
  }

  /** `get_playlist`: `qsize` rounds of get-then-put rotate the queue once
      all the way round, so the listing is the queue in FIFO order and the
      queue ends as it began. An empty queue is listed without any round. */
  method GetPlaylist(p: Player) returns (playList: seq<Item>, after: Player, rounds: nat)
    ensures playList == p.queue
    ensures after == p
    ensures rounds == |p.queue|
  {
    var size := |p.queue|;
    var queue := p.queue;
    playList := [];
    rounds := 0;
    while rounds < size
      invariant rounds <= size
      invariant queue == p.queue[rounds..] + p.queue[..rounds]
      invariant playList == p.queue[..rounds]
    {
      var source := queue[0];
      queue := queue[1..];
      playList := playList + [source];
      queue := queue + [source];
      assert p.queue[..rounds + 1] == p.queue[..rounds] + [source];
      rounds := rounds + 1;
    }
    assert p.queue[..size] == p.queue && p.queue[size..] == [];
    after := p.(queue := queue);
  }

  /** Each loop iteration clears `next` before waiting on the queue: along
      any run, the loop is back at the queue with the flag down and nothing
      current right after an item's wait ended, and whenever it can take an
      item. */
  lemma {:induction false} FlagClearedBeforeDequeue(evs: seq<Event>)
    requires Run(Init(), evs).Some?
    ensures var p := Run(Init(), evs).value;
            Enabled(p, DequeueOk) ==> !p.nextSet && !p.awaitingAfter && p.current.None?
    ensures |evs| > 0 && evs[|evs| - 1].Wake? ==>
              var p := Run(Init(), evs).value;
              p.phase == WaitQueue && !p.nextSet && p.current.None?
  {
    if |evs| > 0 {
      var pre, e := evs[..|evs| - 1], evs[|evs| - 1];
      var q := Run(Init(), pre).value;
      assert Run(Init(), evs) == Some(Step(q, e));
    }
  }

  /** At most one item is in flight: while an `after` callback is pending,
      the loop cannot take another item, and it takes one only when nothing
      is current. */
  lemma AtMostOneInFlight(p: Player)
    requires Inv(p)
    ensures p.awaitingAfter ==> !Enabled(p, DequeueOk)
    ensures Enabled(p, DequeueOk) ==> p.current.None? && !p.nextSet && !p.awaitingAfter
  {
  }

  /** The `after` callback sets the flag whether or not it reports an error,
      and nothing is put back on the queue: a failed item is not retried. */
  lemma CompletionIgnoresError(p: Player, err: string)
    requires Inv(p) && p.awaitingAfter
    ensures Step(p, Complete(Some(err))) == Step(p, Complete(None))
    ensures Step(p, Complete(Some(err))).nextSet
    ensures Step(p, Complete(Some(err))).queue == p.queue
    ensures Enabled(Step(p, Complete(Some(err))), Wake(Cleaned))
  {
  }

  /** A `ValueError` from `cleanup` is logged and the loop goes on exactly as
      after a clean cleanup, with `current` reset. */
  lemma CleanupErrorKeepsLoop(p: Player)
    requires Inv(p) && Enabled(p, Wake(Cleaned))
    ensures Step(p, Wake(CleanupValueError)) == Step(p, Wake(Cleaned))
    ensures Step(p, Wake(CleanupValueError)).phase == WaitQueue
    ensures Step(p, Wake(CleanupValueError)).current.None?
  {
  }

  /** On timeout exactly one `destroy` task is spawned and the loop returns. */
  lemma TimeoutSpawnsOneDestroy(p: Player)
    requires Inv(p) && Enabled(p, DequeueTimeout(IdleTimeoutSeconds))
    ensures var q := Step(p, DequeueTimeout(IdleTimeoutSeconds));
            && q.phase == Destroyed
            && p.spawned !in p.tasks
            && q.tasks.Keys == p.tasks.Keys + {p.spawned}
            && q.tasks[p.spawned] == Destroy
            && (forall t | t in p.tasks :: q.tasks[t] == p.tasks[t])
            && q.played == p.played
  {
  }

  /** Once the loop has returned, nothing is ever taken or played again. */
  lemma {:induction false} DestroyedIsFinal(p: Player, evs: seq<Event>)
    requires p.phase == Destroyed && Run(p, evs).Some?
    ensures Run(p, evs).value.phase == Destroyed
    ensures Run(p, evs).value.played == p.played
    ensures Run(p, evs).value.taken == p.taken
    decreases |evs|
  {
    if |evs| > 0 {
      DestroyedIsFinal(p, evs[..|evs| - 1]);
    }
  }

  /** Items are handed to the transport in the order they were enqueued. */
  lemma FifoPlayOrder(evs: seq<Event>)
    requires Run(Init(), evs).Some?
    ensures var p := Run(Init(), evs).value;
            p.played <= p.taken && p.taken <= Enqueued(evs)
            && p.taken + p.queue == Enqueued(evs)
  {
  }

  function Completions(evs: seq<Event>): nat
    decreases |evs|
  {
    if |evs| == 0 then 0
    else Completions(evs[..|evs| - 1]) + (if evs[|evs| - 1].Complete? then 1 else 0)
  }

  /** No overlap: every play but the one still in flight has had its
      completion observed, so play i+1 starts only after completion i. */
  lemma {:induction false} PlaysFollowCompletions(evs: seq<Event>)
    requires Run(Init(), evs).Some?
    ensures var p := Run(Init(), evs).value;
            |p.played| == Completions(evs) + (if p.awaitingAfter then 1 else 0)
    decreases |evs|
  {
    if |evs| > 0 {
      var pre, e := evs[..|evs| - 1], evs[|evs| - 1];
      PlaysFollowCompletions(pre);
      var p := Run(Init(), pre).value;
      assert Inv(p) && Enabled(p, e);
      var q := Step(p, e);
      assert Run(Init(), evs) == Some(q);
      assert Completions(evs) == Completions(pre) + (if e.Complete? then 1 else 0);
      StepCountsPlays(p, e);
    }
  }

  /** One step adds a play only by handing a callback to the transport, and
      retires one only by the callback's completion. */
  lemma StepCountsPlays(p: Player, e: Event)
    requires Inv(p) && Enabled(p, e)
    ensures var q := Step(p, e);
            |q.played| + (if p.awaitingAfter then 1 else 0) == |p.played| + (if q.awaitingAfter then 1 else 0) + (if e.Complete? then 1 else 0)
  {
    var q := Step(p, e);
    match e {
      case DequeueOk =>
        assert !p.awaitingAfter;
      case Complete(_) =>
        assert p.played == q.played && !q.awaitingAfter;
      case _ =>
        assert q.played == p.played && q.awaitingAfter == p.awaitingAfter;
    }
  }

  function Timeouts(evs: seq<Event>): nat
    decreases |evs|
  {
    if |evs| == 0 then 0
    else Timeouts(evs[..|evs| - 1]) + (if evs[|evs| - 1].DequeueTimeout? then 1 else 0)
  }

  /** Idle teardown happens at most once per player, and once it happened
      the player stays destroyed. */
  lemma {:induction false} TeardownAtMostOnce(evs: seq<Event>)
    requires Run(Init(), evs).Some?
    ensures Timeouts(evs) <= 1
    ensures Timeouts(evs) == 1 <==> Run(Init(), evs).value.phase == Destroyed
    decreases |evs|
  {
    if |evs| > 0 {
      var pre, e := evs[..|evs| - 1], evs[|evs| - 1];
      TeardownAtMostOnce(pre);
      var p := Run(Init(), pre).value;
      assert Enabled(p, e);
      var q := Step(p, e);
      assert Run(Init(), evs) == Some(q);
      assert Timeouts(evs) == Timeouts(pre) + (if e.DequeueTimeout? then 1 else 0);
      if e.DequeueTimeout? {
        assert p.phase == WaitQueue;
      } else {
        assert q.phase == Destroyed <==> p.phase == Destroyed;
      }
    }
  }

  /** True when the trace reports task `t` done. */
  predicate DoneIn(evs: seq<Event>, t: TaskId)
    decreases |evs|
  {
    |evs| > 0 && (DoneIn(evs[..|evs| - 1], t) || evs[|evs| - 1] == TaskDone(t))
  }

  /** `player_tasks` holds exactly the tasks spawned and not yet done. */
  lemma {:induction false} TasksAreSpawnedNotDone(evs: seq<Event>)
    requires Run(Init(), evs).Some?
    ensures var p := Run(Init(), evs).value;
            && (forall t: TaskId :: t in p.tasks <==> t < p.spawned && !DoneIn(evs, t))
            && (forall t: TaskId :: DoneIn(evs, t) ==> t < p.spawned)
    decreases |evs|
  {
    if |evs| > 0 {
      var pre, e := evs[..|evs| - 1], evs[|evs| - 1];
      TasksAreSpawnedNotDone(pre);
      var p := Run(Init(), pre).value;
      assert Inv(p) && Enabled(p, e);
      var q := Step(p, e);
      assert Run(Init(), evs) == Some(q);
      StepTaskIds(p, e);
      forall t: TaskId
        ensures t in q.tasks <==> t < q.spawned && !DoneIn(evs, t)
        ensures DoneIn(evs, t) ==> t < q.spawned
      {
        assert DoneIn(evs, t) <==> DoneIn(pre, t) || e == TaskDone(t);
      }
    }
  }

  /** How one step changes task ids: a finished task leaves, and a
      spawning event adds exactly the next fresh id. */
  lemma StepTaskIds(p: Player, e: Event)
    requires Enabled(p, e)
    ensures var q := Step(p, e);
            && (q.spawned == p.spawned || (q.spawned == p.spawned + 1 && !e.TaskDone?))
            && forall t: TaskId :: t in q.tasks <==> (t in p.tasks && e != TaskDone(t)) || (t == p.spawned && q.spawned == p.spawned + 1)
  {
    match e {
      case TaskDone(u) =>
      case DequeueTimeout(_) =>
      case Complete(_) =>
      case _ =>
    }
  }

  /** The invariant does not constrain the voice slot, so whatever is
      stored in it keeps a valid player valid. */
  lemma InvIgnoresVoice(p: Player, slot: Voice.Slot)
    requires Inv(p)
    ensures Inv(p.(voice := slot))
  {
  }

  /** Nor does it constrain the queue's contents. */
  lemma InvIgnoresQueue(p: Player, queue: seq<Item>)
    requires Inv(p)
    ensures Inv(p.(queue := queue))
  {
  }

  /** Waiting on an item that was taken while `voice_client` was None lasts
      forever: no event can end it. This is the `voice_client is None`
      branch of the loop. Neither cog reaches it: the older one never assigns
      the slot, and the newer one only ever stores a client there. */
  lemma HungIsPermanent(p: Player, e: Event)
    requires Hung(p) && Enabled(p, e)
    ensures Hung(Step(p, e))
    ensures Step(p, e).played == p.played
  {
  }

  /** Nothing assigns the player's `voice_client`: every trace without
      `Attach` hands nothing to the transport, because the first item taken
      crashes the loop. */
  lemma {:induction false} UnattachedNeverPlays(evs: seq<Event>)
    requires Run(Init(), evs).Some?
    requires forall k | 0 <= k < |evs| :: !evs[k].Attach?
    ensures Run(Init(), evs).value.played == []
    ensures Run(Init(), evs).value.voice == Voice.Unset
    ensures |Run(Init(), evs).value.taken| <= 1
    decreases |evs|
  {
    if |evs| > 0 {
      UnattachedNeverPlays(evs[..|evs| - 1]);
    }
  }

  /** With a connected client attached, taking an item hands the queue's
      head to the transport and waits for its `after` callback. */
  lemma AttachedPlaysHead(p: Player, c: Voice.Client)
    requires Inv(p) && p.voice == Voice.Assigned(Some(c)) && c.IsConnected() && Enabled(p, DequeueOk)
    ensures var q := Step(p, DequeueOk);
            q.played == p.played + [p.queue[0]] && q.awaitingAfter && q.queue == p.queue[1..]
  {
  }

  /** A client that was disconnected under the loop (by `stop`, say) makes
      `play` raise: the item is taken, nothing is handed to the transport,
      and the loop task dies without a `destroy`. */
  lemma DisconnectedClientCrashes(p: Player, c: Voice.Client)
    requires Inv(p) && p.voice == Voice.Assigned(Some(c)) && !c.IsConnected() && Enabled(p, DequeueOk)
    ensures var q := Step(p, DequeueOk);
            && q.phase == Crashed && q.played == p.played && q.taken == p.taken + [p.queue[0]]
            && q.tasks == p.tasks && !q.awaitingAfter
  {
  }
}
