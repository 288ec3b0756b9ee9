/** The worker supervisor: a control plane behind one lock that starts, rotates, stops and finally shuts
    down the per-chain worker tasks. A log records what happens to every task. */
module Supervision {
  import opened Domain

  datatype Registered = Registered(chain: nat, url: Url, enabled: bool)
  datatype Runtime = Runtime(task: nat, url: Url)

  datatype Event =
    | Spawned(task: nat, chain: nat)
    | Cancelled(task: nat)
    | Awaited(task: nat)
    | Closed

  // ---- Task histories ----

  /** Tasks spawned and not yet awaited, with their chains. */
  function Live(log: seq<Event>): map<nat, nat> {
    if log == [] then map[] else LiveAfter(Live(log[..|log| - 1]), log[|log| - 1])
  }

  function LiveAfter(live: map<nat, nat>, event: Event): map<nat, nat> {
    if event.Spawned? then live[event.task := event.chain]
    else if event.Awaited? then live - {event.task}
    else live
  }

  /** Every event was allowed when it happened: a task starts only while the plane is open, under a new
      number and with no live task on its chain; it is awaited only after it was cancelled. */
  ghost predicate Legal(log: seq<Event>) {
    log == [] || (Legal(log[..|log| - 1]) && Allowed(log[..|log| - 1], log[|log| - 1]))
  }

  ghost predicate Allowed(log: seq<Event>, event: Event) {
    match event
    case Spawned(task, chain) =>
      Closed !in log && (forall c: nat :: Spawned(task, c) !in log) && forall t :: t in Live(log) ==> Live(log)[t] != chain
    case Cancelled(task) => task in Live(log)
    case Awaited(task) => task in Live(log) && Cancelled(task) in log
    case Closed => true
  }

  lemma Extend(log: seq<Event>, event: Event)
    requires Legal(log) && Allowed(log, event)
    ensures Legal(log + [event])
    ensures Live(log + [event]) == LiveAfter(Live(log), event)
  {
  }

  lemma {:induction false} LegalHasOneLive(log: seq<Event>, n: nat, a: nat, b: nat)
    requires Legal(log) && n <= |log|
    requires a in Live(log[..n]) && b in Live(log[..n]) && Live(log[..n])[a] == Live(log[..n])[b]
    ensures a == b
    decreases |log|
  {
    if n < |log| {
      assert log[..|log| - 1][..n] == log[..n];
      LegalHasOneLive(log[..|log| - 1], n, a, b);
    } else if n == 0 {
    } else {
      assert log[..n] == log;
      var before := log[..n - 1];
      assert before[..n - 1] == before;
      if a in Live(before) && b in Live(before) {
        LegalHasOneLive(before, n - 1, a, b);
      }
    }
  }

  lemma {:induction false} LegalPrefix(log: seq<Event>, n: nat)
    requires Legal(log) && n <= |log|
    ensures Legal(log[..n])
    ensures n < |log| ==> Allowed(log[..n], log[n])
    decreases |log|
  {
    if n == |log| {
      assert log[..n] == log;
    } else if n < |log| - 1 {
      LegalPrefix(log[..|log| - 1], n);
      assert log[..|log| - 1][..n] == log[..n];
    }
  }

  /** A spawned task stays live until it is awaited. */
  lemma {:induction false} LiveUntilAwaited(log: seq<Event>, i: nat, j: nat)
    requires Legal(log) && i < j <= |log| && log[i].Spawned?
    requires forall k :: i < k < j ==> log[k] != Awaited(log[i].task)
    ensures log[i].task in Live(log[..j]) && Live(log[..j])[log[i].task] == log[i].chain
    decreases j - i
  {
    assert log[..j][..j - 1] == log[..j - 1];
    if j == i + 1 {
    } else {
      LiveUntilAwaited(log, i, j - 1);
      LegalPrefix(log, j - 1);
      assert log[i] in log[..j - 1];
    }
  }

  lemma LegalReplacement(log: seq<Event>, i: nat, j: nat)
    requires Legal(log) && i < j < |log|
    requires log[i].Spawned? && log[j].Spawned? && log[i].chain == log[j].chain
    ensures exists c, k :: 0 <= c < k < j && i < k && log[c] == Cancelled(log[i].task) && log[k] == Awaited(log[i].task)
  {
    LegalPrefix(log, j);
    if forall k :: i < k < j ==> log[k] != Awaited(log[i].task) {
      LiveUntilAwaited(log, i, j);
    }
    var k :| i < k < j && log[k] == Awaited(log[i].task);
    LegalPrefix(log, k);
    var c :| 0 <= c < k && log[..k][c] == Cancelled(log[i].task);
    assert log[c] == Cancelled(log[i].task);
  }

  // ---- The control plane ----

  /** The worker a registration asks for: kept with its task when it matches or rotates, otherwise a new
      task, if it starts; nobody else's worker changes, and nothing once the plane is closed. */
  function Applied(closed: bool, workers: map<nat, Runtime>, nextTask: nat, registered: Registered, rotates: bool, starts: bool):
    map<nat, Runtime>
  {
    var chain := registered.chain;
    if closed then workers
    else if !registered.enabled then workers - {chain}
    else if chain in workers && (workers[chain].url == registered.url || rotates)
    then workers[chain := Runtime(workers[chain].task, registered.url)]
    else if starts then (workers - {chain})[chain := Runtime(nextTask, registered.url)]
    else workers - {chain}
  }

  class ControlPlane {
    var closed: bool
    var workers: map<nat, Runtime>
    var nextTask: nat
    ghost var log: seq<Event>

    /** While open, the live tasks are exactly the workers' tasks; closed, no worker is left to find. */
    ghost predicate Valid()
      reads this
    {
      && Legal(log)
      && (closed <==> Closed in log)
      && (closed ==> workers == map[])
      && (forall chain :: chain in workers ==> workers[chain].task in Live(log) && Live(log)[workers[chain].task] == chain)
      && (!closed ==> forall task :: task in Live(log) ==>
            Live(log)[task] in workers && workers[Live(log)[task]].task == task)
      && (forall task :: task in Live(log) ==> task < nextTask)
      && (forall task: nat, chain: nat :: Spawned(task, chain) in log ==> task < nextTask)
    }

    constructor ()
      ensures Valid() && !closed && workers == map[]
    {
      closed, workers, nextTask, log := false, map[], 0, [];
    }

    /** Whatever was called on the plane, at every moment so far at most one task per chain was live. */
    lemma OneLivePerChain(n: nat, a: nat, b: nat)
      requires Valid() && n <= |log|
      requires a in Live(log[..n]) && b in Live(log[..n]) && Live(log[..n])[a] == Live(log[..n])[b]
      ensures a == b
    {
      LegalHasOneLive(log, n, a, b);
    }

    /** A chain's next task started only after its previous one was cancelled and then awaited. */
    lemma ReplacementWaits(i: nat, j: nat)
      requires Valid() && i < j < |log|
      requires log[i].Spawned? && log[j].Spawned? && log[i].chain == log[j].chain
      ensures exists c, k :: 0 <= c < k < j && i < k && log[c] == Cancelled(log[i].task) && log[k] == Awaited(log[i].task)
    {
      LegalReplacement(log, i, j);
    }

    /** Once the plane was closed nothing has started, and no worker is left to find. */
    lemma NothingStartsAfterClose(i: nat, j: nat)
      requires Valid() && i < j < |log| && log[i] == Closed
      ensures !log[j].Spawned? && closed && workers == map[]
    {
      LegalPrefix(log, j);
      assert log[..j][i] == Closed;
    }

    /** Records one event. */
    ghost method Record(event: Event)
      requires Legal(log) && Allowed(log, event)
      modifies this`log
      ensures log == old(log) + [event] && Legal(log)
      ensures Live(log) == LiveAfter(old(Live(log)), event)
    {
      Extend(log, event);
      log := log + [event];
    }

    /** Takes the chain's worker out of the live set, cancels its task and waits for it to end. */
    method StopWorker(chain: nat)
      requires Valid() && !closed && chain in workers
      modifies this`workers, this`log
      ensures Valid() && workers == old(workers) - {chain}
      ensures log == old(log) + [Cancelled(old(workers)[chain].task), Awaited(old(workers)[chain].task)]
      ensures !exists task :: task in Live(log) && Live(log)[task] == chain
    {
      var runtime := workers[chain];
      workers := workers - {chain};
      Record(Cancelled(runtime.task));
      assert log[|log| - 1] == Cancelled(runtime.task);
      Record(Awaited(runtime.task));
    }

    /** Spawns a task unless connecting, probing or the chain check fails (`starts` is false). */
    method StartWorker(registered: Registered, starts: bool)
      requires Valid() && !closed && registered.chain !in workers
      modifies this`workers, this`log, this`nextTask
      ensures Valid()
      ensures starts ==> log == old(log) + [Spawned(old(nextTask), registered.chain)]
      ensures starts ==> workers == old(workers)[registered.chain := Runtime(old(nextTask), registered.url)]
      ensures !starts ==> log == old(log) && workers == old(workers)
    {
      if starts {
        Record(Spawned(nextTask, registered.chain));
        workers := workers[registered.chain := Runtime(nextTask, registered.url)];
        nextTask := nextTask + 1;
      }
    }

    /** The old task has ended before the new one starts. */
    method RestartWorker(registered: Registered, starts: bool)
      requires Valid() && !closed && registered.chain in workers
      modifies this`workers, this`log, this`nextTask
      ensures Valid()
      ensures var task := old(workers)[registered.chain].task;
              log == old(log) + [Cancelled(task), Awaited(task)] + if starts then [Spawned(old(nextTask), registered.chain)] else []
      ensures workers == if starts then (old(workers) - {registered.chain})[registered.chain := Runtime(old(nextTask), registered.url)]
                         else old(workers) - {registered.chain}
    {
      StopWorker(registered.chain);
      StartWorker(registered, starts);
    }

    /** A live worker gets the registered URL: untouched if it has it, rotated in place if the source can,
        otherwise replaced. */
    method Readdress(registered: Registered, rotates: bool, starts: bool)
      requires Valid() && !closed && registered.enabled && registered.chain in workers
      modifies this`workers, this`log, this`nextTask
      ensures Valid()
      ensures starts ==> registered.chain in workers && workers[registered.chain].url == registered.url
      ensures var task := old(workers)[registered.chain].task;
              if rotates || old(workers)[registered.chain].url == registered.url
              then workers[registered.chain := Runtime(task, registered.url)] == workers && log == old(log)
              else log == old(log) + [Cancelled(task), Awaited(task)] + if starts then [Spawned(old(nextTask), registered.chain)] else []
      ensures workers - {registered.chain} == old(workers) - {registered.chain}
      ensures workers == Applied(false, old(workers), old(nextTask), registered, rotates, starts)
    {
      var chain := registered.chain;
      if workers[chain].url == registered.url {
        assert workers[chain := Runtime(workers[chain].task, registered.url)] == workers;
      } else if rotates {
        workers := workers[chain := workers[chain].(url := registered.url)];
      } else {
        RestartWorker(registered, starts);
      }
    }

    /** Brings one chain's worker in line with its registration: nothing changes once closed; a matching
        worker is left alone; another URL rotates the endpoint in place or, when the source cannot rotate,
        replaces the worker; a disabled chain ends up without one. */
    method Apply(registered: Registered, rotates: bool, starts: bool)
      requires Valid()
      modifies this
      ensures Valid() && closed == old(closed) && old(log) <= log
      ensures workers == Applied(old(closed), old(workers), old(nextTask), registered, rotates, starts)
      ensures registered.chain in workers && !closed ==> registered.enabled && workers[registered.chain].url == registered.url
      ensures closed ==> log == old(log) && workers == old(workers)
      ensures registered.enabled && starts && !closed ==> registered.chain in workers
      ensures !closed && registered.chain !in old(workers) ==>
                log == old(log) + if registered.enabled && starts then [Spawned(old(nextTask), registered.chain)] else []
      ensures !closed && registered.chain in old(workers) ==>
                var runtime := old(workers)[registered.chain];
                if registered.enabled && (runtime.url == registered.url || rotates) then
                  log == old(log) && registered.chain in workers && workers[registered.chain].task == runtime.task
                else
                  log == old(log) + [Cancelled(runtime.task), Awaited(runtime.task)] +
                         if registered.enabled && starts then [Spawned(old(nextTask), registered.chain)] else []
      ensures workers - {registered.chain} == old(workers) - {registered.chain}
    {
      if closed {
        return;
      }
      var chain := registered.chain;
      assert chain !in workers ==> workers - {chain} == workers;
      if registered.enabled && chain in workers {
        Readdress(registered, rotates, starts);
      } else if registered.enabled {
        StartWorker(registered, starts);
      } else if chain in workers {
        StopWorker(chain);
      }
    }

    /** Stops the chain's worker, if any. Until shutdown begins no task of the chain is left live, so
        none of its commits is in flight afterwards. */
    method Retire(chain: nat)
      requires Valid()
      modifies this
      ensures Valid() && closed == old(closed) && old(log) <= log
      ensures workers == old(workers) - {chain}
      ensures chain !in old(workers) ==> log == old(log)
      ensures !closed ==> !exists task :: task in Live(log) && Live(log)[task] == chain
    {
      if chain in workers {
        StopWorker(chain);
      } else {
        assert workers - {chain} == workers;
      }
    }

    /** Closes the plane under the lock and takes all workers out of it. */
    method Close() returns (taken: map<nat, Runtime>)
      requires Valid() && !closed
      modifies this
      ensures Valid() && closed && old(log) <= log
      ensures Live(log) == old(Live(log)) && taken == old(workers) && nextTask == old(nextTask)
    {
      closed := true;
      taken := workers;
      workers := map[];
      Record(Closed);
      assert log[|log| - 1] == Closed;
    }

    /** The taken runtimes are exactly the live tasks. */
    ghost predicate TakesAll(taken: map<nat, Runtime>, chains: set<nat>)
      reads this
      requires chains <= taken.Keys
    {
      && (forall chain :: chain in chains ==> taken[chain].task in Live(log) && Live(log)[taken[chain].task] == chain)
      && (forall task :: task in Live(log) ==> Live(log)[task] in chains && taken[Live(log)[task]].task == task)
    }

    method CancelAll(taken: map<nat, Runtime>)
      requires Valid() && closed && TakesAll(taken, taken.Keys)
      modifies this`log
      ensures Valid() && TakesAll(taken, taken.Keys) && old(log) <= log
      ensures forall chain :: chain in taken ==> Cancelled(taken[chain].task) in log
    {
      var rest := taken.Keys;
      while rest != {}
        invariant rest <= taken.Keys && Valid() && Live(log) == old(Live(log)) && old(log) <= log
        invariant forall chain :: chain in taken && chain !in rest ==> Cancelled(taken[chain].task) in log
        decreases rest
      {
        var chain :| chain in rest;
        Record(Cancelled(taken[chain].task));
        assert log[|log| - 1] == Cancelled(taken[chain].task);
        rest := rest - {chain};
      }
    }

    method AwaitAll(taken: map<nat, Runtime>)
      requires Valid() && closed && TakesAll(taken, taken.Keys)
      requires forall chain :: chain in taken ==> Cancelled(taken[chain].task) in log
      modifies this`log
      ensures Valid() && Live(log) == map[] && old(log) <= log
    {
      var rest := taken.Keys;
      while rest != {}
        invariant rest <= taken.Keys && Valid() && TakesAll(taken, rest) && old(log) <= log
        invariant forall chain :: chain in taken ==> Cancelled(taken[chain].task) in log
        decreases rest
      {
        var chain :| chain in rest;
        Record(Awaited(taken[chain].task));
        rest := rest - {chain};
      }
      assert Live(log) == map[];
    }

    /** Cancels every taken task, then awaits each, outside the lock: what is applied or retired meanwhile
        finds the plane closed and touches no task. */
    method ShutdownWorkers(taken: map<nat, Runtime>)
      requires Valid() && closed && TakesAll(taken, taken.Keys)
      modifies this`log
      ensures Valid() && Live(log) == map[] && old(log) <= log
    {
      CancelAll(taken);
      AwaitAll(taken);
    }

    /** When shutdown returns, every task that was ever started has been awaited. */
    method Shutdown()
      requires Valid() && !closed
      modifies this
      ensures Valid() && closed && Live(log) == map[] && old(log) <= log && nextTask == old(nextTask)
    {
      var taken := Close();
      ShutdownWorkers(taken);
    }
  }
}
