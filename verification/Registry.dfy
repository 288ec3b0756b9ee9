/** The chain registry and the live workers: services persist a change and then apply it, or retire a
    worker and then delete, all under one mutation lock. */
module Registry {
  import opened Domain
  import opened Supervision

  datatype ChainRecord = ChainRecord(url: Url, enabled: bool)
  datatype ChainUpdate = ChainUpdate(url: Option<Url>, enabled: Option<bool>)

  /** Every live worker's chain is persisted, enabled, and reached at the persisted URL. */
  ghost predicate Agrees(workers: map<nat, Runtime>, chains: map<nat, ChainRecord>) {
    forall c :: c in workers ==> AgreesAt(workers, chains, c)
  }

  ghost predicate AgreesAt(workers: map<nat, Runtime>, chains: map<nat, ChainRecord>, c: nat) {
    c in workers ==> c in chains && chains[c].enabled && chains[c].url == workers[c].url
  }

  function Merge(record: ChainRecord, update: ChainUpdate): ChainRecord {
    ChainRecord(if update.url.Some? then update.url.value else record.url,
                if update.enabled.Some? then update.enabled.value else record.enabled)
  }

  /** How a storage write goes: it works; it takes effect but reports an error; or it fails. */
  datatype Weather = Works | Loses | Fails

  /** How applying a registration goes: whether the endpoint can rotate, and whether a start succeeds. */
  datatype Start = Start(rotates: bool, starts: bool)

  /** What an update leaves as it was as far as a live worker is concerned. */
  predicate Harmless(workers: map<nat, Runtime>, chains: map<nat, ChainRecord>, c: nat, update: ChainUpdate)
    requires c in chains
  {
    c in workers ==> (update.enabled.Some? ==> update.enabled.value) && (update.url.Some? ==> update.url.value == chains[c].url)
  }

  /** An applied update that was reported as an error leaves the worker as it was. Agreement survives it
      exactly if no worker is live on the chain, or the update neither disables the chain nor changes
      its URL. */
  lemma LostUpdate(workers: map<nat, Runtime>, chains: map<nat, ChainRecord>, c: nat, update: ChainUpdate)
    requires Agrees(workers, chains) && c in chains
    ensures Agrees(workers, chains[c := Merge(chains[c], update)]) <==> Harmless(workers, chains, c, update)
  {
  }

  /** A change that concerns one chain only keeps agreement if that chain agrees afterwards. */
  lemma AgreesElsewhere(workers: map<nat, Runtime>, chains: map<nat, ChainRecord>,
                        workers': map<nat, Runtime>, chains': map<nat, ChainRecord>, c: nat)
    requires Agrees(workers, chains) && AgreesAt(workers', chains', c)
    requires forall o :: o in workers' && o != c ==> o in workers && workers[o] == workers'[o]
    requires forall o :: o in chains && o != c ==> o in chains' && chains'[o] == chains[o]
    ensures Agrees(workers', chains')
  {
    forall o | o in workers' && o != c
      ensures AgreesAt(workers', chains', o)
    {
      assert AgreesAt(workers, chains, o);
    }
  }

  /** The command changes something, the chain is registered, and a new URL answers with its ID. */
  predicate UpdateAllowed(chains: map<nat, ChainRecord>, chain: nat, update: ChainUpdate, probed: Result<nat>) {
    (update.url.Some? || update.enabled.Some?) && chain in chains && (update.url.Some? ==> probed == Ok(chain))
  }

  /** Registry and live workers at one moment. */
  datatype Moment = Moment(chains: map<nat, ChainRecord>, workers: map<nat, Runtime>, nextTask: nat, closed: bool)

  /** The workers once `registered` is applied, or nothing is; shutdown may come first. */
  function WorkersAfter(before: Moment, registered: Option<Registered>, start: Start, closing: bool): map<nat, Runtime> {
    var workers := if closing then map[] else before.workers;
    if registered.None? then workers
    else Applied(before.closed || closing, workers, before.nextTask, registered.value, start.rotates, start.starts)
  }

  class ChainService {
    const control: ControlPlane
    var chains: map<nat, ChainRecord>

    ghost predicate Valid()
      reads this, control
    {
      control.Valid()
    }

    ghost predicate InAgreement()
      reads this, control
    {
      Agrees(control.workers, chains)
    }

    constructor (control: ControlPlane, chains: map<nat, ChainRecord>)
      requires control.Valid()
      ensures Valid() && this.control == control && this.chains == chains
    {
      this.control, this.chains := control, chains;
    }

    /** Applies the startup snapshot, as far as it gets before a cancellation. Taken before any mutation can
        run, it is the registry itself. */
    method Reconcile(snapshot: seq<Registered>, starts: seq<Start>)
      requires Valid() && control.workers == map[] && |starts| <= |snapshot|
      requires forall i, j :: 0 <= i < j < |snapshot| ==> snapshot[i].chain != snapshot[j].chain
      requires forall i :: 0 <= i < |snapshot| ==>
                 snapshot[i].chain in chains && chains[snapshot[i].chain] == ChainRecord(snapshot[i].url, snapshot[i].enabled)
      modifies control
      ensures Valid() && InAgreement()
      ensures !control.closed ==> forall i :: 0 <= i < |starts| ==>
                (snapshot[i].chain in control.workers <==> snapshot[i].enabled && starts[i].starts)
    {
      for i := 0 to |starts|
        invariant Valid() && InAgreement() && chains == old(chains)
        invariant !control.closed ==> forall k :: 0 <= k < i ==>
                    (snapshot[k].chain in control.workers <==> snapshot[k].enabled && starts[k].starts)
        invariant forall k :: i <= k < |snapshot| ==> snapshot[k].chain !in control.workers
      {
        ghost var before := control.workers;
        control.Apply(snapshot[i], starts[i].rotates, starts[i].starts);
        AgreesElsewhere(before, chains, control.workers, chains, snapshot[i].chain);
      }
    }

    ghost function Now(): Moment
      reads this, control
    {
      Moment(chains, control.workers, control.nextTask, control.closed)
    }

    method CreateChain(chain: nat, record: ChainRecord, weather: Weather) returns (ok: bool)
      modifies this`chains
      ensures ok <==> weather.Works? && chain !in old(chains)
      ensures chains == if weather.Fails? || chain in old(chains) then old(chains) else old(chains)[chain := record]
    {
      if weather.Fails? || chain in chains {
        return false;
      }
      chains := chains[chain := record];
      ok := weather.Works?;
    }

    method UpdateChain(chain: nat, update: ChainUpdate, weather: Weather) returns (ok: bool)
      modifies this`chains
      ensures ok <==> weather.Works? && chain in old(chains)
      ensures chains == if weather.Fails? || chain !in old(chains) then old(chains)
                        else old(chains)[chain := Merge(old(chains)[chain], update)]
    {
      if weather.Fails? || chain !in chains {
        return false;
      }
      chains := chains[chain := Merge(chains[chain], update)];
      ok := weather.Works?;
    }

    method DeleteChain(chain: nat, weather: Weather) returns (ok: bool)
      modifies this`chains
      ensures ok <==> weather.Works? && chain in old(chains)
      ensures chains == if weather.Fails? then old(chains) else old(chains) - {chain}
    {
      if weather.Fails? || chain !in chains {
        assert chain !in chains ==> chains - {chain} == chains;
        return false;
      }
      chains := chains - {chain};
      ok := weather.Works?;
    }

    /** Shutdown does not take the mutation lock: it may fall into any critical section. */
    method MaybeShutdown(closing: bool)
      requires Valid()
      modifies control
      ensures Valid() && control.closed == (old(control.closed) || closing) && control.nextTask == old(control.nextTask)
      ensures control.workers == if closing then map[] else old(control.workers)
      ensures if closing && !old(control.closed) then Live(control.log) == map[] else control.log == old(control.log)
    {
      if closing && !control.closed {
        control.Shutdown();
      }
    }

    // ---- Critical sections, under the mutation lock ----

    /** Persists a new chain, then starts its worker. Whatever fails leaves agreement as it was: a chain
        that was not registered had no worker. */
    method CreateLocked(chain: nat, url: Url, enabled: bool, weather: Weather, start: Start, closing: bool) returns (ok: bool)
      requires Valid()
      modifies this`chains, control
      ensures Valid() && control.closed == (old(control.closed) || closing)
      ensures ok <==> chain !in old(chains) && weather.Works?
      ensures chains == if chain in old(chains) || weather.Fails? then old(chains) else old(chains)[chain := ChainRecord(url, enabled)]
      ensures control.workers ==
              WorkersAfter(old(Now()), if ok then Some(Registered(chain, url, enabled)) else None, start, closing)
      ensures ok && enabled && start.starts && !control.closed ==> chain in control.workers && control.workers[chain].url == url
      ensures !enabled && ok ==> chain !in control.workers
      ensures old(InAgreement()) ==> InAgreement()
    {
      ok := CreateChain(chain, ChainRecord(url, enabled), weather);
      MaybeShutdown(closing);
      if old(InAgreement()) {
        assert AgreesAt(old(control.workers), old(chains), chain);
      }
      if ok {
        control.Apply(Registered(chain, url, enabled), start.rotates, start.starts);
      }
      if old(InAgreement()) {
        AgreesElsewhere(old(control.workers), old(chains), control.workers, chains, chain);
      }
    }

    /** Looks the chain up again, persists the change, then applies the stored record. Agreement survives
        exactly unless the update is applied but reported as an error and not harmless; a success
        establishes it for the chain whatever was before. */
    method UpdateLocked(chain: nat, update: ChainUpdate, weather: Weather, start: Start, closing: bool) returns (r: Result<ChainRecord>)
      requires Valid()
      modifies this`chains, control
      ensures Valid() && control.closed == (old(control.closed) || closing)
      ensures r.Ok? <==> chain in old(chains) && weather.Works?
      ensures chains == if chain in old(chains) && !weather.Fails?
                        then old(chains)[chain := Merge(old(chains)[chain], update)] else old(chains)
      ensures r.Ok? ==> r.value == chains[chain] && AgreesAt(control.workers, chains, chain)
      ensures control.workers ==
              WorkersAfter(old(Now()), if r.Ok? then Some(Registered(chain, r.value.url, r.value.enabled)) else None, start, closing)
      ensures r.Ok? ==> r.value.url == (if update.url.Some? then update.url.value else old(chains)[chain].url)
      ensures r.Ok? ==> r.value.enabled == (if update.enabled.Some? then update.enabled.value else old(chains)[chain].enabled)
      ensures r.Ok? && r.value.enabled && start.starts && !control.closed ==>
                chain in control.workers && control.workers[chain].url == r.value.url
      ensures r.Ok? && !r.value.enabled ==> chain !in control.workers
      ensures old(InAgreement()) ==>
                (InAgreement() <==> chain in old(chains) && weather.Loses? ==> Harmless(control.workers, old(chains), chain, update))
    {
      if chain in chains {
        var ok := UpdateChain(chain, update, weather);
        MaybeShutdown(closing);
        if ok {
          var record := chains[chain];
          control.Apply(Registered(chain, record.url, record.enabled), start.rotates, start.starts);
          r := Ok(record);
        } else {
          r := Err;
        }
      } else {
        MaybeShutdown(closing);
        r := Err;
      }
      if old(InAgreement()) {
        if chain in old(chains) && weather.Loses? {
          AgreesElsewhere(old(control.workers), old(chains), control.workers, old(chains), chain);
          LostUpdate(control.workers, old(chains), chain, update);
        } else {
          AgreesElsewhere(old(control.workers), old(chains), control.workers, chains, chain);
        }
      }
    }

    /** Retires the worker, then deletes: unless shutdown has begun before, no task of the chain is live,
        so none of its commits is in flight, while its data goes. */
    method Delete(chain: nat, weather: Weather, closing: bool) returns (ok: bool)
      requires Valid()
      modifies this`chains, control
      ensures Valid() && control.closed == (old(control.closed) || closing)
      ensures control.workers == if closing then map[] else old(control.workers) - {chain}
      ensures ok <==> weather.Works? && chain in old(chains)
      ensures chains == if weather.Fails? then old(chains) else old(chains) - {chain}
      ensures old(InAgreement()) ==> InAgreement()
      ensures !old(control.closed) ==> !exists task :: task in Live(control.log) && Live(control.log)[task] == chain
    {
      control.Retire(chain);
      MaybeShutdown(closing);
      ok := DeleteChain(chain, weather);
      if old(InAgreement()) {
        AgreesElsewhere(old(control.workers), old(chains), control.workers, chains, chain);
      }
    }

    // ---- The services ----

    /** Other services' critical sections and a shutdown, before this service gets the mutation lock. */
    method Others(rounds: nat)
      requires Valid()
      modifies this`chains, control
      ensures Valid() && (old(control.closed) ==> control.closed)
      ensures rounds == 0 ==> Now() == old(Now())
    {
      for i := 0 to rounds
        invariant Valid() && (old(control.closed) ==> control.closed)
        invariant i == 0 ==> Now() == old(Now())
      {
        var chain: nat, url: Url, weather: Weather, start: Start, closing: bool := *, *, *, *, *;
        if {
          case true =>
            var enabled: bool := *;
            var created := CreateLocked(chain, url, enabled, weather, start, closing);
          case true =>
            var update: ChainUpdate := *;
            var updated := UpdateLocked(chain, update, weather, start, closing);
          case true =>
            var deleted := Delete(chain, weather, closing);
        }
      }
    }

    /** Probes the endpoint, and then, with the lock, does the rest. A failed probe changes nothing. `seen`
        is the moment the lock was taken. */
    method Create(url: Url, enabled: bool, probed: Result<nat>, others: nat, weather: Weather, start: Start, closing: bool)
      returns (r: Result<nat>, ghost seen: Moment)
      requires Valid()
      modifies this`chains, control
      ensures Valid()
      ensures others == 0 ==> seen == old(Now())
      ensures probed.Err? ==> r.Err? && Now() == seen == old(Now())
      ensures probed.Ok? ==> r == if probed.value !in seen.chains && weather.Works? then probed else Err
      ensures probed.Ok? ==>
                chains == if probed.value in seen.chains || weather.Fails? then seen.chains
                          else seen.chains[probed.value := ChainRecord(url, enabled)]
      ensures probed.Ok? ==>
                var applied := if r.Ok? then Some(Registered(r.value, url, enabled)) else None;
                control.workers == WorkersAfter(seen, applied, start, closing)
      ensures r.Ok? && enabled && start.starts && !control.closed ==>
                r.value in control.workers && control.workers[r.value].url == url
      ensures r.Ok? && !enabled ==> r.value !in control.workers
      ensures Agrees(seen.workers, seen.chains) ==> InAgreement()
    {
      seen := Now();
      if probed.Err? {
        return Err, seen;
      }
      Others(others);
      seen := Now();
      var ok := CreateLocked(probed.value, url, enabled, weather, start, closing);
      r := if ok then probed else Err;
    }

    /** The checks made before the lock is taken; the lookup itself may fail. */
    method CheckUpdate(chain: nat, update: ChainUpdate, probed: Result<nat>, readable: bool) returns (ok: bool)
      ensures ok <==> readable && UpdateAllowed(chains, chain, update, probed)
    {
      if (update.url.None? && update.enabled.None?) || !readable || chain !in chains {
        return false;
      }
      ok := update.url.Some? ==> probed == Ok(chain);
    }

    /** Checks first, and then, with the lock, does the rest: by then the chain may be gone. A failed check
        changes nothing. `seen` is the moment the lock was taken. */
    method Update(chain: nat, update: ChainUpdate, probed: Result<nat>, readable: bool, others: nat, weather: Weather, start: Start,
                  closing: bool)
      returns (r: Result<ChainRecord>, ghost seen: Moment)
      requires Valid()
      modifies this`chains, control
      ensures Valid()
      ensures others == 0 ==> seen == old(Now())
      ensures var allowed := readable && UpdateAllowed(old(chains), chain, update, probed);
              && (!allowed ==> r.Err? && Now() == seen == old(Now()))
              && (r.Ok? <==> allowed && chain in seen.chains && weather.Works?)
              && (allowed ==> chains == if chain in seen.chains && !weather.Fails?
                                        then seen.chains[chain := Merge(seen.chains[chain], update)] else seen.chains)
              && var applied := if r.Ok? then Some(Registered(chain, r.value.url, r.value.enabled)) else None;
              && (allowed ==> control.workers == WorkersAfter(seen, applied, start, closing))
              && (Agrees(seen.workers, seen.chains) ==>
                    (InAgreement() <==>
                       (allowed && chain in seen.chains && weather.Loses? ==> Harmless(control.workers, seen.chains, chain, update))))
      ensures r.Ok? ==> r.value == chains[chain] && AgreesAt(control.workers, chains, chain)
      ensures r.Ok? && r.value.enabled && start.starts && !control.closed ==>
                chain in control.workers && control.workers[chain].url == r.value.url
      ensures r.Ok? && !r.value.enabled ==> chain !in control.workers
    {
      seen := Now();
      var checked := CheckUpdate(chain, update, probed, readable);
      if !checked {
        return Err, seen;
      }
      Others(others);
      seen := Now();
      r := UpdateLocked(chain, update, weather, start, closing);
    }
  }

  /** Agreement really is lost: a chain is created and its worker starts; then it is disabled, storage
      applies that but reports an error, and the worker of the now disabled chain goes on. */
  method LostUpdateWitness() returns (service: ChainService)
    ensures service.Valid() && !service.control.closed && !service.InAgreement()
    ensures service.chains == map[1 := ChainRecord(7, false)] && service.control.workers.Keys == {1}
  {
    var control := new ControlPlane();
    service := new ChainService(control, map[]);
    var created, seen := service.Create(7, true, Ok(1), 0, Works, Start(false, true), false);
    assert service.InAgreement() && service.control.workers.Keys == {1};
    var updated;
    updated, seen := service.Update(1, ChainUpdate(None, Some(false)), Err, true, 0, Loses, Start(false, false), false);
  }
}
