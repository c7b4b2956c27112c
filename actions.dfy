/**
 * The action primitives of the actions package. Each is a function over the world
 * and the record (its specification, with the properties the primitive
 * promises as postconditions) and a method that performs the same calls in
 * the same order on a `World` and a `Config`.
 *
 * The save-through discipline: the backend's error is captured, the entity
 * is saved anyway, and a failed save is reported in preference to the
 * backend's error.
 */
module Actions {
  import opened Wrappers
  import opened Entities
  import opened Configuration
  import opened Cloud

  /** The world after an action, the record it leaves, the entity as it stands, and the error returned. */
  datatype Run<T> = Run(world: WorldState, config: Records, entity: T, err: Option<Error>)

  // ---------------------------------------------------------------------------
  // actions/config.go

  /** UpdateClusterInConfig: one save of the record with the cluster filed, returning the save's result. */
  function UpdateClusterInConfigRun(o: Oracle, s: WorldState, cfg: Records, cluster: Cluster): (r: Run<()>)
    ensures r.config == PutCluster(cfg, cluster)
    ensures r.world.calls == s.calls + [Save(r.config, o.succeeds(Next(s)))]
    ensures r.err == ErrorAt(o, Next(s))
  {
    var updated := PutCluster(cfg, cluster);
    var saved := SaveStep(o, s, updated);
    Run(saved.world, updated, (), saved.err)
  }

  /** RemoveClusterInConfig: with the cluster removed from the record, one save; otherwise no save. */
  function RemoveClusterInConfigRun(o: Oracle, s: WorldState, cfg: Records, cluster: Cluster): (r: Run<()>)
    ensures cluster.name !in cfg ==> r == Run(s, cfg, (), Some(ClusterNotExists(cluster.name)))
    ensures cluster.name in cfg ==>
      r.config == cfg - {cluster.name}
      && r.world.calls == s.calls + [Save(r.config, o.succeeds(Next(s)))]
      && r.err == ErrorAt(o, Next(s))
  {
    match DeleteCluster(cfg, cluster.name)
    case Failure(e) => Run(s, cfg, (), Some(e))
    case Success(updated) =>
      var saved := SaveStep(o, s, updated);
      Run(saved.world, updated, (), saved.err)
  }

  /** UpdateEnvInConfig: with the environment filed under its cluster, one save; otherwise no save. */
  function UpdateEnvInConfigRun(o: Oracle, s: WorldState, cfg: Records, cluster: Cluster, env: Env): (r: Run<()>)
    ensures cluster.name !in cfg ==> r == Run(s, cfg, (), Some(ClusterNotExists(cluster.name)))
    ensures cluster.name in cfg ==>
      r.config == PutEnv(cfg, cluster.name, env).value
      && r.world.calls == s.calls + [Save(r.config, o.succeeds(Next(s)))]
      && r.err == ErrorAt(o, Next(s))
    ensures r.err.None? ==> r.world.stored == Some(r.config)
  {
    match PutEnv(cfg, cluster.name, env)
    case Failure(e) => Run(s, cfg, (), Some(e))
    case Success(updated) =>
      var saved := SaveStep(o, s, updated);
      Run(saved.world, updated, (), saved.err)
  }

  /** RemoveEnvInConfig: with the environment removed from its cluster, one save; otherwise no save. */
  function RemoveEnvInConfigRun(o: Oracle, s: WorldState, cfg: Records, cluster: Cluster, env: Env): (r: Run<()>)
    ensures DeleteEnv(cfg, cluster.name, env.name).Failure? ==>
      r == Run(s, cfg, (), Some(DeleteEnv(cfg, cluster.name, env.name).error))
    ensures DeleteEnv(cfg, cluster.name, env.name).Success? ==>
      r.config == DeleteEnv(cfg, cluster.name, env.name).value
      && env.name !in r.config[cluster.name].envs
      && r.world.calls == s.calls + [Save(r.config, o.succeeds(Next(s)))]
      && r.err == ErrorAt(o, Next(s))
  {
    match DeleteEnv(cfg, cluster.name, env.name)
    case Failure(e) => Run(s, cfg, (), Some(e))
    case Success(updated) =>
      var saved := SaveStep(o, s, updated);
      Run(saved.world, updated, (), saved.err)
  }

  method UpdateClusterInConfig(w: World, config: Config, cluster: Cluster) returns (err: Option<Error>)
    modifies w, config
    ensures var r := UpdateClusterInConfigRun(w.oracle, old(w.state), old(config.clusters), cluster);
      w.state == r.world && config.clusters == r.config && err == r.err
  {
    config.SetCluster(cluster);
    err := w.SaveYoloConfig(config);
  }

  method RemoveClusterInConfig(w: World, config: Config, cluster: Cluster) returns (err: Option<Error>)
    modifies w, config
    ensures var r := RemoveClusterInConfigRun(w.oracle, old(w.state), old(config.clusters), cluster);
      w.state == r.world && config.clusters == r.config && err == r.err
  {
    err := config.RemoveCluster(cluster.name);
    if err.Some? {
      return;
    }
    err := w.SaveYoloConfig(config);
  }

  method UpdateEnvInConfig(w: World, config: Config, cluster: Cluster, env: Env) returns (err: Option<Error>)
    modifies w, config
    ensures var r := UpdateEnvInConfigRun(w.oracle, old(w.state), old(config.clusters), cluster, env);
      w.state == r.world && config.clusters == r.config && err == r.err
  {
    err := config.SetEnv(cluster.name, env);
    if err.Some? {
      return;
    }
    err := w.SaveYoloConfig(config);
  }

  method RemoveEnvInConfig(w: World, config: Config, cluster: Cluster, env: Env) returns (err: Option<Error>)
    modifies w, config
    ensures var r := RemoveEnvInConfigRun(w.oracle, old(w.state), old(config.clusters), cluster, env);
      w.state == r.world && config.clusters == r.config && err == r.err
  {
    err := config.RemoveEnv(cluster.name, env.name);
    if err.Some? {
      return;
    }
    err := w.SaveYoloConfig(config);
  }

  // ---------------------------------------------------------------------------
  // actions/install_yolo.go

  /** InstallYolo: the storage is created first; only then is the record, unchanged, saved. */
  function InstallYoloRun(o: Oracle, s: WorldState, cfg: Records): (r: Run<()>)
    ensures Extends(s, r.world) && NoOutputs(Since(s, r.world))
    ensures r.config == cfg
    ensures r.err.None? ==> r.world.stored == Some(cfg)
    ensures !o.succeeds(Next(s)) ==>
      r.world.calls == s.calls + [CreateStorage(false)] && r.err == Some(ExternalFailure(Next(s)))
    ensures o.succeeds(Next(s)) ==>
      r.world.calls == s.calls + [CreateStorage(true), Save(cfg, o.succeeds(Next(s) + 1))]
      && r.err == ErrorAt(o, Next(s) + 1)
  {
    var created := CreateStorageStep(o, s);
    if created.err.Some? then Run(created.world, cfg, (), created.err)
    else
      var saved := SaveStep(o, created.world, cfg);
      Run(saved.world, cfg, (), saved.err)
  }

  method InstallYolo(w: World, config: Config) returns (err: Option<Error>)
    modifies w
    ensures var r := InstallYoloRun(w.oracle, old(w.state), config.clusters);
      w.state == r.world && config.clusters == r.config && err == r.err
  {
    err := w.CreateYoloConfigStorage();
    if err.Some? {
      return;
    }
    err := w.SaveYoloConfig(config);
  }

  // ---------------------------------------------------------------------------
  // actions/create_cluster.go

  /** The cluster as the provider leaves it after the call at position n. */
  function Provided(o: Oracle, n: nat, cluster: Cluster): Cluster {
    cluster.(infrastructureJSON := o.clusterInfrastructure(n, cluster))
  }

  /** The environment as the provider leaves it after the call at position n. */
  function ProvidedEnv(o: Oracle, n: nat, env: Env): Env {
    env.(infrastructure := o.envInfrastructure(n, env))
  }

  /**
   * CreateCluser: the backend is called once, first; the cluster is saved
   * whatever its outcome; a failed save masks the backend's error; only
   * when both succeed is the cluster marked Created and saved again.
   */
  function CreateClusterRun(o: Oracle, s: WorldState, cfg: Records, cluster: Cluster): (r: Run<Cluster>)
    ensures Extends(s, r.world) && NoOutputs(Since(s, r.world))
    ensures var n, provided := Next(s), Provided(o, Next(s), cluster);
      var first := [Call.CreateCluster(cluster, o.succeeds(n)), Save(PutCluster(cfg, provided), o.succeeds(n + 1))];
      (!(o.succeeds(n) && o.succeeds(n + 1)) ==>
         r.world.calls == s.calls + first && r.entity == provided
         && r.err == Some(ExternalFailure(if o.succeeds(n + 1) then n else n + 1)))
      && (o.succeeds(n) && o.succeeds(n + 1) ==>
            r.entity == provided.(status := Created)
            && r.world.calls == s.calls + first + [Save(PutCluster(cfg, r.entity), o.succeeds(n + 2))]
            && r.err == ErrorAt(o, n + 2))
    ensures r.config == PutCluster(cfg, r.entity)
    ensures r.entity.name == cluster.name
  {
    var created := CreateClusterStep(o, s, cluster);
    var saved := UpdateClusterInConfigRun(o, created.world, cfg, created.value);
    assert created.value == Provided(o, Next(s), cluster);
    assert saved.world.calls == s.calls + [Call.CreateCluster(cluster, o.succeeds(Next(s))),
                                           Save(PutCluster(cfg, created.value), o.succeeds(Next(s) + 1))];
    if saved.err.Some? then Run(saved.world, saved.config, created.value, saved.err)
    else if created.err.Some? then Run(saved.world, saved.config, created.value, created.err)
    else
      var c := created.value.(status := Created);
      var resaved := UpdateClusterInConfigRun(o, saved.world, saved.config, c);
      PutClusterTwice(cfg, created.value, c);
      Run(resaved.world, resaved.config, c, resaved.err)
  }

  /** A CreateCluser that returns no error leaves its record saved. */
  lemma CreateClusterStoresRecord(o: Oracle, s: WorldState, cfg: Records, cluster: Cluster)
    ensures var r := CreateClusterRun(o, s, cfg, cluster);
      r.err.None? ==> r.world.stored == Some(r.config)
  {
  }

  /** CreateCluser (sic) of actions/create_cluster.go; the cluster as it stands at the end is returned. */
  method CreateCluster(w: World, config: Config, cluster: Cluster) returns (cluster': Cluster, err: Option<Error>)
    modifies w, config
    ensures var r := CreateClusterRun(w.oracle, old(w.state), old(config.clusters), cluster);
      w.state == r.world && config.clusters == r.config && cluster' == r.entity && err == r.err
  {
    var createClusterErr;
    cluster', createClusterErr := w.CreateCluster(cluster);
    err := UpdateClusterInConfig(w, config, cluster');
    if err.Some? {
      return;
    }
    if createClusterErr.Some? {
      err := createClusterErr;
      return;
    }
    cluster' := cluster'.(status := Created);
    err := UpdateClusterInConfig(w, config, cluster');
  }

  // ---------------------------------------------------------------------------
  // actions/create_env.go

  /**
   * CreateEnv: the backend is called once, then the environment is saved
   * whatever its outcome; a failed save is reported first, then the
   * backend's error. The status is never changed here.
   */
  function CreateEnvRun(o: Oracle, s: WorldState, cfg: Records, cluster: Cluster, env: Env): (r: Run<Env>)
    ensures Extends(s, r.world) && NoOutputs(Since(s, r.world))
    ensures r.entity == ProvidedEnv(o, Next(s), env) && r.entity.status == env.status
    ensures var n := Next(s);
      (cluster.name !in cfg ==>
         r.world.calls == s.calls + [Call.CreateEnv(cluster, env, o.succeeds(n))]
         && r.config == cfg && r.err == Some(ClusterNotExists(cluster.name)))
      && (cluster.name in cfg ==>
            r.config == PutEnv(cfg, cluster.name, r.entity).value
            && r.world.calls == s.calls + [Call.CreateEnv(cluster, env, o.succeeds(n)), Save(r.config, o.succeeds(n + 1))]
            && r.err == (if !o.succeeds(n + 1) then Some(ExternalFailure(n + 1)) else ErrorAt(o, n)))
    ensures r.err.None? ==> r.world.stored == Some(r.config)
  {
    var created := CreateEnvStep(o, s, cluster, env);
    var saved := UpdateEnvInConfigRun(o, created.world, cfg, cluster, created.value);
    if saved.err.Some? then Run(saved.world, saved.config, created.value, saved.err)
    else Run(saved.world, saved.config, created.value, created.err)
  }

  method CreateEnv(w: World, config: Config, cluster: Cluster, env: Env) returns (env': Env, err: Option<Error>)
    modifies w, config
    ensures var r := CreateEnvRun(w.oracle, old(w.state), old(config.clusters), cluster, env);
      w.state == r.world && config.clusters == r.config && env' == r.entity && err == r.err
  {
    var createEnvErr;
    env', createEnvErr := w.CreateEnv(cluster, env);
    err := UpdateEnvInConfig(w, config, cluster, env');
    if err.Some? {
      return;
    }
    err := createEnvErr;
  }

  // ---------------------------------------------------------------------------
  // actions/remove_cluster.go

  /**
   * RemoveCluster: the cluster is marked Removing and saved before the
   * backend is called; after the backend it is saved again whatever the
   * outcome; only on success is it erased from the record and the record
   * saved.
   */
  function RemoveClusterRun(o: Oracle, s: WorldState, cfg: Records, cluster: Cluster): (r: Run<Cluster>)
    ensures Extends(s, r.world) && NoOutputs(Since(s, r.world))
    ensures r.entity.status == Removing && r.entity.name == cluster.name
    ensures !o.succeeds(Next(s)) ==>
      var marked := PutCluster(cfg, cluster.(status := Removing));
      r.world.calls == s.calls + [Save(marked, false)]
      && r.config == marked && r.err == Some(ExternalFailure(Next(s)))
  {
    var removing := cluster.(status := Removing);
    var marked := UpdateClusterInConfigRun(o, s, cfg, removing);
    if marked.err.Some? then Run(marked.world, marked.config, removing, marked.err)
    else
      var removed := RemoveClusterStep(o, marked.world, removing);
      var saved := UpdateClusterInConfigRun(o, removed.world, marked.config, removed.value);
      if saved.err.Some? then Run(saved.world, saved.config, removed.value, saved.err)
      else if removed.err.Some? then Run(saved.world, saved.config, removed.value, removed.err)
      else
        var erased := RemoveClusterInConfigRun(o, saved.world, saved.config, removed.value);
        ChainNoOutputs(s, saved.world, erased.world);
        Run(erased.world, erased.config, removed.value, erased.err)
  }

  /** RemoveCluster's first call records the cluster as Removing. */
  lemma RemoveClusterMarksFirst(o: Oracle, s: WorldState, cfg: Records, cluster: Cluster)
    ensures var r := RemoveClusterRun(o, s, cfg, cluster);
      |r.world.calls| > Next(s)
      && r.world.calls[Next(s)] == Save(PutCluster(cfg, cluster.(status := Removing)), o.succeeds(Next(s)))
  {
    if o.succeeds(Next(s)) && o.succeeds(Next(s) + 1) && o.succeeds(Next(s) + 2) {
      RemoveClusterCompletion(o, s, cfg, cluster);
    } else if o.succeeds(Next(s)) {
      RemoveClusterBackendOutcome(o, s, cfg, cluster);
    }
  }

  /**
   * Once the first save succeeded, the backend is called and the cluster
   * it returns saved, whatever the backend's outcome; a failed save is
   * reported first; after a backend failure the cluster stays recorded, as
   * Removing.
   */
  lemma RemoveClusterBackendOutcome(o: Oracle, s: WorldState, cfg: Records, cluster: Cluster)
    requires o.succeeds(Next(s)) && !(o.succeeds(Next(s) + 1) && o.succeeds(Next(s) + 2))
    ensures var r := RemoveClusterRun(o, s, cfg, cluster);
      var n, removing := Next(s), cluster.(status := Removing);
      var provided := Provided(o, n + 1, removing);
      var recorded := PutCluster(cfg, provided);
      r.world.calls == s.calls + [Save(PutCluster(cfg, removing), true), Call.RemoveCluster(removing, o.succeeds(n + 1)),
                                  Save(recorded, o.succeeds(n + 2))]
      && r.entity == provided && r.config == recorded
      && recorded[cluster.name].cluster.status == Removing
      && r.err == Some(ExternalFailure(if o.succeeds(n + 2) then n + 1 else n + 2))
  {
    var removing := cluster.(status := Removing);
    PutClusterTwice(cfg, removing, Provided(o, Next(s) + 1, removing));
  }

  /** Backend and save succeeded: the cluster is erased from the record and the record saved. */
  lemma RemoveClusterCompletion(o: Oracle, s: WorldState, cfg: Records, cluster: Cluster)
    requires o.succeeds(Next(s)) && o.succeeds(Next(s) + 1) && o.succeeds(Next(s) + 2)
    ensures var r := RemoveClusterRun(o, s, cfg, cluster);
      var n, removing := Next(s), cluster.(status := Removing);
      var provided := Provided(o, n + 1, removing);
      var recorded := PutCluster(cfg, provided);
      r.world.calls == s.calls + [Save(PutCluster(cfg, removing), true), Call.RemoveCluster(removing, true),
                                  Save(recorded, true), Save(recorded - {cluster.name}, o.succeeds(n + 3))]
      && r.entity == provided && r.config == recorded - {cluster.name} && cluster.name !in r.config
      && r.err == ErrorAt(o, n + 3)
  {
    var removing := cluster.(status := Removing);
    PutClusterTwice(cfg, removing, Provided(o, Next(s) + 1, removing));
  }

  method RemoveCluster(w: World, config: Config, cluster: Cluster) returns (cluster': Cluster, err: Option<Error>)
    modifies w, config
    ensures var r := RemoveClusterRun(w.oracle, old(w.state), old(config.clusters), cluster);
      w.state == r.world && config.clusters == r.config && cluster' == r.entity && err == r.err
  {
    cluster' := cluster.(status := Removing);
    err := UpdateClusterInConfig(w, config, cluster');
    if err.Some? {
      return;
    }
    var removeClusterErr;
    cluster', removeClusterErr := w.RemoveCluster(cluster');
    err := UpdateClusterInConfig(w, config, cluster');
    if err.Some? {
      return;
    }
    if removeClusterErr.Some? {
      err := removeClusterErr;
      return;
    }
    err := RemoveClusterInConfig(w, config, cluster');
  }

  // ---------------------------------------------------------------------------
  // actions/remove_env.go

  /**
   * The end of RemoveEnv, once the backend removal and the save after it
   * succeeded: the hook, when there is one, then the erasure and its save.
   */
  function RemoveEnvFinishRun(o: Oracle, s: WorldState, cfg: Records, cluster: Cluster, env: Env, hasHook: bool)
    : (r: Run<Env>)
    requires cluster.name in cfg && env.name in cfg[cluster.name].envs
    ensures Extends(s, r.world) && NoOutputs(Since(s, r.world)) && r.entity == env
    ensures var n, t := Next(s), Since(s, r.world);
      var h := if hasHook then 1 else 0;
      (hasHook ==> |t| >= 1 && t[0] == RunHook(cluster, env, o.succeeds(n)))
      && (hasHook && !o.succeeds(n) ==>
            |t| == 1 && r.err == Some(ExternalFailure(n)) && r.config == cfg)
      && ((hasHook ==> o.succeeds(n)) ==>
            |t| == 1 + h
            && r.config == DeleteEnv(cfg, cluster.name, env.name).value
            && env.name !in r.config[cluster.name].envs
            && t[h] == Save(r.config, o.succeeds(n + h))
            && r.err == ErrorAt(o, n + h))
      && (forall i :: 0 <= i < |t| && t[i].RunHook? ==> hasHook && i == 0)
  {
    var hooked := if hasHook then RunHookStep(o, s, cluster, env) else Step(s, (), None);
    if hooked.err.Some? then Run(hooked.world, cfg, env, hooked.err)
    else
      var erased := RemoveEnvInConfigRun(o, hooked.world, cfg, cluster, env);
      Run(erased.world, erased.config, env, erased.err)
  }

  /**
   * RemoveEnv: whatever the prior status, the environment is marked
   * Removing and saved before the backend is called, and saved again after
   * it; the hook, when there is one, runs only once both succeeded; the
   * environment is erased from the record only after that.
   */
  function RemoveEnvRun(o: Oracle, s: WorldState, cfg: Records, cluster: Cluster, env: Env, hasHook: bool)
    : (r: Run<Env>)
    ensures Extends(s, r.world) && NoOutputs(Since(s, r.world))
    ensures r.entity.status == Removing && r.entity.name == env.name
    ensures cluster.name !in cfg ==>
      r.world == s && r.config == cfg && r.err == Some(ClusterNotExists(cluster.name))
  {
    var removing := env.(status := Removing);
    var marked := UpdateEnvInConfigRun(o, s, cfg, cluster, removing);
    if marked.err.Some? then Run(marked.world, marked.config, removing, marked.err)
    else
      var removed := RemoveEnvStep(o, marked.world, cluster, removing);
      var saved := UpdateEnvInConfigRun(o, removed.world, marked.config, cluster, removed.value);
      assert Since(s, saved.world) == [marked.world.calls[Next(s)], removed.world.calls[Next(s) + 1],
                                       saved.world.calls[Next(s) + 2]];
      if saved.err.Some? then Run(saved.world, saved.config, removed.value, saved.err)
      else if removed.err.Some? then Run(saved.world, saved.config, removed.value, removed.err)
      else
        var finished := RemoveEnvFinishRun(o, saved.world, saved.config, cluster, removed.value, hasHook);
        ChainNoOutputs(s, saved.world, finished.world);
        finished
  }

  /** RemoveEnv starts by recording the environment as Removing and saving the record. */
  lemma RemoveEnvMarksFirst(o: Oracle, s: WorldState, cfg: Records, cluster: Cluster, env: Env, hasHook: bool)
    ensures var r := RemoveEnvRun(o, s, cfg, cluster, env, hasHook);
      cluster.name in cfg ==>
      |r.world.calls| > Next(s)
      && r.world.calls[Next(s)] == Save(PutEnv(cfg, cluster.name, env.(status := Removing)).value, o.succeeds(Next(s)))
  {
  }

  /** A failed first save ends RemoveEnv: the environment is recorded as Removing, and the backend is not called. */
  lemma RemoveEnvMarkFailure(o: Oracle, s: WorldState, cfg: Records, cluster: Cluster, env: Env, hasHook: bool)
    requires cluster.name in cfg && !o.succeeds(Next(s))
    ensures var r := RemoveEnvRun(o, s, cfg, cluster, env, hasHook);
      var marked := PutEnv(cfg, cluster.name, env.(status := Removing)).value;
      r.world.calls == s.calls + [Save(marked, false)]
      && r.config == marked && r.err == Some(ExternalFailure(Next(s)))
  {
  }

  /**
   * Once the first save succeeded, the backend is called and the
   * environment it returns saved, whatever the backend's outcome; a failed
   * save is reported first; after a backend failure the environment stays
   * recorded, as Removing.
   */
  lemma RemoveEnvBackendOutcome(o: Oracle, s: WorldState, cfg: Records, cluster: Cluster, env: Env, hasHook: bool)
    requires cluster.name in cfg && o.succeeds(Next(s))
    requires !o.succeeds(Next(s) + 1) || !o.succeeds(Next(s) + 2)
    ensures var r := RemoveEnvRun(o, s, cfg, cluster, env, hasHook);
      var n, removing := Next(s), env.(status := Removing);
      var provided := ProvidedEnv(o, n + 1, removing);
      var recorded := PutEnv(cfg, cluster.name, provided).value;
      r.world.calls == s.calls + [Save(PutEnv(cfg, cluster.name, removing).value, true),
                                  Call.RemoveEnv(cluster, removing, o.succeeds(n + 1)),
                                  Save(recorded, o.succeeds(n + 2))]
      && r.entity == provided && r.config == recorded
      && recorded[cluster.name].envs[env.name].status == Removing
      && r.err == Some(ExternalFailure(if o.succeeds(n + 2) then n + 1 else n + 2))
  {
    PutEnvTwice(cfg, cluster.name, env.(status := Removing), ProvidedEnv(o, Next(s) + 1, env.(status := Removing)));
  }

  /**
   * Backend and save succeeded, no hook: the environment is erased from the
   * record and the record saved.
   */
  lemma RemoveEnvCompletion(o: Oracle, s: WorldState, cfg: Records, cluster: Cluster, env: Env)
    requires cluster.name in cfg && o.succeeds(Next(s)) && o.succeeds(Next(s) + 1) && o.succeeds(Next(s) + 2)
    ensures var r := RemoveEnvRun(o, s, cfg, cluster, env, false);
      var n, removing := Next(s), env.(status := Removing);
      var provided := ProvidedEnv(o, n + 1, removing);
      var recorded := PutEnv(cfg, cluster.name, provided).value;
      var erased := DeleteEnv(recorded, cluster.name, env.name).value;
      r.entity == provided
      && r.world.calls == s.calls + [Save(PutEnv(cfg, cluster.name, removing).value, true),
                                     Call.RemoveEnv(cluster, removing, true), Save(recorded, true),
                                     Save(erased, o.succeeds(n + 3))]
      && r.config == erased && env.name !in erased[cluster.name].envs && r.err == ErrorAt(o, n + 3)
  {
    PutEnvTwice(cfg, cluster.name, env.(status := Removing), ProvidedEnv(o, Next(s) + 1, env.(status := Removing)));
  }

  /**
   * Backend and save succeeded, with a hook: the hook runs next; its failure
   * leaves the environment recorded; otherwise the environment is erased
   * from the record and the record saved.
   */
  lemma RemoveEnvCompletionWithHook(o: Oracle, s: WorldState, cfg: Records, cluster: Cluster, env: Env)
    requires cluster.name in cfg && o.succeeds(Next(s)) && o.succeeds(Next(s) + 1) && o.succeeds(Next(s) + 2)
    ensures var r := RemoveEnvRun(o, s, cfg, cluster, env, true);
      var n, removing := Next(s), env.(status := Removing);
      var provided := ProvidedEnv(o, n + 1, removing);
      var recorded := PutEnv(cfg, cluster.name, provided).value;
      var erased := DeleteEnv(recorded, cluster.name, env.name).value;
      var prefix := [Save(PutEnv(cfg, cluster.name, removing).value, true), Call.RemoveEnv(cluster, removing, true),
                     Save(recorded, true)];
      r.entity == provided
      && (!o.succeeds(n + 3) ==>
            r.world.calls == s.calls + prefix + [RunHook(cluster, provided, false)]
            && r.config == recorded && r.err == Some(ExternalFailure(n + 3)))
      && (o.succeeds(n + 3) ==>
            r.world.calls == s.calls + prefix + [RunHook(cluster, provided, true), Save(erased, o.succeeds(n + 4))]
            && r.config == erased && env.name !in erased[cluster.name].envs && r.err == ErrorAt(o, n + 4))
  {
    var removing := env.(status := Removing);
    var marked := UpdateEnvInConfigRun(o, s, cfg, cluster, removing);
    var removed := RemoveEnvStep(o, marked.world, cluster, removing);
    var saved := UpdateEnvInConfigRun(o, removed.world, marked.config, cluster, removed.value);
    PutEnvTwice(cfg, cluster.name, removing, removed.value);
    assert saved.config == PutEnv(cfg, cluster.name, removed.value).value;
    assert saved.world.calls == s.calls + [Save(marked.config, true), Call.RemoveEnv(cluster, removing, true),
                                           Save(saved.config, true)];
    assert RemoveEnvRun(o, s, cfg, cluster, env, true)
      == RemoveEnvFinishRun(o, saved.world, saved.config, cluster, removed.value, true);
  }

  /** RemoveEnv, with `hasHook` telling whether a pre-remove hook is given. */
  method RemoveEnv(w: World, config: Config, cluster: Cluster, env: Env, hasHook: bool)
    returns (env': Env, err: Option<Error>)
    modifies w, config
    ensures var r := RemoveEnvRun(w.oracle, old(w.state), old(config.clusters), cluster, env, hasHook);
      w.state == r.world && config.clusters == r.config && env' == r.entity && err == r.err
  {
    env' := env.(status := Removing);
    err := UpdateEnvInConfig(w, config, cluster, env');
    if err.Some? {
      return;
    }
    var removeEnvErr;
    env', removeEnvErr := w.RemoveEnv(cluster, env');
    err := UpdateEnvInConfig(w, config, cluster, env');
    if err.Some? {
      return;
    }
    if removeEnvErr.Some? {
      err := removeEnvErr;
      return;
    }
    if hasHook {
      err := w.RunHook(cluster, env');
      if err.Some? {
        return;
      }
    }
    err := RemoveEnvInConfig(w, config, cluster, env');
  }

  // ---------------------------------------------------------------------------
  // actions/open_port.go and actions/close_port.go

  /**
   * OpenPort: the backend is called once, then the environment is saved
   * whatever its outcome; a failed save is reported first. The port set is
   * left to the provider: the action itself changes nothing in the
   * environment.
   */
  function OpenPortRun(o: Oracle, s: WorldState, cfg: Records, cluster: Cluster, env: Env, port: string)
    : (r: Run<Env>)
    ensures Extends(s, r.world) && NoOutputs(Since(s, r.world))
    ensures r.entity == ProvidedEnv(o, Next(s), env)
    ensures var n := Next(s);
      (cluster.name !in cfg ==>
         r.world.calls == s.calls + [Call.OpenPort(cluster, env, port, o.succeeds(n))]
         && r.config == cfg && r.err == Some(ClusterNotExists(cluster.name)))
      && (cluster.name in cfg ==>
            r.config == PutEnv(cfg, cluster.name, r.entity).value
            && r.world.calls == s.calls + [Call.OpenPort(cluster, env, port, o.succeeds(n)), Save(r.config, o.succeeds(n + 1))]
            && r.err == (if !o.succeeds(n + 1) then Some(ExternalFailure(n + 1)) else ErrorAt(o, n)))
  {
    var sent := OpenPortStep(o, s, cluster, env, port);
    var saved := UpdateEnvInConfigRun(o, sent.world, cfg, cluster, sent.value);
    if saved.err.Some? then Run(saved.world, saved.config, sent.value, saved.err)
    else Run(saved.world, saved.config, sent.value, sent.err)
  }

  method OpenPort(w: World, config: Config, cluster: Cluster, env: Env, portToOpen: string)
    returns (env': Env, err: Option<Error>)
    modifies w, config
    ensures var r := OpenPortRun(w.oracle, old(w.state), old(config.clusters), cluster, env, portToOpen);
      w.state == r.world && config.clusters == r.config && env' == r.entity && err == r.err
  {
    var openPortErr;
    env', openPortErr := w.OpenPort(cluster, env, portToOpen);
    err := UpdateEnvInConfig(w, config, cluster, env');
    if err.Some? {
      return;
    }
    err := openPortErr;
  }

  /** ClosePort: the same discipline as OpenPort. */
  function ClosePortRun(o: Oracle, s: WorldState, cfg: Records, cluster: Cluster, env: Env, port: string)
    : (r: Run<Env>)
    ensures Extends(s, r.world) && NoOutputs(Since(s, r.world))
    ensures r.entity == ProvidedEnv(o, Next(s), env)
    ensures var n := Next(s);
      (cluster.name !in cfg ==>
         r.world.calls == s.calls + [Call.ClosePort(cluster, env, port, o.succeeds(n))]
         && r.config == cfg && r.err == Some(ClusterNotExists(cluster.name)))
      && (cluster.name in cfg ==>
            r.config == PutEnv(cfg, cluster.name, r.entity).value
            && r.world.calls == s.calls + [Call.ClosePort(cluster, env, port, o.succeeds(n)), Save(r.config, o.succeeds(n + 1))]
            && r.err == (if !o.succeeds(n + 1) then Some(ExternalFailure(n + 1)) else ErrorAt(o, n)))
  {
    var closed := ClosePortStep(o, s, cluster, env, port);
    var saved := UpdateEnvInConfigRun(o, closed.world, cfg, cluster, closed.value);
    if saved.err.Some? then Run(saved.world, saved.config, closed.value, saved.err)
    else Run(saved.world, saved.config, closed.value, closed.err)
  }

  method ClosePort(w: World, config: Config, cluster: Cluster, env: Env, portToClose: string)
    returns (env': Env, err: Option<Error>)
    modifies w, config
    ensures var r := ClosePortRun(w.oracle, old(w.state), old(config.clusters), cluster, env, portToClose);
      w.state == r.world && config.clusters == r.config && env' == r.entity && err == r.err
  {
    var closePortErr;
    env', closePortErr := w.ClosePort(cluster, env, portToClose);
    err := UpdateEnvInConfig(w, config, cluster, env');
    if err.Some? {
      return;
    }
    err := closePortErr;
  }
}
