/**
 * The world the core acts on: the cloud service of entities/cloud_service.go,
 * the builder that yields it, the output handler, the pre-remove hook and
 * the removal confirmation. Their behaviour is an oracle: for the call made
 * at position n of the trace it decides whether the call succeeds and what a
 * provider writes into the entity it is handed. Every call is appended to the
 * trace with the arguments it received and its outcome, and the last record
 * saved is what a lookup returns.
 */
module Cloud {
  import opened Wrappers
  import opened Entities
  import opened Configuration

  /** What a feature hands to its output handler. */
  datatype Output =
    | ErrorOutput(error: Error)
    | InitContent(cluster: Cluster, env: Env, envCreated: bool)
    | RemoveContent(cluster: Cluster, env: Env)
    | OpenPortContent(cluster: Cluster, env: Env, portOpened: string, portAlreadyOpened: bool)
    | ClosePortContent(cluster: Cluster, env: Env, portClosed: string, portAlreadyClosed: bool)
    | EditContent(cluster: Cluster, env: Env)
    | UninstallContent(yoloAlreadyUninstalled: bool, successMessage: string, alreadyUninstalledMessage: string)

  /** One call into the world, with the arguments as passed and whether it succeeded. */
  datatype Call =
    | Build(ok: bool)
    | CheckInstanceType(instanceType: string, ok: bool)
    | CreateStorage(ok: bool)
    | RemoveStorage(ok: bool)
    | Lookup(ok: bool)
    | Save(snapshot: Records, ok: bool)
    | CreateCluster(cluster: Cluster, ok: bool)
    | RemoveCluster(cluster: Cluster, ok: bool)
    | CreateEnv(cluster: Cluster, env: Env, ok: bool)
    | RemoveEnv(cluster: Cluster, env: Env, ok: bool)
    | OpenPort(cluster: Cluster, env: Env, port: string, ok: bool)
    | ClosePort(cluster: Cluster, env: Env, port: string, ok: bool)
    | RunHook(cluster: Cluster, env: Env, ok: bool)
    | Confirm(ok: bool, answer: bool)
    | HandleOutput(output: Output, ok: bool)

  /** Calls that change the remote side: storage, the saved record, infrastructure, the hook. */
  predicate Mutating(c: Call) {
    c.CreateStorage? || c.RemoveStorage? || c.Save? || c.CreateCluster? || c.RemoveCluster?
    || c.CreateEnv? || c.RemoveEnv? || c.OpenPort? || c.ClosePort? || c.RunHook?
  }

  /**
   * The behaviour of the world: whether the call at a position succeeds,
   * what a provider writes into a cluster or an environment it is handed
   * at that position, and the answer to a confirmation prompt.
   */
  datatype Oracle = Oracle(
    succeeds: nat -> bool,
    clusterInfrastructure: (nat, Cluster) -> string,
    envInfrastructure: (nat, Env) -> EnvInfrastructure,
    confirms: nat -> bool)

  /** The calls made so far, and the record last saved (None: not installed). */
  datatype WorldState = WorldState(calls: seq<Call>, stored: Option<Records>)

  /** The result of one call: the new world, the value the call yields, and its error. */
  datatype Step<T> = Step(world: WorldState, value: T, err: Option<Error>)

  /** The error of the call at position n, if it fails. */
  function ErrorAt(o: Oracle, n: nat): Option<Error> {
    if o.succeeds(n) then None else Some(ExternalFailure(n))
  }

  function Next(s: WorldState): nat {
    |s.calls|
  }

  function Append(s: WorldState, c: Call): WorldState {
    WorldState(s.calls + [c], s.stored)
  }

  /** `s'` continues `s`: the calls of `s` come first. */
  predicate Extends(s: WorldState, s': WorldState) {
    s.calls <= s'.calls
  }

  /** The calls made since `s`. */
  function Since(s: WorldState, s': WorldState): seq<Call>
    requires Extends(s, s')
  {
    s'.calls[|s.calls|..]
  }

  /** The calls made over two consecutive stretches are those of the first, then those of the second. */
  lemma SinceConcat(s1: WorldState, s2: WorldState, s3: WorldState)
    requires Extends(s1, s2) && Extends(s2, s3)
    ensures Extends(s1, s3)
    ensures Since(s1, s3) == Since(s1, s2) + Since(s2, s3)
    ensures |Since(s1, s3)| == |Since(s1, s2)| + |Since(s2, s3)|
  {
    assert s3.calls == s1.calls + Since(s1, s2) + Since(s2, s3);
  }

  /** Two consecutive stretches without an output make one. */
  lemma ChainNoOutputs(s1: WorldState, s2: WorldState, s3: WorldState)
    requires Extends(s1, s2) && Extends(s2, s3)
    requires NoOutputs(Since(s1, s2)) && NoOutputs(Since(s2, s3))
    ensures Extends(s1, s3) && NoOutputs(Since(s1, s3))
  {
    SinceConcat(s1, s2, s3);
  }

  predicate NoOutputs(t: seq<Call>) {
    forall i :: 0 <= i < |t| ==> !t[i].HandleOutput?
  }

  predicate NoMutations(t: seq<Call>) {
    forall i :: 0 <= i < |t| ==> !Mutating(t[i])
  }

  function BuildStep(o: Oracle, s: WorldState): Step<()> {
    Step(Append(s, Build(o.succeeds(Next(s)))), (), ErrorAt(o, Next(s)))
  }

  function CheckInstanceTypeStep(o: Oracle, s: WorldState, instanceType: string): Step<()> {
    Step(Append(s, CheckInstanceType(instanceType, o.succeeds(Next(s)))), (), ErrorAt(o, Next(s)))
  }

  function CreateStorageStep(o: Oracle, s: WorldState): Step<()> {
    Step(Append(s, CreateStorage(o.succeeds(Next(s)))), (), ErrorAt(o, Next(s)))
  }

  /** Removing the storage forgets the saved record. */
  function RemoveStorageStep(o: Oracle, s: WorldState): Step<()> {
    var ok := o.succeeds(Next(s));
    Step(WorldState(s.calls + [RemoveStorage(ok)], if ok then None else s.stored), (), ErrorAt(o, Next(s)))
  }

  /** The lookup yields the saved record; with none saved, it reports that Yolo is not installed. */
  function LookupStep(o: Oracle, s: WorldState): Step<Records> {
    var ok := o.succeeds(Next(s));
    var w := Append(s, Lookup(ok));
    if !ok then Step(w, map[], ErrorAt(o, Next(s)))
    else if s.stored.None? then Step(w, map[], Some(YoloNotInstalled))
    else Step(w, s.stored.value, None)
  }

  /** A successful save replaces the saved record by the snapshot. */
  function SaveStep(o: Oracle, s: WorldState, snapshot: Records): Step<()> {
    var ok := o.succeeds(Next(s));
    Step(WorldState(s.calls + [Save(snapshot, ok)], if ok then Some(snapshot) else s.stored), (), ErrorAt(o, Next(s)))
  }

  /** The provider may rewrite the cluster's infrastructure, whether or not it succeeds. */
  function CreateClusterStep(o: Oracle, s: WorldState, cluster: Cluster): Step<Cluster> {
    var c := cluster.(infrastructureJSON := o.clusterInfrastructure(Next(s), cluster));
    Step(Append(s, CreateCluster(cluster, o.succeeds(Next(s)))), c, ErrorAt(o, Next(s)))
  }

  function RemoveClusterStep(o: Oracle, s: WorldState, cluster: Cluster): Step<Cluster> {
    var c := cluster.(infrastructureJSON := o.clusterInfrastructure(Next(s), cluster));
    Step(Append(s, RemoveCluster(cluster, o.succeeds(Next(s)))), c, ErrorAt(o, Next(s)))
  }

  /** The provider may rewrite the environment's infrastructure fields, whether or not it succeeds. */
  function CreateEnvStep(o: Oracle, s: WorldState, cluster: Cluster, env: Env): Step<Env> {
    var e := env.(infrastructure := o.envInfrastructure(Next(s), env));
    Step(Append(s, CreateEnv(cluster, env, o.succeeds(Next(s)))), e, ErrorAt(o, Next(s)))
  }

  function RemoveEnvStep(o: Oracle, s: WorldState, cluster: Cluster, env: Env): Step<Env> {
    var e := env.(infrastructure := o.envInfrastructure(Next(s), env));
    Step(Append(s, RemoveEnv(cluster, env, o.succeeds(Next(s)))), e, ErrorAt(o, Next(s)))
  }

  function OpenPortStep(o: Oracle, s: WorldState, cluster: Cluster, env: Env, port: string): Step<Env> {
    var e := env.(infrastructure := o.envInfrastructure(Next(s), env));
    Step(Append(s, OpenPort(cluster, env, port, o.succeeds(Next(s)))), e, ErrorAt(o, Next(s)))
  }

  function ClosePortStep(o: Oracle, s: WorldState, cluster: Cluster, env: Env, port: string): Step<Env> {
    var e := env.(infrastructure := o.envInfrastructure(Next(s), env));
    Step(Append(s, ClosePort(cluster, env, port, o.succeeds(Next(s)))), e, ErrorAt(o, Next(s)))
  }

  function RunHookStep(o: Oracle, s: WorldState, cluster: Cluster, env: Env): Step<()> {
    Step(Append(s, RunHook(cluster, env, o.succeeds(Next(s)))), (), ErrorAt(o, Next(s)))
  }

  /** The confirmation prompt: an error, or the user's answer. */
  function ConfirmStep(o: Oracle, s: WorldState): Step<bool> {
    var ok := o.succeeds(Next(s));
    var answer := ok && o.confirms(Next(s));
    Step(Append(s, Confirm(ok, answer)), answer, ErrorAt(o, Next(s)))
  }

  function HandleOutputStep(o: Oracle, s: WorldState, output: Output): Step<()> {
    Step(Append(s, HandleOutput(output, o.succeeds(Next(s)))), (), ErrorAt(o, Next(s)))
  }

  /**
   * The world as the core sees it. Each method is one call; its contract
   * is the step function of that call.
   */
  class World {
    const oracle: Oracle
    var state: WorldState

    constructor(oracle: Oracle, state: WorldState)
      ensures this.oracle == oracle && this.state == state
    {
      this.oracle := oracle;
      this.state := state;
    }

    method Build() returns (err: Option<Error>)
      modifies this
      ensures var st := BuildStep(oracle, old(state)); state == st.world && err == st.err
    {
      var st := BuildStep(oracle, state);
      state := st.world;
      err := st.err;
    }

    method CheckInstanceTypeValidity(instanceType: string) returns (err: Option<Error>)
      modifies this
      ensures var st := CheckInstanceTypeStep(oracle, old(state), instanceType); state == st.world && err == st.err
    {
      var st := CheckInstanceTypeStep(oracle, state, instanceType);
      state := st.world;
      err := st.err;
    }

    method CreateYoloConfigStorage() returns (err: Option<Error>)
      modifies this
      ensures var st := CreateStorageStep(oracle, old(state)); state == st.world && err == st.err
    {
      var st := CreateStorageStep(oracle, state);
      state := st.world;
      err := st.err;
    }

    method RemoveYoloConfigStorage() returns (err: Option<Error>)
      modifies this
      ensures var st := RemoveStorageStep(oracle, old(state)); state == st.world && err == st.err
    {
      var st := RemoveStorageStep(oracle, state);
      state := st.world;
      err := st.err;
    }

    method LookupYoloConfig() returns (records: Records, err: Option<Error>)
      modifies this
      ensures var st := LookupStep(oracle, old(state)); state == st.world && records == st.value && err == st.err
    {
      var st := LookupStep(oracle, state);
      state := st.world;
      records, err := st.value, st.err;
    }

    method SaveYoloConfig(config: Config) returns (err: Option<Error>)
      modifies this
      ensures var st := SaveStep(oracle, old(state), config.clusters); state == st.world && err == st.err
    {
      var st := SaveStep(oracle, state, config.clusters);
      state := st.world;
      err := st.err;
    }

    method CreateCluster(cluster: Cluster) returns (cluster': Cluster, err: Option<Error>)
      modifies this
      ensures var st := CreateClusterStep(oracle, old(state), cluster);
        state == st.world && cluster' == st.value && err == st.err
    {
      var st := CreateClusterStep(oracle, state, cluster);
      state := st.world;
      cluster', err := st.value, st.err;
    }

    method RemoveCluster(cluster: Cluster) returns (cluster': Cluster, err: Option<Error>)
      modifies this
      ensures var st := RemoveClusterStep(oracle, old(state), cluster);
        state == st.world && cluster' == st.value && err == st.err
    {
      var st := RemoveClusterStep(oracle, state, cluster);
      state := st.world;
      cluster', err := st.value, st.err;
    }

    method CreateEnv(cluster: Cluster, env: Env) returns (env': Env, err: Option<Error>)
      modifies this
      ensures var st := CreateEnvStep(oracle, old(state), cluster, env);
        state == st.world && env' == st.value && err == st.err
    {
      var st := CreateEnvStep(oracle, state, cluster, env);
      state := st.world;
      env', err := st.value, st.err;
    }

    method RemoveEnv(cluster: Cluster, env: Env) returns (env': Env, err: Option<Error>)
      modifies this
      ensures var st := RemoveEnvStep(oracle, old(state), cluster, env);
        state == st.world && env' == st.value && err == st.err
    {
      var st := RemoveEnvStep(oracle, state, cluster, env);
      state := st.world;
      env', err := st.value, st.err;
    }

    method OpenPort(cluster: Cluster, env: Env, port: string) returns (env': Env, err: Option<Error>)
      modifies this
      ensures var st := OpenPortStep(oracle, old(state), cluster, env, port);
        state == st.world && env' == st.value && err == st.err
    {
      var st := OpenPortStep(oracle, state, cluster, env, port);
      state := st.world;
      env', err := st.value, st.err;
    }

    method ClosePort(cluster: Cluster, env: Env, port: string) returns (env': Env, err: Option<Error>)
      modifies this
      ensures var st := ClosePortStep(oracle, old(state), cluster, env, port);
        state == st.world && env' == st.value && err == st.err
    {
      var st := ClosePortStep(oracle, state, cluster, env, port);
      state := st.world;
      env', err := st.value, st.err;
    }

    /** HookRunner.Run. */
    method RunHook(cluster: Cluster, env: Env) returns (err: Option<Error>)
      modifies this
      ensures var st := RunHookStep(oracle, old(state), cluster, env); state == st.world && err == st.err
    {
      var st := RunHookStep(oracle, state, cluster, env);
      state := st.world;
      err := st.err;
    }

    /** The ConfirmRemove callback. */
    method Confirm() returns (confirmed: bool, err: Option<Error>)
      modifies this
      ensures var st := ConfirmStep(oracle, old(state)); state == st.world && confirmed == st.value && err == st.err
    {
      var st := ConfirmStep(oracle, state);
      state := st.world;
      confirmed, err := st.value, st.err;
    }

    method HandleOutput(output: Output) returns (err: Option<Error>)
      modifies this
      ensures var st := HandleOutputStep(oracle, old(state), output); state == st.world && err == st.err
    {
      var st := HandleOutputStep(oracle, state, output);
      state := st.world;
      err := st.err;
    }
  }
}
