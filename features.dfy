/**
 * The feature workflows of the features package: status-guarded sequences
 * of lookups and actions that end by handing one output to the output
 * handler. Each feature is a function over the world (its specification)
 * and, except for the read-only Edit, a method that performs the same calls
 * on a `World`.
 */
module Features {
  import opened Wrappers
  import opened Entities
  import opened Configuration
  import opened Cloud
  import opened Actions

  /** entities.DefaultClusterName; its definition is not part of this model. */
  const DefaultClusterName := "default"

  /** The trace ends with its only call to the output handler. */
  predicate EndsWithOneOutput(t: seq<Call>) {
    |t| >= 1 && t[|t| - 1].HandleOutput? && NoOutputs(t[..|t| - 1])
  }

  function LastOutput(t: seq<Call>): Output
    requires EndsWithOneOutput(t)
  {
    t[|t| - 1].output
  }

  /**
   * The reporting discipline shared by the features: from `s` to `s'` the
   * output handler is called once, last; after an error output the feature
   * returns that error whatever the handler did (handleError); after a
   * content output it returns the handler's own result.
   */
  predicate Reported(o: Oracle, s: WorldState, s': WorldState, err: Option<Error>) {
    Extends(s, s') && EndsWithOneOutput(Since(s, s'))
    && var out := LastOutput(Since(s, s'));
    (out.ErrorOutput? ==> err == Some(out.error))
    && (!out.ErrorOutput? ==> err == ErrorAt(o, |s'.calls| - 1))
  }

  /** The world after a feature and the error it returns. */
  datatype Outcome = Outcome(world: WorldState, err: Option<Error>)

  /** handleError: the error goes to the output handler and is returned, whatever the handler does. */
  function Report(o: Oracle, s0: WorldState, s: WorldState, e: Error): (r: Outcome)
    requires Extends(s0, s) && NoOutputs(Since(s0, s))
    ensures Reported(o, s0, r.world, r.err) && r.err == Some(e)
    ensures LastOutput(Since(s0, r.world)) == ErrorOutput(e)
    ensures r.world.calls == s.calls + [HandleOutput(ErrorOutput(e), o.succeeds(Next(s)))]
    ensures Since(s0, r.world) == Since(s0, s) + [HandleOutput(ErrorOutput(e), o.succeeds(Next(s)))]
    ensures NoMutations(Since(s0, s)) ==> NoMutations(Since(s0, r.world))
    ensures r.world.stored == s.stored
  {
    var h := HandleOutputStep(o, s, ErrorOutput(e));
    assert Since(s0, h.world) == Since(s0, s) + [HandleOutput(ErrorOutput(e), o.succeeds(Next(s)))];
    Outcome(h.world, Some(e))
  }

  /** The final output of a feature that got through: the handler's result is returned. */
  function Emit(o: Oracle, s0: WorldState, s: WorldState, out: Output): (r: Outcome)
    requires Extends(s0, s) && NoOutputs(Since(s0, s)) && !out.ErrorOutput?
    ensures Reported(o, s0, r.world, r.err) && r.err == ErrorAt(o, Next(s))
    ensures LastOutput(Since(s0, r.world)) == out
    ensures r.world.calls == s.calls + [HandleOutput(out, o.succeeds(Next(s)))]
    ensures Since(s0, r.world) == Since(s0, s) + [HandleOutput(out, o.succeeds(Next(s)))]
    ensures NoMutations(Since(s0, s)) ==> NoMutations(Since(s0, r.world))
    ensures r.world.stored == s.stored
  {
    var h := HandleOutputStep(o, s, out);
    assert Since(s0, h.world) == Since(s0, s) + [HandleOutput(out, o.succeeds(Next(s)))];
    Outcome(h.world, h.err)
  }

  /** handleError, as the features' methods call it. */
  method HandleError(w: World, e: Error) returns (err: Option<Error>)
    modifies w
    ensures w.state == HandleOutputStep(w.oracle, old(w.state), ErrorOutput(e)).world && err == Some(e)
  {
    var handlerErr := w.HandleOutput(ErrorOutput(e));
    err := Some(e);
  }

  // ---------------------------------------------------------------------------
  // The lookup of an environment shared by Remove, OpenPort, ClosePort and Edit

  /** The default cluster and the environment looked up in it. */
  datatype Target = Target(cluster: Cluster, env: Env)

  /** GetCluster on the default cluster, then GetEnv by that cluster's own name. */
  function LookupEnv(r: Records, envName: string): (t: Result<Target, Error>)
    ensures DefaultClusterName !in r ==> t == Failure(ClusterNotExists(DefaultClusterName))
    ensures DefaultClusterName in r ==>
      var c := r[DefaultClusterName].cluster;
      t == (match GetEnv(r, c.name, envName)
            case Success(e) => Success(Target(c, e))
            case Failure(err) => Failure(err))
  {
    match GetCluster(r, DefaultClusterName)
    case Failure(e) => Failure(e)
    case Success(cluster) =>
      match GetEnv(r, cluster.name, envName)
      case Failure(e) => Failure(e)
      case Success(env) => Success(Target(cluster, env))
  }

  /** In a record where every entry is filed under its own name, the lookup finds exactly the filed environment. */
  lemma LookupEnvValid(r: Records, envName: string)
    requires Valid(r)
    ensures LookupEnv(r, envName).Success? <==> DefaultClusterName in r && envName in r[DefaultClusterName].envs
    ensures LookupEnv(r, envName).Success? ==>
      LookupEnv(r, envName).value == Target(r[DefaultClusterName].cluster, r[DefaultClusterName].envs[envName])
  {
  }

  /**
   * What Build, LookupYoloConfig, GetCluster and GetEnv yield, in this
   * order, for a feature started in `s`: the first error, or the target.
   */
  function Locate(o: Oracle, s: WorldState, envName: string): Result<Target, Error> {
    if !o.succeeds(Next(s)) then Failure(ExternalFailure(Next(s)))
    else if !o.succeeds(Next(s) + 1) then Failure(ExternalFailure(Next(s) + 1))
    else if s.stored.None? then Failure(YoloNotInstalled)
    else LookupEnv(s.stored.value, envName)
  }

  /** The calls Build and LookupYoloConfig leave, and the record found, given that both succeed. */
  function LocateSteps(o: Oracle, s: WorldState): (r: Step<Records>)
    ensures Extends(s, r.world) && NoOutputs(Since(s, r.world)) && NoMutations(Since(s, r.world))
    ensures |Since(s, r.world)| <= 2 && r.world.stored == s.stored
    ensures r.err.Some? <==> !o.succeeds(Next(s)) || !o.succeeds(Next(s) + 1) || s.stored.None?
    ensures r.err.Some? ==> Locate(o, s, "").Failure? && r.err == Some(Locate(o, s, "").error)
    ensures r.err.None? ==>
      r.world.calls == s.calls + [Build(true), Lookup(true)] && r.value == s.stored.value
  {
    var b := BuildStep(o, s);
    if b.err.Some? then Step(b.world, map[], b.err)
    else LookupStep(o, b.world)
  }

  // ---------------------------------------------------------------------------
  // features/edit.go

  /**
   * EditFeature.Execute, read-only: the looked-up environment is handed
   * out with its cluster if it is Created; Removing is refused before
   * Creating.
   */
  function EditRun(o: Oracle, s: WorldState, repo: ResolvedEnvRepository): (r: Outcome)
    ensures Reported(o, s, r.world, r.err)
    ensures NoMutations(Since(s, r.world))
    ensures var envName, out := BuildEnvNameFromResolvedRepo(repo), LastOutput(Since(s, r.world));
      match Locate(o, s, envName)
      case Failure(e) => r.err == Some(e) && out == ErrorOutput(e)
      case Success(t) =>
        (t.env.status == Removing ==> r.err == Some(EditRemovingEnv(envName)) && out == ErrorOutput(r.err.value))
        && (t.env.status == Creating ==> r.err == Some(EditCreatingEnv(envName)) && out == ErrorOutput(r.err.value))
        && (t.env.status == Created ==> out == EditContent(t.cluster, t.env) && r.err == ErrorAt(o, Next(s) + 2))
  {
    var envName := BuildEnvNameFromResolvedRepo(repo);
    var l := LocateSteps(o, s);
    if l.err.Some? then Report(o, s, l.world, l.err.value)
    else
      match LookupEnv(l.value, envName)
      case Failure(e) => Report(o, s, l.world, e)
      case Success(t) =>
        if t.env.status == Removing then Report(o, s, l.world, EditRemovingEnv(envName))
        else if t.env.status == Creating then Report(o, s, l.world, EditCreatingEnv(envName))
        else Emit(o, s, l.world, EditContent(t.cluster, t.env))
  }

  // ---------------------------------------------------------------------------
  // features/open_port.go and features/close_port.go

  /**
   * A feature that ends with an action ending in `world` with error `err`:
   * one output follows the action's calls; an error of the action is what
   * is output and returned; otherwise `content` is output and the
   * handler's result returned.
   */
  predicate ActionReported(o: Oracle, r: Outcome, world: WorldState, err: Option<Error>, content: Output) {
    var out := if err.Some? then ErrorOutput(err.value) else content;
    r.world.calls == world.calls + [HandleOutput(out, o.succeeds(Next(world)))]
    && r.err == (if err.Some? then err else ErrorAt(o, Next(world)))
  }

  /** `env.OpenedPorts[port]` in Go: a port that is not in the map reads as false. */
  predicate PortOpened(env: Env, port: string) {
    port in env.infrastructure.openedPorts && env.infrastructure.openedPorts[port]
  }

  /**
   * OpenPortFeature.Execute: after the lookup, Removing is refused before
   * Creating; a port already open is reported without calling the action;
   * otherwise actions.OpenPort runs once and the environment as it left it
   * is handed out.
   */
  function OpenPortFeatureRun(o: Oracle, s: WorldState, repo: ResolvedEnvRepository, port: string): (r: Outcome)
    ensures Reported(o, s, r.world, r.err)
  {
    var envName := BuildEnvNameFromResolvedRepo(repo);
    var l := LocateSteps(o, s);
    if l.err.Some? then Report(o, s, l.world, l.err.value)
    else
      match LookupEnv(l.value, envName)
      case Failure(e) => Report(o, s, l.world, e)
      case Success(t) =>
        if t.env.status == Removing then Report(o, s, l.world, OpenPortRemovingEnv(envName))
        else if t.env.status == Creating then Report(o, s, l.world, OpenPortCreatingEnv(envName))
        else if PortOpened(t.env, port) then Emit(o, s, l.world, OpenPortContent(t.cluster, t.env, port, true))
        else
          var a := OpenPortRun(o, l.world, l.value, t.cluster, t.env, port);
          ChainNoOutputs(s, l.world, a.world);
          if a.err.Some? then Report(o, s, a.world, a.err.value)
          else Emit(o, s, a.world, OpenPortContent(t.cluster, a.entity, port, false))
  }

  /**
   * ClosePortFeature.Execute: the mirror image of OpenPort; a port that is
   * not open, missing or mapped to false alike, counts as already closed.
   */
  function ClosePortFeatureRun(o: Oracle, s: WorldState, repo: ResolvedEnvRepository, port: string): (r: Outcome)
    ensures Reported(o, s, r.world, r.err)
  {
    var envName := BuildEnvNameFromResolvedRepo(repo);
    var l := LocateSteps(o, s);
    if l.err.Some? then Report(o, s, l.world, l.err.value)
    else
      match LookupEnv(l.value, envName)
      case Failure(e) => Report(o, s, l.world, e)
      case Success(t) =>
        if t.env.status == Removing then Report(o, s, l.world, ClosePortRemovingEnv(envName))
        else if t.env.status == Creating then Report(o, s, l.world, ClosePortCreatingEnv(envName))
        else if !PortOpened(t.env, port) then Emit(o, s, l.world, ClosePortContent(t.cluster, t.env, port, true))
        else
          var a := ClosePortRun(o, l.world, l.value, t.cluster, t.env, port);
          ChainNoOutputs(s, l.world, a.world);
          if a.err.Some? then Report(o, s, a.world, a.err.value)
          else Emit(o, s, a.world, ClosePortContent(t.cluster, a.entity, port, false))
  }

  /** OpenPort: a failed lookup is reported and returned, with no mutating call. */
  lemma OpenPortLookupFailure(o: Oracle, s: WorldState, repo: ResolvedEnvRepository, port: string)
    requires Locate(o, s, BuildEnvNameFromResolvedRepo(repo)).Failure?
    ensures var r := OpenPortFeatureRun(o, s, repo, port);
      var e := Locate(o, s, BuildEnvNameFromResolvedRepo(repo)).error;
      r.err == Some(e) && LastOutput(Since(s, r.world)) == ErrorOutput(e) && NoMutations(Since(s, r.world))
  {
  }

  /** OpenPort: a Removing environment is refused before a Creating one, and neither reaches the backend. */
  lemma OpenPortStatusGuards(o: Oracle, s: WorldState, repo: ResolvedEnvRepository, port: string)
    requires Locate(o, s, BuildEnvNameFromResolvedRepo(repo)).Success?
    requires Locate(o, s, BuildEnvNameFromResolvedRepo(repo)).value.env.status != Created
    ensures var r, envName := OpenPortFeatureRun(o, s, repo, port), BuildEnvNameFromResolvedRepo(repo);
      var status := Locate(o, s, envName).value.env.status;
      r.err == Some(if status == Removing then OpenPortRemovingEnv(envName) else OpenPortCreatingEnv(envName))
      && LastOutput(Since(s, r.world)) == ErrorOutput(r.err.value) && NoMutations(Since(s, r.world))
  {
  }

  /** OpenPort: a port already open is reported as such, without calling the action. */
  lemma OpenPortAlready(o: Oracle, s: WorldState, repo: ResolvedEnvRepository, port: string)
    requires Locate(o, s, BuildEnvNameFromResolvedRepo(repo)).Success?
    requires Locate(o, s, BuildEnvNameFromResolvedRepo(repo)).value.env.status == Created
    requires PortOpened(Locate(o, s, BuildEnvNameFromResolvedRepo(repo)).value.env, port)
    ensures var r, t := OpenPortFeatureRun(o, s, repo, port), Locate(o, s, BuildEnvNameFromResolvedRepo(repo)).value;
      LastOutput(Since(s, r.world)) == OpenPortContent(t.cluster, t.env, port, true)
      && NoMutations(Since(s, r.world)) && r.err == ErrorAt(o, Next(s) + 2)
  {
  }

  /**
   * OpenPort: otherwise the action runs, once, right after the lookup; its
   * error is reported and returned; on success the environment as the
   * provider left it is handed out.
   */
  lemma OpenPortActs(o: Oracle, s: WorldState, repo: ResolvedEnvRepository, port: string)
    requires Locate(o, s, BuildEnvNameFromResolvedRepo(repo)).Success?
    requires Locate(o, s, BuildEnvNameFromResolvedRepo(repo)).value.env.status == Created
    requires !PortOpened(Locate(o, s, BuildEnvNameFromResolvedRepo(repo)).value.env, port)
    ensures var r, t := OpenPortFeatureRun(o, s, repo, port), Locate(o, s, BuildEnvNameFromResolvedRepo(repo)).value;
      var out := LastOutput(Since(s, r.world));
      |Since(s, r.world)| >= 3
      && Since(s, r.world)[2] == Call.OpenPort(t.cluster, t.env, port, o.succeeds(Next(s) + 2))
      && (out.ErrorOutput? || out == OpenPortContent(t.cluster, ProvidedEnv(o, Next(s) + 2, t.env), port, false))
    ensures var r, t := OpenPortFeatureRun(o, s, repo, port), Locate(o, s, BuildEnvNameFromResolvedRepo(repo)).value;
      var a := OpenPortRun(o, Located(s), s.stored.value, t.cluster, t.env, port);
      ActionReported(o, r, a.world, a.err, OpenPortContent(t.cluster, a.entity, port, false))
  {
    var l := LocateSteps(o, s);
    assert l.err.None? && l.value == s.stored.value && l.world == Located(s);
  }

  /** ClosePort: a failed lookup is reported and returned, with no mutating call. */
  lemma ClosePortLookupFailure(o: Oracle, s: WorldState, repo: ResolvedEnvRepository, port: string)
    requires Locate(o, s, BuildEnvNameFromResolvedRepo(repo)).Failure?
    ensures var r := ClosePortFeatureRun(o, s, repo, port);
      var e := Locate(o, s, BuildEnvNameFromResolvedRepo(repo)).error;
      r.err == Some(e) && LastOutput(Since(s, r.world)) == ErrorOutput(e) && NoMutations(Since(s, r.world))
  {
  }

  /** ClosePort: a Removing environment is refused before a Creating one, and neither reaches the backend. */
  lemma ClosePortStatusGuards(o: Oracle, s: WorldState, repo: ResolvedEnvRepository, port: string)
    requires Locate(o, s, BuildEnvNameFromResolvedRepo(repo)).Success?
    requires Locate(o, s, BuildEnvNameFromResolvedRepo(repo)).value.env.status != Created
    ensures var r, envName := ClosePortFeatureRun(o, s, repo, port), BuildEnvNameFromResolvedRepo(repo);
      var status := Locate(o, s, envName).value.env.status;
      r.err == Some(if status == Removing then ClosePortRemovingEnv(envName) else ClosePortCreatingEnv(envName))
      && LastOutput(Since(s, r.world)) == ErrorOutput(r.err.value) && NoMutations(Since(s, r.world))
  {
  }

  /** ClosePort: a port already closed is reported as such, without calling the action. */
  lemma ClosePortAlready(o: Oracle, s: WorldState, repo: ResolvedEnvRepository, port: string)
    requires Locate(o, s, BuildEnvNameFromResolvedRepo(repo)).Success?
    requires Locate(o, s, BuildEnvNameFromResolvedRepo(repo)).value.env.status == Created
    requires !PortOpened(Locate(o, s, BuildEnvNameFromResolvedRepo(repo)).value.env, port)
    ensures var r, t := ClosePortFeatureRun(o, s, repo, port), Locate(o, s, BuildEnvNameFromResolvedRepo(repo)).value;
      LastOutput(Since(s, r.world)) == ClosePortContent(t.cluster, t.env, port, true)
      && NoMutations(Since(s, r.world)) && r.err == ErrorAt(o, Next(s) + 2)
  {
  }

  /**
   * ClosePort: otherwise the action runs, once, right after the lookup; its
   * error is reported and returned; on success the environment as the
   * provider left it is handed out.
   */
  lemma ClosePortActs(o: Oracle, s: WorldState, repo: ResolvedEnvRepository, port: string)
    requires Locate(o, s, BuildEnvNameFromResolvedRepo(repo)).Success?
    requires Locate(o, s, BuildEnvNameFromResolvedRepo(repo)).value.env.status == Created
    requires PortOpened(Locate(o, s, BuildEnvNameFromResolvedRepo(repo)).value.env, port)
    ensures var r, t := ClosePortFeatureRun(o, s, repo, port), Locate(o, s, BuildEnvNameFromResolvedRepo(repo)).value;
      var out := LastOutput(Since(s, r.world));
      |Since(s, r.world)| >= 3
      && Since(s, r.world)[2] == Call.ClosePort(t.cluster, t.env, port, o.succeeds(Next(s) + 2))
      && (out.ErrorOutput? || out == ClosePortContent(t.cluster, ProvidedEnv(o, Next(s) + 2, t.env), port, false))
    ensures var r, t := ClosePortFeatureRun(o, s, repo, port), Locate(o, s, BuildEnvNameFromResolvedRepo(repo)).value;
      var a := ClosePortRun(o, Located(s), s.stored.value, t.cluster, t.env, port);
      ActionReported(o, r, a.world, a.err, ClosePortContent(t.cluster, a.entity, port, false))
  {
    var l := LocateSteps(o, s);
    assert l.err.None? && l.value == s.stored.value && l.world == Located(s);
  }

  /** OpenPortFeature.Execute on a `World`: the calls of OpenPortFeatureRun, in order. */
  method OpenPortFeature(w: World, repo: ResolvedEnvRepository, port: string) returns (err: Option<Error>)
    modifies w
    ensures var r := OpenPortFeatureRun(w.oracle, old(w.state), repo, port); w.state == r.world && err == r.err
  {
    var envName := BuildEnvNameFromResolvedRepo(repo);
    err := w.Build();
    if err.Some? {
      err := HandleError(w, err.value);
      return;
    }
    var records;
    records, err := w.LookupYoloConfig();
    if err.Some? {
      err := HandleError(w, err.value);
      return;
    }
    var config := new Config(records);
    var located := LookupEnv(config.clusters, envName);
    if located.Failure? {
      err := HandleError(w, located.error);
      return;
    }
    var t := located.value;
    if t.env.status == Removing {
      err := HandleError(w, OpenPortRemovingEnv(envName));
      return;
    }
    if t.env.status == Creating {
      err := HandleError(w, OpenPortCreatingEnv(envName));
      return;
    }
    var env := t.env;
    var portAlready := PortOpened(t.env, port);
    if !portAlready {
      env, err := Actions.OpenPort(w, config, t.cluster, t.env, port);
      if err.Some? {
        err := HandleError(w, err.value);
        return;
      }
    }
    err := w.HandleOutput(OpenPortContent(t.cluster, env, port, portAlready));
  }

  /** ClosePortFeature.Execute on a `World`: the calls of ClosePortFeatureRun, in order. */
  method ClosePortFeature(w: World, repo: ResolvedEnvRepository, port: string) returns (err: Option<Error>)
    modifies w
    ensures var r := ClosePortFeatureRun(w.oracle, old(w.state), repo, port); w.state == r.world && err == r.err
  {
    var envName := BuildEnvNameFromResolvedRepo(repo);
    err := w.Build();
    if err.Some? {
      err := HandleError(w, err.value);
      return;
    }
    var records;
    records, err := w.LookupYoloConfig();
    if err.Some? {
      err := HandleError(w, err.value);
      return;
    }
    var config := new Config(records);
    var located := LookupEnv(config.clusters, envName);
    if located.Failure? {
      err := HandleError(w, located.error);
      return;
    }
    var t := located.value;
    if t.env.status == Removing {
      err := HandleError(w, ClosePortRemovingEnv(envName));
      return;
    }
    if t.env.status == Creating {
      err := HandleError(w, ClosePortCreatingEnv(envName));
      return;
    }
    var env := t.env;
    var portAlready := !PortOpened(t.env, port);
    if !portAlready {
      env, err := Actions.ClosePort(w, config, t.cluster, t.env, port);
      if err.Some? {
        err := HandleError(w, err.value);
        return;
      }
    }
    err := w.HandleOutput(ClosePortContent(t.cluster, env, port, portAlready));
  }

  // ---------------------------------------------------------------------------
  // features/remove.go

  /** Whether RemoveFeature.Execute asks for a confirmation: not forced and a prompt given. */
  predicate AsksConfirmation(forceRemove: bool, hasConfirm: bool) {
    !forceRemove && hasConfirm
  }

  /** The user declined the removal: the lookup succeeded and the prompt, asked and answered, said no. */
  predicate Declined(o: Oracle, s: WorldState, repo: ResolvedEnvRepository, forceRemove: bool, hasConfirm: bool) {
    Locate(o, s, BuildEnvNameFromResolvedRepo(repo)).Success? && AsksConfirmation(forceRemove, hasConfirm)
    && o.succeeds(Next(s) + 2) && !o.confirms(Next(s) + 2)
  }

  /**
   * RemoveFeature.Execute, with `hasConfirm` telling whether ConfirmRemove
   * is given and `hasHook` whether PreRemoveHook is: after the lookup and
   * the optional confirmation, actions.RemoveEnv runs whatever the
   * environment's status. A declined confirmation returns no error and
   * calls no output handler.
   */
  function RemoveFeatureRun(o: Oracle, s: WorldState, repo: ResolvedEnvRepository, forceRemove: bool,
                            hasConfirm: bool, hasHook: bool): (r: Outcome)
    ensures Extends(s, r.world)
    ensures Reported(o, s, r.world, r.err) || (r.err == None && NoOutputs(Since(s, r.world)))
  {
    var envName := BuildEnvNameFromResolvedRepo(repo);
    var l := LocateSteps(o, s);
    if l.err.Some? then Report(o, s, l.world, l.err.value)
    else
      match LookupEnv(l.value, envName)
      case Failure(e) => Report(o, s, l.world, e)
      case Success(t) => RemoveFoundRun(o, s, l.world, l.value, t, forceRemove, hasConfirm, hasHook)
  }

  /** Where a feature stands after a successful Build and lookup of the record. */
  function Located(s: WorldState): WorldState {
    WorldState(s.calls + [Build(true), Lookup(true)], s.stored)
  }

  /** Remove: once the environment is found, the removal goes on from right after the lookup, on the record found. */
  lemma RemoveLocates(o: Oracle, s: WorldState, repo: ResolvedEnvRepository, forceRemove: bool,
                      hasConfirm: bool, hasHook: bool)
    requires Locate(o, s, BuildEnvNameFromResolvedRepo(repo)).Success?
    ensures Extends(s, Located(s)) && NoOutputs(Since(s, Located(s))) && NoMutations(Since(s, Located(s)))
    ensures RemoveFeatureRun(o, s, repo, forceRemove, hasConfirm, hasHook)
      == RemoveFoundRun(o, s, Located(s), s.stored.value, Locate(o, s, BuildEnvNameFromResolvedRepo(repo)).value,
                        forceRemove, hasConfirm, hasHook)
  {
    var l := LocateSteps(o, s);
    assert l.err.None? && l.value == s.stored.value && l.world == Located(s);
  }

  /**
   * Remove once the environment is found, from `s` on: the optional
   * confirmation, then the removal.
   */
  function RemoveFoundRun(o: Oracle, s0: WorldState, s: WorldState, record: Records, t: Target, forceRemove: bool,
                          hasConfirm: bool, hasHook: bool): (r: Outcome)
    requires Extends(s0, s) && NoOutputs(Since(s0, s))
    ensures Extends(s, r.world)
    ensures Reported(o, s0, r.world, r.err) || (r.err == None && NoOutputs(Since(s0, r.world)))
    ensures AsksConfirmation(forceRemove, hasConfirm) ==>
      |r.world.calls| > Next(s)
      && r.world.calls[Next(s)] == Confirm(o.succeeds(Next(s)), o.succeeds(Next(s)) && o.confirms(Next(s)))
  {
    if AsksConfirmation(forceRemove, hasConfirm) then
      var c := ConfirmStep(o, s);
      ChainNoOutputs(s0, s, c.world);
      if c.err.Some? then Report(o, s0, c.world, c.err.value)
      else if !c.value then Outcome(c.world, None)
      else RemoveConfirmedRun(o, s0, c.world, record, t, hasHook)
    else RemoveConfirmedRun(o, s0, s, record, t, hasHook)
  }

  /** The end of RemoveFeature.Execute, from `s` on, for a feature started in `s0`: RemoveEnv, then the output. */
  function RemoveConfirmedRun(o: Oracle, s0: WorldState, s: WorldState, record: Records, t: Target, hasHook: bool)
    : (r: Outcome)
    requires Extends(s0, s) && NoOutputs(Since(s0, s))
    ensures Reported(o, s0, r.world, r.err) && Extends(s, r.world)
    ensures |r.world.calls| > Next(s) && !r.world.calls[Next(s)].Confirm?
    ensures t.cluster.name in record ==>
      r.world.calls[Next(s)] == Save(PutEnv(record, t.cluster.name, t.env.(status := Removing)).value, o.succeeds(Next(s)))
    ensures var out := LastOutput(Since(s0, r.world));
      !out.ErrorOutput? ==>
        out.RemoveContent? && out.cluster == t.cluster && out.env.name == t.env.name && out.env.status == Removing
    ensures var a := RemoveEnvRun(o, s, record, t.cluster, t.env, hasHook);
      ActionReported(o, r, a.world, a.err, RemoveContent(t.cluster, a.entity))
  {
    var a := RemoveEnvRun(o, s, record, t.cluster, t.env, hasHook);
    ChainNoOutputs(s0, s, a.world);
    RemoveEnvMarksFirst(o, s, record, t.cluster, t.env, hasHook);
    if a.err.Some? then Report(o, s0, a.world, a.err.value)
    else Emit(o, s0, a.world, RemoveContent(t.cluster, a.entity))
  }

  /** Remove: a failed lookup, not-installed included, is reported and returned, and nothing is removed. */
  lemma RemoveLookupFailure(o: Oracle, s: WorldState, repo: ResolvedEnvRepository, forceRemove: bool,
                            hasConfirm: bool, hasHook: bool)
    requires Locate(o, s, BuildEnvNameFromResolvedRepo(repo)).Failure?
    ensures var r := RemoveFeatureRun(o, s, repo, forceRemove, hasConfirm, hasHook);
      var e := Locate(o, s, BuildEnvNameFromResolvedRepo(repo)).error;
      r.err == Some(e) && LastOutput(Since(s, r.world)) == ErrorOutput(e) && NoMutations(Since(s, r.world))
  {
  }

  /**
   * Remove: right after the lookup comes the confirmation prompt when the
   * removal is not forced and a prompt is given; a prompt that fails is
   * reported and nothing is removed.
   */
  lemma RemoveAsksConfirmation(o: Oracle, s: WorldState, repo: ResolvedEnvRepository, forceRemove: bool,
                               hasConfirm: bool, hasHook: bool)
    requires Locate(o, s, BuildEnvNameFromResolvedRepo(repo)).Success? && AsksConfirmation(forceRemove, hasConfirm)
    ensures var r, n := RemoveFeatureRun(o, s, repo, forceRemove, hasConfirm, hasHook), Next(s);
      |r.world.calls| > n + 2 && r.world.calls[n + 2] == Confirm(o.succeeds(n + 2), o.succeeds(n + 2) && o.confirms(n + 2))
  {
    RemoveLocates(o, s, repo, forceRemove, hasConfirm, hasHook);
  }

  /** Remove: a confirmation prompt that fails is reported and returned, and nothing is removed. */
  lemma RemoveConfirmationFails(o: Oracle, s: WorldState, repo: ResolvedEnvRepository, forceRemove: bool,
                                hasConfirm: bool, hasHook: bool)
    requires Locate(o, s, BuildEnvNameFromResolvedRepo(repo)).Success? && AsksConfirmation(forceRemove, hasConfirm)
    requires !o.succeeds(Next(s) + 2)
    ensures var r, n := RemoveFeatureRun(o, s, repo, forceRemove, hasConfirm, hasHook), Next(s);
      r.err == Some(ExternalFailure(n + 2))
      && r.world.calls == s.calls + [Build(true), Lookup(true), Confirm(false, false),
                                     HandleOutput(ErrorOutput(ExternalFailure(n + 2)), o.succeeds(n + 3))]
  {
    RemoveLocates(o, s, repo, forceRemove, hasConfirm, hasHook);
    var c := ConfirmStep(o, Located(s));
    assert c.world.calls == s.calls + [Build(true), Lookup(true), Confirm(false, false)];
    assert c.err == Some(ExternalFailure(Next(s) + 2));
  }

  /** Remove: forced, or without a prompt, no confirmation is asked after the lookup. */
  lemma RemoveSkipsConfirmation(o: Oracle, s: WorldState, repo: ResolvedEnvRepository, forceRemove: bool,
                                hasConfirm: bool, hasHook: bool)
    requires Locate(o, s, BuildEnvNameFromResolvedRepo(repo)).Success? && !AsksConfirmation(forceRemove, hasConfirm)
    ensures var r, n := RemoveFeatureRun(o, s, repo, forceRemove, hasConfirm, hasHook), Next(s);
      |r.world.calls| > n + 2 && !r.world.calls[n + 2].Confirm?
  {
    RemoveLocates(o, s, repo, forceRemove, hasConfirm, hasHook);
  }

  /**
   * Remove: once confirmed, or not asked, actions.RemoveEnv starts on the
   * environment found, whatever its status, by recording it as Removing;
   * its error is reported and returned; on success the cluster and the
   * environment as the action left it are handed out.
   */
  lemma RemoveProceeds(o: Oracle, s: WorldState, repo: ResolvedEnvRepository, forceRemove: bool,
                       hasConfirm: bool, hasHook: bool)
    requires Locate(o, s, BuildEnvNameFromResolvedRepo(repo)).Success?
    requires AsksConfirmation(forceRemove, hasConfirm) ==> o.succeeds(Next(s) + 2) && o.confirms(Next(s) + 2)
    ensures var r, found := RemoveFeatureRun(o, s, repo, forceRemove, hasConfirm, hasHook),
                            Locate(o, s, BuildEnvNameFromResolvedRepo(repo)).value;
      var k := Next(s) + if AsksConfirmation(forceRemove, hasConfirm) then 3 else 2;
      var record := s.stored.value;
      var out := LastOutput(Since(s, r.world));
      (found.cluster.name in record ==>
         |r.world.calls| > k
         && r.world.calls[k] == Save(PutEnv(record, found.cluster.name, found.env.(status := Removing)).value, o.succeeds(k)))
      && (!out.ErrorOutput? ==>
            out.RemoveContent? && out.cluster == found.cluster
            && out.env.name == found.env.name && out.env.status == Removing)
    ensures var r, found := RemoveFeatureRun(o, s, repo, forceRemove, hasConfirm, hasHook),
                            Locate(o, s, BuildEnvNameFromResolvedRepo(repo)).value;
      var a := RemoveEnvRun(o, Confirmed(o, Located(s), forceRemove, hasConfirm), s.stored.value,
                            found.cluster, found.env, hasHook);
      ActionReported(o, r, a.world, a.err, RemoveContent(found.cluster, a.entity))
  {
    RemoveLocates(o, s, repo, forceRemove, hasConfirm, hasHook);
    RemoveFoundProceeds(o, s, Located(s), s.stored.value, Locate(o, s, BuildEnvNameFromResolvedRepo(repo)).value,
                        forceRemove, hasConfirm, hasHook);
  }

  /** Where the removal stands once the optional confirmation said yes. */
  function Confirmed(o: Oracle, s: WorldState, forceRemove: bool, hasConfirm: bool): WorldState {
    if AsksConfirmation(forceRemove, hasConfirm) then ConfirmStep(o, s).world else s
  }

  /** From right after the lookup, a confirmed removal goes on with RemoveConfirmedRun. */
  lemma RemoveFoundConfirmed(o: Oracle, s0: WorldState, s: WorldState, record: Records, t: Target, forceRemove: bool,
                             hasConfirm: bool, hasHook: bool)
    requires Extends(s0, s) && NoOutputs(Since(s0, s))
    requires AsksConfirmation(forceRemove, hasConfirm) ==> o.succeeds(Next(s)) && o.confirms(Next(s))
    ensures Extends(s0, Confirmed(o, s, forceRemove, hasConfirm))
      && NoOutputs(Since(s0, Confirmed(o, s, forceRemove, hasConfirm)))
    ensures Next(Confirmed(o, s, forceRemove, hasConfirm)) == Next(s) + if AsksConfirmation(forceRemove, hasConfirm) then 1 else 0
    ensures RemoveFoundRun(o, s0, s, record, t, forceRemove, hasConfirm, hasHook)
      == RemoveConfirmedRun(o, s0, Confirmed(o, s, forceRemove, hasConfirm), record, t, hasHook)
  {
    if AsksConfirmation(forceRemove, hasConfirm) {
      var c := ConfirmStep(o, s);
      ChainNoOutputs(s0, s, c.world);
      assert c.err.None? && c.value;
    }
  }

  /** RemoveProceeds, from right after the lookup. */
  lemma RemoveFoundProceeds(o: Oracle, s0: WorldState, s: WorldState, record: Records, t: Target, forceRemove: bool,
                            hasConfirm: bool, hasHook: bool)
    requires Extends(s0, s) && NoOutputs(Since(s0, s))
    requires AsksConfirmation(forceRemove, hasConfirm) ==> o.succeeds(Next(s)) && o.confirms(Next(s))
    ensures var r := RemoveFoundRun(o, s0, s, record, t, forceRemove, hasConfirm, hasHook);
      var k := Next(s) + if AsksConfirmation(forceRemove, hasConfirm) then 1 else 0;
      var out := LastOutput(Since(s0, r.world));
      Reported(o, s0, r.world, r.err)
      && (t.cluster.name in record ==>
            |r.world.calls| > k
            && r.world.calls[k] == Save(PutEnv(record, t.cluster.name, t.env.(status := Removing)).value, o.succeeds(k)))
      && (!out.ErrorOutput? ==>
            out.RemoveContent? && out.cluster == t.cluster && out.env.name == t.env.name && out.env.status == Removing)
    ensures var r := RemoveFoundRun(o, s0, s, record, t, forceRemove, hasConfirm, hasHook);
      var a := RemoveEnvRun(o, Confirmed(o, s, forceRemove, hasConfirm), record, t.cluster, t.env, hasHook);
      ActionReported(o, r, a.world, a.err, RemoveContent(t.cluster, a.entity))
  {
    RemoveFoundConfirmed(o, s0, s, record, t, forceRemove, hasConfirm, hasHook);
  }

  /** Remove: a declined confirmation returns no error, calls no output handler and removes nothing. */
  lemma RemoveDeclined(o: Oracle, s: WorldState, repo: ResolvedEnvRepository, forceRemove: bool,
                       hasConfirm: bool, hasHook: bool)
    requires Declined(o, s, repo, forceRemove, hasConfirm)
    ensures var r := RemoveFeatureRun(o, s, repo, forceRemove, hasConfirm, hasHook);
      r.err == None && NoOutputs(Since(s, r.world)) && NoMutations(Since(s, r.world))
  {
    RemoveLocates(o, s, repo, forceRemove, hasConfirm, hasHook);
    var c := ConfirmStep(o, Located(s));
    assert RemoveFeatureRun(o, s, repo, forceRemove, hasConfirm, hasHook) == Outcome(c.world, None);
    assert Since(s, c.world) == [Build(true), Lookup(true), Confirm(true, false)];
  }

  /** Remove: every other path calls the output handler once, last. */
  lemma RemoveReported(o: Oracle, s: WorldState, repo: ResolvedEnvRepository, forceRemove: bool,
                       hasConfirm: bool, hasHook: bool)
    requires !Declined(o, s, repo, forceRemove, hasConfirm)
    ensures var r := RemoveFeatureRun(o, s, repo, forceRemove, hasConfirm, hasHook);
      Reported(o, s, r.world, r.err)
  {
  }

  /** RemoveFeature.Execute on a `World`: the calls of RemoveFeatureRun, in order. */
  method RemoveFeature(w: World, repo: ResolvedEnvRepository, forceRemove: bool, hasConfirm: bool, hasHook: bool)
    returns (err: Option<Error>)
    modifies w
    ensures var r := RemoveFeatureRun(w.oracle, old(w.state), repo, forceRemove, hasConfirm, hasHook);
      w.state == r.world && err == r.err
  {
    var envName := BuildEnvNameFromResolvedRepo(repo);
    err := w.Build();
    if err.Some? {
      err := HandleError(w, err.value);
      return;
    }
    var records;
    records, err := w.LookupYoloConfig();
    if err.Some? {
      err := HandleError(w, err.value);
      return;
    }
    var config := new Config(records);
    var located := LookupEnv(config.clusters, envName);
    if located.Failure? {
      err := HandleError(w, located.error);
      return;
    }
    var t := located.value;
    if AsksConfirmation(forceRemove, hasConfirm) {
      var confirmed;
      confirmed, err := w.Confirm();
      if err.Some? {
        err := HandleError(w, err.value);
        return;
      }
      if !confirmed {
        return None;
      }
    }
    var env;
    env, err := Actions.RemoveEnv(w, config, t.cluster, t.env, hasHook);
    if err.Some? {
      err := HandleError(w, err.value);
      return;
    }
    err := w.HandleOutput(RemoveContent(t.cluster, env));
  }

  // ---------------------------------------------------------------------------
  // features/uninstall.go

  /**
   * UninstallFeature.Execute: an installation that is not there is reported
   * as already uninstalled; otherwise the default cluster, when there is
   * one and it holds no environment, is removed, then the configuration
   * storage.
   */
  function UninstallRun(o: Oracle, s: WorldState, successMessage: string, alreadyUninstalledMessage: string)
    : (r: Outcome)
    ensures Reported(o, s, r.world, r.err)
    ensures var out := LastOutput(Since(s, r.world));
      out.ErrorOutput? || out.UninstallContent?
    // Reported as already uninstalled only when nothing was installed.
    ensures var out := LastOutput(Since(s, r.world));
      out == UninstallContent(true, successMessage, alreadyUninstalledMessage) ==>
        s.stored.None? && r.world.stored.None? && NoMutations(Since(s, r.world))
    // Reported as uninstalled only once the storage, and the record with it, is gone.
    ensures var out := LastOutput(Since(s, r.world));
      out == UninstallContent(false, successMessage, alreadyUninstalledMessage) ==> r.world.stored.None?
  {
    var b := BuildStep(o, s);
    if b.err.Some? then Report(o, s, b.world, b.err.value)
    else
      var l := LookupStep(o, b.world);
      if l.err == Some(YoloNotInstalled) then
        Emit(o, s, l.world, UninstallContent(true, successMessage, alreadyUninstalledMessage))
      else if l.err.Some? then Report(o, s, l.world, l.err.value)
      else UninstallClusterRun(o, s, l.world, l.value, successMessage, alreadyUninstalledMessage)
  }

  /**
   * UninstallFeature.Execute from the lookup on, from `s` on, for a feature
   * started in `s0`: the default cluster, when there is one, must hold no
   * environment and is removed, then the storage.
   */
  function UninstallClusterRun(o: Oracle, s0: WorldState, s: WorldState, cfg: Records, successMessage: string,
                               alreadyUninstalledMessage: string): (r: Outcome)
    requires Extends(s0, s) && NoOutputs(Since(s0, s))
    ensures Reported(o, s0, r.world, r.err)
    ensures var out := LastOutput(Since(s0, r.world));
      out.ErrorOutput? || (out == UninstallContent(false, successMessage, alreadyUninstalledMessage) && r.world.stored.None?)
    ensures |r.world.calls| > Next(s)
    ensures DefaultClusterName in cfg && |cfg[DefaultClusterName].envs| > 0 ==>
      r.world.calls == s.calls + [HandleOutput(ErrorOutput(UninstallExistingEnvs), o.succeeds(Next(s)))]
      && r.err == Some(UninstallExistingEnvs) && r.world.stored == s.stored
  {
    match GetCluster(cfg, DefaultClusterName)
    case Failure(_) => UninstallStorageRun(o, s0, s, successMessage, alreadyUninstalledMessage)
    case Success(cluster) =>
      if CountEnvsInCluster(cfg, DefaultClusterName).value > 0 then Report(o, s0, s, UninstallExistingEnvs)
      else
        var a := RemoveClusterRun(o, s, cfg, cluster);
        ChainNoOutputs(s0, s, a.world);
        if a.err.Some? then Report(o, s0, a.world, a.err.value)
        else UninstallStorageRun(o, s0, a.world, successMessage, alreadyUninstalledMessage)
  }

  /** The end of UninstallFeature.Execute, from `s` on: the storage is removed, then the output. */
  function UninstallStorageRun(o: Oracle, s0: WorldState, s: WorldState, successMessage: string,
                               alreadyUninstalledMessage: string): (r: Outcome)
    requires Extends(s0, s) && NoOutputs(Since(s0, s))
    ensures Reported(o, s0, r.world, r.err)
    ensures r.world.stored == if o.succeeds(Next(s)) then None else s.stored
    ensures LastOutput(Since(s0, r.world))
      == if o.succeeds(Next(s)) then UninstallContent(false, successMessage, alreadyUninstalledMessage)
         else ErrorOutput(ExternalFailure(Next(s)))
    ensures r.world.calls == s.calls + [RemoveStorage(o.succeeds(Next(s))),
                                        HandleOutput(LastOutput(Since(s0, r.world)), o.succeeds(Next(s) + 1))]
  {
    var removed := RemoveStorageStep(o, s);
    assert Since(s0, removed.world) == Since(s0, s) + [RemoveStorage(o.succeeds(Next(s)))];
    if removed.err.Some? then Report(o, s0, removed.world, removed.err.value)
    else Emit(o, s0, removed.world, UninstallContent(false, successMessage, alreadyUninstalledMessage))
  }

  /** Uninstall: a failed Build or lookup is reported and returned, and nothing is removed. */
  lemma UninstallLookupFailure(o: Oracle, s: WorldState, successMessage: string, alreadyUninstalledMessage: string)
    requires !o.succeeds(Next(s)) || !o.succeeds(Next(s) + 1)
    ensures var r, n := UninstallRun(o, s, successMessage, alreadyUninstalledMessage), Next(s);
      var e := ExternalFailure(if o.succeeds(n) then n + 1 else n);
      r.err == Some(e) && LastOutput(Since(s, r.world)) == ErrorOutput(e)
      && NoMutations(Since(s, r.world)) && r.world.stored == s.stored
  {
  }

  /** Uninstall: with nothing installed, the already-uninstalled content is handed out, and the handler's error returned. */
  lemma UninstallNotInstalled(o: Oracle, s: WorldState, successMessage: string, alreadyUninstalledMessage: string)
    requires o.succeeds(Next(s)) && o.succeeds(Next(s) + 1) && s.stored.None?
    ensures var r, n := UninstallRun(o, s, successMessage, alreadyUninstalledMessage), Next(s);
      r.world.calls == s.calls + [Build(true), Lookup(true),
        HandleOutput(UninstallContent(true, successMessage, alreadyUninstalledMessage), o.succeeds(n + 2))]
      && r.err == ErrorAt(o, n + 2)
  {
  }

  /** Uninstall: a default cluster that still holds environments is refused, and nothing is removed. */
  lemma UninstallRefusesExistingEnvs(o: Oracle, s: WorldState, successMessage: string,
                                     alreadyUninstalledMessage: string)
    requires o.succeeds(Next(s)) && o.succeeds(Next(s) + 1) && s.stored.Some?
    requires DefaultClusterName in s.stored.value && |s.stored.value[DefaultClusterName].envs| > 0
    ensures var r, n := UninstallRun(o, s, successMessage, alreadyUninstalledMessage), Next(s);
      r.world.calls == s.calls + [Build(true), Lookup(true),
                                  HandleOutput(ErrorOutput(UninstallExistingEnvs), o.succeeds(n + 2))]
      && r.err == Some(UninstallExistingEnvs) && r.world.stored == s.stored
  {
  }

  /** Uninstall: without a default cluster, the storage is removed right after the lookup. */
  lemma UninstallWithoutCluster(o: Oracle, s: WorldState, successMessage: string, alreadyUninstalledMessage: string)
    requires o.succeeds(Next(s)) && o.succeeds(Next(s) + 1) && s.stored.Some?
    requires DefaultClusterName !in s.stored.value
    ensures var r, n := UninstallRun(o, s, successMessage, alreadyUninstalledMessage), Next(s);
      |r.world.calls| == n + 4 && r.world.calls[..n + 3] == s.calls + [Build(true), Lookup(true), RemoveStorage(o.succeeds(n + 2))]
      && r.world.stored == (if o.succeeds(n + 2) then None else s.stored)
  {
  }

  /**
   * Uninstall: an empty default cluster is removed first, by
   * actions.RemoveCluster, which starts by recording it as Removing; the
   * storage is removed only after the cluster's removal succeeded.
   */
  lemma UninstallRemovesClusterFirst(o: Oracle, s: WorldState, successMessage: string,
                                     alreadyUninstalledMessage: string)
    requires o.succeeds(Next(s)) && o.succeeds(Next(s) + 1) && s.stored.Some?
    requires DefaultClusterName in s.stored.value && |s.stored.value[DefaultClusterName].envs| == 0
    ensures var r, n := UninstallRun(o, s, successMessage, alreadyUninstalledMessage), Next(s);
      var cfg := s.stored.value;
      var cluster := cfg[DefaultClusterName].cluster;
      |r.world.calls| > n + 2
      && r.world.calls[n + 2] == Save(PutCluster(cfg, cluster.(status := Removing)), o.succeeds(n + 2))
      && (o.succeeds(n + 2) && o.succeeds(n + 3) && o.succeeds(n + 4) && o.succeeds(n + 5) ==>
            |r.world.calls| == n + 8 && r.world.calls[n + 6] == RemoveStorage(o.succeeds(n + 6)))
  {
    var b := BuildStep(o, s);
    var l := LookupStep(o, b.world);
    assert Next(l.world) == Next(s) + 2 && l.value == s.stored.value;
    var cluster := s.stored.value[DefaultClusterName].cluster;
    UninstallClusterMarksFirst(o, s, l.world, l.value, successMessage, alreadyUninstalledMessage);
    if o.succeeds(Next(s) + 2) && o.succeeds(Next(s) + 3) && o.succeeds(Next(s) + 4) && o.succeeds(Next(s) + 5) {
      UninstallClusterCompletes(o, s, l.world, l.value, successMessage, alreadyUninstalledMessage);
    }
  }

  /** The cluster stage of Uninstall, on an empty default cluster, records it as Removing first. */
  lemma UninstallClusterMarksFirst(o: Oracle, s0: WorldState, s: WorldState, cfg: Records, successMessage: string,
                                   alreadyUninstalledMessage: string)
    requires Extends(s0, s) && NoOutputs(Since(s0, s))
    requires DefaultClusterName in cfg && |cfg[DefaultClusterName].envs| == 0
    ensures var r, n := UninstallClusterRun(o, s0, s, cfg, successMessage, alreadyUninstalledMessage), Next(s);
      var cluster := cfg[DefaultClusterName].cluster;
      |r.world.calls| > n && r.world.calls[n] == Save(PutCluster(cfg, cluster.(status := Removing)), o.succeeds(n))
  {
    var cluster := cfg[DefaultClusterName].cluster;
    var a := RemoveClusterRun(o, s, cfg, cluster);
    ChainNoOutputs(s0, s, a.world);
    var r := UninstallClusterRun(o, s0, s, cfg, successMessage, alreadyUninstalledMessage);
    assert GetCluster(cfg, DefaultClusterName) == Success(cluster);
    assert CountEnvsInCluster(cfg, DefaultClusterName).value == 0;
    RemoveClusterMarksFirst(o, s, cfg, cluster);
    if a.err.Some? {
      assert r == Report(o, s0, a.world, a.err.value);
    } else {
      assert r == UninstallStorageRun(o, s0, a.world, successMessage, alreadyUninstalledMessage);
    }
  }

  /** The cluster stage of Uninstall, once the cluster is removed, goes on with the storage. */
  lemma UninstallClusterRemoved(o: Oracle, s0: WorldState, s: WorldState, cfg: Records, successMessage: string,
                                alreadyUninstalledMessage: string)
    requires Extends(s0, s) && NoOutputs(Since(s0, s))
    requires DefaultClusterName in cfg && |cfg[DefaultClusterName].envs| == 0
    requires o.succeeds(Next(s)) && o.succeeds(Next(s) + 1) && o.succeeds(Next(s) + 2) && o.succeeds(Next(s) + 3)
    ensures var a := RemoveClusterRun(o, s, cfg, cfg[DefaultClusterName].cluster);
      Extends(s0, a.world) && NoOutputs(Since(s0, a.world)) && Next(a.world) == Next(s) + 4
      && UninstallClusterRun(o, s0, s, cfg, successMessage, alreadyUninstalledMessage)
         == UninstallStorageRun(o, s0, a.world, successMessage, alreadyUninstalledMessage)
  {
    var cluster := cfg[DefaultClusterName].cluster;
    var a := RemoveClusterRun(o, s, cfg, cluster);
    ChainNoOutputs(s0, s, a.world);
    assert GetCluster(cfg, DefaultClusterName) == Success(cluster);
    assert CountEnvsInCluster(cfg, DefaultClusterName).value == 0;
    RemoveClusterCompletion(o, s, cfg, cluster);
  }

  /** The cluster stage of Uninstall, once the cluster is removed: the storage is removed, then the output. */
  lemma UninstallClusterCompletes(o: Oracle, s0: WorldState, s: WorldState, cfg: Records, successMessage: string,
                                  alreadyUninstalledMessage: string)
    requires Extends(s0, s) && NoOutputs(Since(s0, s))
    requires DefaultClusterName in cfg && |cfg[DefaultClusterName].envs| == 0
    requires o.succeeds(Next(s)) && o.succeeds(Next(s) + 1) && o.succeeds(Next(s) + 2) && o.succeeds(Next(s) + 3)
    ensures var r, n := UninstallClusterRun(o, s0, s, cfg, successMessage, alreadyUninstalledMessage), Next(s);
      |r.world.calls| == n + 6 && r.world.calls[n + 4] == RemoveStorage(o.succeeds(n + 4))
  {
    UninstallClusterRemoved(o, s0, s, cfg, successMessage, alreadyUninstalledMessage);
  }

  /** UninstallFeature.Execute on a `World`: the calls of UninstallRun, in order. */
  method UninstallFeature(w: World, successMessage: string, alreadyUninstalledMessage: string)
    returns (err: Option<Error>)
    modifies w
    ensures var r := UninstallRun(w.oracle, old(w.state), successMessage, alreadyUninstalledMessage);
      w.state == r.world && err == r.err
  {
    err := w.Build();
    if err.Some? {
      err := HandleError(w, err.value);
      return;
    }
    var records;
    records, err := w.LookupYoloConfig();
    if err == Some(YoloNotInstalled) {
      err := w.HandleOutput(UninstallContent(true, successMessage, alreadyUninstalledMessage));
      return;
    }
    if err.Some? {
      err := HandleError(w, err.value);
      return;
    }
    var config := new Config(records);
    var cluster := GetCluster(config.clusters, DefaultClusterName);
    if cluster.Success? {
      var nbOfEnvsInCluster := CountEnvsInCluster(config.clusters, DefaultClusterName).value;
      if nbOfEnvsInCluster > 0 {
        err := HandleError(w, UninstallExistingEnvs);
        return;
      }
      var removed;
      removed, err := Actions.RemoveCluster(w, config, cluster.value);
      if err.Some? {
        err := HandleError(w, err.value);
        return;
      }
    }
    err := w.RemoveYoloConfigStorage();
    if err.Some? {
      err := HandleError(w, err.value);
      return;
    }
    err := w.HandleOutput(UninstallContent(false, successMessage, alreadyUninstalledMessage));
  }

  // ---------------------------------------------------------------------------
  // features/init.go

  /**
   * What the SetEnvAsCreated closure captures: the record, the cluster and
   * the environment Init ended with (the cloud service is the world itself).
   */
  datatype Session = Session(config: Records, cluster: Cluster, env: Env)

  /** The world after Init, its error, and the session handed to the output handler along with the content. */
  datatype InitOutcome = InitOutcome(world: WorldState, err: Option<Error>, session: Option<Session>)

  /** A failure path of Init: no session. */
  function Halt(r: Outcome): InitOutcome {
    InitOutcome(r.world, r.err, None)
  }

  /** Init's own outputs: an error, or the content whose cluster and environment are the session's. */
  predicate InitReported(o: Oracle, s: WorldState, r: InitOutcome) {
    Reported(o, s, r.world, r.err)
    && var out := LastOutput(Since(s, r.world));
    (out.ErrorOutput? || out.InitContent?)
    && (r.session.Some? <==> out.InitContent?)
    && (out.InitContent? ==> r.session.value.cluster == out.cluster && r.session.value.env == out.env)
  }

  /**
   * InitFeature.Execute, with `id` and `now` standing for the fresh
   * environment's uuid and creation time: Build, the instance-type check
   * and the lookup; a missing installation is installed with an empty
   * record; then the cluster stage and the environment stage.
   */
  function InitRun(o: Oracle, s: WorldState, instanceType: string, repo: ResolvedEnvRepository, id: string, now: int)
    : (r: InitOutcome)
    ensures InitReported(o, s, r)
  {
    var b := BuildStep(o, s);
    if b.err.Some? then Halt(Report(o, s, b.world, b.err.value))
    else
      var c := CheckInstanceTypeStep(o, b.world, instanceType);
      if c.err.Some? then Halt(Report(o, s, c.world, c.err.value))
      else
        var l := LookupStep(o, c.world);
        if l.err.Some? && l.err != Some(YoloNotInstalled) then Halt(Report(o, s, l.world, l.err.value))
        else if l.err.Some? then InitInstallRun(o, s, l.world, instanceType, repo, id, now)
        else InitClusterRun(o, s, l.world, l.value, instanceType, repo, id, now)
  }

  /** Init on a missing installation, from `s` on: InstallYolo with an empty record, then the cluster stage on it. */
  function InitInstallRun(o: Oracle, s0: WorldState, s: WorldState, instanceType: string, repo: ResolvedEnvRepository,
                          id: string, now: int): (r: InitOutcome)
    requires Extends(s0, s) && NoOutputs(Since(s0, s))
    ensures InitReported(o, s0, r)
  {
    var i := InstallYoloRun(o, s, map[]);
    ChainNoOutputs(s0, s, i.world);
    if i.err.Some? then Halt(Report(o, s0, i.world, i.err.value))
    else InitClusterRun(o, s0, i.world, map[], instanceType, repo, id, now)
  }

  /**
   * The cluster stage of Init, from `s` on, for a feature started in `s0`:
   * CreateCluser runs on a fresh default cluster when there is none, on the
   * cluster found when it is still Creating, and not at all otherwise.
   */
  function InitClusterRun(o: Oracle, s0: WorldState, s: WorldState, cfg: Records, instanceType: string,
                          repo: ResolvedEnvRepository, id: string, now: int): (r: InitOutcome)
    requires Extends(s0, s) && NoOutputs(Since(s0, s))
    ensures InitReported(o, s0, r) && Extends(s, r.world)
  {
    var existing := GetCluster(cfg, DefaultClusterName);
    if existing.Success? && existing.value.status != Creating then
      InitEnvRun(o, s0, s, cfg, existing.value, instanceType, repo, id, now)
    else
      var cluster := if existing.Success? then existing.value else NewCluster(DefaultClusterName, instanceType, true);
      var a := CreateClusterRun(o, s, cfg, cluster);
      ChainNoOutputs(s0, s, a.world);
      if a.err.Some? then Halt(Report(o, s0, a.world, a.err.value))
      else InitEnvRun(o, s0, a.world, a.config, a.entity, instanceType, repo, id, now)
  }

  /**
   * The environment stage of Init, from `s` on: an environment being
   * removed is refused; CreateEnv runs on a fresh environment when there is
   * none, on the environment found when it is still Creating, and not at
   * all when it is Created; the content says whether it ran.
   */
  function InitEnvRun(o: Oracle, s0: WorldState, s: WorldState, cfg: Records, cluster: Cluster, instanceType: string,
                      repo: ResolvedEnvRepository, id: string, now: int): (r: InitOutcome)
    requires Extends(s0, s) && NoOutputs(Since(s0, s))
    ensures InitReported(o, s0, r) && Extends(s, r.world) && |r.world.calls| > Next(s)
    ensures var out := LastOutput(Since(s0, r.world));
      out.InitContent? ==> (out.envCreated <==> r.world.calls[Next(s)].CreateEnv?)
    ensures r.session.Some? ==> r.session.value.cluster == cluster
  {
    var envName := BuildEnvNameFromResolvedRepo(repo);
    var existing := GetEnv(cfg, cluster.name, envName);
    if existing.Failure? && !existing.error.EnvNotExists? then Halt(Report(o, s0, s, existing.error))
    else if existing.Success? && existing.value.status == Removing then
      Halt(Report(o, s0, s, InitRemovingEnv(existing.value.name)))
    else if existing.Success? && existing.value.status == Created then
      var e := Emit(o, s0, s, InitContent(cluster, existing.value, false));
      InitOutcome(e.world, e.err, Some(Session(cfg, cluster, existing.value)))
    else
      var env := if existing.Success? then existing.value else NewEnv(envName, instanceType, repo, id, now);
      var a := CreateEnvRun(o, s, cfg, cluster, env);
      ChainNoOutputs(s0, s, a.world);
      if a.err.Some? then Halt(Report(o, s0, a.world, a.err.value))
      else
        var e := Emit(o, s0, a.world, InitContent(cluster, a.entity, true));
        InitOutcome(e.world, e.err, Some(Session(a.config, cluster, a.entity)))
  }

  /** The SetEnvAsCreated closure: the environment marked Created, then UpdateEnvInConfig. */
  function SetEnvAsCreatedRun(o: Oracle, s: WorldState, session: Session): (r: Run<Env>)
    ensures r.entity == session.env.(status := Created)
    ensures session.cluster.name !in session.config ==>
      r.world == s && r.config == session.config && r.err == Some(ClusterNotExists(session.cluster.name))
    ensures session.cluster.name in session.config ==>
      r.config == PutEnv(session.config, session.cluster.name, r.entity).value
      && r.config[session.cluster.name].envs[session.env.name].status == Created
      && r.world.calls == s.calls + [Save(r.config, o.succeeds(Next(s)))]
      && r.err == ErrorAt(o, Next(s))
      && (r.err.None? ==> r.world.stored == Some(r.config))
  {
    var env := session.env.(status := Created);
    var u := UpdateEnvInConfigRun(o, s, session.config, session.cluster, env);
    Run(u.world, u.config, env, u.err)
  }

  /** Init: a failed Build is reported and returned before anything else. */
  lemma InitBuildFailure(o: Oracle, s: WorldState, instanceType: string, repo: ResolvedEnvRepository,
                         id: string, now: int)
    requires !o.succeeds(Next(s))
    ensures var r, n := InitRun(o, s, instanceType, repo, id, now), Next(s);
      r.world.calls == s.calls + [Build(false), HandleOutput(ErrorOutput(ExternalFailure(n)), o.succeeds(n + 1))]
      && r.world.stored == s.stored && r.err == Some(ExternalFailure(n)) && r.session.None?
  {
    var b := BuildStep(o, s);
    assert InitRun(o, s, instanceType, repo, id, now) == Halt(Report(o, s, b.world, b.err.value));
  }

  /** Init: a failed instance-type check is reported and returned before the record is looked up. */
  lemma InitInstanceTypeFailure(o: Oracle, s: WorldState, instanceType: string, repo: ResolvedEnvRepository,
                                id: string, now: int)
    requires o.succeeds(Next(s)) && !o.succeeds(Next(s) + 1)
    ensures var r, n := InitRun(o, s, instanceType, repo, id, now), Next(s);
      r.world.calls == s.calls + [Build(true), CheckInstanceType(instanceType, false),
                                  HandleOutput(ErrorOutput(ExternalFailure(n + 1)), o.succeeds(n + 2))]
      && r.world.stored == s.stored && r.err == Some(ExternalFailure(n + 1)) && r.session.None?
  {
    var b := BuildStep(o, s);
    var c := CheckInstanceTypeStep(o, b.world, instanceType);
    assert InitRun(o, s, instanceType, repo, id, now) == Halt(Report(o, s, c.world, c.err.value));
  }

  /** Init: a failed lookup is reported and returned, and nothing is installed. */
  lemma InitLookupFailure(o: Oracle, s: WorldState, instanceType: string, repo: ResolvedEnvRepository, id: string,
                          now: int)
    requires o.succeeds(Next(s)) && o.succeeds(Next(s) + 1) && !o.succeeds(Next(s) + 2)
    ensures var r, n := InitRun(o, s, instanceType, repo, id, now), Next(s);
      r.world.calls == s.calls + [Build(true), CheckInstanceType(instanceType, true), Lookup(false),
                                  HandleOutput(ErrorOutput(ExternalFailure(n + 2)), o.succeeds(n + 3))]
      && r.world.stored == s.stored && r.err == Some(ExternalFailure(n + 2)) && r.session.None?
  {
    var b := BuildStep(o, s);
    var c := CheckInstanceTypeStep(o, b.world, instanceType);
    var l := LookupStep(o, c.world);
    assert l.err == Some(ExternalFailure(Next(s) + 2));
    assert InitRun(o, s, instanceType, repo, id, now) == Halt(Report(o, s, l.world, l.err.value));
  }

  /** Where Init stands after a successful Build, check and lookup with a record saved. */
  function LookedUp(s: WorldState, instanceType: string): WorldState {
    WorldState(s.calls + [Build(true), CheckInstanceType(instanceType, true), Lookup(true)], s.stored)
  }

  /** Init: with a record saved, the cluster stage starts right after the lookup, on that record. */
  lemma InitLooksUpRecord(o: Oracle, s: WorldState, instanceType: string, repo: ResolvedEnvRepository, id: string,
                          now: int)
    requires o.succeeds(Next(s)) && o.succeeds(Next(s) + 1) && o.succeeds(Next(s) + 2) && s.stored.Some?
    ensures Extends(s, LookedUp(s, instanceType)) && NoOutputs(Since(s, LookedUp(s, instanceType)))
    ensures InitRun(o, s, instanceType, repo, id, now)
      == InitClusterRun(o, s, LookedUp(s, instanceType), s.stored.value, instanceType, repo, id, now)
  {
    assert Since(s, LookedUp(s, instanceType)) == [Build(true), CheckInstanceType(instanceType, true), Lookup(true)];
    var b := BuildStep(o, s);
    var c := CheckInstanceTypeStep(o, b.world, instanceType);
    var l := LookupStep(o, c.world);
    assert l.world == LookedUp(s, instanceType) && l.err.None? && l.value == s.stored.value;
  }

  /** Init: with nothing installed, the install stage starts right after the lookup. */
  lemma InitFindsNothing(o: Oracle, s: WorldState, instanceType: string, repo: ResolvedEnvRepository, id: string,
                         now: int)
    requires o.succeeds(Next(s)) && o.succeeds(Next(s) + 1) && o.succeeds(Next(s) + 2) && s.stored.None?
    ensures Extends(s, LookedUp(s, instanceType)) && NoOutputs(Since(s, LookedUp(s, instanceType)))
    ensures InitRun(o, s, instanceType, repo, id, now)
      == InitInstallRun(o, s, LookedUp(s, instanceType), instanceType, repo, id, now)
  {
    assert Since(s, LookedUp(s, instanceType)) == [Build(true), CheckInstanceType(instanceType, true), Lookup(true)];
    var b := BuildStep(o, s);
    var c := CheckInstanceTypeStep(o, b.world, instanceType);
    var l := LookupStep(o, c.world);
    assert l.world == LookedUp(s, instanceType) && l.err == Some(YoloNotInstalled);
  }

  /** The install stage starts by creating the storage; a failure there is reported and returned. */
  lemma InitInstallStorageFirst(o: Oracle, s0: WorldState, s: WorldState, instanceType: string,
                                repo: ResolvedEnvRepository, id: string, now: int)
    requires Extends(s0, s) && NoOutputs(Since(s0, s))
    ensures var r, n := InitInstallRun(o, s0, s, instanceType, repo, id, now), Next(s);
      Extends(s, r.world) && |r.world.calls| > n && r.world.calls[n] == CreateStorage(o.succeeds(n))
      && (!o.succeeds(n) ==> r.err == Some(ExternalFailure(n)) && r.session.None?)
  {
    var i := InstallYoloRun(o, s, map[]);
    ChainNoOutputs(s0, s, i.world);
    var r := InitInstallRun(o, s0, s, instanceType, repo, id, now);
    if i.err.Some? {
      assert r == Halt(Report(o, s0, i.world, i.err.value));
    } else {
      assert r == InitClusterRun(o, s0, i.world, map[], instanceType, repo, id, now);
    }
    assert r.world.calls[Next(s)] == i.world.calls[Next(s)];
  }

  /** Where the install stage stands once the storage is created and the empty record saved. */
  function Installed(s: WorldState): WorldState {
    WorldState(s.calls + [CreateStorage(true), Save(map[], true)], Some(map[]))
  }

  /** The install stage, once InstallYolo succeeded, goes on with the cluster stage on the empty record. */
  lemma InitInstallProceeds(o: Oracle, s0: WorldState, s: WorldState, instanceType: string,
                            repo: ResolvedEnvRepository, id: string, now: int)
    requires Extends(s0, s) && NoOutputs(Since(s0, s)) && o.succeeds(Next(s)) && o.succeeds(Next(s) + 1)
    ensures Extends(s0, Installed(s)) && NoOutputs(Since(s0, Installed(s)))
    ensures InitInstallRun(o, s0, s, instanceType, repo, id, now)
      == InitClusterRun(o, s0, Installed(s), map[], instanceType, repo, id, now)
  {
    var i := InstallYoloRun(o, s, map[]);
    ChainNoOutputs(s0, s, i.world);
    assert i.world == Installed(s) && i.err.None?;
  }

  /**
   * The install stage: InstallYolo runs before the cluster stage: once the
   * storage is created and the empty record saved, a fresh default cluster
   * is created.
   */
  lemma InitInstallsFirst(o: Oracle, s0: WorldState, s: WorldState, instanceType: string, repo: ResolvedEnvRepository,
                          id: string, now: int)
    requires Extends(s0, s) && NoOutputs(Since(s0, s)) && o.succeeds(Next(s)) && o.succeeds(Next(s) + 1)
    ensures var r, n := InitInstallRun(o, s0, s, instanceType, repo, id, now), Next(s);
      |r.world.calls| > n + 2 && r.world.calls[n + 1] == Save(map[], true)
      && r.world.calls[n + 2] == Call.CreateCluster(NewCluster(DefaultClusterName, instanceType, true), o.succeeds(n + 2))
  {
    InitInstallProceeds(o, s0, s, instanceType, repo, id, now);
    InitClusterAbsent(o, s0, Installed(s), map[], instanceType, repo, id, now);
    var r := InitInstallRun(o, s0, s, instanceType, repo, id, now);
    assert r.world.calls[Next(s) + 1] == Installed(s).calls[Next(s) + 1];
  }

  /**
   * The cluster stage when the cluster is not reused: what follows
   * CreateCluser only adds calls to those it made.
   */
  lemma InitClusterAfterCreation(o: Oracle, s0: WorldState, s: WorldState, cfg: Records, instanceType: string,
                                 repo: ResolvedEnvRepository, id: string, now: int)
    requires Extends(s0, s) && NoOutputs(Since(s0, s))
    requires !(DefaultClusterName in cfg && cfg[DefaultClusterName].cluster.status != Creating)
    ensures var cluster := if DefaultClusterName in cfg then cfg[DefaultClusterName].cluster
                           else NewCluster(DefaultClusterName, instanceType, true);
      Extends(CreateClusterRun(o, s, cfg, cluster).world, InitClusterRun(o, s0, s, cfg, instanceType, repo, id, now).world)
  {
    var cluster := if DefaultClusterName in cfg then cfg[DefaultClusterName].cluster
                   else NewCluster(DefaultClusterName, instanceType, true);
    var a := CreateClusterRun(o, s, cfg, cluster);
    ChainNoOutputs(s0, s, a.world);
    var r := InitClusterRun(o, s0, s, cfg, instanceType, repo, id, now);
    if a.err.Some? {
      assert r == Halt(Report(o, s0, a.world, a.err.value));
    } else {
      assert r == InitEnvRun(o, s0, a.world, a.config, a.entity, instanceType, repo, id, now);
    }
  }

  /** The cluster stage with no default cluster: CreateCluser runs first, on a fresh default cluster. */
  lemma InitClusterAbsent(o: Oracle, s0: WorldState, s: WorldState, cfg: Records, instanceType: string,
                          repo: ResolvedEnvRepository, id: string, now: int)
    requires Extends(s0, s) && NoOutputs(Since(s0, s)) && DefaultClusterName !in cfg
    ensures var r := InitClusterRun(o, s0, s, cfg, instanceType, repo, id, now);
      |r.world.calls| > Next(s)
      && r.world.calls[Next(s)] == Call.CreateCluster(NewCluster(DefaultClusterName, instanceType, true), o.succeeds(Next(s)))
  {
    InitClusterAfterCreation(o, s0, s, cfg, instanceType, repo, id, now);
    var a := CreateClusterRun(o, s, cfg, NewCluster(DefaultClusterName, instanceType, true));
    assert a.world.calls[Next(s)] == Call.CreateCluster(NewCluster(DefaultClusterName, instanceType, true), o.succeeds(Next(s)));
  }

  /** The cluster stage with a default cluster still Creating: CreateCluser resumes it, not a fresh one. */
  lemma InitClusterResumed(o: Oracle, s0: WorldState, s: WorldState, cfg: Records, instanceType: string,
                           repo: ResolvedEnvRepository, id: string, now: int)
    requires Extends(s0, s) && NoOutputs(Since(s0, s))
    requires DefaultClusterName in cfg && cfg[DefaultClusterName].cluster.status == Creating
    ensures var r := InitClusterRun(o, s0, s, cfg, instanceType, repo, id, now);
      |r.world.calls| > Next(s)
      && r.world.calls[Next(s)] == Call.CreateCluster(cfg[DefaultClusterName].cluster, o.succeeds(Next(s)))
  {
    InitClusterAfterCreation(o, s0, s, cfg, instanceType, repo, id, now);
    var a := CreateClusterRun(o, s, cfg, cfg[DefaultClusterName].cluster);
    assert a.world.calls[Next(s)] == Call.CreateCluster(cfg[DefaultClusterName].cluster, o.succeeds(Next(s)));
  }

  /**
   * The cluster stage with a default cluster Created or Removing: the
   * cluster is used as it is, and the environment stage, which creates no
   * cluster, follows at once.
   */
  lemma InitClusterReused(o: Oracle, s0: WorldState, s: WorldState, cfg: Records, instanceType: string,
                          repo: ResolvedEnvRepository, id: string, now: int)
    requires Extends(s0, s) && NoOutputs(Since(s0, s))
    requires DefaultClusterName in cfg && cfg[DefaultClusterName].cluster.status != Creating
    ensures var r := InitClusterRun(o, s0, s, cfg, instanceType, repo, id, now);
      r == InitEnvRun(o, s0, s, cfg, cfg[DefaultClusterName].cluster, instanceType, repo, id, now)
      && forall i :: Next(s) <= i < |r.world.calls| ==> !r.world.calls[i].CreateCluster?
  {
    InitEnvCreatesNoCluster(o, s0, s, cfg, cfg[DefaultClusterName].cluster, instanceType, repo, id, now);
  }

  /** The environment stage calls CreateCluser nowhere. */
  lemma InitEnvCreatesNoCluster(o: Oracle, s0: WorldState, s: WorldState, cfg: Records, cluster: Cluster,
                                instanceType: string, repo: ResolvedEnvRepository, id: string, now: int)
    requires Extends(s0, s) && NoOutputs(Since(s0, s))
    ensures var r := InitEnvRun(o, s0, s, cfg, cluster, instanceType, repo, id, now);
      forall i :: Next(s) <= i < |r.world.calls| ==> !r.world.calls[i].CreateCluster?
  {
    var r := InitEnvRun(o, s0, s, cfg, cluster, instanceType, repo, id, now);
    var envName := BuildEnvNameFromResolvedRepo(repo);
    var existing := GetEnv(cfg, cluster.name, envName);
    if existing.Failure? && !existing.error.EnvNotExists? {
      assert r.world.calls == s.calls + [HandleOutput(ErrorOutput(existing.error), o.succeeds(Next(s)))];
    } else if existing.Success? && existing.value.status == Removing {
      assert r.world.calls == s.calls + [HandleOutput(ErrorOutput(InitRemovingEnv(existing.value.name)), o.succeeds(Next(s)))];
    } else if existing.Success? && existing.value.status == Created {
      assert r.world.calls == s.calls + [HandleOutput(InitContent(cluster, existing.value, false), o.succeeds(Next(s)))];
    } else {
      var env := if existing.Success? then existing.value else NewEnv(envName, instanceType, repo, id, now);
      var a := CreateEnvRun(o, s, cfg, cluster, env);
      ChainNoOutputs(s0, s, a.world);
      var out := if a.err.Some? then ErrorOutput(a.err.value) else InitContent(cluster, a.entity, true);
      assert r.world.calls == a.world.calls + [HandleOutput(out, o.succeeds(Next(a.world)))];
    }
  }

  /** The environment stage on an environment being removed: InitRemovingEnv is reported and returned, CreateEnv not called. */
  lemma InitEnvRemoving(o: Oracle, s0: WorldState, s: WorldState, cfg: Records, cluster: Cluster,
                        instanceType: string, repo: ResolvedEnvRepository, id: string, now: int)
    requires Extends(s0, s) && NoOutputs(Since(s0, s))
    requires var e := GetEnv(cfg, cluster.name, BuildEnvNameFromResolvedRepo(repo)); e.Success? && e.value.status == Removing
    ensures var r, env := InitEnvRun(o, s0, s, cfg, cluster, instanceType, repo, id, now),
                          GetEnv(cfg, cluster.name, BuildEnvNameFromResolvedRepo(repo)).value;
      r.world.calls == s.calls + [HandleOutput(ErrorOutput(InitRemovingEnv(env.name)), o.succeeds(Next(s)))]
      && r.err == Some(InitRemovingEnv(env.name)) && r.session.None?
  {
  }

  /** The environment stage on a Created environment: no backend call, and the content says nothing was created. */
  lemma InitEnvAlreadyCreated(o: Oracle, s0: WorldState, s: WorldState, cfg: Records, cluster: Cluster,
                              instanceType: string, repo: ResolvedEnvRepository, id: string, now: int)
    requires Extends(s0, s) && NoOutputs(Since(s0, s))
    requires var e := GetEnv(cfg, cluster.name, BuildEnvNameFromResolvedRepo(repo)); e.Success? && e.value.status == Created
    ensures var r, env := InitEnvRun(o, s0, s, cfg, cluster, instanceType, repo, id, now),
                          GetEnv(cfg, cluster.name, BuildEnvNameFromResolvedRepo(repo)).value;
      r.world.calls == s.calls + [HandleOutput(InitContent(cluster, env, false), o.succeeds(Next(s)))]
      && r.err == ErrorAt(o, Next(s)) && r.session == Some(Session(cfg, cluster, env))
  {
  }

  /**
   * The environment stage on an environment still Creating: CreateEnv
   * resumes that environment, so its id and its status are kept.
   */
  lemma InitEnvResumed(o: Oracle, s0: WorldState, s: WorldState, cfg: Records, cluster: Cluster,
                       instanceType: string, repo: ResolvedEnvRepository, id: string, now: int)
    requires Extends(s0, s) && NoOutputs(Since(s0, s))
    requires var e := GetEnv(cfg, cluster.name, BuildEnvNameFromResolvedRepo(repo)); e.Success? && e.value.status == Creating
    ensures var r, env := InitEnvRun(o, s0, s, cfg, cluster, instanceType, repo, id, now),
                          GetEnv(cfg, cluster.name, BuildEnvNameFromResolvedRepo(repo)).value;
      r.world.calls[Next(s)] == Call.CreateEnv(cluster, env, o.succeeds(Next(s)))
      && (r.session.Some? ==>
            r.session.value.env == ProvidedEnv(o, Next(s), env)
            && r.session.value.env.id == env.id && r.session.value.env.status == Creating)
  {
    var env := GetEnv(cfg, cluster.name, BuildEnvNameFromResolvedRepo(repo)).value;
    var a := CreateEnvRun(o, s, cfg, cluster, env);
    assert a.world.calls[Next(s)] == Call.CreateEnv(cluster, env, o.succeeds(Next(s)));
  }

  /** The environment stage with no such environment: CreateEnv runs on a fresh environment with the given id and time. */
  lemma InitEnvFresh(o: Oracle, s0: WorldState, s: WorldState, cfg: Records, cluster: Cluster,
                     instanceType: string, repo: ResolvedEnvRepository, id: string, now: int)
    requires Extends(s0, s) && NoOutputs(Since(s0, s))
    requires var e := GetEnv(cfg, cluster.name, BuildEnvNameFromResolvedRepo(repo)); e.Failure? && e.error.EnvNotExists?
    ensures var r, newEnv := InitEnvRun(o, s0, s, cfg, cluster, instanceType, repo, id, now),
                            NewEnv(BuildEnvNameFromResolvedRepo(repo), instanceType, repo, id, now);
      r.world.calls[Next(s)] == Call.CreateEnv(cluster, newEnv, o.succeeds(Next(s)))
      && (r.session.Some? ==> r.session.value.env == ProvidedEnv(o, Next(s), newEnv))
  {
    var newEnv := NewEnv(BuildEnvNameFromResolvedRepo(repo), instanceType, repo, id, now);
    var a := CreateEnvRun(o, s, cfg, cluster, newEnv);
    assert a.world.calls[Next(s)] == Call.CreateEnv(cluster, newEnv, o.succeeds(Next(s)));
  }

  /**
   * A session as Init hands it out: its record holds the default cluster,
   * filed under its name and no longer Creating, and in it the environment,
   * filed under its name.
   */
  predicate SessionFiled(session: Session, envName: string) {
    var cfg := session.config;
    session.cluster.name == DefaultClusterName && DefaultClusterName in cfg
    && cfg[DefaultClusterName].cluster == session.cluster && session.cluster.status != Creating
    && envName in cfg[DefaultClusterName].envs && cfg[DefaultClusterName].envs[envName] == session.env
    && session.env.name == envName
  }

  /** The environment stage of Init, on a saved record and its default cluster, hands out a filed, saved session. */
  lemma InitEnvSessionFiled(o: Oracle, s0: WorldState, s: WorldState, cfg: Records, cluster: Cluster,
                            instanceType: string, repo: ResolvedEnvRepository, id: string, now: int)
    requires Extends(s0, s) && NoOutputs(Since(s0, s)) && s.stored == Some(cfg) && Valid(cfg)
    requires cluster.name == DefaultClusterName && DefaultClusterName in cfg
    requires cfg[DefaultClusterName].cluster == cluster && cluster.status != Creating
    ensures var r := InitEnvRun(o, s0, s, cfg, cluster, instanceType, repo, id, now);
      r.session.Some? ==>
        r.world.stored == Some(r.session.value.config)
        && SessionFiled(r.session.value, BuildEnvNameFromResolvedRepo(repo))
  {
    var r := InitEnvRun(o, s0, s, cfg, cluster, instanceType, repo, id, now);
    var envName := BuildEnvNameFromResolvedRepo(repo);
    var existing := GetEnv(cfg, cluster.name, envName);
    if existing.Success? && existing.value.status == Created {
      assert r.session == Some(Session(cfg, cluster, existing.value));
    } else if (existing.Success? && existing.value.status == Creating) || (existing.Failure? && existing.error.EnvNotExists?) {
      var env := if existing.Success? then existing.value else NewEnv(envName, instanceType, repo, id, now);
      assert env.name == envName;
      var a := CreateEnvRun(o, s, cfg, cluster, env);
      ChainNoOutputs(s0, s, a.world);
      if a.err.None? {
        assert r.session == Some(Session(a.config, cluster, a.entity));
        assert r.world.stored == a.world.stored;
      }
    }
  }

  /** The cluster stage of Init, on a saved record filed by name, hands out a filed, saved session. */
  lemma InitClusterSessionFiled(o: Oracle, s0: WorldState, s: WorldState, cfg: Records, instanceType: string,
                                repo: ResolvedEnvRepository, id: string, now: int)
    requires Extends(s0, s) && NoOutputs(Since(s0, s)) && s.stored == Some(cfg) && Valid(cfg)
    ensures var r := InitClusterRun(o, s0, s, cfg, instanceType, repo, id, now);
      r.session.Some? ==>
        r.world.stored == Some(r.session.value.config)
        && SessionFiled(r.session.value, BuildEnvNameFromResolvedRepo(repo))
  {
    var r := InitClusterRun(o, s0, s, cfg, instanceType, repo, id, now);
    var existing := GetCluster(cfg, DefaultClusterName);
    if existing.Success? && existing.value.status != Creating {
      InitEnvSessionFiled(o, s0, s, cfg, existing.value, instanceType, repo, id, now);
    } else {
      var cluster := if existing.Success? then existing.value else NewCluster(DefaultClusterName, instanceType, true);
      var a := CreateClusterRun(o, s, cfg, cluster);
      ChainNoOutputs(s0, s, a.world);
      if a.err.None? {
        assert r == InitEnvRun(o, s0, a.world, a.config, a.entity, instanceType, repo, id, now);
        CreateClusterStoresRecord(o, s, cfg, cluster);
        MutationsKeepValid(cfg, a.entity, DefaultClusterName, NewEnv("", "", repo, id, now), "");
        InitEnvSessionFiled(o, s0, a.world, a.config, a.entity, instanceType, repo, id, now);
      }
    }
  }

  /**
   * Init, on a world whose saved record, if any, is filed by name, hands
   * out a session whose record is the one saved, with the default cluster
   * and the environment filed in it.
   */
  lemma InitSessionFiled(o: Oracle, s: WorldState, instanceType: string, repo: ResolvedEnvRepository, id: string,
                         now: int)
    requires s.stored.Some? ==> Valid(s.stored.value)
    ensures var r := InitRun(o, s, instanceType, repo, id, now);
      r.session.Some? ==>
        r.world.stored == Some(r.session.value.config)
        && SessionFiled(r.session.value, BuildEnvNameFromResolvedRepo(repo))
  {
    var n := Next(s);
    if o.succeeds(n) && o.succeeds(n + 1) && o.succeeds(n + 2) {
      var l := LookedUp(s, instanceType);
      if s.stored.Some? {
        InitLooksUpRecord(o, s, instanceType, repo, id, now);
        InitClusterSessionFiled(o, s, l, s.stored.value, instanceType, repo, id, now);
      } else {
        InitFindsNothing(o, s, instanceType, repo, id, now);
        var i := InstallYoloRun(o, l, map[]);
        ChainNoOutputs(s, l, i.world);
        if i.err.None? {
          assert InitInstallRun(o, s, l, instanceType, repo, id, now)
            == InitClusterRun(o, s, i.world, map[], instanceType, repo, id, now);
          InitClusterSessionFiled(o, s, i.world, map[], instanceType, repo, id, now);
        }
      }
    } else {
      InitFailsEarly(o, s, instanceType, repo, id, now);
    }
  }

  /** Init: when Build, the instance-type check or the lookup fails, that error is returned and no session handed out. */
  lemma InitFailsEarly(o: Oracle, s: WorldState, instanceType: string, repo: ResolvedEnvRepository, id: string,
                       now: int)
    requires !(o.succeeds(Next(s)) && o.succeeds(Next(s) + 1) && o.succeeds(Next(s) + 2))
    ensures var r, n := InitRun(o, s, instanceType, repo, id, now), Next(s);
      r.session.None? && r.world.stored == s.stored
      && r.err == Some(ExternalFailure(if !o.succeeds(n) then n else if !o.succeeds(n + 1) then n + 1 else n + 2))
  {
    if !o.succeeds(Next(s)) {
      InitBuildFailure(o, s, instanceType, repo, id, now);
    } else if !o.succeeds(Next(s) + 1) {
      InitInstanceTypeFailure(o, s, instanceType, repo, id, now);
    } else {
      InitLookupFailure(o, s, instanceType, repo, id, now);
    }
  }

  /**
   * The SetEnvAsCreated closure of a filed, saved session, then Init again
   * on the same repository: the second Init creates nothing, hands out the
   * environment as Created and says it was not created.
   */
  lemma InitAfterSetEnvAsCreated(o: Oracle, s: WorldState, session: Session, instanceType: string,
                                 repo: ResolvedEnvRepository, id: string, now: int)
    requires s.stored == Some(session.config) && SessionFiled(session, BuildEnvNameFromResolvedRepo(repo))
    requires var u := SetEnvAsCreatedRun(o, s, session);
      u.err.None? && o.succeeds(Next(u.world)) && o.succeeds(Next(u.world) + 1) && o.succeeds(Next(u.world) + 2)
    ensures var u := SetEnvAsCreatedRun(o, s, session);
      var second, n := InitRun(o, u.world, instanceType, repo, id, now), Next(u.world);
      second.world.calls == u.world.calls + [Build(true), CheckInstanceType(instanceType, true), Lookup(true),
        HandleOutput(InitContent(session.cluster, session.env.(status := Created), false), o.succeeds(n + 3))]
      && second.session == Some(Session(u.config, session.cluster, session.env.(status := Created)))
  {
    var envName := BuildEnvNameFromResolvedRepo(repo);
    var created := session.env.(status := Created);
    var u := SetEnvAsCreatedRun(o, s, session);
    assert u.config == PutEnv(session.config, DefaultClusterName, created).value;
    assert u.config[DefaultClusterName].cluster == session.cluster;
    assert GetEnv(u.config, session.cluster.name, envName) == Success(created);
    InitLooksUpRecord(o, u.world, instanceType, repo, id, now);
    var l := LookedUp(u.world, instanceType);
    InitClusterReused(o, u.world, l, u.config, instanceType, repo, id, now);
    InitEnvAlreadyCreated(o, u.world, l, u.config, session.cluster, instanceType, repo, id, now);
  }

  /**
   * The SetEnvAsCreated closure as an object: what it captures, with the
   * environment it updates in place.
   */
  class EnvSession {
    const world: World
    const config: Config
    const cluster: Cluster
    var env: Env

    constructor(world: World, config: Config, cluster: Cluster, env: Env)
      ensures this.world == world && this.config == config && this.cluster == cluster && this.env == env
    {
      this.world := world;
      this.config := config;
      this.cluster := cluster;
      this.env := env;
    }

    /** The session's current values. */
    function Values(): Session
      reads this, config
    {
      Session(config.clusters, cluster, env)
    }

    /** SetEnvAsCreated: the environment becomes Created, then UpdateEnvInConfig saves it. */
    method SetEnvAsCreated() returns (err: Option<Error>)
      modifies this, world, config
      ensures var r := SetEnvAsCreatedRun(world.oracle, old(world.state), old(Values()));
        env == r.entity && world.state == r.world && config.clusters == r.config && err == r.err
    {
      env := env.(status := Created);
      err := UpdateEnvInConfig(world, config, cluster, env);
    }
  }

  /** InitFeature.Execute on a `World`: the calls of InitRun, in order, and the session handed out. */
  method InitFeature(w: World, instanceType: string, repo: ResolvedEnvRepository, id: string, now: int)
    returns (err: Option<Error>, session: Option<EnvSession>)
    modifies w
    ensures var r := InitRun(w.oracle, old(w.state), instanceType, repo, id, now);
      w.state == r.world && err == r.err && (session.Some? <==> r.session.Some?)
      && (session.Some? ==> session.value.world == w && session.value.Values() == r.session.value)
  {
    ghost var s0 := w.state;
    err := w.Build();
    if err.Some? {
      err := HandleError(w, err.value);
      return err, None;
    }
    err := w.CheckInstanceTypeValidity(instanceType);
    if err.Some? {
      err := HandleError(w, err.value);
      return err, None;
    }
    var records;
    records, err := w.LookupYoloConfig();
    if err.Some? && err != Some(YoloNotInstalled) {
      err := HandleError(w, err.value);
      return err, None;
    }
    var config: Config;
    if err.Some? {
      config := new Config(map[]);
      ghost var s := w.state;
      err := InstallYolo(w, config);
      ChainNoOutputs(s0, s, w.state);
      if err.Some? {
        err := HandleError(w, err.value);
        return err, None;
      }
    } else {
      config := new Config(records);
    }
    err, session := InitCluster(w, config, s0, instanceType, repo, id, now);
  }

  /** The cluster stage of InitFeature.Execute. */
  method InitCluster(w: World, config: Config, ghost s0: WorldState, instanceType: string,
                     repo: ResolvedEnvRepository, id: string, now: int)
    returns (err: Option<Error>, session: Option<EnvSession>)
    requires Extends(s0, w.state) && NoOutputs(Since(s0, w.state))
    modifies w, config
    ensures var r := InitClusterRun(w.oracle, s0, old(w.state), old(config.clusters), instanceType, repo, id, now);
      w.state == r.world && err == r.err && (session.Some? <==> r.session.Some?)
      && (session.Some? ==> session.value.world == w && session.value.Values() == r.session.value)
  {
    var existing := GetCluster(config.clusters, DefaultClusterName);
    var cluster: Cluster;
    if existing.Success? && existing.value.status != Creating {
      cluster := existing.value;
    } else {
      cluster := if existing.Success? then existing.value else NewCluster(DefaultClusterName, instanceType, true);
      ghost var s := w.state;
      cluster, err := Actions.CreateCluster(w, config, cluster);
      ChainNoOutputs(s0, s, w.state);
      if err.Some? {
        err := HandleError(w, err.value);
        return err, None;
      }
    }
    err, session := InitEnv(w, config, s0, cluster, instanceType, repo, id, now);
  }

  /** The environment stage of InitFeature.Execute. */
  method InitEnv(w: World, config: Config, ghost s0: WorldState, cluster: Cluster, instanceType: string,
                 repo: ResolvedEnvRepository, id: string, now: int)
    returns (err: Option<Error>, session: Option<EnvSession>)
    requires Extends(s0, w.state) && NoOutputs(Since(s0, w.state))
    modifies w, config
    ensures var r := InitEnvRun(w.oracle, s0, old(w.state), old(config.clusters), cluster, instanceType, repo, id, now);
      w.state == r.world && err == r.err && (session.Some? <==> r.session.Some?)
      && (session.Some? ==> session.value.world == w && session.value.Values() == r.session.value)
  {
    var envName := BuildEnvNameFromResolvedRepo(repo);
    var existing := GetEnv(config.clusters, cluster.name, envName);
    if existing.Failure? && !existing.error.EnvNotExists? {
      err := HandleError(w, existing.error);
      return err, None;
    }
    if existing.Success? && existing.value.status == Removing {
      err := HandleError(w, InitRemovingEnv(existing.value.name));
      return err, None;
    }
    var env: Env;
    var envCreated := false;
    if existing.Success? && existing.value.status == Created {
      env := existing.value;
    } else {
      env := if existing.Success? then existing.value else NewEnv(envName, instanceType, repo, id, now);
      ghost var s := w.state;
      env, err := Actions.CreateEnv(w, config, cluster, env);
      ChainNoOutputs(s0, s, w.state);
      if err.Some? {
        err := HandleError(w, err.value);
        return err, None;
      }
      envCreated := true;
    }
    var handedOut := new EnvSession(w, config, cluster, env);
    session := Some(handedOut);
    err := w.HandleOutput(InitContent(cluster, env, envCreated));
  }
}
