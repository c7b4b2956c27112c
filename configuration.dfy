/**
 * The configuration record: the clusters by name, each with its
 * environments by name, and the `Config` object the actions mutate in
 * place. entities/config.go is not part of this model: its methods are
 * taken to be map lookups, updates and deletions.
 */
module Configuration {
  import opened Wrappers
  import opened Entities

  datatype ClusterEntry = ClusterEntry(cluster: Cluster, envs: map<string, Env>)

  type Records = map<string, ClusterEntry>

  /** Every cluster and every environment is filed under its own name. */
  predicate Valid(r: Records) {
    forall k :: k in r ==> EntryValid(r, k)
  }

  /** The entry under `k` holds the cluster named `k`, and each of its environments is filed under its name. */
  predicate EntryValid(r: Records, k: string)
    requires k in r
  {
    r[k].cluster.name == k && forall e :: e in r[k].envs ==> r[k].envs[e].name == e
  }

  function GetCluster(r: Records, clusterName: string): (c: Result<Cluster, Error>)
    ensures c.Success? <==> clusterName in r
    ensures c.Success? ==> c.value == r[clusterName].cluster
    ensures c.Failure? ==> c.error == ClusterNotExists(clusterName)
  {
    if clusterName in r then Success(r[clusterName].cluster) else Failure(ClusterNotExists(clusterName))
  }

  function GetEnv(r: Records, clusterName: string, envName: string): (e: Result<Env, Error>)
    ensures e.Success? <==> clusterName in r && envName in r[clusterName].envs
    ensures e.Success? ==> e.value == r[clusterName].envs[envName]
    ensures clusterName !in r ==> e == Failure(ClusterNotExists(clusterName))
    ensures clusterName in r && envName !in r[clusterName].envs ==> e == Failure(EnvNotExists(clusterName, envName))
  {
    if clusterName !in r then Failure(ClusterNotExists(clusterName))
    else if envName !in r[clusterName].envs then Failure(EnvNotExists(clusterName, envName))
    else Success(r[clusterName].envs[envName])
  }

  /** Files the cluster under its name, keeping the environments of a cluster already there. */
  function PutCluster(r: Records, c: Cluster): (r': Records)
    ensures r'.Keys == r.Keys + {c.name}
    ensures r'[c.name].cluster == c
    ensures r'[c.name].envs == (if c.name in r then r[c.name].envs else map[])
    ensures forall k :: k in r && k != c.name ==> r'[k] == r[k]
  {
    r[c.name := ClusterEntry(c, if c.name in r then r[c.name].envs else map[])]
  }

  /** Files the environment under its name in the named cluster, which must exist. */
  function PutEnv(r: Records, clusterName: string, e: Env): (r': Result<Records, Error>)
    ensures r'.Failure? <==> clusterName !in r
    ensures r'.Failure? ==> r'.error == ClusterNotExists(clusterName)
    ensures r'.Success? ==>
      r'.value.Keys == r.Keys
      && r'.value[clusterName] == ClusterEntry(r[clusterName].cluster, r[clusterName].envs[e.name := e])
      && forall k :: k in r && k != clusterName ==> r'.value[k] == r[k]
  {
    if clusterName !in r then Failure(ClusterNotExists(clusterName))
    else
      var entry := r[clusterName];
      Success(r[clusterName := ClusterEntry(entry.cluster, entry.envs[e.name := e])])
  }

  function DeleteCluster(r: Records, clusterName: string): (r': Result<Records, Error>)
    ensures r'.Failure? <==> clusterName !in r
    ensures r'.Failure? ==> r'.error == ClusterNotExists(clusterName)
    ensures r'.Success? ==> r'.value == r - {clusterName}
  {
    if clusterName !in r then Failure(ClusterNotExists(clusterName)) else Success(r - {clusterName})
  }

  function DeleteEnv(r: Records, clusterName: string, envName: string): (r': Result<Records, Error>)
    ensures r'.Failure? <==> clusterName !in r || envName !in r[clusterName].envs
    ensures clusterName !in r ==> r' == Failure(ClusterNotExists(clusterName))
    ensures clusterName in r && envName !in r[clusterName].envs ==> r' == Failure(EnvNotExists(clusterName, envName))
    ensures r'.Success? ==>
      r'.value.Keys == r.Keys
      && r'.value[clusterName] == ClusterEntry(r[clusterName].cluster, r[clusterName].envs - {envName})
      && forall k :: k in r && k != clusterName ==> r'.value[k] == r[k]
  {
    if clusterName !in r then Failure(ClusterNotExists(clusterName))
    else if envName !in r[clusterName].envs then Failure(EnvNotExists(clusterName, envName))
    else
      var entry := r[clusterName];
      Success(r[clusterName := ClusterEntry(entry.cluster, entry.envs - {envName})])
  }

  function CountEnvsInCluster(r: Records, clusterName: string): (n: Result<nat, Error>)
    ensures n.Failure? <==> clusterName !in r
    ensures n.Failure? ==> n.error == ClusterNotExists(clusterName)
    ensures n.Success? ==> n.value == |r[clusterName].envs|
  {
    if clusterName !in r then Failure(ClusterNotExists(clusterName)) else Success(|r[clusterName].envs|)
  }

  /** Every mutation keeps each entry under its own name. */
  lemma MutationsKeepValid(r: Records, c: Cluster, clusterName: string, e: Env, envName: string)
    requires Valid(r)
    ensures Valid(PutCluster(r, c))
    ensures PutEnv(r, clusterName, e).Success? ==> Valid(PutEnv(r, clusterName, e).value)
    ensures DeleteCluster(r, clusterName).Success? ==> Valid(DeleteCluster(r, clusterName).value)
    ensures DeleteEnv(r, clusterName, envName).Success? ==> Valid(DeleteEnv(r, clusterName, envName).value)
  {
    var p := PutCluster(r, c);
    forall k | k in p ensures EntryValid(p, k) {
      if k != c.name {
        assert p[k] == r[k];
      }
    }
    if PutEnv(r, clusterName, e).Success? {
      var q := PutEnv(r, clusterName, e).value;
      forall k | k in q ensures EntryValid(q, k) {
        if k != clusterName {
          assert q[k] == r[k];
        }
      }
    }
    if DeleteEnv(r, clusterName, envName).Success? {
      var d := DeleteEnv(r, clusterName, envName).value;
      forall k | k in d ensures EntryValid(d, k) {
        if k != clusterName {
          assert d[k] == r[k];
        }
      }
    }
  }

  /** What is set is what is read back; other environments are untouched. */
  lemma GetEnvAfterPutEnv(r: Records, clusterName: string, e: Env, otherName: string)
    requires PutEnv(r, clusterName, e).Success?
    ensures GetEnv(PutEnv(r, clusterName, e).value, clusterName, e.name) == Success(e)
    ensures otherName != e.name ==>
      GetEnv(PutEnv(r, clusterName, e).value, clusterName, otherName) == GetEnv(r, clusterName, otherName)
    ensures GetCluster(PutEnv(r, clusterName, e).value, clusterName) == GetCluster(r, clusterName)
  {
  }

  /** A removed environment is gone; the others are untouched. */
  lemma GetEnvAfterDeleteEnv(r: Records, clusterName: string, envName: string, otherName: string)
    requires DeleteEnv(r, clusterName, envName).Success?
    ensures GetEnv(DeleteEnv(r, clusterName, envName).value, clusterName, envName)
      == Failure(EnvNotExists(clusterName, envName))
    ensures otherName != envName ==>
      GetEnv(DeleteEnv(r, clusterName, envName).value, clusterName, otherName) == GetEnv(r, clusterName, otherName)
    ensures CountEnvsInCluster(DeleteEnv(r, clusterName, envName).value, clusterName).value
      == CountEnvsInCluster(r, clusterName).value - 1
  {
    var entry := r[clusterName];
    assert |entry.envs - {envName}| == |entry.envs| - 1 by {
      assert entry.envs.Keys == (entry.envs - {envName}).Keys + {envName};
    }
  }

  /** Filing a cluster twice under one name: the last one wins, over the same environments. */
  lemma PutClusterTwice(r: Records, c1: Cluster, c2: Cluster)
    requires c1.name == c2.name
    ensures PutCluster(PutCluster(r, c1), c2) == PutCluster(r, c2)
  {
  }

  /** Filing an environment twice under one name: the last one wins. */
  lemma PutEnvTwice(r: Records, clusterName: string, e1: Env, e2: Env)
    requires clusterName in r && e1.name == e2.name
    ensures PutEnv(PutEnv(r, clusterName, e1).value, clusterName, e2) == PutEnv(r, clusterName, e2)
  {
    var entry := r[clusterName];
    var once := r[clusterName := ClusterEntry(entry.cluster, entry.envs[e1.name := e1])];
    assert entry.envs[e1.name := e1][e2.name := e2] == entry.envs[e2.name := e2];
    assert PutEnv(r, clusterName, e1).value == once;
    assert once[clusterName := ClusterEntry(entry.cluster, entry.envs[e1.name := e1][e2.name := e2])]
      == r[clusterName := ClusterEntry(entry.cluster, entry.envs[e2.name := e2])];
  }

  /** Setting an environment that is already filed, unchanged, is a no-op. */
  lemma PutEnvIdempotent(r: Records, clusterName: string, e: Env)
    requires GetEnv(r, clusterName, e.name) == Success(e)
    ensures PutEnv(r, clusterName, e) == Success(r)
  {
    var entry := r[clusterName];
    assert entry.envs[e.name := e] == entry.envs;
    assert r[clusterName := ClusterEntry(entry.cluster, entry.envs)] == r;
  }

  /**
   * The configuration object of entities/config.go; its methods change the
   * record in place and report the same errors as the functions above.
   */
  class Config {
    var clusters: Records

    constructor(clusters: Records)
      ensures this.clusters == clusters
    {
      this.clusters := clusters;
    }

    /** Replaces the whole record, as the lookup's return value does. */
    method Load(r: Records)
      modifies this
      ensures clusters == r
    {
      clusters := r;
    }

    method SetCluster(c: Cluster)
      modifies this
      ensures clusters == PutCluster(old(clusters), c)
    {
      clusters := PutCluster(clusters, c);
    }

    method SetEnv(clusterName: string, e: Env) returns (err: Option<Error>)
      modifies this
      ensures var r := PutEnv(old(clusters), clusterName, e);
        (r.Success? ==> clusters == r.value && err == None)
        && (r.Failure? ==> clusters == old(clusters) && err == Some(r.error))
    {
      var r := PutEnv(clusters, clusterName, e);
      if r.Failure? {
        return Some(r.error);
      }
      clusters := r.value;
      return None;
    }

    method RemoveCluster(clusterName: string) returns (err: Option<Error>)
      modifies this
      ensures var r := DeleteCluster(old(clusters), clusterName);
        (r.Success? ==> clusters == r.value && err == None)
        && (r.Failure? ==> clusters == old(clusters) && err == Some(r.error))
    {
      var r := DeleteCluster(clusters, clusterName);
      if r.Failure? {
        return Some(r.error);
      }
      clusters := r.value;
      return None;
    }

    method RemoveEnv(clusterName: string, envName: string) returns (err: Option<Error>)
      modifies this
      ensures var r := DeleteEnv(old(clusters), clusterName, envName);
        (r.Success? ==> clusters == r.value && err == None)
        && (r.Failure? ==> clusters == old(clusters) && err == Some(r.error))
    {
      var r := DeleteEnv(clusters, clusterName, envName);
      if r.Failure? {
        return Some(r.error);
      }
      clusters := r.value;
      return None;
    }
  }
}
