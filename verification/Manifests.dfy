/**
Worker manifests: which deployment of a worker a node runs.

Per worker the highest version wins, equal versions by lower envelope digest, and
a direct successor must link the envelope held.  The link check makes the outcome
depend on the order of arrival exactly when the winning envelope does not link
some envelope of the version below it.
*/
module Manifests {
  import opened Options

  type Name = string
  type Host = string

  /** The checks on a manifest's own text are summed up in `nameOk` and `bodyOk`. */
  datatype Manifest = Manifest(name: Name, version: nat, prev: Option<nat>, deleted: bool, hostnames: seq<Host>,
                               nameOk: bool, bodyOk: bool)

  datatype ManifestError = NotOperator | Garbled | BadName | BadBody | ChainBroken

  /** What opening an envelope against the operator's key yields. */
  datatype Opening = Opened(manifest: Manifest) | Unopened(error: ManifestError)

  datatype Envelope = Envelope(digest: nat, opening: Opening)

  datatype Record = Record(manifest: Manifest, digest: nat, envelope: Envelope)

  datatype Ingest = Changed | Stale | Rejected(error: ManifestError)

  type Workers = map<Name, Record>

  function Invalid(m: Manifest): Option<ManifestError> {
    if !m.nameOk then Some(BadName)
    else if (m.version == 1) != m.prev.None? then Some(ChainBroken)
    else if m.deleted || m.bodyOk then None
    else Some(BadBody)
  }

  function Fault(env: Envelope): Option<ManifestError> {
    if env.opening.Unopened? then Some(env.opening.error) else Invalid(env.opening.manifest)
  }

  function RecordOf(env: Envelope): Record
    requires env.opening.Opened?
  {
    Record(env.opening.manifest, env.digest, env)
  }

  /** Higher version, or the same version with a lower digest. */
  predicate Supersedes(version: nat, digest: nat, r: Record) {
    version > r.manifest.version || (version == r.manifest.version && digest < r.digest)
  }

  function IngestResult(workers: Workers, env: Envelope): Ingest {
    if Fault(env).Some? then Rejected(Fault(env).value)
    else
      var m := env.opening.manifest;
      if m.name !in workers then Changed
      else
        var r := workers[m.name];
        if !Supersedes(m.version, env.digest, r) then Stale
        else if m.version == r.manifest.version + 1 && m.prev != Some(r.digest) then Rejected(ChainBroken)
        else Changed
  }

  function Ingested(workers: Workers, env: Envelope): Workers {
    if IngestResult(workers, env).Changed? then workers[env.opening.manifest.name := RecordOf(env)] else workers
  }

  /** The workers a node knows after hearing `envs` in that order. */
  function After(envs: seq<Envelope>): Workers {
    if envs == [] then map[] else Ingested(After(envs[..|envs| - 1]), envs[|envs| - 1])
  }

  /** A live record that lists the host. */
  predicate Serves(r: Record, h: Host) {
    !r.manifest.deleted && h in r.manifest.hostnames
  }

  ghost predicate Contends(workers: Workers, among: set<Name>, n: Name, h: Host) {
    n in among && n in workers && Serves(workers[n], h)
  }

  /** Of the workers contending for the host, `n` has the least digest. */
  ghost predicate Routed(workers: Workers, among: set<Name>, n: Name, h: Host) {
    && Contends(workers, among, n, h)
    && forall x {:trigger Contends(workers, among, x, h)} :: Contends(workers, among, x, h) ==> workers[n].digest <= workers[x].digest
  }

  /** Every host contended for goes to the contender with the least digest, and no other host is routed. */
  ghost predicate IsRouting(workers: Workers, among: set<Name>, routes: map<Host, Name>) {
    && (forall h {:trigger routes[h]} :: h in routes ==> Routed(workers, among, routes[h], h))
    && (forall h, n {:trigger Contends(workers, among, n, h)} :: Contends(workers, among, n, h) ==> h in routes)
  }

  ghost predicate Filed(workers: Workers) {
    forall n :: n in workers ==> workers[n].manifest.name == n
  }

  class ManifestSet {
    var workers: Workers

    ghost predicate Valid()
      reads this
    {
      Filed(workers)
    }

    constructor ()
      ensures Valid() && workers == map[]
    {
      workers := map[];
    }

    method Ingest(env: Envelope) returns (r: Ingest)
      requires Valid()
      modifies this
      ensures Valid() && workers == Ingested(old(workers), env) && r == IngestResult(old(workers), env)
    {
      if env.opening.Unopened? {
        return Rejected(env.opening.error);
      }
      var m := env.opening.manifest;
      var invalid := Invalid(m);
      if invalid.Some? {
        return Rejected(invalid.value);
      }
      if m.name in workers {
        var existing := workers[m.name];
        var newer := m.version > existing.manifest.version || (m.version == existing.manifest.version && env.digest < existing.digest);
        if !newer {
          return Stale;
        }
        if m.version == existing.manifest.version + 1 && m.prev != Some(existing.digest) {
          return Rejected(ChainBroken);
        }
      }
      workers := workers[m.name := Record(m, env.digest, env)];
      return Changed;
    }

    /** Walk the live records in any order, keeping per host the least digest seen. */
    method Routes() returns (routes: map<Host, Name>)
      requires Valid()
      ensures IsRouting(workers, workers.Keys, routes)
    {
      hide IsRouting;
      routes := map[];
      var rest := workers.Keys;
      assert IsRouting(workers, {}, routes) by { NothingRouted(workers); }
      assert workers.Keys - rest == {};
      while rest != {}
        invariant rest <= workers.Keys && IsRouting(workers, workers.Keys - rest, routes)
        decreases |rest|
      {
        var n :| n in rest;
        ghost var done := workers.Keys - rest;
        rest := rest - {n};
        if !workers[n].manifest.deleted {
          routes := OfferAll(n, routes, done);
        } else {
          SkipOne(workers, done, n, routes);
        }
        assert workers.Keys - rest == done + {n};
      }
      assert workers.Keys - rest == workers.Keys;
    }

    method OfferAll(n: Name, best: map<Host, Name>, ghost done: set<Name>) returns (after: map<Host, Name>)
      requires n in workers && !workers[n].manifest.deleted && n !in done && IsRouting(workers, done, best)
      ensures IsRouting(workers, done + {n}, after)
    {
      after := best;
      var hosts := workers[n].manifest.hostnames;
      for i := 0 to |hosts|
        invariant Offered(workers, n, hosts[..i], best, after)
      {
        var h := hosts[i];
        OfferOne(workers, n, hosts[..i], h, best, after);
        if h !in after || workers[n].digest < workers[after[h]].digest {
          after := after[h := n];
        }
        assert hosts[..i + 1] == hosts[..i] + [h];
      }
      assert hosts[..|hosts|] == hosts;
      AllOffered(workers, done, n, best, after);
    }
  }

  lemma NothingRouted(workers: Workers)
    ensures IsRouting(workers, {}, map[])
  {
  }

  predicate Better(workers: Workers, n: Name, best: map<Host, Name>, h: Host)
    requires n in workers
  {
    h !in best || (best[h] in workers && workers[n].digest < workers[best[h]].digest)
  }

  /** `after` is `best` once worker `n` was offered for the hosts `hs`. */
  ghost predicate Offered(workers: Workers, n: Name, hs: seq<Host>, best: map<Host, Name>, after: map<Host, Name>)
    requires n in workers
  {
    && (forall h {:trigger best[h]} :: h in best ==> best[h] in workers)
    && (forall h {:trigger h in after} :: h in after <==> h in best || h in hs)
    && (forall h {:trigger after[h]} :: h in after ==> after[h] == if h in hs && Better(workers, n, best, h) then n else best[h])
  }

  lemma OfferOne(workers: Workers, n: Name, hs: seq<Host>, h: Host, best: map<Host, Name>, after: map<Host, Name>)
    requires n in workers && Offered(workers, n, hs, best, after)
    ensures h in after ==> after[h] in workers
    ensures Offered(workers, n, hs + [h], best,
                    if h !in after || workers[n].digest < workers[after[h]].digest then after[h := n] else after)
  {
    if h in after {
      assert after[h] == if h in hs && Better(workers, n, best, h) then n else best[h];
    }
  }

  lemma AllOffered(workers: Workers, done: set<Name>, n: Name, best: map<Host, Name>, after: map<Host, Name>)
    requires n in workers && !workers[n].manifest.deleted && IsRouting(workers, done, best)
    requires Offered(workers, n, workers[n].manifest.hostnames, best, after)
    ensures IsRouting(workers, done + {n}, after)
  {
    var hs := workers[n].manifest.hostnames;
    forall h, x | Contends(workers, done + {n}, x, h)
      ensures h in after
    {
      assert x != n ==> Contends(workers, done, x, h);
    }
    forall h | h in after
      ensures Routed(workers, done + {n}, after[h], h)
    {
      assert h in best ==> Routed(workers, done, best[h], h);
      assert Contends(workers, done + {n}, after[h], h);
      forall x | Contends(workers, done + {n}, x, h)
        ensures workers[after[h]].digest <= workers[x].digest
      {
        assert x != n ==> Contends(workers, done, x, h);
      }
    }
  }

  lemma SkipOne(workers: Workers, done: set<Name>, n: Name, best: map<Host, Name>)
    requires n in workers && workers[n].manifest.deleted && IsRouting(workers, done, best)
    ensures IsRouting(workers, done + {n}, best)
  {
    forall h, x | Contends(workers, done + {n}, x, h)
      ensures Contends(workers, done, x, h)
    {
    }
    forall h | h in best
      ensures Routed(workers, done + {n}, best[h], h)
    {
      assert Routed(workers, done, best[h], h);
    }
  }

  /** The routing is determined by the records, whatever order they are walked in. */
  lemma RoutingUnique(workers: Workers, a: map<Host, Name>, b: map<Host, Name>)
    requires IsRouting(workers, workers.Keys, a) && IsRouting(workers, workers.Keys, b)
    requires DigestsDiffer(workers)
    ensures a == b
  {
    hide Serves;
    forall h | h in a
      ensures h in b && a[h] == b[h]
    {
      SameRoute(workers, a, b, h);
    }
    forall h | h in b
      ensures h in a
    {
      SameRoute(workers, b, a, h);
    }
    assert a.Keys == b.Keys;
  }

  ghost predicate DigestsDiffer(workers: Workers) {
    forall m, n :: m in workers && n in workers && workers[m].digest == workers[n].digest ==> m == n
  }

  lemma SameRoute(workers: Workers, a: map<Host, Name>, b: map<Host, Name>, h: Host)
    requires IsRouting(workers, workers.Keys, a) && IsRouting(workers, workers.Keys, b) && DigestsDiffer(workers)
    requires h in a
    ensures h in b && a[h] == b[h]
  {
    assert Routed(workers, workers.Keys, a[h], h);
    assert Contends(workers, workers.Keys, a[h], h);
    assert Routed(workers, workers.Keys, b[h], h);
    assert Contends(workers, workers.Keys, b[h], h);
  }
}
