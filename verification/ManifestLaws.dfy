/** What gossip order can and cannot change about manifests, and what a chain of them pins down. */
module ManifestLaws {
  import opened Options
  import opened Manifests

  // ---------------------------------------------------------------- convergence

  /** A valid manifest of the worker. */
  predicate Deploys(env: Envelope, name: Name) {
    Fault(env).None? && env.opening.manifest.name == name
  }

  function Version(env: Envelope): nat
    requires env.opening.Opened?
  {
    env.opening.manifest.version
  }

  /** A digest names one envelope. */
  ghost predicate Injective(envs: seq<Envelope>) {
    forall v, w :: v in envs && w in envs && v.digest == w.digest ==> v == w
  }

  /** The envelope every replica ought to end with: highest version, then lowest digest. */
  ghost predicate IsTop(envs: seq<Envelope>, name: Name, f: Envelope) {
    && f in envs && Deploys(f, name)
    && forall v :: v in envs && Deploys(v, name) && v != f ==>
         Version(v) < Version(f) || (Version(v) == Version(f) && f.digest < v.digest)
  }

  /** The envelope links every envelope of the version just below it. */
  ghost predicate Linked(envs: seq<Envelope>, name: Name, f: Envelope)
    requires f.opening.Opened?
  {
    forall e :: e in envs && Deploys(e, name) && Version(e) + 1 == Version(f) ==> f.opening.manifest.prev == Some(e.digest)
  }

  ghost predicate SameEnvelopes(a: seq<Envelope>, b: seq<Envelope>) {
    forall v :: v in a <==> v in b
  }

  /** Every record held is that of an envelope heard. */
  lemma {:induction false} KnownWorkers(ws: seq<Envelope>, name: Name)
    requires name in After(ws)
    ensures var r := After(ws)[name]; r.envelope in ws && Deploys(r.envelope, name) && r == RecordOf(r.envelope)
    decreases |ws|
  {
    var prior, env := ws[..|ws| - 1], ws[|ws| - 1];
    if name in After(prior) {
      KnownWorkers(prior, name);
    }
  }

  /** Once the top envelope was heard it is held, and stays. */
  lemma {:induction false} TopHeld(ws: seq<Envelope>, name: Name, f: Envelope, n: nat)
    requires n <= |ws| && IsTop(ws, name, f) && Linked(ws, name, f)
    ensures f in ws[..n] ==> name in After(ws[..n]) && After(ws[..n])[name] == RecordOf(f)
    decreases n
  {
    if n > 0 {
      var prior, env := ws[..n - 1], ws[n - 1];
      assert ws[..n][..n - 1] == prior && ws[..n][n - 1] == env;
      TopHeld(ws, name, f, n - 1);
      assert ws[..n] == prior + [env];
      if name in After(prior) {
        KnownWorkers(prior, name);
        assert After(prior)[name].envelope in ws;
      }
      assert env in ws;
    }
  }

  function Without(envs: seq<Envelope>, f: Envelope): seq<Envelope> {
    if envs == [] then [] else (if envs[0] == f then [] else [envs[0]]) + Without(envs[1..], f)
  }

  lemma {:induction false} WithoutElements(envs: seq<Envelope>, f: Envelope)
    ensures forall v :: v in Without(envs, f) <==> v in envs && v != f
    decreases |envs|
  {
    if envs != [] {
      WithoutElements(envs[1..], f);
      assert envs == [envs[0]] + envs[1..];
    }
  }

  /** Heard first after an envelope it does not link, `f` is refused and never comes back. */
  lemma {:induction false} RefusedForGood(e: Envelope, f: Envelope, name: Name, rest: seq<Envelope>, n: nat)
    requires Deploys(e, name) && Deploys(f, name) && Version(e) + 1 == Version(f)
    requires f.opening.manifest.prev != Some(e.digest)
    requires f !in rest && n <= |rest|
    ensures name in After([e, f] + rest[..n]) ==> After([e, f] + rest[..n])[name].envelope != f
    decreases n
  {
    var ws := [e, f] + rest[..n];
    if n == 0 {
      assert ws == [e, f] && ws[..1] == [e] && [e][..0] == [];
      assert After([e]) == map[name := RecordOf(e)];
      assert After(ws) == Ingested(After([e]), f);
    } else {
      assert ws[..|ws| - 1] == [e, f] + rest[..n - 1] && ws[|ws| - 1] == rest[n - 1];
      RefusedForGood(e, f, name, rest, n - 1);
    }
  }

  lemma BadOrder(envs: seq<Envelope>, name: Name, e: Envelope, f: Envelope) returns (ws: seq<Envelope>)
    requires e in envs && f in envs && Deploys(e, name) && Deploys(f, name)
    requires Version(e) + 1 == Version(f) && f.opening.manifest.prev != Some(e.digest)
    ensures SameEnvelopes(ws, envs) && !(name in After(ws) && After(ws)[name] == RecordOf(f))
  {
    var rest := Without(envs, f);
    WithoutElements(envs, f);
    ws := [e, f] + rest;
    RefusedForGood(e, f, name, rest, |rest|);
    assert rest[..|rest|] == rest;
  }

  /**
  Convergence, exactly: every order and every repetition of a set of envelopes ends
  with its top envelope if and only if the top envelope links every envelope of the
  version just below it.
  */
  lemma ConvergesExactly(envs: seq<Envelope>, name: Name, f: Envelope)
    requires IsTop(envs, name, f)
    ensures (forall ws {:trigger After(ws)} :: SameEnvelopes(ws, envs) ==> name in After(ws) && After(ws)[name] == RecordOf(f))
        <==> Linked(envs, name, f)
  {
    if Linked(envs, name, f) {
      forall ws | SameEnvelopes(ws, envs)
        ensures name in After(ws) && After(ws)[name] == RecordOf(f)
      {
        assert IsTop(ws, name, f) && Linked(ws, name, f);
        TopHeld(ws, name, f, |ws|);
        assert ws[..|ws|] == ws;
      }
    } else {
      var e :| e in envs && Deploys(e, name) && Version(e) + 1 == Version(f) && f.opening.manifest.prev != Some(e.digest);
      var ws := BadOrder(envs, name, e, f);
    }
  }

  // ---------------------------------------------------------------- all workers at once

  /** `f` is rather held than `v`. */
  predicate Outranks(f: Envelope, v: Envelope)
    requires f.opening.Opened? && v.opening.Opened?
  {
    Version(v) < Version(f) || (Version(v) == Version(f) && f.digest < v.digest)
  }

  /** Among the valid manifests of a worker there is a top one. */
  lemma {:induction false} FindTop(envs: seq<Envelope>, name: Name) returns (f: Option<Envelope>)
    requires Injective(envs)
    ensures f.Some? ==> IsTop(envs, name, f.value)
    ensures f.None? ==> forall v :: v in envs ==> !Deploys(v, name)
    decreases |envs|
  {
    if envs == [] {
      f := None;
    } else {
      var prior, env := envs[..|envs| - 1], envs[|envs| - 1];
      assert envs == prior + [env];
      f := FindTop(prior, name);
      if Deploys(env, name) && (f.None? || Outranks(env, f.value)) {
        f := Some(env);
      }
    }
  }

  /** The top envelope of every worker links every envelope of the version just below it. */
  ghost predicate AllLinked(envs: seq<Envelope>) {
    forall name, f :: IsTop(envs, name, f) ==> Linked(envs, name, f)
  }

  ghost predicate OrderFree(envs: seq<Envelope>) {
    forall a, b {:trigger SameEnvelopes(a, envs), SameEnvelopes(b, envs)} ::
      SameEnvelopes(a, envs) && SameEnvelopes(b, envs) ==> After(a) == After(b)
  }

  /** With every top linked, what a node knows of a worker is decided by the set of envelopes. */
  lemma SameKnown(envs: seq<Envelope>, a: seq<Envelope>, b: seq<Envelope>, name: Name)
    requires Injective(envs) && AllLinked(envs) && SameEnvelopes(a, envs) && SameEnvelopes(b, envs)
    ensures name in After(a) <==> name in After(b)
    ensures name in After(a) ==> After(a)[name] == After(b)[name]
  {
    hide After, IsTop, Linked;
    var f := FindTop(envs, name);
    if f.Some? {
      ConvergesExactly(envs, name, f.value);
    } else {
      UndeployedIsUnknown(a, name);
      UndeployedIsUnknown(b, name);
    }
  }

  lemma UndeployedIsUnknown(ws: seq<Envelope>, name: Name)
    requires forall v :: v in ws ==> !Deploys(v, name)
    ensures name !in After(ws)
  {
    if name in After(ws) {
      KnownWorkers(ws, name);
    }
  }

  /** Heard first, the top envelope is held for good. */
  lemma {:induction false} TopFirst(envs: seq<Envelope>, name: Name, f: Envelope, n: nat)
    requires IsTop(envs, name, f) && n <= |envs|
    ensures name in After([f] + envs[..n]) && After([f] + envs[..n])[name] == RecordOf(f)
    decreases n
  {
    var ws := [f] + envs[..n];
    if n == 0 {
      assert ws == [f] && [f][..0] == [];
      assert After([]) == map[];
    } else {
      TopFirst(envs, name, f, n - 1);
      assert ws[..|ws| - 1] == [f] + envs[..n - 1] && ws[|ws| - 1] == envs[n - 1];
      assert envs[n - 1] in envs;
    }
  }

  lemma OrderFreeLinks(envs: seq<Envelope>, name: Name, f: Envelope)
    requires OrderFree(envs) && IsTop(envs, name, f)
    ensures Linked(envs, name, f)
  {
    hide After, IsTop, Linked;
    var first := [f] + envs;
    TopIsHeard(envs, name, f);
    assert SameEnvelopes(first, envs);
    TopFirst(envs, name, f, |envs|);
    assert envs[..|envs|] == envs;
    forall ws | SameEnvelopes(ws, envs)
      ensures name in After(ws) && After(ws)[name] == RecordOf(f)
    {
      assert After(ws) == After(first);
    }
    ConvergesExactly(envs, name, f);
  }

  lemma TopIsHeard(envs: seq<Envelope>, name: Name, f: Envelope)
    requires IsTop(envs, name, f)
    ensures f in envs && f.opening.Opened?
  {
  }

  /**
  For every set of envelopes told apart by their digests: all orders and repetitions
  lead to the same workers if and only if every worker's top envelope links every
  envelope of the version just below it.
  */
  lemma WorkersConvergeExactly(envs: seq<Envelope>)
    requires Injective(envs)
    ensures OrderFree(envs) <==> AllLinked(envs)
  {
    hide After, Linked;
    if OrderFree(envs) {
      forall name, f | IsTop(envs, name, f)
        ensures Linked(envs, name, f)
      {
        OrderFreeLinks(envs, name, f);
      }
    }
    if AllLinked(envs) {
      forall a, b | SameEnvelopes(a, envs) && SameEnvelopes(b, envs)
        ensures After(a) == After(b)
      {
        SameMap(envs, a, b);
      }
    }
  }

  lemma SameMap(envs: seq<Envelope>, a: seq<Envelope>, b: seq<Envelope>)
    requires Injective(envs) && AllLinked(envs) && SameEnvelopes(a, envs) && SameEnvelopes(b, envs)
    ensures After(a) == After(b)
  {
    hide After, AllLinked, SameEnvelopes, Injective;
    forall name
      ensures name in After(a) <==> name in After(b)
      ensures name in After(a) ==> After(a)[name] == After(b)[name]
    {
      SameKnown(envs, a, b, name);
    }
    assert After(a).Keys == After(b).Keys;
  }

  lemma RecordsDiffer(ws: seq<Envelope>)
    requires Injective(ws)
    ensures DigestsDiffer(After(ws))
  {
    forall m, n | m in After(ws) && n in After(ws) && After(ws)[m].digest == After(ws)[n].digest
      ensures m == n
    {
      KnownWorkers(ws, m);
      KnownWorkers(ws, n);
    }
  }

  /** With every top linked, nodes that heard the same envelopes route every host alike. */
  lemma RoutesConverge(envs: seq<Envelope>, a: seq<Envelope>, b: seq<Envelope>, p: map<Host, Name>, q: map<Host, Name>)
    requires Injective(envs) && AllLinked(envs) && SameEnvelopes(a, envs) && SameEnvelopes(b, envs)
    requires IsRouting(After(a), After(a).Keys, p) && IsRouting(After(b), After(b).Keys, q)
    ensures p == q
  {
    hide After, IsRouting, AllLinked;
    SameMap(envs, a, b);
    RecordsDiffer(a);
    RoutingUnique(After(a), p, q);
  }

  // ---------------------------------------------------------------- refusals

  /** Every direct successor links its predecessor. */
  ghost predicate LinksHold(envs: seq<Envelope>) {
    forall e, f, name :: e in envs && f in envs && Deploys(e, name) && Deploys(f, name) && Version(f) == Version(e) + 1
      ==> f.opening.manifest.prev == Some(e.digest)
  }

  /** No valid envelope is refused on arrival. */
  ghost predicate NoneRefused(ws: seq<Envelope>) {
    forall k {:trigger ws[k]} :: 0 <= k < |ws| && Fault(ws[k]).None? ==> !IngestResult(After(ws[..k]), ws[k]).Rejected?
  }

  lemma LinksRefuseNone(ws: seq<Envelope>)
    requires LinksHold(ws)
    ensures NoneRefused(ws)
  {
    forall k | 0 <= k < |ws| && Fault(ws[k]).None?
      ensures !IngestResult(After(ws[..k]), ws[k]).Rejected?
    {
      var name := ws[k].opening.manifest.name;
      if name in After(ws[..k]) {
        KnownWorkers(ws[..k], name);
        assert After(ws[..k])[name].envelope in ws && ws[k] in ws;
        assert Deploys(ws[k], name);
      }
    }
  }

  /** No order refuses a valid envelope if and only if every direct successor links its predecessor. */
  lemma NoneRefusedExactly(envs: seq<Envelope>)
    ensures (forall ws {:trigger NoneRefused(ws)} :: SameEnvelopes(ws, envs) ==> NoneRefused(ws)) <==> LinksHold(envs)
  {
    hide NoneRefused;
    if LinksHold(envs) {
      forall ws | SameEnvelopes(ws, envs)
        ensures NoneRefused(ws)
      {
        assert LinksHold(ws);
        LinksRefuseNone(ws);
      }
    } else {
      var e, f, name :| e in envs && f in envs && Deploys(e, name) && Deploys(f, name) && Version(f) == Version(e) + 1
        && f.opening.manifest.prev != Some(e.digest);
      var ws := [e, f] + envs;
      assert SameEnvelopes(ws, envs);
      SecondRefused(e, f, name, ws);
    }
  }

  lemma SecondRefused(e: Envelope, f: Envelope, name: Name, ws: seq<Envelope>)
    requires Deploys(e, name) && Deploys(f, name) && Version(f) == Version(e) + 1
    requires f.opening.manifest.prev != Some(e.digest)
    requires |ws| >= 2 && ws[0] == e && ws[1] == f
    ensures !NoneRefused(ws)
  {
    assert ws[..1] == [e] && [e][..0] == [];
    assert After([]) == map[];
    assert After([e]) == map[name := RecordOf(e)];
    assert IngestResult(After(ws[..1]), ws[1]).Rejected?;
  }

  /** Where all links hold, a version with a successor is not forked. */
  lemma ForksOnlyAtTop(envs: seq<Envelope>, name: Name, a: Envelope, b: Envelope, f: Envelope)
    requires LinksHold(envs) && Injective(envs) && a in envs && b in envs && f in envs
    requires Deploys(a, name) && Deploys(b, name) && Deploys(f, name) && Version(a) == Version(b)
    requires Version(f) == Version(a) + 1
    ensures a == b
  {
    assert f.opening.manifest.prev == Some(a.digest) && f.opening.manifest.prev == Some(b.digest);
  }

  function Bare(version: nat, prev: Option<nat>, digest: nat): Envelope {
    Envelope(digest, Opened(Manifest("w", version, prev, false, [], true, true)))
  }

  /** Two first versions and a second one that links only one of them: the outcome depends on the order. */
  lemma ForkBelowTopDiverges() returns (a: seq<Envelope>, b: seq<Envelope>)
    ensures SameEnvelopes(a, b) && Injective(a) && After(a) != After(b)
  {
    var v1a, v1b, v2 := Bare(1, None, 1), Bare(1, None, 2), Bare(2, Some(2), 3);
    a, b := [v1a, v2, v1b], [v1b, v2, v1a];
    assert a[..2] == [v1a, v2] && [v1a, v2][..1] == [v1a] && [v1a][..0] == [];
    assert b[..2] == [v1b, v2] && [v1b, v2][..1] == [v1b] && [v1b][..0] == [];
    assert After([v1a]) == map["w" := RecordOf(v1a)];
    assert After([v1a, v2]) == After([v1a]);
    assert After(a) == After([v1a]);
    assert After([v1b]) == map["w" := RecordOf(v1b)];
    assert After([v1b, v2])["w"] == RecordOf(v2);
    assert After(b)["w"] == RecordOf(v2);
  }

  // ---------------------------------------------------------------- chains

  /** Element `i` of a log follows the one before it. */
  predicate Follows(envs: seq<Envelope>, i: nat)
    requires i < |envs|
  {
    && envs[i].opening.Opened?
    && var m := envs[i].opening.manifest;
    if i == 0 then !(m.version == 1 && m.prev.Some?)
    else
      && envs[i - 1].opening.Opened?
      && var last := envs[i - 1].opening.manifest;
      m.version == last.version + 1 && m.name == last.name && m.prev == Some(envs[i - 1].digest)
  }

  ghost predicate IsChain(envs: seq<Envelope>) {
    forall i {:trigger Follows(envs, i)} :: 0 <= i < |envs| ==> Follows(envs, i)
  }

  datatype Checked = Good(manifests: seq<Manifest>) | Bad(error: ManifestError)

  /** Verify a log offline: operator-signed, contiguous, every link the digest before it. */
  method VerifyChain(envs: seq<Envelope>) returns (r: Checked)
    ensures r.Good? <==> IsChain(envs)
    ensures r.Good? ==> |r.manifests| == |envs| && forall i :: 0 <= i < |envs| ==> envs[i].opening == Opened(r.manifests[i])
    ensures r.Bad? ==> exists i :: 0 <= i < |envs| && !Follows(envs, i) && r.error == (if envs[i].opening.Unopened? then envs[i].opening.error else ChainBroken)
  {
    var out: seq<Manifest> := [];
    var prevDigest: Option<nat> := None;
    for i := 0 to |envs|
      invariant |out| == i && forall k :: 0 <= k < i ==> envs[k].opening == Opened(out[k])
      invariant forall k {:trigger Follows(envs, k)} :: 0 <= k < i ==> Follows(envs, k)
      invariant prevDigest == if i == 0 then None else Some(envs[i - 1].digest)
    {
      if envs[i].opening.Unopened? {
        assert !Follows(envs, i);
        return Bad(envs[i].opening.error);
      }
      var m := envs[i].opening.manifest;
      if out != [] {
        var last := out[|out| - 1];
        if m.version != last.version + 1 || m.name != last.name || m.prev != prevDigest {
          assert !Follows(envs, i);
          return Bad(ChainBroken);
        }
      } else if m.version == 1 && m.prev.Some? {
        assert !Follows(envs, i);
        return Bad(ChainBroken);
      }
      assert Follows(envs, i);
      prevDigest := Some(envs[i].digest);
      out := out + [m];
    }
    return Good(out);
  }

  ghost predicate FromFirst(envs: seq<Envelope>) {
    IsChain(envs) && envs != [] && envs[0].opening.Opened? && Version(envs[0]) == 1
  }

  lemma {:induction false} ChainVersions(envs: seq<Envelope>, i: nat)
    requires FromFirst(envs) && i < |envs|
    ensures envs[i].opening.Opened? && Version(envs[i]) == i + 1
    ensures envs[i].opening.manifest.name == envs[0].opening.manifest.name
    decreases i
  {
    assert Follows(envs, i);
    if i > 0 {
      ChainVersions(envs, i - 1);
    }
  }

  /** The head pins the history: two logs from version one that end in the same digest are the same log. */
  lemma HeadPinsHistory(a: seq<Envelope>, b: seq<Envelope>)
    requires FromFirst(a) && FromFirst(b) && Injective(a + b)
    requires a[|a| - 1].digest == b[|b| - 1].digest
    ensures a == b
  {
    ChainVersions(a, |a| - 1);
    ChainVersions(b, |b| - 1);
    assert a[|a| - 1] in a + b && b[|b| - 1] in a + b;
    assert a[|a| - 1] == b[|b| - 1];
    forall i | 0 <= i < |a|
      ensures a[i] == b[i]
    {
      BackFromHead(a, b, i);
    }
  }

  lemma {:induction false} BackFromHead(a: seq<Envelope>, b: seq<Envelope>, i: nat)
    requires FromFirst(a) && FromFirst(b) && Injective(a + b) && |a| == |b| && i < |a|
    requires a[|a| - 1] == b[|b| - 1]
    ensures a[i] == b[i]
    decreases |a| - i
  {
    if i < |a| - 1 {
      BackFromHead(a, b, i + 1);
      assert Follows(a, i + 1) && Follows(b, i + 1);
      assert a[i] in a + b && b[i] in a + b;
    }
  }

  ghost predicate AllValid(envs: seq<Envelope>) {
    forall i {:trigger Fault(envs[i])} :: 0 <= i < |envs| ==> Fault(envs[i]).None?
  }

  /** A log of valid manifests from version one, ingested in order, is accepted element by element. */
  lemma {:induction false} ChainAccepted(envs: seq<Envelope>, k: nat)
    requires FromFirst(envs) && AllValid(envs) && k < |envs|
    ensures IngestResult(After(envs[..k]), envs[k]) == Changed
    ensures envs[k].opening.Opened? && After(envs[..k + 1]) == map[envs[0].opening.manifest.name := RecordOf(envs[k])]
    decreases k
  {
    hide IsChain;
    ChainVersions(envs, k);
    assert Fault(envs[k]).None?;
    assert envs[..k + 1][..k] == envs[..k] && envs[..k + 1][k] == envs[k];
    if k == 0 {
      assert envs[..0] == [];
    } else {
      ChainVersions(envs, k - 1);
      ChainLink(envs, k);
      ChainAccepted(envs, k - 1);
    }
  }

  lemma ChainLink(envs: seq<Envelope>, k: nat)
    requires IsChain(envs) && 0 < k < |envs|
    ensures envs[k].opening.Opened? && envs[k].opening.manifest.prev == Some(envs[k - 1].digest)
  {
    assert Follows(envs, k);
  }

  // ---------------------------------------------------------------- what is accepted and routed

  /** Opens to a manifest with a good name that links a predecessor exactly when it is no first version. */
  predicate Sound(env: Envelope) {
    && env.opening.Opened?
    && var m := env.opening.manifest;
    m.nameOk && (m.version == 1 <==> m.prev.None?) && (m.deleted || m.bodyOk)
  }

  /** Each fault is found exactly when the envelope has it and none of those looked for before. */
  lemma FaultExactly(env: Envelope)
    ensures Fault(env).None? <==> Sound(env)
    ensures env.opening.Unopened? ==> Fault(env) == Some(env.opening.error)
    ensures env.opening.Opened? ==>
              var m := env.opening.manifest;
              && (Fault(env) == Some(BadName) <==> !m.nameOk)
              && (Fault(env) == Some(ChainBroken) <==> m.nameOk && !(m.version == 1 <==> m.prev.None?))
              && (Fault(env) == Some(BadBody) <==>
                    m.nameOk && (m.version == 1 <==> m.prev.None?) && !m.deleted && !m.bodyOk)
  {
  }

  /** Whatever was heard, every record held is sound, filed under its own name, and as its envelope says. */
  lemma HeldIsSound(ws: seq<Envelope>, name: Name)
    requires name in After(ws)
    ensures var r := After(ws)[name];
            && r.envelope in ws && r.envelope.opening == Opened(r.manifest) && r.digest == r.envelope.digest
            && r.manifest.name == name && r.manifest.nameOk && (r.manifest.version == 1 <==> r.manifest.prev.None?)
            && (r.manifest.deleted || r.manifest.bodyOk)
  {
    KnownWorkers(ws, name);
  }

  /** An envelope against the record held, verdict by verdict; no other worker is touched. */
  lemma IngestExactly(workers: Workers, env: Envelope)
    ensures var verdict := IngestResult(workers, env);
            && (!Sound(env) ==> verdict.Rejected? && Ingested(workers, env) == workers)
            && (Sound(env) ==>
                  var m := env.opening.manifest;
                  && (m.name !in workers ==> verdict == Changed)
                  && (m.name in workers ==>
                        var r := workers[m.name];
                        var newer := m.version > r.manifest.version || (m.version == r.manifest.version && env.digest < r.digest);
                        var unlinked := m.version == r.manifest.version + 1 && m.prev != Some(r.digest);
                        && (verdict == Stale <==> !newer)
                        && (verdict == Rejected(ChainBroken) <==> newer && unlinked)
                        && (verdict == Changed <==> newer && !unlinked))
                  && Ingested(workers, env) == (if verdict == Changed then workers[m.name := RecordOf(env)] else workers))
  {
  }

  /** A live manifest of the worker lists the host. */
  predicate ListsLive(workers: Workers, n: Name, h: Host) {
    n in workers && !workers[n].manifest.deleted && h in workers[n].manifest.hostnames
  }

  /** The routes, exactly: a host goes to a worker if and only if it lists it live and no other such has a smaller digest. */
  lemma RoutingExactly(workers: Workers, routes: map<Host, Name>, h: Host)
    requires IsRouting(workers, workers.Keys, routes)
    ensures h in routes <==> exists n :: ListsLive(workers, n, h)
    ensures h in routes ==>
              && ListsLive(workers, routes[h], h)
              && forall n :: ListsLive(workers, n, h) ==> workers[routes[h]].digest <= workers[n].digest
  {
    if h in routes {
      assert Routed(workers, workers.Keys, routes[h], h);
      forall n | ListsLive(workers, n, h)
        ensures workers[routes[h]].digest <= workers[n].digest
      {
        assert Contends(workers, workers.Keys, n, h);
      }
      assert ListsLive(workers, routes[h], h);
    }
    if n :| ListsLive(workers, n, h) {
      assert Contends(workers, workers.Keys, n, h);
    }
  }
}
