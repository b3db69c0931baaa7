/**
The claim engine: who holds a task.

Every node folds in the signed claims it hears of, keeping one record per task
and holder, and picks as winner the live claim acquired first, ties broken by
envelope digest.
*/
module Claims {
  import opened Options
  import opened HybridClock

  const SKEW_SLACK_MS: nat := 15_000
  const U64_MAX: nat := 0xFFFF_FFFF_FFFF_FFFF

  type Task = string
  type Holder = nat

  function SatAdd(a: nat, b: nat): nat {
    if a + b > U64_MAX then U64_MAX else a + b
  }

  datatype Claim = Claim(task: Task, holder: Holder, acquired: Hlc, renewed: Hlc, ttl: nat, released: bool)

  datatype Signer = Ed(id: Holder) | Web(key: nat)

  /** An envelope: its signer, its digest, and the claim it opens to if the signature verifies. */
  datatype Envelope = Envelope(signer: Signer, digest: nat, claim: Option<Claim>)

  datatype Record = Record(claim: Claim, digest: nat, envelope: Envelope)

  datatype ClaimError = BadEnvelope | HolderMismatch | RenewedBeforeAcquired | AcquiredMoved | ZeroTtl
  datatype Ingest = Changed | Stale | Rejected(error: ClaimError)

  type Tasks = map<Task, map<Holder, Record>>

  function ExpiresAt(c: Claim): nat {
    SatAdd(c.renewed.wall, c.ttl)
  }

  function DeadSince(c: Claim): nat {
    SatAdd(ExpiresAt(c), SKEW_SLACK_MS)
  }

  predicate Live(c: Claim, now: nat) {
    !c.released && now < DeadSince(c)
  }

  /** What is wrong with an envelope on its own. */
  function Fault(env: Envelope): Option<ClaimError> {
    if env.claim.None? then Some(BadEnvelope)
    else
      var c := env.claim.value;
      if Ed(c.holder) != env.signer then Some(HolderMismatch)
      else if Before(c.renewed, c.acquired) then Some(RenewedBeforeAcquired)
      else if c.ttl == 0 then Some(ZeroTtl)
      else None
  }

  function RecordOf(env: Envelope): Record
    requires env.claim.Some?
  {
    Record(env.claim.value, env.digest, env)
  }

  function Held(tasks: Tasks, task: Task, holder: Holder): Option<Record> {
    if task in tasks && holder in tasks[task] then Some(tasks[task][holder]) else None
  }

  function Verdict(existing: Record, env: Envelope): Ingest
    requires env.claim.Some?
  {
    var c, d := env.claim.value, existing.claim;
    if existing.digest == env.digest then Stale
    else if c.acquired == d.acquired then (if AtMost(c.renewed, d.renewed) then Stale else Changed)
    else if Before(d.acquired, c.acquired) then Changed
    else Rejected(AcquiredMoved)
  }

  function IngestResult(tasks: Tasks, env: Envelope): Ingest {
    var fault := Fault(env);
    if fault.Some? then Rejected(fault.value)
    else
      var existing := Held(tasks, env.claim.value.task, env.claim.value.holder);
      if existing.Some? then Verdict(existing.value, env) else Changed
  }

  function Insert(tasks: Tasks, r: Record): Tasks {
    var perTask := if r.claim.task in tasks then tasks[r.claim.task] else map[];
    tasks[r.claim.task := perTask[r.claim.holder := r]]
  }

  function Ingested(tasks: Tasks, env: Envelope): Tasks {
    if IngestResult(tasks, env).Changed? then Insert(tasks, RecordOf(env)) else tasks
  }

  /** The claims a node knows after hearing `envs` in that order. */
  function After(envs: seq<Envelope>): Tasks {
    if envs == [] then map[] else Ingested(After(envs[..|envs| - 1]), envs[|envs| - 1])
  }

  /** Earlier acquisition first, lower digest on a tie. */
  predicate Precedes(a: Record, b: Record) {
    Before(a.claim.acquired, b.claim.acquired) || (a.claim.acquired == b.claim.acquired && a.digest < b.digest)
  }

  /** `r` is a live record on `task` that no live record precedes. */
  ghost predicate IsWinner(tasks: Tasks, task: Task, now: nat, r: Record) {
    && task in tasks && r in tasks[task].Values && Live(r.claim, now)
    && forall h :: h in tasks[task] && Live(tasks[task][h].claim, now) ==> !Precedes(tasks[task][h], r)
  }

  ghost predicate Vacant(tasks: Tasks, task: Task, now: nat) {
    forall h :: task in tasks && h in tasks[task] ==> !Live(tasks[task][h].claim, now)
  }

  predicate Kept(r: Record, now: nat, horizon: nat) {
    !r.claim.released && now < SatAdd(DeadSince(r.claim), horizon)
  }

  ghost predicate NoEmptyTask(tasks: Tasks) {
    forall t :: t in tasks ==> tasks[t] != map[]
  }

  /** Records sit under their own task and holder. */
  ghost predicate Filed(tasks: Tasks) {
    forall t, h :: t in tasks && h in tasks[t] ==> tasks[t][h].claim.task == t && tasks[t][h].claim.holder == h
  }

  class ClaimSet {
    var tasks: Tasks

    ghost predicate Valid()
      reads this
    {
      Filed(tasks) && NoEmptyTask(tasks)
    }

    constructor ()
      ensures Valid() && tasks == map[]
    {
      tasks := map[];
    }

    method Ingest(env: Envelope) returns (r: Ingest)
      requires Valid()
      modifies this
      ensures Valid() && tasks == Ingested(old(tasks), env) && r == IngestResult(old(tasks), env)
    {
      if env.claim.None? {
        return Rejected(BadEnvelope);
      }
      var c := env.claim.value;
      if Ed(c.holder) != env.signer {
        return Rejected(HolderMismatch);
      }
      if Before(c.renewed, c.acquired) {
        return Rejected(RenewedBeforeAcquired);
      }
      if c.ttl == 0 {
        return Rejected(ZeroTtl);
      }
      var perTask := if c.task in tasks then tasks[c.task] else map[];
      if c.holder in perTask {
        var existing := perTask[c.holder];
        if existing.digest == env.digest {
          return Stale;
        }
        if c.acquired == existing.claim.acquired {
          if !Before(existing.claim.renewed, c.renewed) {
            return Stale;
          }
        } else if !Before(existing.claim.acquired, c.acquired) {
          return Rejected(AcquiredMoved);
        }
      }
      tasks := tasks[c.task := perTask[c.holder := Record(c, env.digest, env)]];
      return Changed;
    }

    /** The least live record, looking at the holders in any order. */
    method Winner(task: Task, now: nat) returns (r: Option<Record>)
      requires Valid()
      ensures r.None? <==> Vacant(tasks, task, now)
      ensures r.Some? ==> IsWinner(tasks, task, now, r.value)
      ensures r.Some? ==> forall h :: h in tasks[task] && Live(tasks[task][h].claim, now) ==>
                && AtMost(r.value.claim.acquired, tasks[task][h].claim.acquired)
                && (r.value.claim.acquired == tasks[task][h].claim.acquired ==> r.value.digest <= tasks[task][h].digest)
    {
      r := None;
      if task !in tasks {
        return;
      }
      var perTask := tasks[task];
      var rest := perTask.Keys;
      while rest != {}
        invariant rest <= perTask.Keys
        invariant r.None? ==> forall h :: h in perTask.Keys - rest ==> !Live(perTask[h].claim, now)
        invariant r.Some? ==> r.value in perTask.Values && Live(r.value.claim, now)
        invariant r.Some? ==> forall h :: h in perTask.Keys - rest && Live(perTask[h].claim, now) ==> !Precedes(perTask[h], r.value)
        decreases |rest|
      {
        var h :| h in rest;
        rest := rest - {h};
        var x := perTask[h];
        if Live(x.claim, now) && (r.None? || Precedes(x, r.value)) {
          r := Some(x);
        }
      }
    }

    method Holds(task: Task, me: Holder, now: nat) returns (yes: bool)
      requires Valid()
      ensures yes ==> task in tasks && me in tasks[task] && IsWinner(tasks, task, now, tasks[task][me])
      ensures task in tasks && DigestsDiffer(tasks[task]) && me in tasks[task] && IsWinner(tasks, task, now, tasks[task][me]) ==> yes
    {
      var r := Winner(task, now);
      yes := r.Some? && r.value.claim.holder == me;
      if task in tasks && DigestsDiffer(tasks[task]) && me in tasks[task] && IsWinner(tasks, task, now, tasks[task][me]) && r.Some? {
        WinnerUnique(tasks, task, now, r.value, tasks[task][me]);
      }
    }

    method OpenForClaim(task: Task, now: nat) returns (yes: bool)
      requires Valid()
      ensures yes <==> Vacant(tasks, task, now)
    {
      var r := Winner(task, now);
      yes := r.None?;
    }

    method Gc(now: nat, horizon: nat) returns (pruned: nat)
      requires Valid()
      modifies this
      ensures Valid() && tasks == Collected(old(tasks), now, horizon)
      ensures pruned == |Pairs(old(tasks)) - Pairs(tasks)|
    {
      hide Kept, Filed, NoEmptyTask, Collected;
      CollectedHeld(tasks, now, horizon);
      var doomed := set t, h | t in tasks && h in tasks[t] && !Kept(tasks[t][h], now, horizon) :: (t, h);
      assert doomed == Pairs(tasks) - Pairs(Collected(tasks, now, horizon)) by {
        DoomedPairs(tasks, now, horizon);
      }
      tasks := Collected(tasks, now, horizon);
      pruned := |doomed|;
    }
  }

  function KeptOf(perTask: map<Holder, Record>, now: nat, horizon: nat): map<Holder, Record> {
    map h | h in perTask && Kept(perTask[h], now, horizon) :: perTask[h]
  }

  /** The records that survive; a task without any is dropped. */
  function Collected(tasks: Tasks, now: nat, horizon: nat): Tasks {
    map t | t in tasks && KeptOf(tasks[t], now, horizon) != map[] :: KeptOf(tasks[t], now, horizon)
  }

  ghost function Pairs(tasks: Tasks): set<(Task, Holder)> {
    set t, h | t in tasks && h in tasks[t] :: (t, h)
  }

  lemma CollectedHeld(tasks: Tasks, now: nat, horizon: nat)
    requires Filed(tasks)
    ensures var rest := Collected(tasks, now, horizon);
            && Filed(rest) && NoEmptyTask(rest)
            && forall t, h :: Held(rest, t, h) ==
                 if Held(tasks, t, h).Some? && Kept(Held(tasks, t, h).value, now, horizon) then Held(tasks, t, h) else None
  {
    hide Kept;
    var rest := Collected(tasks, now, horizon);
    forall t, h
      ensures Held(rest, t, h) ==
              if Held(tasks, t, h).Some? && Kept(Held(tasks, t, h).value, now, horizon) then Held(tasks, t, h) else None
    {
      if t in tasks && h in tasks[t] && Kept(tasks[t][h], now, horizon) {
        assert h in KeptOf(tasks[t], now, horizon);
      }
    }
  }

  lemma DoomedPairs(tasks: Tasks, now: nat, horizon: nat)
    requires Filed(tasks)
    ensures forall t, h :: (t, h) in Pairs(tasks) - Pairs(Collected(tasks, now, horizon))
                      <==> t in tasks && h in tasks[t] && !Kept(tasks[t][h], now, horizon)
  {
    hide Kept, Collected;
    CollectedHeld(tasks, now, horizon);
    var rest := Collected(tasks, now, horizon);
    forall t, h
      ensures (t, h) in Pairs(tasks) - Pairs(rest) <==> t in tasks && h in tasks[t] && !Kept(tasks[t][h], now, horizon)
    {
      assert Held(rest, t, h).Some? <==> (t, h) in Pairs(rest);
    }
  }

  // ---------------------------------------------------------------- convergence

  /** The envelope is a valid claim of `h` on `t`. */
  predicate Speaks(env: Envelope, t: Task, h: Holder) {
    Fault(env).None? && env.claim.value.task == t && env.claim.value.holder == h
  }

  /** A later acquisition, or a later renewal of the same one. */
  predicate Newer(a: Claim, b: Claim) {
    Before(b.acquired, a.acquired) || (a.acquired == b.acquired && Before(b.renewed, a.renewed))
  }

  /** A digest names one envelope. */
  ghost predicate DigestsName(envs: seq<Envelope>) {
    forall v, w :: v in envs && w in envs && v.digest == w.digest ==> v == w
  }

  /** No claim of the holder on the task is newer than this one. */
  ghost predicate Latest(envs: seq<Envelope>, t: Task, h: Holder, v: Envelope) {
    v in envs && Speaks(v, t, h) && forall w :: w in envs && Speaks(w, t, h) ==> !Newer(w.claim.value, v.claim.value)
  }

  /** Each holder's newest claim on each task is one envelope. */
  ghost predicate TopsUnique(envs: seq<Envelope>) {
    forall t, h, v, w :: Latest(envs, t, h, v) && Latest(envs, t, h, w) ==> v == w
  }

  /** What a node must hold for `h` on `t`: the newest claim heard. */
  ghost predicate Newest(envs: seq<Envelope>, t: Task, h: Holder, r: Option<Record>) {
    && (r.None? ==> forall v :: v in envs ==> !Speaks(v, t, h))
    && (r.Some? ==>
          && r.value.envelope in envs && Speaks(r.value.envelope, t, h) && r.value == RecordOf(r.value.envelope)
          && forall v :: v in envs && Speaks(v, t, h) ==> !Newer(v.claim.value, r.value.claim))
  }

  lemma InsertHeld(tasks: Tasks, r: Record, t: Task, h: Holder)
    ensures Held(Insert(tasks, r), t, h) == if t == r.claim.task && h == r.claim.holder then Some(r) else Held(tasks, t, h)
  {
  }

  lemma IngestedHeld(tasks: Tasks, env: Envelope, t: Task, h: Holder)
    ensures Held(Ingested(tasks, env), t, h) ==
            if Speaks(env, t, h) && (Held(tasks, t, h).None? || Verdict(Held(tasks, t, h).value, env).Changed?)
            then Some(RecordOf(env)) else Held(tasks, t, h)
  {
    if Fault(env).None? {
      InsertHeld(tasks, RecordOf(env), t, h);
    }
  }

  /** Whatever the order, a node ends with the newest claim of every holder. */
  lemma {:induction false} HoldsNewest(envs: seq<Envelope>, t: Task, h: Holder)
    requires DigestsName(envs)
    ensures Newest(envs, t, h, Held(After(envs), t, h))
    decreases |envs|
  {
    if envs != [] {
      var prior, env := envs[..|envs| - 1], envs[|envs| - 1];
      assert envs == prior + [env];
      HoldsNewest(prior, t, h);
      IngestedHeld(After(prior), env, t, h);
      NewestStep(prior, env, t, h, Held(After(prior), t, h));
    }
  }

  lemma NewestStep(prior: seq<Envelope>, env: Envelope, t: Task, h: Holder, r: Option<Record>)
    requires DigestsName(prior + [env]) && Newest(prior, t, h, r)
    ensures Newest(prior + [env], t, h,
                   if Speaks(env, t, h) && (r.None? || Verdict(r.value, env).Changed?) then Some(RecordOf(env)) else r)
  {
    var envs := prior + [env];
    if Speaks(env, t, h) && r.Some? {
      assert r.value.envelope in envs && env in envs;
      assert r.value.digest == env.digest ==> r.value.envelope == env;
    }
  }

  ghost predicate SameEnvelopes(a: seq<Envelope>, b: seq<Envelope>) {
    forall v :: v in a <==> v in b
  }

  lemma NewestUnique(a: seq<Envelope>, b: seq<Envelope>, t: Task, h: Holder, r: Option<Record>, s: Option<Record>)
    requires SameEnvelopes(a, b) && TopsUnique(a) && Newest(a, t, h, r) && Newest(b, t, h, s)
    ensures r == s
  {
    if r.Some? {
      assert r.value.envelope in b;
    }
    if s.Some? {
      assert s.value.envelope in a;
    }
    if r.Some? && s.Some? {
      assert Latest(a, t, h, r.value.envelope) && Latest(a, t, h, s.value.envelope);
    }
  }

  lemma {:induction false} AfterTidy(envs: seq<Envelope>)
    ensures Filed(After(envs)) && NoEmptyTask(After(envs))
    decreases |envs|
  {
    if envs != [] {
      AfterTidy(envs[..|envs| - 1]);
      var tasks, env := After(envs[..|envs| - 1]), envs[|envs| - 1];
      if Fault(env).None? {
        var r := RecordOf(env);
        assert r.claim.holder in Insert(tasks, r)[r.claim.task];
      }
    }
  }

  lemma SameHeld(a: Tasks, b: Tasks)
    requires NoEmptyTask(a) && NoEmptyTask(b) && forall t, h :: Held(a, t, h) == Held(b, t, h)
    ensures a == b
  {
    forall t
      ensures t in a ==> t in b && a[t].Keys <= b[t].Keys && forall h :: h in a[t] ==> a[t][h] == b[t][h]
      ensures t in b ==> t in a && b[t].Keys <= a[t].Keys
    {
      if t in a {
        var h :| h in a[t];
        assert Held(a, t, h) == Held(b, t, h);
        forall h | h in a[t]
          ensures t in b && h in b[t] && a[t][h] == b[t][h]
        {
          assert Held(a, t, h) == Held(b, t, h);
        }
      }
      if t in b {
        var h :| h in b[t];
        assert Held(a, t, h) == Held(b, t, h);
        forall h | h in b[t]
          ensures t in a && h in a[t]
        {
          assert Held(a, t, h) == Held(b, t, h);
        }
      }
    }
    forall t | t in a
      ensures a[t] == b[t]
    {
      assert a[t].Keys == b[t].Keys;
    }
    assert a.Keys == b.Keys;
  }

  /** Convergence: nodes that heard the same envelopes, in any order, know the same claims. */
  lemma Converges(a: seq<Envelope>, b: seq<Envelope>)
    requires SameEnvelopes(a, b) && DigestsName(a) && TopsUnique(a)
    ensures After(a) == After(b)
  {
    hide Newest, TopsUnique;
    assert DigestsName(b);
    forall t, h
      ensures Held(After(a), t, h) == Held(After(b), t, h)
    {
      HoldsNewest(a, t, h);
      HoldsNewest(b, t, h);
      NewestUnique(a, b, t, h, Held(After(a), t, h), Held(After(b), t, h));
    }
    AfterTidy(a);
    AfterTidy(b);
    SameHeld(After(a), After(b));
  }

  /** A claim that nothing heard later is newer than stays. */
  lemma {:induction false} LatestStays(v: Envelope, ws: seq<Envelope>, t: Task, h: Holder)
    requires Speaks(v, t, h) && forall w :: w in ws && Speaks(w, t, h) ==> !Newer(w.claim.value, v.claim.value)
    ensures Held(After([v] + ws), t, h) == Some(RecordOf(v))
    decreases |ws|
  {
    if ws == [] {
      assert [v] + ws == [v] && [v][..0] == [];
      IngestedHeld(map[], v, t, h);
    } else {
      var prior, w := ws[..|ws| - 1], ws[|ws| - 1];
      LatestStays(v, prior, t, h);
      assert ([v] + ws)[..|ws|] == [v] + prior;
      IngestedHeld(After([v] + prior), w, t, h);
    }
  }

  ghost predicate OrderFree(envs: seq<Envelope>) {
    forall a, b {:trigger SameEnvelopes(a, envs), SameEnvelopes(b, envs)} ::
      SameEnvelopes(a, envs) && SameEnvelopes(b, envs) ==> After(a) == After(b)
  }

  lemma TopsAgree(envs: seq<Envelope>, t: Task, h: Holder, v: Envelope, w: Envelope)
    requires OrderFree(envs) && Latest(envs, t, h, v) && Latest(envs, t, h, w)
    ensures v == w
  {
    hide After, Held;
    LatestStays(v, envs, t, h);
    LatestStays(w, envs, t, h);
    assert SameEnvelopes([v] + envs, envs) && SameEnvelopes([w] + envs, envs);
  }

  /**
  For every set of envelopes told apart by their digests: all orders lead to the same
  claims if and only if each holder's newest claim on each task is one envelope.
  */
  lemma ConvergesExactly(envs: seq<Envelope>)
    requires DigestsName(envs)
    ensures OrderFree(envs) <==> TopsUnique(envs)
  {
    hide After, Latest;
    if OrderFree(envs) {
      forall t, h, v, w | Latest(envs, t, h, v) && Latest(envs, t, h, w)
        ensures v == w
      {
        TopsAgree(envs, t, h, v, w);
      }
    }
    if TopsUnique(envs) {
      forall a, b | SameEnvelopes(a, envs) && SameEnvelopes(b, envs)
        ensures After(a) == After(b)
      {
        Converges(envs, a);
        Converges(envs, b);
      }
    }
  }

  /** Two claims of one holder commute if and only if they are the same or their timestamps differ. */
  lemma CommutesExactly(v: Envelope, w: Envelope, t: Task, h: Holder)
    requires Speaks(v, t, h) && Speaks(w, t, h) && (v.digest == w.digest ==> v == w)
    ensures After([v, w]) == After([w, v])
        <==> v == w || v.claim.value.acquired != w.claim.value.acquired || v.claim.value.renewed != w.claim.value.renewed
  {
    AfterTwo(v, w, t, h);
    AfterTwo(w, v, t, h);
    if v != w && (v.claim.value.acquired != w.claim.value.acquired || v.claim.value.renewed != w.claim.value.renewed) {
      assert Newer(v.claim.value, w.claim.value) || Newer(w.claim.value, v.claim.value);
      assert v in [v, w] && w in [v, w];
      Converges([v, w], [w, v]);
    }
  }

  lemma AfterTwo(v: Envelope, w: Envelope, t: Task, h: Holder)
    requires Speaks(v, t, h) && Speaks(w, t, h)
    ensures Held(After([v, w]), t, h) == Some(if Verdict(RecordOf(v), w).Changed? then RecordOf(w) else RecordOf(v))
  {
    assert [v, w][..1] == [v] && [v][..0] == [];
    IngestedHeld(map[], v, t, h);
    assert After([v]) == Ingested(map[], v);
    IngestedHeld(After([v]), w, t, h);
  }

  // ---------------------------------------------------------------- the winner

  /** Different holders' live claims carry different digests. */
  ghost predicate DigestsDiffer(perTask: map<Holder, Record>) {
    forall g, h :: g in perTask && h in perTask && perTask[g].digest == perTask[h].digest ==> g == h
  }

  /** There is at most one winner. */
  lemma WinnerUnique(tasks: Tasks, task: Task, now: nat, r: Record, s: Record)
    requires IsWinner(tasks, task, now, r) && IsWinner(tasks, task, now, s) && DigestsDiffer(tasks[task])
    ensures r == s
  {
    var g :| g in tasks[task] && tasks[task][g] == r;
    var h :| h in tasks[task] && tasks[task][h] == s;
  }

  lemma {:induction false} AfterHeard(envs: seq<Envelope>, t: Task, h: Holder)
    ensures var r := Held(After(envs), t, h);
            r.Some? ==> r.value.envelope in envs && Speaks(r.value.envelope, t, h) && r.value == RecordOf(r.value.envelope)
    decreases |envs|
  {
    if envs != [] {
      var prior, env := envs[..|envs| - 1], envs[|envs| - 1];
      AfterHeard(prior, t, h);
      IngestedHeld(After(prior), env, t, h);
    }
  }

  /** Told apart by their digests, the envelopes heard make records told apart by theirs. */
  lemma RecordsDiffer(envs: seq<Envelope>, task: Task)
    requires DigestsName(envs) && task in After(envs)
    ensures DigestsDiffer(After(envs)[task])
  {
    var perTask := After(envs)[task];
    forall g, h | g in perTask && h in perTask && perTask[g].digest == perTask[h].digest
      ensures g == h
    {
      AfterHeard(envs, task, g);
      AfterHeard(envs, task, h);
      assert Held(After(envs), task, g) == Some(perTask[g]) && Held(After(envs), task, h) == Some(perTask[h]);
    }
  }

  /** Agreement: nodes that heard the same envelopes, in any order, pick the same winner. */
  lemma SameWinner(a: seq<Envelope>, b: seq<Envelope>, task: Task, now: nat, r: Record, s: Record)
    requires SameEnvelopes(a, b) && DigestsName(a) && TopsUnique(a)
    requires IsWinner(After(a), task, now, r) && IsWinner(After(b), task, now, s)
    ensures r == s
  {
    hide After, TopsUnique;
    Converges(a, b);
    RecordsDiffer(a, task);
    WinnerUnique(After(a), task, now, r, s);
  }

  /** Without news a winner stays the winner for as long as it is live. */
  lemma WinnerStays(tasks: Tasks, task: Task, now: nat, later: nat, r: Record)
    requires IsWinner(tasks, task, now, r) && later >= now && Live(r.claim, later)
    ensures IsWinner(tasks, task, later, r)
  {
  }

  /** Collection changes no later answer. */
  lemma GcInvisible(tasks: Tasks, now: nat, horizon: nat, task: Task, later: nat, r: Record)
    requires Filed(tasks) && now <= later <= U64_MAX
    ensures IsWinner(Collected(tasks, now, horizon), task, later, r) <==> IsWinner(tasks, task, later, r)
    ensures Vacant(Collected(tasks, now, horizon), task, later) <==> Vacant(tasks, task, later)
  {
    hide Collected;
    var rest := Collected(tasks, now, horizon);
    CollectedHeld(tasks, now, horizon);
    forall h
      ensures Held(tasks, task, h).Some? && Live(Held(tasks, task, h).value.claim, later) ==> Held(rest, task, h) == Held(tasks, task, h)
      ensures Held(rest, task, h).Some? ==> Held(rest, task, h) == Held(tasks, task, h)
    {
    }
    SameWinners(tasks, rest, task, later, r);
  }

  lemma SameWinners(tasks: Tasks, rest: Tasks, task: Task, now: nat, r: Record)
    requires forall h :: Held(tasks, task, h).Some? && Live(Held(tasks, task, h).value.claim, now) ==> Held(rest, task, h) == Held(tasks, task, h)
    requires forall h :: Held(rest, task, h).Some? ==> Held(rest, task, h) == Held(tasks, task, h)
    ensures IsWinner(rest, task, now, r) <==> IsWinner(tasks, task, now, r)
    ensures Vacant(rest, task, now) <==> Vacant(tasks, task, now)
  {
    if IsWinner(tasks, task, now, r) {
      var h :| h in tasks[task] && tasks[task][h] == r;
      assert Held(rest, task, h) == Some(r);
      forall g | g in rest[task] && Live(rest[task][g].claim, now)
        ensures !Precedes(rest[task][g], r)
      {
        assert Held(rest, task, g) == Held(tasks, task, g);
      }
    }
    if IsWinner(rest, task, now, r) {
      var h :| h in rest[task] && rest[task][h] == r;
      assert Held(rest, task, h) == Held(tasks, task, h);
      forall g | g in tasks[task] && Live(tasks[task][g].claim, now)
        ensures !Precedes(tasks[task][g], r)
      {
        assert Held(tasks, task, g).Some?;
        assert Held(rest, task, g) == Held(tasks, task, g);
      }
    }
    forall h
      ensures task in tasks && h in tasks[task] && Live(tasks[task][h].claim, now) <==> task in rest && h in rest[task] && Live(rest[task][h].claim, now)
    {
      assert Held(tasks, task, h).Some? <==> task in tasks && h in tasks[task];
      assert Held(rest, task, h).Some? <==> task in rest && h in rest[task];
    }
  }

  /** After collection an older claim of the same holder is taken up again if and only if the newer one was
      dropped; a released one always is, whatever the horizon. */
  lemma ForgottenExactly(tasks: Tasks, now: nat, horizon: nat, env: Envelope, r: Record)
    requires Filed(tasks) && Fault(env).None?
    requires Held(tasks, env.claim.value.task, env.claim.value.holder) == Some(r) && !Verdict(r, env).Changed?
    requires RecordOf(env) != r
    ensures Ingested(tasks, env) == tasks
    ensures Held(Ingested(Collected(tasks, now, horizon), env), env.claim.value.task, env.claim.value.holder) == Some(RecordOf(env))
        <==> r.claim.released || now >= SatAdd(DeadSince(r.claim), horizon)
  {
    hide Collected;
    CollectedHeld(tasks, now, horizon);
    IngestedHeld(Collected(tasks, now, horizon), env, env.claim.value.task, env.claim.value.holder);
  }

  /** A live claim acquired at the same moment. */
  predicate Rivals(x: Record, r: Record, now: nat) {
    Live(x.claim, now) && x.claim.acquired == r.claim.acquired
  }

  /** A winner that renews stays the winner if and only if no live claim acquired at the same moment has a
      digest below the renewed one's. */
  lemma RenewalKeepsExactly(tasks: Tasks, task: Task, now: nat, r: Record, r': Record)
    requires Filed(tasks) && IsWinner(tasks, task, now, r) && r'.claim.task == task && r'.claim.holder == r.claim.holder
    requires r'.claim.acquired == r.claim.acquired && Live(r'.claim, now)
    ensures IsWinner(Insert(tasks, r'), task, now, r')
        <==> forall h :: h in tasks[task] && h != r.claim.holder && Rivals(tasks[task][h], r, now) ==> tasks[task][h].digest >= r'.digest
  {
    var after := Insert(tasks, r');
    assert after[task][r.claim.holder] == r';
    assert r' in after[task].Values;
    forall h | h in tasks[task] && h != r.claim.holder
      ensures h in after[task] && after[task][h] == tasks[task][h]
    {
    }
    forall h | h in tasks[task] && Live(tasks[task][h].claim, now)
      ensures !Precedes(tasks[task][h], r)
    {
    }
  }
}
