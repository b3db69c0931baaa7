/**
What the claim engine accepts, how long a claim lives and who wins, told in the
fields of envelopes and claims.
*/
module ClaimLaws {
  import opened Options
  import opened HybridClock
  import opened Claims

  // ---------------------------------------------------------------- what is accepted

  /** Signed by the holder it names, with a time to live, and renewed no earlier than acquired. */
  predicate Genuine(env: Envelope) {
    && env.claim.Some?
    && env.signer == Ed(env.claim.value.holder)
    && AtMost(env.claim.value.acquired, env.claim.value.renewed)
    && env.claim.value.ttl > 0
  }

  /** Each fault is found exactly when the envelope has it and none of those looked for before. */
  lemma FaultExactly(env: Envelope)
    ensures Fault(env).None? <==> Genuine(env)
    ensures Fault(env) == Some(BadEnvelope) <==> env.claim.None?
    ensures Fault(env) == Some(HolderMismatch) <==> env.claim.Some? && env.signer != Ed(env.claim.value.holder)
    ensures Fault(env) == Some(RenewedBeforeAcquired) <==>
              && env.claim.Some? && env.signer == Ed(env.claim.value.holder)
              && Before(env.claim.value.renewed, env.claim.value.acquired)
    ensures Fault(env) == Some(ZeroTtl) <==>
              && env.claim.Some? && env.signer == Ed(env.claim.value.holder)
              && AtMost(env.claim.value.acquired, env.claim.value.renewed) && env.claim.value.ttl == 0
  {
  }

  /** Whatever was heard, every record held is a genuine claim of its holder on its task, as its envelope says. */
  lemma HeldIsGenuine(envs: seq<Envelope>, t: Task, h: Holder)
    requires Held(After(envs), t, h).Some?
    ensures var r := Held(After(envs), t, h).value;
            && r.envelope in envs && r.envelope.claim == Some(r.claim) && r.digest == r.envelope.digest
            && r.envelope.signer == Ed(h) && r.claim.holder == h && r.claim.task == t
            && r.claim.ttl > 0 && AtMost(r.claim.acquired, r.claim.renewed)
  {
    AfterHeard(envs, t, h);
  }

  /** Nobody can speak for another: an envelope touches at most the record of its signer on its task. */
  lemma OnlyTheHolderSpeaks(tasks: Tasks, env: Envelope, t: Task, h: Holder)
    requires env.signer != Ed(h) || env.claim.None? || env.claim.value.task != t
    ensures Held(Ingested(tasks, env), t, h) == Held(tasks, t, h)
  {
    IngestedHeld(tasks, env, t, h);
  }

  /** An envelope not signed by the holder it names is refused and changes nothing. */
  lemma ForgedChangesNothing(tasks: Tasks, env: Envelope)
    requires env.claim.Some? && env.signer != Ed(env.claim.value.holder)
    ensures Ingested(tasks, env) == tasks && IngestResult(tasks, env) == Rejected(HolderMismatch)
  {
  }

  /** An envelope that is not genuine is refused and changes nothing. */
  lemma FaultyChangesNothing(tasks: Tasks, env: Envelope)
    requires !Genuine(env)
    ensures Ingested(tasks, env) == tasks && IngestResult(tasks, env).Rejected?
  {
  }

  /** A genuine envelope against the record of its holder on its task, verdict by verdict. */
  lemma IngestExactly(tasks: Tasks, env: Envelope)
    requires Genuine(env)
    ensures var c := env.claim.value;
            var was, verdict := Held(tasks, c.task, c.holder), IngestResult(tasks, env);
            && (was.None? ==> verdict == Changed)
            && (was.Some? ==>
                  var d := was.value.claim;
                  && (verdict == Stale <==>
                        was.value.digest == env.digest || (c.acquired == d.acquired && AtMost(c.renewed, d.renewed)))
                  && (verdict == Rejected(AcquiredMoved) <==>
                        was.value.digest != env.digest && Before(c.acquired, d.acquired))
                  && (verdict == Changed <==>
                        && was.value.digest != env.digest
                        && (Before(d.acquired, c.acquired) || (c.acquired == d.acquired && Before(d.renewed, c.renewed)))))
            && Held(Ingested(tasks, env), c.task, c.holder) == (if verdict == Changed then Some(RecordOf(env)) else was)
            && (verdict != Changed ==> Ingested(tasks, env) == tasks)
  {
    IngestedHeld(tasks, env, env.claim.value.task, env.claim.value.holder);
  }

  // ---------------------------------------------------------------- how long a claim lives

  /** The moment a claim is dead for everybody: its time to live and fifteen seconds after its renewal, at most 2^64 - 1. */
  function Deadline(c: Claim): nat {
    var end := c.renewed.wall + c.ttl + 15_000;
    if end > 0xFFFF_FFFF_FFFF_FFFF then 0xFFFF_FFFF_FFFF_FFFF else end
  }

  /** A claim is live if and only if it is not released and its deadline has not come. */
  lemma LiveExactly(c: Claim, now: nat)
    ensures Live(c, now) <==> !c.released && now < Deadline(c)
  {
  }

  /** A renewal by `d` milliseconds keeps a claim alive that much longer. */
  lemma RenewalExtends(c: Claim, d: nat, logical: nat)
    requires c.renewed.wall + c.ttl + 15_000 + d <= 0xFFFF_FFFF_FFFF_FFFF
    ensures DeadSince(c.(renewed := Hlc(c.renewed.wall + d, logical))) == DeadSince(c) + d
  {
  }

  /** Collection drops a record if and only if it is released or the horizon has passed since its deadline. */
  lemma GcDropsExactly(tasks: Tasks, now: nat, horizon: nat, t: Task, h: Holder)
    requires Filed(tasks) && Held(tasks, t, h).Some?
    ensures var c, left := Held(tasks, t, h).value.claim, Held(Collected(tasks, now, horizon), t, h);
            && (left.None? <==> c.released || now >= c.renewed.wall + c.ttl + 15_000 + horizon || now >= 0xFFFF_FFFF_FFFF_FFFF)
            && (left.Some? ==> left == Held(tasks, t, h))
  {
    CollectedHeld(tasks, now, horizon);
  }

  // ---------------------------------------------------------------- who wins

  /** `r` was acquired before `x`, or at the same moment with no larger a digest. */
  predicate First(r: Record, x: Record) {
    Before(r.claim.acquired, x.claim.acquired) || (r.claim.acquired == x.claim.acquired && r.digest <= x.digest)
  }

  /** A winner is a record that is live now and comes first among those that are. */
  lemma WinnerExactly(tasks: Tasks, task: Task, now: nat, r: Record)
    ensures IsWinner(tasks, task, now, r) <==>
              && task in tasks && r in tasks[task].Values && !r.claim.released && now < Deadline(r.claim)
              && forall h :: h in tasks[task] && !tasks[task][h].claim.released && now < Deadline(tasks[task][h].claim) ==>
                   First(r, tasks[task][h])
  {
    assert forall c :: Live(c, now) <==> !c.released && now < Deadline(c) by {
      forall c
        ensures Live(c, now) <==> !c.released && now < Deadline(c)
      {
        LiveExactly(c, now);
      }
    }
  }

  /** A claim acquired later than the winner's takes nothing from it. */
  lemma LateClaimLoses(tasks: Tasks, env: Envelope, task: Task, now: nat, r: Record)
    requires Filed(tasks) && IsWinner(tasks, task, now, r)
    requires env.claim.Some? && env.claim.value.holder != r.claim.holder && Before(r.claim.acquired, env.claim.value.acquired)
    ensures IsWinner(Ingested(tasks, env), task, now, r)
  {
    var after := Ingested(tasks, env);
    var g :| g in tasks[task] && tasks[task][g] == r;
    IngestedHeld(tasks, env, task, g);
    assert Held(tasks, task, g) == Some(r) && Held(after, task, g) == Some(r);
    forall h | h in after[task] && Live(after[task][h].claim, now)
      ensures !Precedes(after[task][h], r)
    {
      IngestedHeld(tasks, env, task, h);
      assert Held(after, task, h) == Some(after[task][h]);
      if Held(after, task, h) == Held(tasks, task, h) {
        assert h in tasks[task];
      }
    }
  }

  /** A live claim acquired before the winner's takes the task. */
  lemma EarlierClaimWins(tasks: Tasks, env: Envelope, now: nat, r: Record)
    requires Genuine(env) && IngestResult(tasks, env) == Changed && Live(env.claim.value, now)
    requires IsWinner(tasks, env.claim.value.task, now, r) && Before(env.claim.value.acquired, r.claim.acquired)
    ensures IsWinner(Ingested(tasks, env), env.claim.value.task, now, RecordOf(env))
  {
    var task, me, after := env.claim.value.task, env.claim.value.holder, Ingested(tasks, env);
    IngestedHeld(tasks, env, task, me);
    assert Held(after, task, me) == Some(RecordOf(env));
    forall h | h in after[task] && Live(after[task][h].claim, now)
      ensures !Precedes(after[task][h], RecordOf(env))
    {
      IngestedHeld(tasks, env, task, h);
      assert Held(after, task, h) == Some(after[task][h]);
      if h != me {
        assert Held(tasks, task, h) == Some(after[task][h]);
        assert !Precedes(tasks[task][h], r);
      }
    }
  }

  /** Once its release is taken up a holder holds the task at no time. */
  lemma ReleaseEnds(tasks: Tasks, env: Envelope, now: nat, r: Record)
    requires Filed(tasks) && Genuine(env) && IngestResult(tasks, env) == Changed && env.claim.value.released
    requires IsWinner(Ingested(tasks, env), env.claim.value.task, now, r)
    ensures r.claim.holder != env.claim.value.holder
  {
    var task, me, after := env.claim.value.task, env.claim.value.holder, Ingested(tasks, env);
    IngestedHeld(tasks, env, task, me);
    var h :| h in after[task] && after[task][h] == r;
    IngestedHeld(tasks, env, task, h);
    assert Held(after, task, h) == Some(r) && Held(after, task, me) == Some(RecordOf(env));
  }
}
