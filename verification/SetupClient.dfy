/** The client as the program it is: checkpoint writes around a call of the
    store object, with the crash points passed in as faults. */
module SetupClient {
  import opened Common
  import opened Adoption
  import opened SetupDriver
  import AdoptionStore

  /** Where the client process dies in one call, if it does. */
  datatype Fault = NoFault | BeforeSend | BeforeSave

  datatype CallOutcome = Answer(value: Response) | Failed

  /** The happenings one call is made of, given the checkpoint it starts with. */
  function CallHappenings(plan: Plan, c: Checkpoint, n: StepName, env: Env, fault: Fault): seq<Happening> {
    var put := Put(c, RequestKey(n), Sent(PeerOf(n), RequestOf(plan, n)));
    if put.None? || (ResponseKey(n) in put.value && put.value[ResponseKey(n)].Received?) then [Prepare]
    else match fault
         case BeforeSend => [Prepare, Crash]
         case BeforeSave => [Prepare, Send(env), Crash]
         case NoFault => [Prepare, Send(env), Save]
  }

  /** The happenings of a call, and of a whole run, that is not cut short. A step
      already through ignores the last two. */
  function CallOf(envs: StepName -> Env, n: StepName): seq<Happening> { [Prepare, Send(envs(n)), Save] }

  function Undisturbed(envs: StepName -> Env): seq<Happening> {
    [Start] + CallOf(envs, ProposeStep) + CallOf(envs, ValidateStep) + CallOf(envs, AdoptStep)
  }

  function AfterCall(plan: Plan, n: StepName, out: CallOutcome): Driver {
    if out.Answer? then Advance(plan, n, out.value) else Idle
  }

  lemma {:induction false} HappensInTurn(cfg: Config, plan: Plan, sys: System, hs: seq<Happening>, ks: seq<Happening>)
    ensures Happens(cfg, plan, sys, hs + ks) == Happens(cfg, plan, Happens(cfg, plan, sys, hs), ks)
    decreases |hs|
  {
    hide Happen;
    if hs == [] {
      assert hs + ks == ks;
    } else {
      assert (hs + ks)[1..] == hs[1..] + ks;
      HappensInTurn(cfg, plan, Happen(cfg, plan, sys, hs[0]), hs[1..], ks);
    }
  }

  lemma HappensSingly(cfg: Config, plan: Plan, sys: System, a: Happening, b: Happening, c: Happening)
    ensures Happens(cfg, plan, sys, [a]) == Happen(cfg, plan, sys, a)
    ensures Happens(cfg, plan, sys, [a, b]) == Happen(cfg, plan, Happen(cfg, plan, sys, a), b)
    ensures Happens(cfg, plan, sys, [a, b, c])
            == Happen(cfg, plan, Happen(cfg, plan, Happen(cfg, plan, sys, a), b), c)
  {
    hide Happen;
    HappensInTurn(cfg, plan, sys, [a], [b]);
    HappensInTurn(cfg, plan, sys, [a, b], [c]);
    assert [a] + [b] == [a, b] && [a, b] + [c] == [a, b, c];
  }

  lemma Rests(cfg: Config, plan: Plan, sys: System, env: Env)
    requires !sys.driver.Ready? && !sys.driver.Holding?
    ensures Happen(cfg, plan, sys, Send(env)) == sys == Happen(cfg, plan, sys, Save)
  {
  }

  lemma IdleRests(cfg: Config, plan: Plan, sys: System, envs: StepName -> Env, n: StepName)
    requires sys.driver.Idle?
    ensures Happens(cfg, plan, sys, CallOf(envs, n)) == sys
  {
    HappensSingly(cfg, plan, sys, Prepare, Send(envs(n)), Save);
    Rests(cfg, plan, sys, envs(n));
    assert Happen(cfg, plan, sys, Prepare) == sys by { hide Apply; }
    hide Happen, Happens;
  }

  /** The rest of a run that has failed. */
  lemma RestIsIdle(cfg: Config, plan: Plan, sys: System, hs: seq<Happening>, envs: StepName -> Env, n: StepName)
    requires Happens(cfg, plan, sys, hs).driver.Idle?
    ensures Happens(cfg, plan, sys, hs + CallOf(envs, n)) == Happens(cfg, plan, sys, hs)
  {
    hide CallOf;
    HappensInTurn(cfg, plan, sys, hs, CallOf(envs, n));
    IdleRests(cfg, plan, Happens(cfg, plan, sys, hs), envs, n);
  }

  /** A run up to a call, and the call without a fault. */
  lemma WholeCall(cfg: Config, plan: Plan, sys: System, hs: seq<Happening>, envs: StepName -> Env, n: StepName)
    requires Happens(cfg, plan, sys, hs).driver == Running(n)
    ensures var mid := Happens(cfg, plan, sys, hs);
            Happens(cfg, plan, sys, hs + CallOf(envs, n))
            == Happens(cfg, plan, mid, CallHappenings(plan, mid.checkpoint, n, envs(n), NoFault))
  {
    hide Happens, Apply, Answers, RequestOf, PeerOf;
    var mid := Happens(cfg, plan, sys, hs);
    HappensInTurn(cfg, plan, sys, hs, CallOf(envs, n));
    HappensSingly(cfg, plan, mid, Prepare, Send(envs(n)), Save);
    var next := Happen(cfg, plan, mid, Prepare);
    if !next.driver.Ready? { Rests(cfg, plan, next, envs(n)); }
  }

  class Steps {
    const plan: Plan
    var checkpoint: Checkpoint

    constructor (plan: Plan)
      ensures this.plan == plan && checkpoint == map[]
    {
      this.plan := plan;
      checkpoint := map[];
    }

    method PutEntry(k: CheckKey, p: Payload) returns (ok: bool)
      modifies this`checkpoint
      ensures match Put(old(checkpoint), k, p)
              case Some(c) => ok && checkpoint == c
              case None => !ok && checkpoint == old(checkpoint)
    {
      if k in checkpoint { return checkpoint[k] == p; }
      checkpoint := checkpoint[k := p];
      return true;
    }

    /** One keyed call. Whatever the fault, what it does to the authority and to
        the checkpoint is a sequence of the happenings of the system model. */
    method Call(server: AdoptionStore.AdoptionStore, n: StepName, env: Env, fault: Fault) returns (out: CallOutcome)
      modifies this`checkpoint, server
      ensures System(server.Tables(), checkpoint, AfterCall(plan, n, out))
              == Happens(server.cfg, plan, System(old(server.Tables()), old(checkpoint), Running(n)),
                         CallHappenings(plan, old(checkpoint), n, env, fault))
    {
      hide Dispatch, RequestOf, PeerOf, Advance, Answers;
      HappensSingly(server.cfg, plan, System(server.Tables(), checkpoint, Running(n)), Prepare, Send(env),
                    if fault == BeforeSave then Crash else Save);
      HappensSingly(server.cfg, plan, System(server.Tables(), checkpoint, Running(n)), Prepare, Crash, Crash);
      var kept := PutEntry(RequestKey(n), Sent(PeerOf(n), RequestOf(plan, n)));
      if !kept { return Failed; }
      if ResponseKey(n) in checkpoint && checkpoint[ResponseKey(n)].Received? {
        return Answer(checkpoint[ResponseKey(n)].response);
      }
      if fault == BeforeSend { return Failed; }
      var answer := server.HandleRequest(PeerOf(n), RequestOf(plan, n), env);
      if fault == BeforeSave || answer.Err? { return Failed; }
      if !Answers(plan, n, answer.value) { return Failed; }
      kept := PutEntry(ResponseKey(n), Received(answer.value));
      if !kept { return Failed; }
      return Answer(answer.value);
    }

    /** Propose, validate, adopt. A client that returns is `Done` in the system
        model, so `ExactlyOnce` applies to every sequence of such runs. */
    method AdoptPolicy(server: AdoptionStore.AdoptionStore, envs: StepName -> Env, faults: StepName -> Fault)
      returns (out: CallOutcome, ghost hs: seq<Happening>)
      modifies this`checkpoint, server
      ensures System(server.Tables(), checkpoint, if out.Answer? then Done(out.value) else Idle)
              == Happens(server.cfg, plan, System(old(server.Tables()), old(checkpoint), Idle), hs)
      ensures forall h :: h in hs ==> !h.Foreign? && !h.Late?
      ensures (forall n :: faults(n) == NoFault) ==>
                Happens(server.cfg, plan, System(old(server.Tables()), old(checkpoint), Idle), hs)
                == Happens(server.cfg, plan, System(old(server.Tables()), old(checkpoint), Idle), Undisturbed(envs))
    {
      hide Happen, Happens, CallHappenings, Answers, RequestOf, PeerOf, CallOf;
      ghost var before := System(server.Tables(), checkpoint, Idle);
      ghost var whole: seq<Happening> := [Start];
      StartsRun(server.cfg, plan, before);
      hs := [Start];
      ghost var next := CallHappenings(plan, checkpoint, ProposeStep, envs(ProposeStep), faults(ProposeStep));
      OwnHappenings(plan, checkpoint, ProposeStep, envs(ProposeStep), faults(ProposeStep));
      HappensInTurn(server.cfg, plan, before, hs, next);
      WholeCall(server.cfg, plan, before, whole, envs, ProposeStep);
      out := Call(server, ProposeStep, envs(ProposeStep), faults(ProposeStep));
      hs, whole := hs + next, whole + CallOf(envs, ProposeStep);
      if out.Failed? {
        if forall n :: faults(n) == NoFault {
          RestIsIdle(server.cfg, plan, before, whole, envs, ValidateStep);
          RestIsIdle(server.cfg, plan, before, whole + CallOf(envs, ValidateStep), envs, AdoptStep);
        }
        return;
      }
      next := CallHappenings(plan, checkpoint, ValidateStep, envs(ValidateStep), faults(ValidateStep));
      OwnHappenings(plan, checkpoint, ValidateStep, envs(ValidateStep), faults(ValidateStep));
      HappensInTurn(server.cfg, plan, before, hs, next);
      if forall n :: faults(n) == NoFault { WholeCall(server.cfg, plan, before, whole, envs, ValidateStep); }
      out := Call(server, ValidateStep, envs(ValidateStep), faults(ValidateStep));
      hs, whole := hs + next, whole + CallOf(envs, ValidateStep);
      if out.Failed? || !out.value.Validated? {
        if forall n :: faults(n) == NoFault { RestIsIdle(server.cfg, plan, before, whole, envs, AdoptStep); }
        out := Failed;
        return;
      }
      next := CallHappenings(plan, checkpoint, AdoptStep, envs(AdoptStep), faults(AdoptStep));
      OwnHappenings(plan, checkpoint, AdoptStep, envs(AdoptStep), faults(AdoptStep));
      HappensInTurn(server.cfg, plan, before, hs, next);
      if forall n :: faults(n) == NoFault { WholeCall(server.cfg, plan, before, whole, envs, AdoptStep); }
      out := Call(server, AdoptStep, envs(AdoptStep), faults(AdoptStep));
      hs := hs + next;
      if out.Failed? || !out.value.Adopted? || out.value.generation != plan.generation + 1 { out := Failed; }
    }
  }

  lemma StartsRun(cfg: Config, plan: Plan, sys: System)
    requires sys.driver.Idle?
    ensures Happens(cfg, plan, sys, [Start]) == sys.(driver := Running(ProposeStep))
  {
    hide Apply;
    HappensSingly(cfg, plan, sys, Start, Start, Start);
  }

  lemma OwnHappenings(plan: Plan, c: Checkpoint, n: StepName, env: Env, fault: Fault)
    ensures forall h :: h in CallHappenings(plan, c, n, env, fault) ==> !h.Foreign? && !h.Late?
  {
  }
}
