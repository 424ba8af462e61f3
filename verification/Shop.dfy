/**
 * The running shop: the stores and the service over one set of tables. Serving any list of calls leaves the shop in
 * exactly the state the run reaches, so everything proved about runs holds of the tables and the ledger.
 */
module Shop {
  import opened Policy
  import opened Ledger
  import opened Records
  import opened Runs
  import opened Safety
  import opened Stores
  import opened Service

  class Storefront {
    const db: Database
    const service: SessionService
    const policies: PolicyStore
    const agents: AgentStore
    const catalog: CatalogStore

    constructor (codec: Codec<Event>, idText: nat -> string)
      requires RoundTrips(codec)
      ensures Valid() && Initial(State())
    {
      var tables := new Database(DEFAULT_POLICY);
      db := tables;
      service := new SessionService(tables, codec, idText);
      policies := new PolicyStore(tables);
      agents := new AgentStore(tables);
      catalog := new CatalogStore(tables);
      new;
      DefaultPolicyIsValid();
    }

    ghost predicate Valid()
      reads service.ledger
    {
      && service.db == db && policies.db == db && agents.db == db && catalog.db == db
      && service.Valid()
    }

    ghost function State(): World
      reads db, service.ledger
      requires Valid()
    {
      service.State()
    }

    /** One call, by an agent or by the merchant. A call under an unknown agent never reaches the service. */
    method Serve(step: Step)
      requires Valid()
      modifies db, service.ledger`rows, service`lastInput
      ensures Valid() && State() == Apply(old(State()), step)
    {
      if Ordering(step) {
        ServeOrder(step);
      } else if Administrative(step) {
        Administer(step);
      } else {
        Settle(step);
      }
    }

    method ServeOrder(step: Step)
      requires Valid() && Ordering(step)
      modifies db, service.ledger`rows, service`lastInput
      ensures Valid() && State() == Apply(old(State()), step)
    {
      match step
      case CreateStep(agent, items, key, hash, now) =>
        if agent < |db.agents| {
          var _ := service.Create(agent, items, key, hash, now);
        }
      case UpdateStep(agent, sid, items, now) =>
        var _ := service.Update(agent, sid, items, now);
      case ReviewStep(sid, approved, note, now) =>
        var _ := service.Review(sid, approved, note, now);
      case CompleteStep(agent, sid, key, now, link) =>
        var _ := service.Complete(agent, sid, key, now, link);
    }

    method Settle(step: Step)
      requires Valid() && (step.ReconcileStep? || step.CancelStep? || step.RefundStep?)
      modifies db, service.ledger`rows, service`lastInput
      ensures Valid() && State() == Apply(old(State()), step)
    {
      if step.ReconcileStep? {
        var _ := service.Reconcile(step.sid, step.now, step.poll, step.cancel1, step.cancel2, step.link);
      } else if step.CancelStep? {
        var _ := service.Cancel(step.caller, step.sid, step.now, step.ok, step.poll);
      } else {
        Refund(step);
      }
    }

    method Refund(step: Step)
      requires Valid() && step.RefundStep?
      modifies db, service.ledger`rows
      ensures Valid() && State() == Apply(old(State()), step)
    {
      var _ := service.Refund(step.sid, step.amount, step.reason, step.reference, step.now, step.answer);
    }

    method Administer(step: Step)
      requires Valid() && Administrative(step)
      modifies db
      ensures Valid() && State() == Apply(old(State()), step)
    {
      if step.IssueMandateStep? || step.RevokeMandateStep? {
        AdministerMandates(step);
      } else if step.SetPolicyStep? {
        SetPolicy(step.doc);
      } else if step.PutProductStep? {
        var _ := catalog.Upsert(step.id, step.snap);
      } else if step.RegisterAgentStep? {
        var _ := agents.Register();
      } else {
        var _ := agents.Revoke(step.agent);
      }
    }

    method SetPolicy(doc: Doc)
      requires Valid()
      modifies db`policy
      ensures Valid() && State() == Apply(old(State()), SetPolicyStep(doc))
    {
      var _ := policies.Set(doc);
    }

    method AdministerMandates(step: Step)
      requires Valid() && (step.IssueMandateStep? || step.RevokeMandateStep?)
      modifies db
      ensures Valid() && State() == Apply(old(State()), step)
    {
      match step
      case IssueMandateStep(agent, perTxn, daily, total, categories, startsAt, expiresAt, now) =>
        if agent < |db.agents| {
          var _ := service.mandates.Create(agent, perTxn, daily, total, categories, startsAt, expiresAt, now);
        }
      case RevokeMandateStep(m) =>
        var _ := service.mandates.Revoke(m);
    }

    method ServeAll(steps: seq<Step>)
      requires Valid()
      modifies db, service.ledger`rows, service`lastInput
      ensures Valid() && State() == Run(old(State()), steps)
      ensures old(Inv(State())) ==> Inv(State())
      ensures old(Initial(State())) ==>
                IsRun(Trace(old(State()), steps), steps) && State() == Trace(old(State()), steps)[|steps|]
    {
      ghost var start := State();
      for i := 0 to |steps|
        invariant Valid() && State() == Run(start, steps[..i])
      {
        assert steps[..i + 1][..i] == steps[..i];
        Serve(steps[i]);
      }
      assert steps[..|steps|] == steps;
      if Inv(start) {
        RunInv(start, steps);
      }
      if Initial(start) {
        TraceIsRun(start, steps);
      }
    }
  }
}
