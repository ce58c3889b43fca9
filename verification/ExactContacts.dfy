/** Over all runs, exactly when no endpoint is contacted again after its success was saved. */
module ExactContacts {
  import opened Outbox
  import opened OutboxProtocol
  import opened OutboxTheorems
  import opened OutboxContacts

  /**
   Over every run from an empty outbox whose sends end within `limit` of the renewal before
   them, and, if `calm`, without a retry of an event while it is being sent: no endpoint is
   contacted again after its success was stored.
   */
  ghost predicate SafeUnder(c: Config, limit: nat, calm: bool) {
    forall clock, steps :: WithinRun(c, World(map[], map[], clock), steps, limit) && (calm ==> CalmRun(c, World(map[], map[], clock), steps)) ==>
      NeverAgain(c, World(map[], map[], clock), steps)
  }

  /**
   No endpoint is ever contacted again after its success was saved, exactly when every send
   ends before the lease renewed for it and no administrator retries an event during a send.
   */
  lemma ContactIsExact(c: Config, limit: nat, calm: bool)
    requires ConfigOk(c)
    ensures SafeUnder(c, limit, calm) <==> calm && limit < c.leaseMs
  {
    if !calm {
      var steps := RetriedRun(c, limit);
    } else if limit >= c.leaseMs {
      var steps := LateRun(c, limit);
    } else {
      forall clock, steps | WithinRun(c, World(map[], map[], clock), steps, limit) && CalmRun(c, World(map[], map[], clock), steps)
        ensures NeverAgain(c, World(map[], map[], clock), steps)
      {
        StartInv(c, clock);
        SafeHalf(c, World(map[], map[], clock), steps, limit);
      }
    }
  }
}
