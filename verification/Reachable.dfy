// The bounds on poll cycles, from every table any number of relays can have
// led to: no state of the outbox has to be assumed good.
module Reachable {
  import opened Arithmetic
  import opened Base
  import opened Outbox
  import R = RelayProtocol
  import Drain
  import Outage

  ghost predicate Reached(cfg: RelayConfig, run: seq<R.Step>, rows: Table) {
    R.Run(cfg, R.CODE, R.EMPTY, run) && R.After(cfg, R.CODE, R.EMPTY, run).rows == rows
  }

  lemma DrainsFromAnywhere(cfg: RelayConfig, run: seq<R.Step>, rows: Table, cycles: seq<Drain.Cycle>)
    requires cfg.Valid() && Reached(cfg, run, rows) && Drain.ValidRun(cfg, rows, cycles) && Drain.NoArrivals(cycles)
    ensures var n, t := |EligibleIds(cfg, rows)|, Drain.Transients(cfg, rows, cycles);
            && t <= cfg.maxAttempts * n
            && (|cycles| >= CeilDiv(n, cfg.batchSize) + t ==>
                  var end := Drain.Final(cfg, rows, cycles);
                  end.Keys == rows.Keys && forall id :: id in end ==> end[id].published || end[id].parked)
  {
    R.ReachableSettled(cfg, R.CODE, run);
    Drain.DrainBound(cfg, rows, cycles);
  }

  lemma TriedFromAnywhere(cfg: RelayConfig, run: seq<R.Step>, rows: Table, cycles: seq<Drain.Cycle>, target: EventId)
    requires cfg.Valid() && Reached(cfg, run, rows) && Drain.ValidRun(cfg, rows, cycles)
    requires target in EligibleIds(cfg, rows) && Drain.ArrivalsAfter(cycles, rows[target].createdAt)
    requires |cycles| >= cfg.maxAttempts * |Drain.Ahead(cfg, rows, target)| + 1
    ensures Drain.Attempted(cfg, rows, cycles, target)
  {
    R.ReachableSettled(cfg, R.CODE, run);
    Drain.HeadOfLineFreedom(cfg, rows, cycles, target);
  }

  lemma OutageFromAnywhere(cfg: RelayConfig, run: seq<R.Step>, rows: Table, queue: seq<EventId>,
                           cycles: seq<Drain.Cycle>)
    requires cfg.Valid() && Reached(cfg, run, rows) && Drain.ValidRun(cfg, rows, cycles) && Drain.NoArrivals(cycles)
    requires Outage.FreshQueue(cfg, rows, queue)
    requires forall i :: 0 <= i < |cycles| ==> Outage.Refuses(cycles[i])
    ensures var full, next := |cycles| / cfg.maxAttempts, |cycles| % cfg.maxAttempts;
            Outage.AfterFailures(cfg, rows, queue, full, next, Drain.Final(cfg, rows, cycles))
  {
    R.ReachableSettled(cfg, R.CODE, run);
    Outage.OutageClosedForm(cfg, rows, queue, cycles);
  }
}
