/** Opening the ledger: the spend table's migration, run by any number of processes at once. */
module LedgerOpening {
  import opened Wrappers
  import opened Ledger
  import M = Migrations

  function CostMigrations(): seq<M.Migration<CostTable>> {
    [M.Migration(1, "tenant cost spend", (table: CostTable) => Some(Migrated(table)))]
  }

  /**
   However many openers race and crash, once one of them has finished the table is in the new
   layout and reads back the old spend of every tenant and day, plus whatever was charged since.
   */
  lemma OpeningConservesSpend(table: CostTable, states: seq<M.State<CostTable>>, events: seq<M.Event>, i: nat, r: nat,
                              charges: seq<Charge>, tenantId: string, day: string)
    requires M.Behaviour(CostMigrations(), states, events) && i <= |events|
    requires states[0].db == M.Db([], table)
    requires r < |states[i].runners| && states[i].runners[r].Finished?
    ensures states[i].db.schema.PerTenant?
    ensures Spend(UpsertAll(states[i].db.schema.rows, charges), tenantId, day)
         == SpendIn(table, tenantId, day) + Charged(charges, tenantId, day)
  {
    var ms := CostMigrations();
    assert ms[..0] == [] && ms[..1] == ms;
    M.FinishedMeansComplete(ms, table, 0, states, events, i, r);
    assert M.Fold(ms, table) == Some(Migrated(table));
    MigrationConservesSpend(table, charges, tenantId, day);
  }
}
