/** The persistent spend ledger: a table keyed by (tenant, day), and its migration from the old layout. */
module Ledger {
  import opened Wrappers
  import opened Sequences
  import opened Tenancy

  type Rows = map<(string, string), real>

  /** The spend read back for a tenant and a day; a missing row reads as zero. */
  function Spend(rows: Rows, tenantId: string, day: string): real {
    var key := (TenantOf(tenantId), day);
    if key in rows then rows[key] else 0.0
  }

  /** Insert, or add to the row already there. */
  function Upsert(rows: Rows, tenantId: string, day: string, amount: real): (after: Rows)
    ensures forall t, d :: Spend(after, t, d) ==
              Spend(rows, t, d) + (if TenantOf(t) == TenantOf(tenantId) && d == day then amount else 0.0)
  {
    var key := (TenantOf(tenantId), day);
    if key in rows then rows[key := rows[key] + amount] else rows[key := amount]
  }

  datatype Charge = Charge(tenantId: string, day: string, amount: real)

  function UpsertAll(rows: Rows, charges: seq<Charge>): Rows {
    if charges == [] then rows
    else
      var last := charges[|charges| - 1];
      Upsert(UpsertAll(rows, charges[..|charges| - 1]), last.tenantId, last.day, last.amount)
  }

  /** The amounts charged to one tenant on one day. */
  function Charged(charges: seq<Charge>, tenantId: string, day: string): real {
    Sum(charges, AmountFor(tenantId, day))
  }

  function AmountFor(tenantId: string, day: string): Charge -> real {
    (c: Charge) => if TenantOf(c.tenantId) == TenantOf(tenantId) && c.day == day then c.amount else 0.0
  }

  // ---------------------------------------------------------------------------------------------
  // Migration from one row per day to one row per tenant and day
  // ---------------------------------------------------------------------------------------------

  datatype CostTable = Missing | Legacy(days: map<string, real>) | PerTenant(rows: Rows)

  /** The rows that keep every day's old spend under the default tenant. */
  function Adopted(days: map<string, real>): Rows {
    map key | key in (set day | day in days :: (DEFAULT_TENANT_ID, day)) :: days[key.1]
  }

  function Migrated(table: CostTable): CostTable {
    match table
    case Missing => PerTenant(map[])
    case Legacy(days) => PerTenant(Adopted(days))
    case PerTenant(_) => table
  }

  /** What the table says was spent, whatever its layout. */
  function SpendIn(table: CostTable, tenantId: string, day: string): real {
    match table
    case Missing => 0.0
    case Legacy(days) => if TenantOf(tenantId) == DEFAULT_TENANT_ID && day in days then days[day] else 0.0
    case PerTenant(rows) => Spend(rows, tenantId, day)
  }

  /**
   The migration conserves money and later charges add to it: from any table, migrating and then
   charging reads back, for every tenant and day, as the old spend plus what was charged.
   */
  lemma {:induction false} MigrationConservesSpend(table: CostTable, charges: seq<Charge>, tenantId: string, day: string)
    ensures Migrated(table).PerTenant? && Migrated(Migrated(table)) == Migrated(table)
    ensures Spend(UpsertAll(Migrated(table).rows, charges), tenantId, day)
         == SpendIn(table, tenantId, day) + Charged(charges, tenantId, day)
  {
    if charges == [] {
      if table.Legacy? {
        AdoptedReadsBack(table.days, tenantId, day);
      }
    } else {
      MigrationConservesSpend(table, charges[..|charges| - 1], tenantId, day);
    }
  }

  lemma AdoptedReadsBack(days: map<string, real>, tenantId: string, day: string)
    ensures Spend(Adopted(days), tenantId, day) == SpendIn(Legacy(days), tenantId, day)
  {
    var keys := set d | d in days :: (DEFAULT_TENANT_ID, d);
    assert Adopted(days).Keys == keys;
    assert day in days ==> (DEFAULT_TENANT_ID, day) in keys;
  }

  /** After the migration the default tenant, under either of its ids, has each day's old spend, and nobody else has any. */
  lemma LegacySpendIsTheDefaultTenants(days: map<string, real>, tenantId: string, day: string)
    ensures var rows := Migrated(Legacy(days)).rows;
            && Spend(rows, "", day) == Spend(rows, "default", day) == (if day in days then days[day] else 0.0)
            && (tenantId != "" && tenantId != "default" ==> Spend(rows, tenantId, day) == 0.0)
  {
    AdoptedReadsBack(days, "", day);
    AdoptedReadsBack(days, "default", day);
    AdoptedReadsBack(days, tenantId, day);
  }

  class SQLiteLedger {
    var table: CostTable

    ghost predicate Valid()
      reads this
    {
      table.PerTenant?
    }

    constructor (existing: CostTable)
      ensures Valid() && table == Migrated(existing)
    {
      table := existing;
      new;
      MigrateTenantCostSpend();
    }

    /** Creates the table if missing, and rewrites the old layout in place. */
    method MigrateTenantCostSpend()
      modifies this
      ensures table == Migrated(old(table))
    {
      if table.Missing? {
        table := PerTenant(map[]);
      }
      var hasTenant := table.PerTenant?;
      if hasTenant {
        return;
      }
      table := PerTenant(Adopted(table.days));
    }

    /** Adds to one row; a failed statement leaves the table as it was. */
    method AddSpend(tenantId: string, day: string, amount: real, fails: bool) returns (ok: bool)
      requires Valid()
      modifies this
      ensures Valid() && ok == !fails
      ensures table.rows == if fails then old(table.rows) else Upsert(old(table.rows), tenantId, day, amount)
    {
      if fails {
        return false;
      }
      table := PerTenant(Upsert(table.rows, tenantId, day, amount));
      return true;
    }

    /** Reads one row, zero if there is none; a failed query reads nothing. */
    method ReadSpend(tenantId: string, day: string, fails: bool) returns (spent: Option<real>)
      requires Valid()
      ensures spent == if fails then None else Some(Spend(table.rows, tenantId, day))
    {
      if fails {
        return None;
      }
      var key := (TenantOf(tenantId), day);
      return Some(if key in table.rows then table.rows[key] else 0.0);
    }
  }
}
