/** The ledger's conservative rebuild of the exposure of orders that may still be alive. */
module OpenRisk {
  import opened Wrappers
  import opened Orders
  import opened OrderTable
  import opened Sums

  function Abs(x: real): real { if x < 0.0 then -x else x }

  /** Python's `a or b` on optional decimals: zero counts as missing. */
  function Or(a: Option<real>, b: Option<real>): Option<real> {
    if a.Some? && a.value != 0.0 then a else b
  }

  function DefaultMultiplier(a: AssetType): real { if a == OptionContract then 100.0 else 1.0 }

  predicate Counted(r: Row, account: string) {
    && r.id.account == account && !Terminal(r.state)
    && r.journal.submissionStarted.Some? && r.progress.remaining > 0.0
  }

  /** Exposure per remaining unit; `None` when it cannot be reconstructed. */
  function UnitRisk(r: Row): Option<real> {
    if r.id.assetType == Combo then
      var loss := r.request.instrument.maxLossPerUnit;
      if loss.Some? && loss.value > 0.0 then loss else None
    else
      var price := Or(r.columns.limitPrice, Or(r.columns.stopPrice, Some(r.progress.avgFillPrice)));
      if price.Some? && price.value > 0.0 then Some(price.value * DefaultMultiplier(r.id.assetType)) else None
  }

  predicate Valued(r: Row, account: string) {
    Counted(r, account) ==> UnitRisk(r).Some?
  }

  predicate Reconstructible(t: Table, account: string) {
    forall id <- t :: Valued(t[id], account)
  }

  /** What one row adds to the open-order exposure. */
  function RowRisk(r: Row, account: string): (risk: real)
    ensures risk >= 0.0
  {
    if Counted(r, account) && UnitRisk(r).Some? then
      assert UnitRisk(r).value >= 0.0;
      r.progress.remaining * UnitRisk(r).value
    else 0.0
  }

  function Risks(t: Table, account: string): map<string, real> {
    map id | id in t :: RowRisk(t[id], account)
  }

  ghost function OpenNotional(t: Table, account: string): real { Sum(Risks(t, account)) }

  lemma {:induction false} OpenNotionalAfterWrite(t: Table, id: string, r: Row, account: string)
    ensures OpenNotional(t[id := r], account)
      == OpenNotional(t, account) - (if id in t then RowRisk(t[id], account) else 0.0) + RowRisk(r, account)
  {
    assert Risks(t[id := r], account) == Risks(t, account)[id := RowRisk(r, account)];
    SumUpdate(Risks(t, account), id, RowRisk(r, account));
  }
}
