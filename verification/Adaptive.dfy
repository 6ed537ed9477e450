/** The tiered stop of adaptive_exit.go and the peak each shadow pass stores. */
module Adaptive {
  import opened Model
  import opened Database
  import opened Reals

  datatype Tiers = Tiers(breakEvenTrigger: real, trailTrigger: real, trailDistance: real)

  function EffectiveStop(peak: real, entry: real, entryATR: real, dbStop: real, p: Tiers): real {
    if entryATR == 0.0 then dbStop else
    var profitATR := (peak - entry) / entryATR;
    if profitATR >= p.trailTrigger then Max(dbStop, peak - entryATR * p.trailDistance)
    else if profitATR >= p.breakEvenTrigger then Max(dbStop, entry)
    else dbStop
  }

  // ---- the tiers as price levels ----

  // The price k ATRs above entry.
  function Level(entry: real, atr: real, k: real): real { entry + k * atr }

  // The stop when the tiers start at the prices `breakEven` and `trail`, and a trailing stop sits as
  // far below the peak as `far` is above entry.
  function ByLevel(peak: real, entry: real, breakEven: real, trail: real, far: real, dbStop: real): real {
    if peak >= trail then Max(dbStop, peak - (far - entry))
    else if peak >= breakEven then Max(dbStop, entry)
    else dbStop
  }

  lemma ProfitAtLeast(peak: real, entry: real, atr: real, k: real)
    requires atr > 0.0
    ensures (peak - entry) / atr >= k <==> peak >= Level(entry, atr, k)
  {
    MulDiv(peak - entry, atr);
    MulOrder(k, (peak - entry) / atr, atr);
  }

  // For a positive ATR the tiers are price levels.
  lemma TierLevels(peak: real, entry: real, atr: real, dbStop: real, p: Tiers)
    requires atr > 0.0
    ensures EffectiveStop(peak, entry, atr, dbStop, p)
         == ByLevel(peak, entry, Level(entry, atr, p.breakEvenTrigger), Level(entry, atr, p.trailTrigger),
                    Level(entry, atr, p.trailDistance), dbStop)
  {
    ProfitAtLeast(peak, entry, atr, p.trailTrigger);
    ProfitAtLeast(peak, entry, atr, p.breakEvenTrigger);
    assert Level(entry, atr, p.trailDistance) - entry == atr * p.trailDistance;
  }

  // In prices: from `trailTrigger` ATRs above entry the stop trails the peak by `trailDistance` ATRs, from
  // `breakEvenTrigger` ATRs it is at entry, and never below the static stop.
  lemma StopExactly(peak: real, entry: real, atr: real, dbStop: real, p: Tiers)
    requires atr > 0.0
    ensures peak >= entry + p.trailTrigger * atr ==>
      EffectiveStop(peak, entry, atr, dbStop, p) == Max(dbStop, peak - p.trailDistance * atr)
    ensures entry + p.breakEvenTrigger * atr <= peak < entry + p.trailTrigger * atr ==>
      EffectiveStop(peak, entry, atr, dbStop, p) == Max(dbStop, entry)
    ensures peak < entry + p.breakEvenTrigger * atr && peak < entry + p.trailTrigger * atr ==>
      EffectiveStop(peak, entry, atr, dbStop, p) == dbStop
  {
    ProfitAtLeast(peak, entry, atr, p.trailTrigger);
    ProfitAtLeast(peak, entry, atr, p.breakEvenTrigger);
    assert atr * p.trailDistance == p.trailDistance * atr;
  }

  lemma LevelOrder(entry: real, atr: real, j: real, k: real)
    requires atr > 0.0
    ensures Level(entry, atr, j) <= Level(entry, atr, k) <==> j <= k
  {
    MulOrder(j, k, atr);
  }

  lemma LevelGap(entry: real, atr: real, j: real, k: real)
    requires atr > 0.0
    ensures Max(0.0, Level(entry, atr, k) - Level(entry, atr, j)) == atr * Max(0.0, k - j)
  {
    LevelOrder(entry, atr, j, k);
    assert Level(entry, atr, k) - Level(entry, atr, j) == atr * (k - j);
  }

  // ---- the stop as the peak rises ----

  // The effective stop is never below the static stop, whatever the parameters.
  lemma NeverLoosensStatic(peak: real, entry: real, atr: real, dbStop: real, p: Tiers)
    ensures EffectiveStop(peak, entry, atr, dbStop, p) >= dbStop
  {}

  // Raising the peak lowers the stop by at most ATR * max(0, distance - trigger).
  lemma DropBound(peak: real, peak': real, entry: real, atr: real, dbStop: real, p: Tiers)
    requires atr > 0.0 && peak <= peak'
    ensures EffectiveStop(peak', entry, atr, dbStop, p)
         >= EffectiveStop(peak, entry, atr, dbStop, p) - atr * Max(0.0, p.trailDistance - p.trailTrigger)
  {
    hide EffectiveStop, Level;
    TierLevels(peak, entry, atr, dbStop, p);
    TierLevels(peak', entry, atr, dbStop, p);
    LevelGap(entry, atr, p.trailTrigger, p.trailDistance);
  }

  ghost predicate OnlyTightens(entry: real, atr: real, dbStop: real, p: Tiers) {
    forall peak, peak' :: peak <= peak' ==>
      EffectiveStop(peak, entry, atr, dbStop, p) <= EffectiveStop(peak', entry, atr, dbStop, p)
  }

  // No break-even tier below the trail tier, or a trail that starts no lower than entry,
  // or a static stop already at entry.
  predicate NeverDrops(entry: real, dbStop: real, p: Tiers) {
    p.trailTrigger >= p.trailDistance || p.breakEvenTrigger >= p.trailTrigger || dbStop >= entry
  }

  lemma LevelsTighten(peak: real, peak': real, entry: real, breakEven: real, trail: real, far: real, dbStop: real)
    requires peak <= peak' && (trail >= far || breakEven >= trail || dbStop >= entry)
    ensures ByLevel(peak, entry, breakEven, trail, far, dbStop) <= ByLevel(peak', entry, breakEven, trail, far, dbStop)
  {}

  // From the start of the break-even tier to the start of the trail tier the stop falls.
  lemma LevelsDrop(entry: real, breakEven: real, trail: real, far: real, dbStop: real)
    requires breakEven < trail < far && dbStop < entry
    ensures ByLevel(breakEven, entry, breakEven, trail, far, dbStop) > ByLevel(trail, entry, breakEven, trail, far, dbStop)
  {}

  // For a positive ATR the stop only ever tightens exactly when NeverDrops holds.
  lemma TightensExactly(entry: real, atr: real, dbStop: real, p: Tiers)
    requires atr > 0.0
    ensures OnlyTightens(entry, atr, dbStop, p) <==> NeverDrops(entry, dbStop, p)
  {
    hide EffectiveStop, Level, ByLevel;
    var breakEven, trail := Level(entry, atr, p.breakEvenTrigger), Level(entry, atr, p.trailTrigger);
    var far := Level(entry, atr, p.trailDistance);
    LevelOrder(entry, atr, p.trailDistance, p.trailTrigger);
    LevelOrder(entry, atr, p.trailTrigger, p.breakEvenTrigger);
    if NeverDrops(entry, dbStop, p) {
      forall peak, peak' | peak <= peak'
        ensures EffectiveStop(peak, entry, atr, dbStop, p) <= EffectiveStop(peak', entry, atr, dbStop, p)
      {
        TierLevels(peak, entry, atr, dbStop, p);
        TierLevels(peak', entry, atr, dbStop, p);
        LevelsTighten(peak, peak', entry, breakEven, trail, far, dbStop);
      }
    } else {
      TierLevels(breakEven, entry, atr, dbStop, p);
      TierLevels(trail, entry, atr, dbStop, p);
      LevelsDrop(entry, breakEven, trail, far, dbStop);
    }
  }

  // With the default parameters (1.0, 1.5, 2.0) entering the trail tier lowers the stop.
  lemma DefaultsCanLoosen()
    ensures EffectiveStop(102.0, 100.0, 2.0, 95.0, Tiers(1.0, 1.5, 2.0)) == 100.0
    ensures EffectiveStop(103.0, 100.0, 2.0, 95.0, Tiers(1.0, 1.5, 2.0)) == 99.0
  {
    assert (102.0 - 100.0) / 2.0 == 1.0;
    assert (103.0 - 100.0) / 2.0 == 1.5;
  }

  // ---- peak tracking ----

  function EntryPrice(row: Trade): Option<real> {
    if row.avgFill.Some? then row.avgFill else row.price
  }

  // Rows handled by the adaptive path; the others take the legacy path or are skipped.
  predicate Tracked(row: Trade) {
    row.entryATR.Some? && row.entryATR.value != 0.0 && EntryPrice(row).Some? && row.stopLoss.Some?
  }

  function PeakOf(row: Trade): real
    requires Tracked(row)
  {
    if row.peak.Some? then row.peak.value else EntryPrice(row).value
  }

  function RaisePeak(row: Trade, price: real): Trade {
    if Tracked(row) && price > PeakOf(row) then row.(peak := Some(price)) else row
  }

  // The trades table after one shadow pass that read the rows `ids`.
  function RaisePeaks(trades: Trades, ids: set<nat>, price: real): Trades {
    map id | id in trades :: if id in ids then RaisePeak(trades[id], price) else trades[id]
  }
}
