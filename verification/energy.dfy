/**
 * The energy bar and the phase flags of GameLoop: per-tick decay, the
 * thresholds that end the game, and the best-time record kept in
 * best_score.txt.
 */
module Energy {
  import opened Wrappers
  import opened Geometry

  const START_BAR: real := 100.0
  const DECAY: real := 0.25
  const FULL: real := 500.0
  const PHASE_TWO_AT: real := 250.0
  const ORB_BONUS: real := 30.0
  const FIREBALL_PENALTY: real := 20.0

  /** The two versions of the game: the src/ package and the older main.py. */
  datatype Variant = Current | Legacy

  /** The screen a tick dispatches to. */
  datatype Phase = Phase1 | Phase2 | Victory | GameOver

  /** The `phases` dictionary. */
  datatype Flags = Flags(first: bool, second: bool, victory: bool) {
    /** draw_phases tests the flags in this order; with none set the game is over. */
    function Phase(): Phase {
      if first then Phase1 else if second then Phase2 else if victory then Victory else GameOver
    }

    /** At most one flag is set. */
    predicate Exclusive() {
      (first ==> !second && !victory) && (second ==> !victory)
    }
  }

  const START_FLAGS: Flags := Flags(true, false, false)

  /**
   * What best_score.txt holds: nothing (an empty or new file), a decimal
   * integer, or text that Python's int() refuses.
   */
  datatype Record = Empty | Stored(n: int) | Unreadable

  /** The outcome of the best-time rule: the file afterwards, the best time shown, and whether the file was written. */
  datatype BestTime = BestTime(record: Record, best: int, rewritten: bool)

  /**
   * The best-time rule of bar_progress. An empty file takes the finish
   * time. Otherwise the best is the smaller of the stored and the finish
   * time, and the file is rewritten unless the stored time is smaller.
   * Unreadable content raises, which the model reports as None.
   */
  function UpdateBest(rec: Record, final: int): (r: Option<BestTime>)
    ensures r.None? <==> rec.Unreadable?
    ensures rec.Empty? ==> r == Some(BestTime(Stored(final), final, true))
    ensures rec.Stored? ==> r.Some? && r.value.best == Min(rec.n, final)
    ensures r.Some? ==> r.value.record == Stored(r.value.best) && r.value.best <= final
    ensures rec.Stored? ==> (r.value.rewritten <==> final <= rec.n)
    ensures rec.Stored? ==> (r.value.record != rec <==> final < rec.n)
  {
    match rec
    case Empty => Some(BestTime(Stored(final), final, true))
    case Unreadable => None
    case Stored(n) =>
      if n < final then Some(BestTime(rec, n, false))
      else Some(BestTime(Stored(final), final, true))
  }

  /** Finishing again in the same time leaves the record as it is. */
  lemma UpdateBestIdempotent(rec: Record, final: int)
    requires !rec.Unreadable?
    ensures var r := UpdateBest(rec, final).value;
            UpdateBest(r.record, final).value.record == r.record
  {}

  /** The three cases of the best-time rule with a finish time of 42. */
  lemma UpdateBestExamples()
    ensures UpdateBest(Empty, 42) == Some(BestTime(Stored(42), 42, true))
    ensures UpdateBest(Stored(30), 42) == Some(BestTime(Stored(30), 30, false))
    ensures UpdateBest(Stored(50), 42) == Some(BestTime(Stored(42), 42, true))
  {}

  /** The part of GameLoop that bar_progress reads and writes. */
  datatype Meter = Meter(bar: real, flags: Flags, finalTime: int, bestTime: int, record: Record)

  /**
   * bar_progress: the bar loses 0.25. At or below 0 the finish time is
   * taken and both play phases end (victory is left alone). At or above
   * 500 the bar is set to exactly 500, the finish time is taken, the
   * best-time rule runs and the game is won. None: the record was
   * unreadable and the rule raised.
   */
  function Progress(m: Meter, elapsed: int): (r: Option<Meter>)
    ensures r.None? <==> m.bar - DECAY >= FULL && m.record.Unreadable?
    ensures r.Some? ==> r.value.bar == if m.bar - DECAY >= FULL then FULL else m.bar - DECAY
    ensures r.Some? ==> r.value.bar <= FULL
    ensures m.bar - DECAY <= 0.0 ==>
      r == Some(m.(bar := m.bar - DECAY, finalTime := elapsed, flags := Flags(false, false, m.flags.victory)))
    ensures m.bar - DECAY >= FULL && r.Some? ==>
      && r.value.flags == m.flags.(second := false, victory := true)
      && r.value.finalTime == elapsed
      && r.value.bestTime <= elapsed
      && r.value.record == UpdateBest(m.record, elapsed).value.record
      && r.value.bestTime == UpdateBest(m.record, elapsed).value.best
    ensures 0.0 < m.bar - DECAY < FULL ==> r == Some(m.(bar := m.bar - DECAY))
  {
    var bar := m.bar - DECAY;
    if bar <= 0.0 then
      Some(m.(bar := bar, finalTime := elapsed, flags := m.flags.(first := false, second := false)))
    else if bar >= FULL then
      match UpdateBest(m.record, elapsed)
      case None => None
      case Some(b) =>
        Some(Meter(FULL, m.flags.(second := false, victory := true), elapsed, b.best, b.record))
    else
      Some(m.(bar := bar))
  }

  /**
   * The retry button's effect on the flags. src/ restarts phase one and
   * clears the victory flag; main.py restarts phase one and leaves the
   * victory flag as it was.
   */
  function RetryFlags(v: Variant, f: Flags): (r: Flags)
    ensures r.first && r.second == f.second
    ensures v == Current ==> !r.victory
    ensures v == Legacy ==> r.victory == f.victory
  {
    match v
    case Current => f.(first := true, victory := false)
    case Legacy => f.(first := true)
  }
}
