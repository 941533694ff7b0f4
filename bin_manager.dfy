/** The on-board garbage bin (stage3_action/bin_manager.py): an integer load counter with a
    fill-ratio threshold. */
module BinManagement {
  import opened Common
  import opened ActionEntity
  import opened Alerts

  const BinFullMessage := "dustbin is full"

  /** `load / capacity >= threshold`, with Python's true division of two integers. */
  predicate ReachedCapacity(load: int, capacity: int, threshold: real)
    requires capacity != 0
  {
    load as real / capacity as real >= threshold
  }

  /** For a positive capacity, a bin that is full stays full as the load grows. */
  lemma ReachedCapacityMonotone(load: int, larger: int, capacity: int, threshold: real)
    requires capacity > 0 && load <= larger
    requires ReachedCapacity(load, capacity, threshold)
    ensures ReachedCapacity(larger, capacity, threshold)
  {
    var c := capacity as real;
    assert load as real / c <= larger as real / c by {
      assert (larger as real - load as real) / c >= 0.0;
      assert larger as real / c - load as real / c == (larger as real - load as real) / c;
    }
  }

  class BinManager {
    const capacity: int
    const alertThreshold: real
    var currentLoad: int
    var pausedPosition: Waypoint
    /** The bin's own notifier, distinct from the mission planner's. */
    const notifier: AlertNotifier

    constructor (binCfg: Bin)
      ensures capacity == binCfg.binCapacity && alertThreshold == binCfg.alertThreshold
      ensures currentLoad == 0
      ensures pausedPosition == Waypoint(0.0, 0.0, 0.0)
      ensures fresh(notifier) && notifier.events == []
    {
      capacity := binCfg.binCapacity;
      alertThreshold := binCfg.alertThreshold;
      currentLoad := 0;
      pausedPosition := Waypoint(0.0, 0.0, 0.0);
      notifier := new AlertNotifier();
    }

    /** One more collected item is in the bin. */
    method AddGarbage()
      modifies this`currentLoad
      ensures currentLoad == old(currentLoad) + 1
    {
      currentLoad := currentLoad + 1;
    }

    /** The fill ratio; undefined (Python raises) for a zero capacity. */
    function UsageRatio(): (ratio: real)
      reads this
      requires capacity != 0
      ensures ratio * capacity as real == currentLoad as real
    {
      currentLoad as real / capacity as real
    }

    /** Whether the fill ratio has reached the alert threshold; raises the BIN_FULL alert when it has.
        A zero capacity makes the ratio raise ZeroDivisionError before anything is alerted. */
    method BinIsFull() returns (r: Result<bool>)
      modifies notifier
      ensures capacity == 0 ==> r == Err(ZeroDivisionError) && notifier.events == old(notifier.events)
      ensures capacity != 0 ==> r == Ok(ReachedCapacity(currentLoad, capacity, alertThreshold))
      ensures capacity != 0 ==>
        notifier.events == old(notifier.events) + (if r.value then [Alert(BinFull, BinFullMessage)] else [])
    {
      if capacity == 0 {
        return Err(ZeroDivisionError);
      }
      var reachedMaxCapacity := UsageRatio() >= alertThreshold;
      if reachedMaxCapacity {
        notifier.RaiseAlert(BinFull, BinFullMessage);
      }
      r := Ok(reachedMaxCapacity);
    }

    /** Empties the bin after unloading; always reports success. */
    method ResetBin() returns (unloaded: bool)
      modifies this`currentLoad
      ensures currentLoad == 0
      ensures unloaded
    {
      currentLoad := 0;
      unloaded := true;
    }
  }
}
