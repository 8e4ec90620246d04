/** The counters in place. */
module StatSizeAllocator {
  import opened PeakCounter

  datatype Stats = Stats(current: int, spike: int, peak: int)

  class Allocator {
    var current: int
    var spike: int
    var peak: int

    constructor ()
      ensures current == NEW.current && spike == NEW.spike && peak == NEW.peak
    {
      current, spike, peak := 0, 0, 0;
    }

    /** Other threads run in between: `others[k]` is what they leave in the usage and the spike before the
        load, for k = 0, and before the k-th attempt; `used` tells how many of these came into play. */
    method AddAllocedSize(size: nat, others: seq<(int, int)>) returns (used: nat)
      modifies this`current, this`spike
      ensures used <= |others|
      ensures current == if used == 0 then old(current) + size else others[used - 1].0
      ensures spike >= old(current) + size
      ensures spike == old(current) + size || spike == if used == 0 then old(spike) else others[used - 1].1
      ensures others == [] ==> spike == Max(old(spike), current)
    {
      var total := current + size;
      current := total;
      used := 0;
      if used < |others| {
        current, spike := others[0].0, others[0].1;
        used := 1;
      }
      var seen := spike;
      var stored := false;
      while total > seen && !stored
        invariant used <= |others|
        invariant current == if used == 0 then total else others[used - 1].0
        invariant stored ==> spike == total
        invariant !stored ==> spike == seen == if used == 0 then old(spike) else others[used - 1].1
        invariant others == [] ==> seen == old(spike) && (stored ==> total > seen)
        decreases if stored then 0 else 1, |others| - used
      {
        if used < |others| {
          current, spike := others[used].0, others[used].1;
          used := used + 1;
        }
        if spike == seen {
          spike := total;
          stored := true;
        } else {
          seen := spike;
        }
      }
    }

    method Dealloc(size: nat)
      modifies this`current
      ensures current == old(current) - size
    {
      current := current - size;
    }

    method Realloc(size: nat, newSize: nat, others: seq<(int, int)>) returns (used: nat)
      modifies this`current, this`spike
      ensures newSize <= size ==> used == 0 && current == old(current) + newSize - size && spike == old(spike)
      ensures newSize > size ==>
        && used <= |others|
        && current == (if used == 0 then old(current) + newSize - size else others[used - 1].0)
        && spike >= old(current) + newSize - size
        && (others == [] ==> spike == Max(old(spike), current))
    {
      used := 0;
      if newSize < size {
        current := current - (size - newSize);
      } else if newSize > size {
        used := AddAllocedSize(newSize - size, others);
      }
    }

    /** What other threads do in between: they leave `raised` in the spike after it was taken, `loaded` in the
        peak before it is read, `overwritten` in it before it is stored, and `usage` in the usage. */
    method ReadStats(raised: int, loaded: int, overwritten: int, usage: int) returns (r: Stats)
      modifies this
      ensures spike == raised && current == usage && peak == Max(loaded, old(spike))
      ensures r == Stats(usage, old(spike), peak)
    {
      var taken := spike;
      spike := 0;
      spike, peak := raised, loaded;
      var currentPeak := peak;
      peak := overwritten;
      peak := Max(currentPeak, taken);
      current := usage;
      r := Stats(current, taken, peak);
    }
  }
}
