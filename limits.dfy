/**
 * High-level limits of one hardware group: wall time in seconds, memory in
 * kilobytes and the number of parallel processes. The wall time is a float
 * in the source; here it is a `real` that is only compared with zero and
 * copied.
 */
module Limits {
  import opened Wrappers
  import opened PhpArray
  import opened JobConfig

  const WALL_TIME_KEY := "wall-time"
  const MEMORY_KEY := "memory"
  const PARALLEL_KEY := "parallel"
  const VALID_LIMITS := [WALL_TIME_KEY, MEMORY_KEY, PARALLEL_KEY]

  /** A value of the serialised array: the wall time or one of the integer limits. */
  datatype LimitValue = Seconds(seconds: real) | Amount(amount: int)

  class Limits {
    var wallTime: real
    var memory: int
    var parallel: int

    /** A fresh holder: every limit is 0. */
    constructor ()
      ensures wallTime == 0.0 && memory == 0 && parallel == 0
    {
      wallTime := 0.0;
      memory := 0;
      parallel := 0;
    }

    /** `Limits::create`: a new holder storing exactly the given values. */
    static method Create(w: real, m: int, p: int) returns (l: Limits)
      ensures fresh(l)
      ensures l.wallTime == w && l.memory == m && l.parallel == p
    {
      l := new Limits();
      var self := l.SetWallTime(w);
      self := self.SetMemoryLimit(m);
      self := self.SetParallel(p);
    }

    function GetWallTime(): real
      reads this
    {
      wallTime
    }

    function GetMemoryLimit(): int
      reads this
    {
      memory
    }

    function GetParallel(): int
      reads this
    {
      parallel
    }

    method SetWallTime(t: real) returns (self: Limits)
      modifies this
      ensures self == this
      ensures GetWallTime() == t && memory == old(memory) && parallel == old(parallel)
    {
      wallTime := t;
      self := this;
    }

    method SetMemoryLimit(m: int) returns (self: Limits)
      modifies this
      ensures self == this
      ensures GetMemoryLimit() == m && wallTime == old(wallTime) && parallel == old(parallel)
    {
      memory := m;
      self := this;
    }

    method SetParallel(p: int) returns (self: Limits)
      modifies this
      ensures self == this
      ensures GetParallel() == p && wallTime == old(wallTime) && memory == old(memory)
    {
      parallel := p;
      self := this;
    }

    /** `compile($hwGroupId)`: the job limits of that group, every value copied unchanged. */
    function Compile(hwGroupId: string): (j: JobLimits)
      reads this
      ensures j.id == hwGroupId
      ensures j.wallTime == GetWallTime() && j.memory == GetMemoryLimit() && j.parallel == GetParallel()
    {
      JobLimits(hwGroupId, wallTime, memory, parallel)
    }

    /**
     * `toArray()`: a key is present only when its limit is set. Wall time
     * and parallel count as set when positive; memory whenever it is
     * non-zero (PHP truthiness), so a negative memory limit is kept.
     */
    method ToArray() returns (data: Dict<string, LimitValue>)
      ensures UniqueKeys(data)
      ensures Get(data, WALL_TIME_KEY) == if wallTime > 0.0 then Some(Seconds(wallTime)) else None
      ensures Get(data, MEMORY_KEY) == if memory != 0 then Some(Amount(memory)) else None
      ensures Get(data, PARALLEL_KEY) == if parallel > 0 then Some(Amount(parallel)) else None
      ensures forall k :: k in Keys(data) ==> k in VALID_LIMITS
      ensures data == [] <==> wallTime <= 0.0 && memory == 0 && parallel <= 0
      ensures Keys(data) == (if wallTime > 0.0 then [WALL_TIME_KEY] else []) + (if memory != 0 then [MEMORY_KEY] else [])
                            + (if parallel > 0 then [PARALLEL_KEY] else [])
    {
      data := [];
      if wallTime > 0.0 {
        Step(data, WALL_TIME_KEY, Seconds(wallTime));
        data := Put(data, WALL_TIME_KEY, Seconds(wallTime));
      }
      if memory != 0 {
        Step(data, MEMORY_KEY, Amount(memory));
        data := Put(data, MEMORY_KEY, Amount(memory));
      }
      if parallel > 0 {
        Step(data, PARALLEL_KEY, Amount(parallel));
        data := Put(data, PARALLEL_KEY, Amount(parallel));
      }
    }
  }

  /** One conditional write of `toArray`: what it adds and what it keeps. */
  lemma Step(data: Dict<string, LimitValue>, k: string, v: LimitValue)
    requires UniqueKeys(data)
    ensures UniqueKeys(Put(data, k, v)) && Put(data, k, v) != []
    ensures forall k' :: Get(Put(data, k, v), k') == if k' == k then Some(v) else Get(data, k')
    ensures forall k' :: k' in Keys(Put(data, k, v)) ==> k' == k || k' in Keys(data)
    ensures k !in Keys(data) ==> Keys(Put(data, k, v)) == Keys(data) + [k]
  {
    PutUnique(data, k, v);
    KeysPut(data, k, v);
    PutLength(data, k, v);
    forall k' ensures Get(Put(data, k, v), k') == if k' == k then Some(v) else Get(data, k') {
      GetPut(data, k, v, k');
    }
  }
}
