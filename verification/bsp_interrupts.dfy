/**
 * Interrupt bookkeeping of the uC5282 board support package (bspstart.c):
 * the level/priority allocator of the on-chip interrupt controller INTC0,
 * the 256-entry VME handler table, and the first-use search that gives each
 * INTC0 source a free level/priority pair.
 *
 * The three function-local statics of the C file (`used[7]`,
 * `installed[8]`, `handlerTab[256]`) are the arrays of one object. Writes to
 * the memory-mapped INTC0 registers and the call to `rtems_interrupt_catch`
 * are only recorded, in `hwLog`, never interpreted.
 */
module BspInterrupts {
  import opened BspWords

  const NVECTOR: int := 256

  /** The subset of `rtems_status_code` that the allocator returns. */
  datatype StatusCode = RTEMS_SUCCESSFUL | RTEMS_INVALID_NUMBER | RTEMS_RESOURCE_IN_USE

  /** One slot of `handlerTab`: the handler and its user argument. */
  datatype HandlerEntry = HandlerEntry(func: Ptr, arg: Ptr)

  /** What `BSP_getVME_isr` returns and what it stores through `pusrArg` (`None`: not written). */
  datatype IsrLookup = IsrLookup(func: Ptr, argOut: Option<Ptr>)

  /** A hardware side effect of installing a handler, recorded but not modelled. */
  datatype HwWrite =
    | CatchVector(vector: int)                         // rtems_interrupt_catch(trampoline, vector, ...)
    | SetIcr(source: int, level: int, priority: int)   // MCF5282_INTC0_ICRn := IL(level) | IP(priority)
    | UnmaskSource(source: int)                        // clear the source's bit in IMRH / IMRL

  // ---------------------------------------------------------------------
  // The `used` bitmap of `bsp_allocate_interrupt`: bit `priority` of
  // `used[level - 1]` is set once that pair has been handed out.
  // ---------------------------------------------------------------------

  predicate ValidPair(level: int, priority: int)
  {
    1 <= level <= 7 && 0 <= priority <= 7
  }

  predicate IsUsed(used: seq<bv8>, level: int, priority: int)
    requires |used| == 7 && ValidPair(level, priority)
  {
    BitSet(used[level - 1], priority)
  }

  function MarkUsed(used: seq<bv8>, level: int, priority: int): (r: seq<bv8>)
    requires |used| == 7 && ValidPair(level, priority)
    ensures |r| == 7 && IsUsed(r, level, priority)
    ensures forall l, p :: ValidPair(l, p) && (l != level || p != priority) ==>
      IsUsed(r, l, p) == IsUsed(used, l, p)
  {
    var r := used[level - 1 := used[level - 1] | Mask(priority)];
    forall l, p | ValidPair(l, p)
      ensures IsUsed(r, l, p) == (IsUsed(used, l, p) || (l == level && p == priority))
    {
      if l == level { SetBitFrame(used[level - 1], priority, p); }
    }
    r
  }

  /**
   * The effect of `bsp_allocate_interrupt(level, priority)` on `used`:
   * out-of-range arguments are rejected, a pair already handed out is
   * refused, and a free pair is marked; no other pair ever changes.
   */
  function Allocation(used: seq<bv8>, level: int, priority: int): (r: (StatusCode, seq<bv8>))
    requires |used| == 7
    ensures |r.1| == 7
    ensures !ValidPair(level, priority) ==> r == (RTEMS_INVALID_NUMBER, used)
    ensures ValidPair(level, priority) && IsUsed(used, level, priority) ==>
      r == (RTEMS_RESOURCE_IN_USE, used)
    ensures ValidPair(level, priority) && !IsUsed(used, level, priority) ==>
      r.0 == RTEMS_SUCCESSFUL && IsUsed(r.1, level, priority)
    ensures forall l, p :: ValidPair(l, p) && (l != level || p != priority) ==>
      IsUsed(r.1, l, p) == IsUsed(used, l, p)
  {
    if !ValidPair(level, priority) then (RTEMS_INVALID_NUMBER, used)
    else if !IsUsed(used, level, priority) then (RTEMS_SUCCESSFUL, MarkUsed(used, level, priority))
    else (RTEMS_RESOURCE_IN_USE, used)
  }

  // ---------------------------------------------------------------------
  // The level/priority search of `BSP_installVME_isr` for sources 8..63:
  // levels 1..6 in the outer loop, priorities 0..6 in the inner one, first
  // pair the allocator grants wins.
  // ---------------------------------------------------------------------

  /** The pairs the search may request: levels 1..6, priorities 0..6. */
  predicate InSearchGrid(level: int, priority: int)
  {
    1 <= level <= 6 && 0 <= priority <= 6
  }

  /** Lexicographic order of (level, priority), the order of the nested loops. */
  predicate Before(l1: int, p1: int, l2: int, p2: int)
  {
    l1 < l2 || (l1 == l2 && p1 < p2)
  }

  /**
   * The pair the nested loops settle on when started at (l, p), or `None`
   * when they run out. The result is free, lies in the grid, and every grid
   * pair from (l, p) up to it (or to the end, when there is none) is taken.
   */
  function SearchFrom(used: seq<bv8>, l: int, p: int): (r: Option<(int, int)>)
    requires |used| == 7 && 1 <= l <= 7 && 0 <= p <= 7
    decreases 7 - l, 7 - p
    ensures r.Some? ==> InSearchGrid(r.value.0, r.value.1)
    ensures r.Some? ==> !IsUsed(used, r.value.0, r.value.1)
    ensures r.Some? ==> !Before(r.value.0, r.value.1, l, p)
    ensures forall a, b ::
      (InSearchGrid(a, b) && !Before(a, b, l, p) && (r.None? || Before(a, b, r.value.0, r.value.1)))
      ==> IsUsed(used, a, b)
  {
    if l == 7 then None
    else if p == 7 then SearchFrom(used, l + 1, 0)
    else if !IsUsed(used, l, p) then Some((l, p))
    else SearchFrom(used, l, p + 1)
  }

  /**
   * The search is first-fit: a free grid pair with every earlier grid pair
   * taken is exactly what the search from (1, 0) returns, and nothing is
   * returned exactly when all 42 grid pairs are taken.
   */
  lemma SearchIsFirstFit(used: seq<bv8>, a: int, b: int)
    requires |used| == 7 && InSearchGrid(a, b)
    ensures (!IsUsed(used, a, b) &&
             forall c, d :: InSearchGrid(c, d) && Before(c, d, a, b) ==> IsUsed(used, c, d))
        <==> SearchFrom(used, 1, 0) == Some((a, b))
  {}

  lemma SearchNoneIffFull(used: seq<bv8>)
    requires |used| == 7
    ensures SearchFrom(used, 1, 0).None? <==>
      forall a, b :: InSearchGrid(a, b) ==> IsUsed(used, a, b)
  {}

  // ---------------------------------------------------------------------
  // The `installed` bitmap: bit `source % 8` of `installed[source / 8]`
  // records that INTC0 source `source` has been set up once.
  // ---------------------------------------------------------------------

  predicate IsInstalled(installed: seq<bv8>, source: int)
    requires |installed| == 8 && 0 <= source < 64
  {
    BitSet(installed[source / 8], source % 8)
  }

  function MarkInstalled(installed: seq<bv8>, source: int): (r: seq<bv8>)
    requires |installed| == 8 && 0 <= source < 64
    ensures |r| == 8 && IsInstalled(r, source)
    ensures forall s :: 0 <= s < 64 && s != source ==> IsInstalled(r, s) == IsInstalled(installed, s)
  {
    var r := installed[source / 8 := installed[source / 8] | Mask(source % 8)];
    forall s | 0 <= s < 64
      ensures IsInstalled(r, s) == (IsInstalled(installed, s) || s == source)
    {
      InstalledBitFrame(installed, source, s);
    }
    r
  }

  lemma InstalledBitFrame(installed: seq<bv8>, source: int, s: int)
    requires |installed| == 8 && 0 <= source < 64 && 0 <= s < 64
    ensures var r := installed[source / 8 := installed[source / 8] | Mask(source % 8)];
      IsInstalled(r, s) == (IsInstalled(installed, s) || s == source)
  {}

  /** The static interrupt state of the board support package. */
  class BspStatics {
    var used: array<bv8>                  // bsp_allocate_interrupt: used[7]
    var installed: array<bv8>             // BSP_installVME_isr: installed[8]
    var handlerTab: array<HandlerEntry>   // handlerTab[NVECTOR]
    var hwLog: seq<HwWrite>               // register writes, in order

    ghost predicate Valid()
      reads this
    {
      used.Length == 7 && installed.Length == 8 && handlerTab.Length == NVECTOR &&
      used != installed
    }

    /** C statics start out zero: nothing used, nothing installed, every slot (NULL, NULL). */
    constructor ()
      ensures Valid()
      ensures fresh(used) && fresh(installed) && fresh(handlerTab)
      ensures forall i :: 0 <= i < 7 ==> used[i] == 0
      ensures forall i :: 0 <= i < 8 ==> installed[i] == 0
      ensures forall v :: 0 <= v < NVECTOR ==> handlerTab[v] == HandlerEntry(NULL, NULL)
      ensures hwLog == []
    {
      used := new bv8[7](_ => 0);
      installed := new bv8[8](_ => 0);
      handlerTab := new HandlerEntry[NVECTOR](_ => HandlerEntry(NULL, NULL));
      hwLog := [];
    }

    /** `bsp_allocate_interrupt`: hand out a level/priority pair of INTC0. */
    method AllocateInterrupt(level: int, priority: int) returns (sc: StatusCode)
      requires Valid()
      modifies used
      ensures (sc, used[..]) == Allocation(old(used[..]), level, priority)
    {
      sc := RTEMS_RESOURCE_IN_USE;
      if level < 1 || level > 7 || priority < 0 || priority > 7 {
        return RTEMS_INVALID_NUMBER;
      }
      if used[level - 1] & Mask(priority) == 0 {
        used[level - 1] := used[level - 1] | Mask(priority);
        sc := RTEMS_SUCCESSFUL;
      }
    }

    /** `BSP_getVME_isr`: look up a vector's handler, reporting its argument when asked. */
    function GetVmeIsr(vector: u32, wantArg: bool): (r: IsrLookup)
      reads this, handlerTab
      requires Valid()
      ensures vector as int >= NVECTOR ==> r == IsrLookup(NULL, None)
      ensures vector as int < NVECTOR ==> r.func == handlerTab[vector].func
      ensures vector as int < NVECTOR && wantArg ==> r.argOut == Some(handlerTab[vector].arg)
      ensures !wantArg ==> r.argOut == None
    {
      if vector as int >= NVECTOR then IsrLookup(NULL, None)
      else IsrLookup(handlerTab[vector].func, if wantArg then Some(handlerTab[vector].arg) else None)
    }

    /**
     * `BSP_installVME_isr`: store the handler, hook the vector, and on the
     * first use of an INTC0 source (vectors 65..127) give it a level and
     * priority and unmask it.
     */
    method InstallVmeIsr(vector: u32, handler: Ptr, usrArg: Ptr) returns (rc: int)
      requires Valid()
      modifies handlerTab, installed, used, this`hwLog
      ensures Valid()
      ensures rc == 0 || rc == -1
      // out-of-range vectors: rejected, nothing changes
      ensures vector as int >= NVECTOR ==>
        rc == -1 && handlerTab[..] == old(handlerTab[..]) && installed[..] == old(installed[..]) &&
        used[..] == old(used[..]) && hwLog == old(hwLog)
      // every other vector: the slot holds (handler, usrArg) and a later lookup finds it
      ensures vector as int < NVECTOR ==>
        handlerTab[..] == old(handlerTab[..])[vector := HandlerEntry(handler, usrArg)] &&
        GetVmeIsr(vector, true) == IsrLookup(handler, Some(usrArg))
      // vectors outside 65..127 are not INTC0 sources
      ensures vector as int < NVECTOR && !(65 <= vector <= 127) ==>
        rc == 0 && installed[..] == old(installed[..]) && used[..] == old(used[..]) &&
        hwLog == old(hwLog) + [CatchVector(vector as int)]
      // an INTC0 source is marked installed for good, whatever the search finds
      ensures 65 <= vector <= 127 ==> IsInstalled(installed[..], vector as int - 64)
      // a source set up before: nothing more to do
      ensures 65 <= vector <= 127 && IsInstalled(old(installed[..]), vector as int - 64) ==>
        rc == 0 && installed[..] == old(installed[..]) && used[..] == old(used[..]) &&
        hwLog == old(hwLog) + [CatchVector(vector as int)]
      // first use: the source's bit is the only new one
      ensures 65 <= vector <= 127 && !IsInstalled(old(installed[..]), vector as int - 64) ==>
        installed[..] == MarkInstalled(old(installed[..]), vector as int - 64)
      // sources 1..7 have fixed levels: level 1, priority 0 is written, `used` is not consulted
      ensures 65 <= vector < 72 && !IsInstalled(old(installed[..]), vector as int - 64) ==>
        rc == 0 && used[..] == old(used[..]) &&
        hwLog == old(hwLog) + [CatchVector(vector as int), SetIcr(vector as int - 64, 1, 0),
                               UnmaskSource(vector as int - 64)]
      // sources 8..63: first-fit search over levels 1..6 x priorities 0..6
      ensures 72 <= vector <= 127 && !IsInstalled(old(installed[..]), vector as int - 64) ==>
        match SearchFrom(old(used[..]), 1, 0)
        case None =>
          rc == -1 && used[..] == old(used[..]) && hwLog == old(hwLog) + [CatchVector(vector as int)]
        case Some((l, p)) =>
          rc == 0 && used[..] == MarkUsed(old(used[..]), l, p) &&
          hwLog == old(hwLog) + [CatchVector(vector as int), UnmaskSource(vector as int - 64)]
    {
      if vector as int >= NVECTOR {
        return -1;
      }
      handlerTab[vector] := HandlerEntry(handler, usrArg);
      hwLog := hwLog + [CatchVector(vector as int)];
      ghost var tab1 := handlerTab[..];
      assert tab1 == old(handlerTab[..])[vector := HandlerEntry(handler, usrArg)];

      if 65 <= vector <= 127 {
        rc := SetUpSource(vector as int - 64);
        assert handlerTab[..] == tab1;
        return;
      }
      return 0;
    }

    /**
     * The INTC0 part of `BSP_installVME_isr` for `source = vector - 64`:
     * a source already marked in `installed` is left alone; otherwise it is
     * marked, for good, and then given a level and priority.
     */
    method SetUpSource(source: int) returns (rc: int)
      requires Valid() && 1 <= source < 64
      modifies installed, used, this`hwLog
      ensures IsInstalled(installed[..], source)
      ensures IsInstalled(old(installed[..]), source) ==>
        rc == 0 && installed[..] == old(installed[..]) && used[..] == old(used[..]) &&
        hwLog == old(hwLog)
      ensures !IsInstalled(old(installed[..]), source) ==>
        installed[..] == MarkInstalled(old(installed[..]), source)
      ensures source < 8 && !IsInstalled(old(installed[..]), source) ==>
        rc == 0 && used[..] == old(used[..]) &&
        hwLog == old(hwLog) + [SetIcr(source, 1, 0), UnmaskSource(source)]
      ensures source >= 8 && !IsInstalled(old(installed[..]), source) ==>
        match SearchFrom(old(used[..]), 1, 0)
        case None =>
          rc == -1 && used[..] == old(used[..]) && hwLog == old(hwLog)
        case Some((l, p)) =>
          rc == 0 && used[..] == MarkUsed(old(used[..]), l, p) &&
          hwLog == old(hwLog) + [UnmaskSource(source)]
    {
      if installed[source / 8] & Mask(source % 8) != 0 {
        return 0;
      }
      installed[source / 8] := installed[source / 8] | Mask(source % 8);
      ghost var inst1 := installed[..];
      assert inst1 == MarkInstalled(old(installed[..]), source);
      rc := AssignLevelPriority(source);
      assert installed[..] == inst1;
    }

    /**
     * The nested level/priority loop of `BSP_installVME_isr` for the INTC0
     * source `source`, run on its first use. Sources 1..7 take level 1,
     * priority 0 on the first iteration without asking the allocator; the
     * others take the first pair in level-major order that
     * `bsp_allocate_interrupt` grants, never level 7 nor priority 7.
     */
    method AssignLevelPriority(source: int) returns (rc: int)
      requires Valid() && 1 <= source < 64
      modifies used, this`hwLog
      ensures source < 8 ==>
        rc == 0 && used[..] == old(used[..]) &&
        hwLog == old(hwLog) + [SetIcr(source, 1, 0), UnmaskSource(source)]
      ensures source >= 8 ==>
        match SearchFrom(old(used[..]), 1, 0)
        case None =>
          rc == -1 && used[..] == old(used[..]) && hwLog == old(hwLog)
        case Some((l, p)) =>
          rc == 0 && used[..] == MarkUsed(old(used[..]), l, p) &&
          hwLog == old(hwLog) + [UnmaskSource(source)]
    {
      var l := 1;
      while l < 7
        invariant 1 <= l <= 7
        invariant source < 8 ==> l == 1
        invariant used[..] == old(used[..]) && hwLog == old(hwLog)
        invariant source >= 8 ==> SearchFrom(used[..], l, 0) == SearchFrom(old(used[..]), 1, 0)
      {
        var p := 0;
        while p < 7
          invariant 0 <= p <= 7
          invariant source < 8 ==> p == 0
          invariant used[..] == old(used[..]) && hwLog == old(hwLog)
          invariant source >= 8 ==> SearchFrom(used[..], l, p) == SearchFrom(old(used[..]), 1, 0)
        {
          var granted := source < 8;
          if !granted {
            var sc := AllocateInterrupt(l, p);
            granted := sc == RTEMS_SUCCESSFUL;
          }
          if granted {
            if source < 8 {
              hwLog := hwLog + [SetIcr(source, l, p)];
            }
            hwLog := hwLog + [UnmaskSource(source)];
            return 0;
          }
          p := p + 1;
        }
        l := l + 1;
      }
      return -1;
    }

    /**
     * `BSP_removeVME_isr`: clear a vector's handler, but only when both the
     * handler and the argument match what is stored; the argument stays.
     */
    method RemoveVmeIsr(vector: u32, handler: Ptr, usrArg: Ptr) returns (rc: int)
      requires Valid()
      modifies handlerTab
      ensures rc == 0 || rc == -1
      ensures rc == 0 <==>
        vector as int < NVECTOR && old(handlerTab[vector as int % NVECTOR]) == HandlerEntry(handler, usrArg)
      ensures rc == 0 ==>
        handlerTab[..] == old(handlerTab[..])[vector := HandlerEntry(NULL, usrArg)] &&
        GetVmeIsr(vector, true) == IsrLookup(NULL, Some(usrArg))
      ensures rc == -1 ==> handlerTab[..] == old(handlerTab[..])
    {
      if vector as int >= NVECTOR {
        return -1;
      }
      if handlerTab[vector].func != handler || handlerTab[vector].arg != usrArg {
        return -1;
      }
      handlerTab[vector] := handlerTab[vector].(func := NULL);
      return 0;
    }
  }
}
