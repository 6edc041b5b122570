/**
 The program's own code for the call-site table: ensure_init, record and call_sites_report as methods over the statics
 and the mapped pages. Before every atomic operation the other threads may take any number of steps. Each atomic
 operation is one step of the table machine, so everything proved about runs of the machine holds of this code.
 */
module TableCode {
  import opened Wrappers
  import opened Words
  import opened FrameHash
  import opened StackWalk
  import opened TableSize
  import opened TableMachine
  import opened TableInvariant
  import opened TableRecordSteps
  import opened TableInitSteps
  import opened TableTheorems
  import opened TableReports
  import opened TableProgress
  import opened TableCodeSteps

  function Rows(found: seq<Found>): (rows: seq<CallSiteStats>)
    ensures |rows| == |found| && forall k :: 0 <= k < |found| ==> rows[k] == found[k].row
  {
    seq(|found|, k requires 0 <= k < |found| => found[k].row)
  }

  class CallSiteTable {
    // TABLE_BASE, TABLE_BUCKETS and TABLE_MASK, and the pages mapped so far.
    var tableBase: Option<nat>
    var tableBuckets: nat
    var tableMask: nat
    var regions: seq<Region>
    // The steps taken so far by all threads, and the state of the table machine after them.
    ghost var run: seq<Label>
    ghost var m: State

    function Memory(): Shared
      reads this
    {
      Shared(tableBase, tableBuckets, tableMask, regions)
    }

    ghost predicate Valid()
      reads this
    {
      m == Run(Init(), run) && m.sh == Memory()
    }

    // Thread t is where it was, and has recorded and mapped nothing more; a table once installed is still installed.
    twostate predicate Undisturbed(t: Tid)
      reads this
    {
      && At(m, t) == old(At(m, t)) && Own(m.hist.events, t) == Own(old(m).hist.events, t)
      && MappedBy(m, t) == MappedBy(old(m), t) && (old(tableBase).Some? ==> tableBase == old(tableBase))
    }

    constructor ()
      ensures Valid() && run == []
    {
      tableBase, tableBuckets, tableMask, regions := None, 0, 0, [];
      run, m := [], Init();
    }

    /** The other threads take these steps, whichever they are, and leave this memory. */
    method Others(ghost t: Tid, ghost more: seq<Label>, sh: Shared)
      requires Valid() && sh == Run(m, more).sh && forall k :: 0 <= k < |more| ==> more[k].t != t
      modifies this
      ensures Valid() && run == old(run) + more && old(run) <= run && Undisturbed(t)
      ensures forall k :: |old(run)| <= k < |run| ==> run[k].t != t
      ensures old(tableBuckets) != 0 ==> tableBuckets == old(tableBuckets)
    {
      hide Run, Own, MappedBy;
      OthersFit(run, more, t);
      tableBase, tableBuckets, tableMask, regions := sh.base, sh.buckets, sh.mask, sh.regions;
      run, m := run + more, Run(m, more);
    }

    /**
     The other threads run: any number of steps of any of them, in any order. Callers know the contract only, which
     is that of Others for every choice of steps; the body chooses none.
     */
    method Interfere(ghost t: Tid)
      requires Valid()
      modifies this
      ensures Valid() && old(run) <= run && Undisturbed(t)
      ensures forall k :: |old(run)| <= k < |run| ==> run[k].t != t
      ensures old(tableBuckets) != 0 ==> tableBuckets == old(tableBuckets)
    {
      assert Run(m, []) == m;
      Others(t, [], Memory());
    }

    /** Thread t has just done its atomic operation on the memory: the machine takes the same step. */
    ghost method Tick(t: Tid, act: Act)
      requires m == Run(Init(), run) && Next(m, Label(t, act)).sh == Memory()
      modifies `m, `run
      ensures Valid() && old(run) <= run && m == Next(old(m), Label(t, act))
      ensures Own(m.hist.events, t) == Own(old(m).hist.events, t) + if Begins(old(m), Label(t, act)) then 1 else 0
      ensures MappedBy(m, t) == if Maps(old(m), Label(t, act)) then
                                  MappedBy(old(m), t) + [ConfiguredBucketCount(act.setting)]
                                else MappedBy(old(m), t)
      ensures Effective(old(m), Label(t, act)) ==> 0 <= StepsLeft(At(m, t)) < StepsLeft(old(At(m, t)))
    {
      hide Next, Run, Begins, Maps, Effective, StepsLeft, Own, MappedBy, ConfiguredBucketCount;
      RunOnce(run, Label(t, act));
      TickFacts(m, run, Label(t, act));
      run, m := run + [Label(t, act)], Next(m, Label(t, act));
    }

    // Thread t, and possibly others, have taken steps; t has recorded no event, and mapped regions of these sizes.
    twostate predicate Mapped(t: Tid, sizes: seq<nat>)
      reads this
    {
      && Valid() && old(run) <= run && Own(m.hist.events, t) == Own(old(m).hist.events, t)
      && MappedBy(m, t) == MappedBy(old(m), t) + sizes && (old(tableBase).Some? ==> tableBase == old(tableBase))
    }

    twostate predicate Went(t: Tid)
      reads this
    {
      && Valid() && old(run) <= run && Own(m.hist.events, t) == Own(old(m).hist.events, t)
      && MappedBy(m, t) == MappedBy(old(m), t) && (old(tableBase).Some? ==> tableBase == old(tableBase))
    }

    // Atomic operations on the statics, and calls of the page allocator.

    method LoadTableBase(ghost t: Tid) returns (b: Option<nat>)
      requires Valid() && At(m, t).LoadBase?
      modifies this
      ensures Went(t) && b == tableBase
      ensures var job := old(At(m, t).job);
              At(m, t) == if b.Some? then LoadBuckets(job, b.value) else MapPages(job)
    {
      hide At, Next, Own, MappedBy, StepsLeft, Effective;
      Interfere(t);
      RaceStep(m, t, At(m, t));
      b := tableBase;
      Tick(t, Go);
    }

    method LoadTableBuckets(ghost t: Tid) returns (n: nat)
      requires Valid() && (At(m, t).LoadBuckets? || At(m, t).SpinBuckets?)
      modifies this
      ensures Went(t)
      ensures var pc := old(At(m, t));
              At(m, t) == if pc.LoadBuckets? then LoadMask(pc.job, pc.base, n)
                          else if n > 0 then SpinMask(pc.job, pc.other, n) else pc
      ensures old(tableBuckets) != 0 ==> n == old(tableBuckets)
    {
      hide At, Next, Own, MappedBy, StepsLeft, Effective;
      Interfere(t);
      RaceStep(m, t, At(m, t));
      n := tableBuckets;
      Tick(t, Go);
    }

    // The last load of ensure_init.
    method LoadTableMask(ghost t: Tid) returns (mask: nat)
      requires Valid() && (At(m, t).LoadMask? || At(m, t).SpinMask?)
      modifies this
      ensures Went(t)
      ensures var pc := old(At(m, t));
              Entered(m, t, pc.job, Some(Handle(if pc.LoadMask? then pc.base else pc.other, pc.b, mask)))
    {
      hide At, Next, Own, MappedBy, StepsLeft, Effective, Entered;
      Interfere(t);
      LastStep(m, t, At(m, t));
      mask := tableMask;
      Tick(t, Go);
    }

    method AllocPages(ghost t: Tid, setting: Setting, available: bool) returns (mine: Option<nat>)
      requires Valid() && At(m, t).MapPages?
      modifies this
      ensures Mapped(t, if available then [ConfiguredBucketCount(setting)] else []) && (mine.Some? <==> available)
      ensures var job := old(At(m, t).job);
              if mine.Some? then At(m, t) == CasBase(job, mine.value, ConfiguredBucketCount(setting))
              else Entered(m, t, job, None)
    {
      hide At, Next, Own, MappedBy, StepsLeft, Effective, Entered, ConfiguredBucketCount;
      Interfere(t);
      MapStep(m, t, At(m, t).job, setting);
      if available {
        var n := ConfiguredBucketCount(setting);
        mine := Some(|regions|);
        regions := regions + [Region(seq(n, i => EMPTY), true)];
        Tick(t, Map(setting, true));
      } else {
        mine := None;
        Tick(t, Map(setting, false));
      }
    }

    // Compare-and-swap from null; returns what it found.
    method CasTableBase(ghost t: Tid, mine: nat) returns (found: Option<nat>)
      requires Valid() && At(m, t).CasBase? && At(m, t).mine == mine
      modifies this
      ensures Went(t)
      ensures var pc := old(At(m, t));
              At(m, t) == if found.None? then StoreBuckets(pc.job, mine, pc.n) else FreePages(pc.job, mine, found.value)
      ensures tableBase == if found.None? then Some(mine) else found
    {
      hide At, Next, Own, MappedBy, StepsLeft, Effective;
      Interfere(t);
      RaceStep(m, t, At(m, t));
      found := tableBase;
      if found.None? {
        tableBase := Some(mine);
      }
      Tick(t, Go);
    }

    method StoreTableBuckets(ghost t: Tid, n: nat)
      requires Valid() && At(m, t).StoreBuckets? && At(m, t).n == n
      modifies this
      ensures Went(t) && At(m, t) == StoreMask(old(At(m, t).job), old(At(m, t).mine), n)
    {
      hide At, Next, Own, MappedBy, StepsLeft, Effective;
      Interfere(t);
      RaceStep(m, t, At(m, t));
      tableBuckets := n;
      Tick(t, Go);
    }

    method StoreTableMask(ghost t: Tid, mask: nat)
      requires Valid() && At(m, t).StoreMask? && mask == MaskOf(At(m, t).n)
      modifies this
      ensures Went(t)
      ensures var pc := old(At(m, t)); Entered(m, t, pc.job, Some(Handle(pc.mine, pc.n, mask)))
    {
      hide At, Next, Own, MappedBy, StepsLeft, Effective, Entered;
      Interfere(t);
      LastStep(m, t, At(m, t));
      tableMask := mask;
      Tick(t, Go);
    }

    method ReleasePages(ghost t: Tid, mine: nat)
      requires Valid() && At(m, t).FreePages? && At(m, t).mine == mine
      modifies this
      ensures Went(t) && At(m, t) == SpinBuckets(old(At(m, t).job), old(At(m, t).other))
    {
      hide At, Next, Own, MappedBy, StepsLeft, Effective;
      Interfere(t);
      FreeStep(m, t, At(m, t).job, mine, At(m, t).other);
      regions := regions[mine := regions[mine].(live := false)];
      Tick(t, Go);
    }

    /**
     The spin-loop hint: the thread that installed the table, which is about to store the bucket count, gets a turn.
     This is the only place where progress depends on another thread.
     */
    method SpinLoop(ghost t: Tid)
      requires Valid() && At(m, t).SpinBuckets?
      modifies this
      ensures Valid() && old(run) <= run && Undisturbed(t) && tableBuckets != 0
    {
      hide At, Next, Own, MappedBy, StepsLeft, Effective, Begins, Reachable, Run;
      Interfere(t);
      if tableBuckets == 0 {
        ReachableAfter(run);
        TurnOfWinner(m, t);
        ghost var winner := m.hist.owners[m.sh.base.value];
        tableBuckets := |regions[tableBase.value].cells|;
        Tick(winner, Go);
      }
    }

    /**
     ensure_init: the descriptor of the installed table, created if it does not exist yet. Without an installed table it
     maps at most one region, of the configured size, and comes back with nothing only if there was no memory for it.
     */
    method EnsureInit(ghost t: Tid, ghost job: Job, setting: Setting, available: bool) returns (got: Option<Handle>)
      requires Valid() && At(m, t) == LoadBase(job)
      modifies this
      ensures Went(t) || (old(tableBase).None? && available && Mapped(t, [ConfiguredBucketCount(setting)]))
      ensures Entered(m, t, job, got)
      ensures available || old(tableBase).Some? ==> got.Some?
      ensures got.Some? ==> tableBase == Some(got.value.base)
    {
      hide Entered, Own, MappedBy;
      var existing := LoadTableBase(t);
      if existing.Some? {
        var buckets := LoadTableBuckets(t);
        var mask := LoadTableMask(t);
        return Some(Handle(existing.value, buckets, mask));
      }
      got := EnsureInitSlow(t, job, setting, available);
    }

    method EnsureInitSlow(ghost t: Tid, ghost job: Job, setting: Setting, available: bool) returns (got: Option<Handle>)
      requires Valid() && At(m, t) == MapPages(job)
      modifies this
      ensures Mapped(t, if available then [ConfiguredBucketCount(setting)] else [])
      ensures Entered(m, t, job, got) && (got.Some? <==> available)
      ensures got.Some? ==> tableBase == Some(got.value.base)
    {
      hide Entered, Own, MappedBy, ConfiguredBucketCount, At, Run;
      var buckets := ConfiguredBucketCount(setting);
      BucketCountIsGood(setting);
      var pages := AllocPages(t, setting, available);
      if pages.None? {
        return None;
      }
      var other := CasTableBase(t, pages.value);
      if other.None? {
        StoreTableBuckets(t, buckets);
        StoreTableMask(t, buckets - 1);
        return Some(Handle(pages.value, buckets, buckets - 1));
      }
      ReleasePages(t, pages.value);
      ghost var published := false;
      while true
        invariant Mapped(t, [buckets]) && tableBase == other
        invariant At(m, t) == SpinBuckets(job, other.value) && (published ==> tableBuckets != 0)
        decreases !published
      {
        var b := LoadTableBuckets(t);
        if b > 0 {
          var mask := LoadTableMask(t);
          return Some(Handle(other.value, b, mask));
        }
        SpinLoop(t);
        published := true;
      }
    }

    // Atomic operations on a bucket.

    function Cell(base: nat, idx: nat): (c: Bucket)
      requires Accessible(Memory(), base, idx)
      reads this
      ensures c == CellAt(Memory(), base, idx)
    {
      regions[base].cells[idx]
    }

    // A write to a bucket of a mapped region.
    method StoreCell(base: nat, idx: nat, c: Bucket)
      requires Accessible(Memory(), base, idx)
      modifies `regions
      ensures Memory() == PutCell(old(Memory()), base, idx, c)
    {
      regions := regions[base := regions[base].(cells := regions[base].cells[idx := c])];
    }

    // Thread t is recording, with its probe at this bucket.
    ghost predicate Probing(t: Tid, base: nat, idx: nat)
      reads this
    {
      Valid() && Recording(At(m, t)) && At(m, t).p.base == base && At(m, t).p.idx == idx
    }

    twostate predicate Shortened(t: Tid)
      reads this
    {
      Went(t) && 0 <= StepsLeft(At(m, t)) < StepsLeft(old(At(m, t)))
    }

    method LoadBucketHash(ghost t: Tid, base: nat, idx: nat) returns (h: u64)
      requires Probing(t, base, idx) && At(m, t).LoadHash?
      modifies this
      ensures Shortened(t)
      ensures var p := old(At(m, t)).p; At(m, t) == Seen(p, h, CasHash(p))
    {
      hide At, Next, Own, MappedBy, StepsLeft, Reachable, Run, Seen;
      Interfere(t);
      ReachableAfter(run);
      LoadHashStep(m, t, At(m, t).p);
      h := Cell(base, idx).hash;
      Tick(t, Go);
    }

    // Compare-and-swap from 0; returns what it found.
    method CasBucketHash(ghost t: Tid, base: nat, idx: nat, h: u64) returns (found: u64)
      requires Probing(t, base, idx) && At(m, t).CasHash? && At(m, t).p.h == h
      modifies this
      ensures Shortened(t)
      ensures var p := old(At(m, t)).p; At(m, t) == Seen(p, found, StoreFrame(p, 0))
    {
      hide At, Next, Own, MappedBy, StepsLeft, Reachable, Run, Seen, PutCell, CellAt, Cell, Accessible;
      Interfere(t);
      ReachableAfter(run);
      CasHashStep(m, t, At(m, t).p);
      found := Cell(base, idx).hash;
      if found == 0 {
        var c := Cell(base, idx).(hash := h);
        StoreCell(base, idx, c);
      }
      Tick(t, Go);
    }

    method StoreSampleFrame(ghost t: Tid, base: nat, idx: nat, k: nat, f: u64)
      requires Probing(t, base, idx) && At(m, t).StoreFrame? && At(m, t).k == k
      requires k < |At(m, t).p.trace.frames| && At(m, t).p.trace.frames[k] == f
      modifies this
      ensures Shortened(t)
      ensures var p := old(At(m, t)).p;
              At(m, t) == if k + 1 < p.trace.count then StoreFrame(p, k + 1) else ClaimCount(p)
    {
      hide At, Next, Own, MappedBy, StepsLeft, Reachable, Run, PutCell, CellAt, Cell, Accessible;
      Interfere(t);
      ReachableAfter(run);
      StoreFrameStep(m, t, At(m, t).p, k);
      var c := Cell(base, idx).(frames := Cell(base, idx).frames[k := f]);
      StoreCell(base, idx, c);
      Tick(t, Go);
    }

    method AddCount(ghost t: Tid, base: nat, idx: nat)
      requires Probing(t, base, idx) && (At(m, t).ClaimCount? || At(m, t).HitCount?)
      modifies this
      ensures Shortened(t)
      ensures var pc := old(At(m, t)); At(m, t) == if pc.ClaimCount? then ClaimBytes(pc.p) else HitBytes(pc.p)
    {
      hide At, Next, Own, MappedBy, StepsLeft, Reachable, Run, PutCell, CellAt, Cell, Accessible, Wrap;
      Interfere(t);
      ReachableAfter(run);
      AddCountStep(m, t, At(m, t), At(m, t).p);
      var c := Cell(base, idx).(count := Wrap(Cell(base, idx).count + 1));
      StoreCell(base, idx, c);
      Tick(t, Go);
    }

    method AddBytes(ghost t: Tid, base: nat, idx: nat, size: u64)
      requires Probing(t, base, idx) && (At(m, t).ClaimBytes? || At(m, t).HitBytes?) && At(m, t).p.size == size
      modifies this
      ensures Shortened(t)
      ensures var pc := old(At(m, t)); At(m, t) == if pc.ClaimBytes? then Publish(pc.p) else Idle
    {
      hide At, Next, Own, MappedBy, StepsLeft, Reachable, Run, PutCell, CellAt, Cell, Accessible, Wrap;
      Interfere(t);
      ReachableAfter(run);
      AddBytesStep(m, t, At(m, t), At(m, t).p);
      var c := Cell(base, idx).(bytes := Wrap(Cell(base, idx).bytes + size));
      StoreCell(base, idx, c);
      Tick(t, Go);
    }

    method StoreFrameCount(ghost t: Tid, base: nat, idx: nat, count: nat)
      requires Probing(t, base, idx) && At(m, t).Publish? && At(m, t).p.trace.count == count
      modifies this
      ensures Shortened(t) && At(m, t) == Idle
    {
      hide At, Next, Own, MappedBy, StepsLeft, Reachable, Run, PutCell, CellAt, Cell, Accessible, Wrap;
      Interfere(t);
      ReachableAfter(run);
      PublishStep(m, t, At(m, t), At(m, t).p);
      var c := Cell(base, idx).(frameCount := Wrap(count));
      StoreCell(base, idx, c);
      Tick(t, Go);
    }

    // The loops of record, on an initialised table.

    method FillFrames(ghost t: Tid, base: nat, idx: nat, frames: Frames)
      requires Probing(t, base, idx) && At(m, t) == StoreFrame(At(m, t).p, 0)
      requires At(m, t).p.trace == frames && frames.Valid() && frames.count > 0
      modifies this
      ensures Went(t) && At(m, t) == ClaimCount(old(At(m, t)).p)
    {
      ghost var p := At(m, t).p;
      hide Own, MappedBy, StepsLeft, Run;
      for k := 0 to frames.count
        invariant Went(t) && At(m, t) == if k < frames.count then StoreFrame(p, k) else ClaimCount(p)
      {
        StoreSampleFrame(t, base, idx, k, frames.frames[k]);
      }
    }

    // The probe has claimed its bucket: initialise it and publish it.
    method FillBucket(ghost t: Tid, base: nat, idx: nat, frames: Frames, size: u64)
      requires Probing(t, base, idx) && At(m, t) == StoreFrame(At(m, t).p, 0)
      requires At(m, t).p.trace == frames && At(m, t).p.size == size && frames.Valid() && frames.count > 0
      modifies this
      ensures Went(t) && At(m, t) == Idle
    {
      hide Own, MappedBy, StepsLeft, Run;
      FillFrames(t, base, idx, frames);
      AddCount(t, base, idx);
      AddBytes(t, base, idx, size);
      StoreFrameCount(t, base, idx, frames.count);
    }

    // The probe has found its hash: add to the bucket.
    method AddToBucket(ghost t: Tid, base: nat, idx: nat, size: u64)
      requires Probing(t, base, idx) && At(m, t) == HitCount(At(m, t).p) && At(m, t).p.size == size
      modifies this
      ensures Went(t) && At(m, t) == Idle
    {
      hide Own, MappedBy, StepsLeft, Run;
      AddCount(t, base, idx);
      AddBytes(t, base, idx, size);
    }

    // One turn of the probe loop, up to the advance to the next slot: whether the call is done.
    method TrySlot(ghost t: Tid, base: nat, idx: nat, h: u64, frames: Frames, size: u64) returns (done: bool)
      requires Probing(t, base, idx) && At(m, t) == LoadHash(At(m, t).p) && At(m, t).p.h == h
      requires At(m, t).p.trace == frames && At(m, t).p.size == size && frames.Valid() && frames.count > 0
      modifies this
      ensures Went(t) && (done ==> At(m, t) == Idle)
      ensures !done ==> Shortened(t) && At(m, t) == Advanced(old(At(m, t)).p)
    {
      hide Own, MappedBy, StepsLeft, And, Run, Advanced;
      done := true;
      var existing := LoadBucketHash(t, base, idx);
      if existing == 0 {
        var observed := CasBucketHash(t, base, idx, h);
        if observed == 0 {
          FillBucket(t, base, idx, frames, size);
        } else if observed == h {
          AddToBucket(t, base, idx, size);
        } else {
          done := false;
        }
      } else if existing == h {
        AddToBucket(t, base, idx, size);
      } else {
        done := false;
      }
    }

    method ProbeAndAdd(ghost t: Tid, base: nat, mask: nat, h: u64, frames: Frames, size: u64, ghost ev: nat)
      requires Valid() && frames.Valid() && frames.count > 0
      requires At(m, t) == LoadHash(Probe(ev, frames, size, base, mask, h, And(h, mask), And(h, mask)))
      modifies this
      ensures Went(t) && At(m, t) == Idle
    {
      hide Own, MappedBy, StepsLeft, And, Run;
      var idx := And(h, mask);
      var start := idx;
      while true
        invariant Went(t) && At(m, t) == LoadHash(Probe(ev, frames, size, base, mask, h, start, idx))
        decreases StepsLeft(At(m, t))
      {
        var done := TrySlot(t, base, idx, h, frames, size);
        if done {
          return;
        }
        idx := And(idx + 1, mask);
        if idx == start {
          return;
        }
      }
    }

    // The body of record after the empty traces: get the table, and probe it.
    method RecordOn(ghost t: Tid, ghost ev: nat, frames: Frames, size: u64, setting: Setting, available: bool)
      requires Valid() && frames.Valid() && frames.count > 0 && At(m, t) == LoadBase(RecordJob(ev, frames, size))
      modifies this
      ensures Went(t) || (old(tableBase).None? && available && Mapped(t, [ConfiguredBucketCount(setting)]))
      ensures At(m, t) == Idle
      ensures available || old(tableBase).Some? ==>
                tableBase.Some? && ev < |m.hist.events| && m.hist.events[ev].mask.Some?
    {
      hide Own, MappedBy, StepsLeft, And, Run, Next, Entered, ConfiguredBucketCount, At, Hash;
      var got := EnsureInit(t, RecordJob(ev, frames, size), setting, available);
      EnteredRecord(m, t, ev, frames, size, got);
      if got.Some? {
        ghost var r := run;
        ReachableAfter(run);
        HasMask(m, t);
        var h := Hash(frames.frames, frames.count);
        ProbeAndAdd(t, got.value.base, got.value.mask, h, frames, size, ev);
        LongerIsLater(r, run);
        KeepsMask(Run(Init(), r), m, ev);
      }
    }

    /**
     table::record. Whatever the other threads do meanwhile, one call with a nonempty trace records exactly one
     event, and by the time it returns that event has landed on the bucket of its hash, with its count and its bytes
     added, or has been dropped, or there was no memory for a table. A call with an empty trace does nothing.
     */
    method Record(ghost t: Tid, frames: Frames, size: u64, setting: Setting, available: bool) returns (ghost ev: nat)
      requires Valid() && At(m, t) == Idle && frames.Valid()
      modifies this
      ensures Valid() && old(run) <= run && At(m, t) == Idle && Later(old(m), m)
      ensures frames.count == 0 ==> m == old(m) && Memory() == old(Memory())
      ensures MappedBy(m, t) == old(MappedBy(m, t)) ||
              (old(tableBase).None? && available &&
               MappedBy(m, t) == old(MappedBy(m, t)) + [ConfiguredBucketCount(setting)])
      ensures frames.count > 0 ==>
                && Own(m.hist.events, t) == old(Own(m.hist.events, t)) + 1
                && |old(m).hist.events| <= ev < |m.hist.events|
                && var e := m.hist.events[ev];
                   && e.owner == t && e.trace == frames && e.size == size
                   && Settled(e.fate) && EventOk(Table(Memory()), e)
                   && (available || old(tableBase).Some? ==> tableBase.Some? && !e.fate.Unplaced?)
    {
      ghost var r0 := run;
      ev := |m.hist.events|;
      if frames.count == 0 {
        LongerIsLater(r0, run);
        return;
      }
      hide Own, MappedBy, StepsLeft, And, Run, Next, At, Settled, EventOk, Hash, ConfiguredBucketCount, Begins, Maps;
      BeginRecord(m, t, frames, size);
      Tick(t, Act.Record(frames, size));
      ghost var r1 := run;
      RecordOn(t, ev, frames, size, setting, available);
      LongerIsLater(r0, run);
      LongerIsLater(r1, run);
      ReachableAfter(run);
      hide Later, EventsGrow;
      RecordedEvent(Run(Init(), r1), m, t, ev, frames, size);
      Placed(Table(m.sh), m.hist.events[ev]);
    }

    // Loads of a report.

    // Thread t is scanning this bucket.
    ghost predicate Reading(t: Tid, base: nat, i: nat)
      reads this
    {
      Valid() && Scanning(At(m, t)) && At(m, t).r.base == base && At(m, t).r.i == i
    }

    method ReadHash(ghost t: Tid, base: nat, i: nat) returns (h: u64)
      requires Reading(t, base, i) && At(m, t).ScanHash?
      modifies this
      ensures Went(t)
      ensures var r := old(At(m, t)).r; if h == 0 then Scanned(m, t, r) else At(m, t) == ScanFrameCount(r)
    {
      hide At, Next, Own, MappedBy, StepsLeft, Reachable, Run, Scanned;
      Interfere(t);
      ReachableAfter(run);
      ScanHashStep(m, t, At(m, t).r);
      h := Cell(base, i).hash;
      Tick(t, Go);
    }

    method ReadFrameCount(ghost t: Tid, base: nat, i: nat) returns (n: u64)
      requires Reading(t, base, i) && At(m, t).ScanFrameCount?
      modifies this
      ensures Went(t)
      ensures var r := old(At(m, t)).r;
              if n == 0 then Scanned(m, t, r) else At(m, t) == ScanFrame(r, Clamp8(n), 0, ZEROS)
    {
      hide At, Next, Own, MappedBy, StepsLeft, Reachable, Run, Scanned;
      Interfere(t);
      ReachableAfter(run);
      ScanFrameCountStep(m, t, At(m, t).r);
      n := Cell(base, i).frameCount;
      Tick(t, Go);
    }

    method ReadSampleFrame(ghost t: Tid, base: nat, i: nat, j: nat) returns (f: u64)
      requires Reading(t, base, i) && At(m, t).ScanFrame? && At(m, t).j == j
      modifies this
      ensures Went(t)
      ensures var pc := old(At(m, t));
              && j < pc.n && j < |pc.frames|
              && var read := pc.frames[j := f];
                 At(m, t) == if j + 1 < pc.n then ScanFrame(pc.r, pc.n, j + 1, read) else ScanCount(pc.r, pc.n, read)
    {
      hide At, Next, Own, MappedBy, StepsLeft, Reachable, Run;
      Interfere(t);
      ReachableAfter(run);
      ScanFrameStep(m, t, At(m, t).r, At(m, t).n, j, At(m, t).frames);
      f := Cell(base, i).frames[j];
      Tick(t, Go);
    }

    method ReadCount(ghost t: Tid, base: nat, i: nat) returns (count: u64)
      requires Reading(t, base, i) && At(m, t).ScanCount?
      modifies this
      ensures Went(t)
      ensures At(m, t).ScanBytes?
      ensures var pc := old(At(m, t)); At(m, t) == ScanBytes(pc.r, pc.n, pc.frames, count, At(m, t).tally)
    {
      hide At, Next, Own, MappedBy, StepsLeft, Reachable, Run, Tally;
      Interfere(t);
      ReachableAfter(run);
      ScanCountStep(m, t, At(m, t).r, At(m, t).n, At(m, t).frames);
      count := Cell(base, i).count;
      Tick(t, Go);
    }

    // The last load of a row; found is the report so far with the row added.
    method ReadBytes(ghost t: Tid, base: nat, i: nat) returns (bytes: u64, ghost found: seq<Found>)
      requires Reading(t, base, i) && At(m, t).ScanBytes?
      modifies this
      ensures Went(t)
      ensures var pc := old(At(m, t));
              && Rows(found) == Rows(pc.r.found) + [CallSiteStats(pc.frames, pc.n, pc.count, bytes)]
              && Scanned(m, t, pc.r.(found := found))
    {
      hide At, Next, Own, MappedBy, StepsLeft, Reachable, Run, Tally, Sum, Scanned;
      Interfere(t);
      ReachableAfter(run);
      ghost var pc := At(m, t);
      ScanBytesStep(m, t, pc.r, pc.n, pc.frames, pc.count, pc.tally);
      bytes := Cell(base, i).bytes;
      found := pc.r.found + [Found(i, CallSiteStats(pc.frames, pc.n, pc.count, bytes), pc.tally, Sum(m.hist.events, i))];
      Tick(t, Go);
    }

    // The loads of one row, once the bucket is known to be published with n frames.
    method ReadRow(ghost t: Tid, base: nat, i: nat, n: nat) returns (row: CallSiteStats, ghost found: seq<Found>)
      requires Reading(t, base, i) && At(m, t) == ScanFrame(At(m, t).r, n, 0, ZEROS) && 0 < n <= MAX_FRAMES
      modifies this
      ensures Went(t)
      ensures var r := old(At(m, t)).r; Rows(found) == Rows(r.found) + [row] && Scanned(m, t, r.(found := found))
    {
      ghost var r := At(m, t).r;
      hide Own, MappedBy, StepsLeft, Run, Scanned, Rows;
      var frames: seq<u64> := ZEROS;
      for j := 0 to n
        invariant Went(t) && |frames| == MAX_FRAMES
        invariant At(m, t) == if j < n then ScanFrame(r, n, j, frames) else ScanCount(r, n, frames)
      {
        var f := ReadSampleFrame(t, base, i, j);
        frames := frames[j := f];
      }
      var count := ReadCount(t, base, i);
      var bytes;
      bytes, found := ReadBytes(t, base, i);
      row := CallSiteStats(frames, n, count, bytes);
    }

    method ScanAll(ghost t: Tid, base: nat, buckets: nat, ghost since: Past)
      returns (out: seq<CallSiteStats>, ghost found: seq<Found>)
      requires Valid() && buckets > 0 && At(m, t) == ScanHash(Scan(since, base, buckets, 0, []))
      modifies this
      ensures Went(t) && At(m, t) == Idle && Reported(m, since, found) && out == Rows(found)
    {
      hide Own, MappedBy, StepsLeft, Run, At, Rows, Reported, Memory;
      out, found := [], [];
      for i := 0 to buckets
        invariant Went(t) && out == Rows(found)
        invariant if i < buckets then At(m, t) == ScanHash(Scan(since, base, buckets, i, found))
                  else At(m, t) == Idle && Reported(m, since, found)
      {
        var h := ReadHash(t, base, i);
        if h == 0 {
          continue;
        }
        var fc := ReadFrameCount(t, base, i);
        if fc == 0 {
          continue;
        }
        var row;
        row, found := ReadRow(t, base, i, Clamp8(fc));
        out := out + [row];
      }
    }

    /**
     table::call_sites_report. The rows returned are those of a report of the machine that began and ended with the
     call: each row is that of a bucket seen published, with the claimer's frames and tallies reached meanwhile; the
     rows are in bucket order; and no bucket already published at the call is missing.
     */
    method CallSitesReport(ghost t: Tid, setting: Setting, available: bool)
      returns (out: seq<CallSiteStats>, ghost found: seq<Found>)
      requires Valid() && At(m, t) == Idle
      modifies this
      ensures Valid() && old(run) <= run && At(m, t) == Idle && Later(old(m), m)
      ensures Own(m.hist.events, t) == old(Own(m.hist.events, t))
      ensures MappedBy(m, t) == old(MappedBy(m, t)) ||
              (old(tableBase).None? && available &&
               MappedBy(m, t) == old(MappedBy(m, t)) + [ConfiguredBucketCount(setting)])
      ensures available ==> tableBase.Some?
      ensures Reported(m, Begin(old(m)), found) && out == Rows(found)
      ensures ReportOk(Table(Memory()), m.hist.events, Finished(Begin(old(m)), found))
    {
      ghost var r0, since := run, Begin(m);
      hide Own, MappedBy, StepsLeft, Run, Next, Begin;
      BeginReport(m, t);
      Tick(t, Act.Report);
      var got := EnsureInit(t, ReportJob(since), setting, available);
      if got.None? || got.value.buckets == 0 {
        out, found := [], [];
      } else {
        out, found := ScanAll(t, got.value.base, got.value.buckets, since);
      }
      LongerIsLater(r0, run);
      ReachableAfter(run);
      hide Reported, Later, ReportOk;
      ReportedIsOk(m, since, found);
    }
  }

  lemma ReportedIsOk(m: State, since: Past, found: seq<Found>)
    requires Reachable(m) && Reported(m, since, found)
    ensures ReportOk(Table(m.sh), m.hist.events, Finished(since, found))
  {
    ReachableOk(m);
    hide ReportOk;
  }

  lemma BeginReport(m: State, t: Tid)
    requires At(m, t) == Idle
    ensures var s' := Next(m, Label(t, Report));
            s'.sh == m.sh && At(s', t) == LoadBase(ReportJob(Begin(m)))
    ensures !Begins(m, Label(t, Report))
  {
  }

  // A thread that is probing has obtained a table for its event.
  lemma HasMask(m: State, t: Tid)
    requires Reachable(m) && At(m, t).LoadHash?
    ensures var ev := At(m, t).p.ev; ev < |m.hist.events| && m.hist.events[ev].mask.Some?
  {
    ReachableOk(m);
    ThreadIs(m, t);
    hide Inv, Reachable, Hash;
  }

  lemma KeepsMask(s: State, s': State, ev: nat)
    requires Later(s, s') && ev < |s.hist.events| && s.hist.events[ev].mask.Some?
    ensures ev < |s'.hist.events| && s'.hist.events[ev].mask.Some?
  {
    assert EventGrows(s.hist.events[ev], s'.hist.events[ev]);
  }

  lemma Placed(table: seq<Bucket>, e: Event)
    requires EventOk(table, e)
    ensures e.mask.Some? ==> !e.fate.Unplaced?
  {
  }

  lemma EnteredRecord(m: State, t: Tid, ev: nat, trace: Frames, size: u64, got: Option<Handle>)
    requires Entered(m, t, RecordJob(ev, trace, size), got)
    ensures got.None? ==> At(m, t) == Idle
    ensures got.Some? ==>
              trace.Valid() &&
              var h, mask := Hash(trace.frames, trace.count), got.value.mask;
              At(m, t) == LoadHash(Probe(ev, trace, size, got.value.base, mask, h, And(h, mask), And(h, mask)))
  {
    hide Hash, And;
  }

  lemma RecordedEvent(s: State, m: State, t: Tid, ev: nat, trace: Frames, size: u64)
    requires Reachable(m) && At(m, t) == Idle && Later(s, m)
    requires ev < |s.hist.events| && s.hist.events[ev] == Event(t, trace, size, None, Waiting)
    ensures ev < |m.hist.events|
    ensures var e := m.hist.events[ev];
            e.owner == t && e.trace == trace && e.size == size && Settled(e.fate) && EventOk(Table(m.sh), e)
  {
    assert EventGrows(s.hist.events[ev], m.hist.events[ev]);
    hide Reachable, Later, Settled, EventOk;
    DealtWith(m, t, ev);
  }

  // An event of a thread between calls has been dealt with.
  lemma DealtWith(m: State, t: Tid, ev: nat)
    requires Reachable(m) && At(m, t) == Idle && ev < |m.hist.events| && m.hist.events[ev].owner == t
    ensures Settled(m.hist.events[ev].fate) && EventOk(Table(m.sh), m.hist.events[ev])
  {
    ReachableOk(m);
    EventReached(m, ev);
  }

  lemma BeginRecord(m: State, t: Tid, trace: Frames, size: u64)
    requires At(m, t) == Idle && trace.Valid() && trace.count != 0
    ensures var s', ev := Next(m, Label(t, Record(trace, size))), |m.hist.events|;
            && s'.sh == m.sh && At(s', t) == LoadBase(RecordJob(ev, trace, size))
            && |s'.hist.events| == ev + 1 && s'.hist.events[ev] == Event(t, trace, size, None, Waiting)
    ensures Begins(m, Label(t, Record(trace, size))) && !Maps(m, Label(t, Record(trace, size)))
  {
    hide Hash;
  }

  lemma TurnOfWinner(m: State, t: Tid)
    requires Reachable(m) && At(m, t).SpinBuckets? && m.sh.buckets == 0
    ensures m.sh.base.Some? && m.sh.base.value < |m.hist.owners| && m.sh.base.value < |m.sh.regions|
    ensures var winner, n := m.hist.owners[m.sh.base.value], |m.sh.regions[m.sh.base.value].cells|;
            winner != t && n > 0 && Next(m, Label(winner, Go)).sh == m.sh.(buckets := n)
    ensures var s' := Next(m, Label(m.hist.owners[m.sh.base.value], Go));
            && At(s', t) == At(m, t) && Own(s'.hist.events, t) == Own(m.hist.events, t)
            && MappedBy(s', t) == MappedBy(m, t)
  {
    ReachableOk(m);
    WaitEnds(m, t);
    MemorySafe(m, t);
    hide Inv, Next, Reachable, Own, MappedBy;
    var winner := m.hist.owners[m.sh.base.value];
    RaceStep(m, winner, At(m, winner));
    NextHands(m, Label(winner, Go));
    NextOwn(m, Label(winner, Go), t);
    NextMapped(m, Label(winner, Go), t);
  }

  lemma TickFacts(m: State, run: seq<Label>, l: Label)
    requires m == Run(Init(), run)
    ensures Own(Next(m, l).hist.events, l.t) == Own(m.hist.events, l.t) + if Begins(m, l) then 1 else 0
    ensures MappedBy(Next(m, l), l.t) ==
            if Maps(m, l) then MappedBy(m, l.t) + [ConfiguredBucketCount(l.act.setting)] else MappedBy(m, l.t)
    ensures Effective(m, l) ==> 0 <= StepsLeft(At(Next(m, l), l.t)) < StepsLeft(At(m, l.t))
  {
    hide *;
    ReachableAfter(run);
    StepReachable(m, l);
    NextOwn(m, l, l.t);
    NextMapped(m, l, l.t);
  }

  // Whatever the other threads do, thread t is where it was, and a bucket count once stored stays.
  lemma OthersFit(run: seq<Label>, more: seq<Label>, t: Tid)
    requires forall k :: 0 <= k < |more| ==> more[k].t != t
    ensures var s, s' := Run(Init(), run), Run(Init(), run + more);
            && s' == Run(s, more)
            && At(s', t) == At(s, t) && Own(s'.hist.events, t) == Own(s.hist.events, t)
            && MappedBy(s', t) == MappedBy(s, t)
            && (s.sh.base.Some? ==> s'.sh.base == s.sh.base)
            && (s.sh.buckets != 0 ==> s'.sh.buckets == s.sh.buckets)
  {
    ReachableAfter(run);
    hide Run, Reachable, Own, MappedBy;
    RunTwice(Init(), run, more);
    OthersOnly(Run(Init(), run), more, t);
    LongerIsLater(run, run + more);
  }

  lemma ReachableAfter(run: seq<Label>)
    ensures Reachable(Run(Init(), run))
  {
  }

  lemma RunOnce(run: seq<Label>, l: Label)
    ensures Run(Init(), run + [l]) == Next(Run(Init(), run), l)
  {
    assert (run + [l])[..|run|] == run;
  }
}
