/** The admission fence: one entry per target, a generation that only grows,
    and the decision whether a new obligation may bind. */
module Admission {
  import opened Identity

  const MAX_FENCED_TARGETS: nat := 65536

  datatype FenceEntry = FenceEntry(closed: bool, generation: Generation, drain: DrainId)

  type Fence = map<Target, FenceEntry>

  /** A fence operation leaves a table and, when it succeeds, a generation. */
  datatype FenceResult = FenceResult(fence: Fence, generation: Option<Generation>)

  datatype AdmissionVerdict = Admissible | StaleGeneration | ClosedByDrain

  predicate IsClosed(f: Fence, t: Target) {
    t in f && f[t].closed
  }

  /** Zero means the target has never been fenced. */
  function GenerationOf(f: Fence, t: Target): Generation {
    if t in f then f[t].generation else 0
  }

  /** `AdmissionFence::close`. When the generation space of the target or the
      table is exhausted the entry is erased. */
  function Close(f: Fence, t: Target, drain: DrainId): FenceResult {
    if drain == 0 then FenceResult(f, None)
    else if GenerationOf(f, t) >= U64_MAX then FenceResult(f - {t}, None)
    else if |f.Keys + {t}| > MAX_FENCED_TARGETS then FenceResult(f - {t}, None)
    else
      var g := GenerationOf(f, t) + 1;
      FenceResult(f[t := FenceEntry(true, g, drain)], Some(g))
  }

  /** `AdmissionFence::reopen`: only a closed entry, under a newer generation. */
  function Reopen(f: Fence, t: Target, drain: DrainId): FenceResult {
    if !IsClosed(f, t) || drain == 0 || f[t].generation >= U64_MAX then FenceResult(f, None)
    else
      var g := f[t].generation + 1;
      FenceResult(f[t := FenceEntry(false, g, drain)], Some(g))
  }

  /** `AdmissionFence::check_admission`. */
  function CheckAdmission(f: Fence, t: Target, presented: Generation): AdmissionVerdict {
    if t !in f then (if presented != 0 then StaleGeneration else Admissible)
    else if presented != f[t].generation then StaleGeneration
    else if f[t].closed then ClosedByDrain
    else Admissible
  }

  /** A binding is admitted exactly when the caller presents the generation in
      force and the target is not closed. */
  lemma AdmissibleIff(f: Fence, t: Target, presented: Generation)
    ensures CheckAdmission(f, t, presented) == Admissible <==>
              presented == GenerationOf(f, t) && !IsClosed(f, t)
  {
  }

  // ---- Histories of one table ---------------------------------------------------

  datatype FenceOp = CloseOp(target: Target, closer: DrainId) | ReopenOp(target: Target, opener: DrainId)

  function ApplyOp(f: Fence, op: FenceOp): Fence {
    match op
    case CloseOp(t, d) => Close(f, t, d).fence
    case ReopenOp(t, d) => Reopen(f, t, d).fence
  }

  function ApplyAll(f: Fence, ops: seq<FenceOp>): Fence
    decreases |ops|
  {
    if ops == [] then f else ApplyAll(ApplyOp(f, ops[0]), ops[1..])
  }

  /** No operation of the history finds a target at the end of its generation space. */
  predicate BelowExhaustion(f: Fence, ops: seq<FenceOp>)
    decreases |ops|
  {
    ops == [] || (GenerationOf(f, ops[0].target) < U64_MAX && BelowExhaustion(ApplyOp(f, ops[0]), ops[1..]))
  }

  lemma CloseStep(f: Fence, c: Target, d: DrainId, t: Target)
    requires |f| <= MAX_FENCED_TARGETS && GenerationOf(f, c) < U64_MAX
    ensures |Close(f, c, d).fence| <= MAX_FENCED_TARGETS
    ensures GenerationOf(f, t) <= GenerationOf(Close(f, c, d).fence, t)
  {
    var closed := f[c := FenceEntry(true, GenerationOf(f, c) + 1, d)];
    assert closed.Keys == f.Keys + {c};
    if d != 0 && |f.Keys + {c}| > MAX_FENCED_TARGETS {
      FullTable(f, c);
    }
  }

  /** A target that does not fit is not in the table, so erasing it changes nothing. */
  lemma FullTable(f: Fence, c: Target)
    requires |f| <= MAX_FENCED_TARGETS < |f.Keys + {c}|
    ensures c !in f && f - {c} == f
  {
    assert c in f ==> f.Keys + {c} == f.Keys;
  }

  /** The table has no entry left for the target. */
  predicate NoRoom(f: Fence, t: Target) {
    t !in f && |f| >= MAX_FENCED_TARGETS
  }

  lemma KeysWith(f: Fence, t: Target)
    ensures |f.Keys + {t}| == |f| + (if t in f then 0 else 1)
  {
    if t in f {
      assert f.Keys + {t} == f.Keys;
    }
  }

  /** A close succeeds exactly for a real drain, below exhaustion, and with room; the
      target is then closed in that drain's name one generation up. Without room the
      table stays as it is. */
  lemma CloseIff(f: Fence, t: Target, d: DrainId)
    requires |f| <= MAX_FENCED_TARGETS
    ensures Close(f, t, d).generation.Some? <==> d != 0 && GenerationOf(f, t) < U64_MAX && !NoRoom(f, t)
    ensures Close(f, t, d).generation.Some? ==>
              && Close(f, t, d).generation == Some(GenerationOf(f, t) + 1)
              && Close(f, t, d).fence == f[t := FenceEntry(true, GenerationOf(f, t) + 1, d)]
    ensures d == 0 || NoRoom(f, t) ==> Close(f, t, d) == FenceResult(f, None)
  {
    KeysWith(f, t);
    if NoRoom(f, t) {
      FullTable(f, t);
    }
  }

  lemma ReopenStep(f: Fence, c: Target, d: DrainId, t: Target)
    ensures |Reopen(f, c, d).fence| == |f|
    ensures GenerationOf(f, t) <= GenerationOf(Reopen(f, c, d).fence, t)
  {
    assert Reopen(f, c, d).fence.Keys == f.Keys;
  }

  lemma ApplyStep(f: Fence, op: FenceOp, t: Target)
    requires |f| <= MAX_FENCED_TARGETS && GenerationOf(f, op.target) < U64_MAX
    ensures |ApplyOp(f, op)| <= MAX_FENCED_TARGETS
    ensures GenerationOf(f, t) <= GenerationOf(ApplyOp(f, op), t)
  {
    match op
    case CloseOp(c, d) => CloseStep(f, c, d, t);
    case ReopenOp(c, d) => ReopenStep(f, c, d, t);
  }

  /** Below exhaustion the generation of a target never decreases, and one that
      was admissible before a closure never is again. */
  lemma {:induction false} GenerationsNeverDecrease(f: Fence, ops: seq<FenceOp>, t: Target)
    requires |f| <= MAX_FENCED_TARGETS && BelowExhaustion(f, ops)
    ensures GenerationOf(f, t) <= GenerationOf(ApplyAll(f, ops), t)
    decreases |ops|
  {
    if ops != [] {
      ApplyStep(f, ops[0], t);
      GenerationsNeverDecrease(ApplyOp(f, ops[0]), ops[1..], t);
    }
  }

  lemma StaleGenerationStaysRefused(f: Fence, ops: seq<FenceOp>, t: Target, presented: Generation, d: DrainId)
    requires |f| <= MAX_FENCED_TARGETS && BelowExhaustion(f, [CloseOp(t, d)] + ops)
    requires CheckAdmission(f, t, presented) == Admissible
    requires Close(f, t, d).generation.Some?
    ensures CheckAdmission(ApplyAll(f, [CloseOp(t, d)] + ops), t, presented) != Admissible
  {
    var all := [CloseOp(t, d)] + ops;
    assert all[1..] == ops;
    ApplyStep(f, all[0], t);
    GenerationsNeverDecrease(ApplyOp(f, all[0]), ops, t);
  }

  /** At exhaustion closing forgets the target: its generation falls back to
      zero, so the monotonicity above needs the bound. */
  lemma ExhaustedCloseForgets(f: Fence, t: Target, d: DrainId)
    requires d != 0 && |f| <= MAX_FENCED_TARGETS
    ensures GenerationOf(Close(f, t, d).fence, t) < GenerationOf(f, t) <==> GenerationOf(f, t) >= U64_MAX
  {
    if t in f {
      assert f.Keys + {t} == f.Keys;
    }
  }

  /** The fence object. */
  class AdmissionFence {
    var entries: Fence

    constructor ()
      ensures entries == map[]
    {
      entries := map[];
    }

    method CloseTarget(target: Target, drain: DrainId) returns (generation: Option<Generation>)
      modifies this
      ensures entries == Close(old(entries), target, drain).fence
      ensures generation == Close(old(entries), target, drain).generation
      ensures forall t :: t != target ==> (t in entries <==> t in old(entries))
      ensures forall t :: t != target && t in entries ==> entries[t] == old(entries)[t]
    {
      if drain == 0 {
        return None;
      }
      var entry := if target in entries then entries[target] else FenceEntry(false, 0, 0);
      var was := entries;
      entries := entries[target := entry];
      assert entries.Keys == was.Keys + {target};
      if entry.generation >= U64_MAX || |entries| > MAX_FENCED_TARGETS {
        entries := entries - {target};
        assert entries == was - {target};
        return None;
      }
      entries := entries[target := FenceEntry(true, entry.generation + 1, drain)];
      return Some(entry.generation + 1);
    }

    method ReopenTarget(target: Target, drain: DrainId) returns (generation: Option<Generation>)
      modifies this
      ensures entries == Reopen(old(entries), target, drain).fence
      ensures generation == Reopen(old(entries), target, drain).generation
    {
      if target !in entries || !entries[target].closed || drain == 0 || entries[target].generation >= U64_MAX {
        return None;
      }
      var next := entries[target].generation + 1;
      entries := entries[target := FenceEntry(false, next, drain)];
      return Some(next);
    }
  }
}
