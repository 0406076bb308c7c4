/**
 Sequences of context operations, as cloud code issues them during one
 invocation, and what any such sequence does to the context.

 `Run` executes a trace from left to right. The reference projections
 (`Collect` for the append-only lists, `Latest` for the last-write-wins
 fields) describe the outcome without executing anything; the theorems
 below say that the two agree, and that `Type`, `IsFunction` and the
 dispatcher are never written.
 */
module Trace {
  import opened Optional
  import C = CloudHelper

  /** One call cloud code makes on its context. The log operations carry the
      clock reading taken when they run. `Call` is not among them: the
      function it dispatches to may do anything to the context. */
  datatype Op =
    | Render(value: C.Value)
    | Set(field: string, value: C.Value)
    | Cancel(message: string)
    | CancelWithCode(message: string, code: int)
    | Hide(field: string)
    | Protect(field: string)
    | Log(message: string, at: string)
    | LogWithFlag(message: string, flag: string, at: string)

  /** Applies one operation. */
  function Step<H>(h: C.Helper<H>, op: Op): (r: C.Helper<H>)
    ensures r.kind == h.kind && r.isFunction == h.isFunction && r.funcHandler == h.funcHandler
    ensures h.hideFields <= r.hideFields
    ensures h.protectFields <= r.protectFields
    ensures h.logs <= r.logs
  {
    match op
    case Render(v) => C.Render(h, v)
    case Set(f, v) => C.Set(h, f, v)
    case Cancel(m) => C.Cancel(h, m)
    case CancelWithCode(m, c) => C.CancelWithCode(h, m, c)
    case Hide(f) => C.Hide(h, f)
    case Protect(f) => C.Protect(h, f)
    case Log(m, t) => C.Log(h, m, t)
    case LogWithFlag(m, fl, t) => C.LogWithFlag(h, m, fl, t)
  }

  /** Applies a whole trace, first operation first. Along the way the kind,
      the function flag and the dispatcher stay put, and each list keeps its
      starting value as a prefix. */
  function Run<H>(h: C.Helper<H>, ops: seq<Op>): (r: C.Helper<H>)
    ensures r.kind == h.kind && r.isFunction == h.isFunction && r.funcHandler == h.funcHandler
    ensures h.hideFields <= r.hideFields
    ensures h.protectFields <= r.protectFields
    ensures h.logs <= r.logs
    decreases |ops|
  {
    if ops == [] then h
    else
      Run(Step(h, ops[0]), ops[1..])
  }

  // ---------------------------------------------------------------------
  // Reference projections of a trace

  /** The field an operation hides, if it is a `Hide`. */
  function HideOf(op: Op): seq<string> {
    if op.Hide? then [op.field] else []
  }

  /** The field an operation protects, if it is a `Protect`. */
  function ProtectOf(op: Op): seq<string> {
    if op.Protect? then [op.field] else []
  }

  /** The entry an operation logs, if it is a `Log` or `LogWithFlag`. */
  function LogOf(op: Op): seq<C.CloudLog> {
    match op
    case Log(m, t) => [C.CloudLog(m, C.InfoFlag, t)]
    case LogWithFlag(m, fl, t) => [C.CloudLog(m, fl, t)]
    case _ => []
  }

  /** The value an operation renders, if it is a `Render`. */
  function RenderOf(op: Op): Option<C.Value> {
    if op.Render? then Some(op.value) else None
  }

  /** The error an operation records, if it is a cancellation. */
  function CancelOf(op: Op): Option<C.CloudError> {
    match op
    case Cancel(m) => Some(C.CloudError(C.DefaultCancelCode, m))
    case CancelWithCode(m, c) => Some(C.CloudError(c, m))
    case _ => None
  }

  /** The value an operation sets for `field`, if it is a `Set` of that field. */
  function SetOf(field: string): Op -> Option<C.Value> {
    (op: Op) => if op.Set? && op.field == field then Some(op.value) else None
  }

  /** Everything `pick` selects from the trace, in trace order. */
  function Collect<T>(ops: seq<Op>, pick: Op -> seq<T>): seq<T> {
    if ops == [] then [] else pick(ops[0]) + Collect(ops[1..], pick)
  }

  /** What `pick` selects from the last operation of the trace that it
      selects anything from; `None` if there is no such operation. */
  function Latest<T>(ops: seq<Op>, pick: Op -> Option<T>): Option<T> {
    if ops == [] then None
    else
      var last := pick(ops[|ops| - 1]);
      if last.Some? then last else Latest(ops[..|ops| - 1], pick)
  }

  /** The map lookup as an option. */
  function Lookup<K, V>(m: map<K, V>, k: K): Option<V> {
    if k in m then Some(m[k]) else None
  }

  // ---------------------------------------------------------------------
  // Theorems

  /** Splitting a trace after its first operation, seen from the end: the
      latest selection of `[op] + rest` is the latest of `rest`, or else
      what `op` itself selects. */
  lemma {:induction false} LatestCons<T>(op: Op, rest: seq<Op>, pick: Op -> Option<T>)
    ensures Latest([op] + rest, pick) == Latest(rest, pick).OrElse(pick(op))
    decreases |rest|
  {
    var ops := [op] + rest;
    if rest == [] {
      assert ops == [op];
    } else {
      assert ops[|ops| - 1] == rest[|rest| - 1];
      assert ops[..|ops| - 1] == [op] + rest[..|rest| - 1];
      LatestCons(op, rest[..|rest| - 1], pick);
    }
  }

  /** Running two traces one after the other is running their concatenation. */
  lemma {:induction false} RunAppend<H>(h: C.Helper<H>, a: seq<Op>, b: seq<Op>)
    ensures Run(h, a + b) == Run(Run(h, a), b)
    decreases |a|
  {
    if a == [] {
      assert a + b == b;
    } else {
      assert (a + b)[0] == a[0];
      assert (a + b)[1..] == a[1..] + b;
      RunAppend(Step(h, a[0]), a[1..], b);
    }
  }

  /** The hidden fields end as their starting value followed by every field
      the trace hides, in trace order: nothing is dropped, reordered or merged. */
  lemma {:induction false} RunHidden<H>(h: C.Helper<H>, ops: seq<Op>)
    ensures Run(h, ops).hideFields == h.hideFields + Collect(ops, HideOf)
    decreases |ops|
  {
    if ops != [] {
      var s := Step(h, ops[0]);
      RunHidden(s, ops[1..]);
      assert s.hideFields == h.hideFields + HideOf(ops[0]);
      assert Collect(ops, HideOf) == HideOf(ops[0]) + Collect(ops[1..], HideOf);
    }
  }

  /** The same for the protected fields. */
  lemma {:induction false} RunProtected<H>(h: C.Helper<H>, ops: seq<Op>)
    ensures Run(h, ops).protectFields == h.protectFields + Collect(ops, ProtectOf)
    decreases |ops|
  {
    if ops != [] {
      var s := Step(h, ops[0]);
      RunProtected(s, ops[1..]);
      assert s.protectFields == h.protectFields + ProtectOf(ops[0]);
      assert Collect(ops, ProtectOf) == ProtectOf(ops[0]) + Collect(ops[1..], ProtectOf);
    }
  }

  /** The log ends as its starting entries followed by one entry per `Log`
      or `LogWithFlag` of the trace, in trace order. */
  lemma {:induction false} RunLogs<H>(h: C.Helper<H>, ops: seq<Op>)
    ensures Run(h, ops).logs == h.logs + Collect(ops, LogOf)
    decreases |ops|
  {
    if ops != [] {
      var s := Step(h, ops[0]);
      RunLogs(s, ops[1..]);
      assert s.logs == h.logs + LogOf(ops[0]);
      assert Collect(ops, LogOf) == LogOf(ops[0]) + Collect(ops[1..], LogOf);
    }
  }

  /** Outside a hook the result is the value of the last `Render`, or the
      starting result if nothing was rendered; in a hook it never changes. */
  lemma {:induction false} RunResult<H>(h: C.Helper<H>, ops: seq<Op>)
    ensures h.kind == C.HookType ==> Run(h, ops).result == h.result
    ensures h.kind != C.HookType ==> Run(h, ops).result == Latest(ops, RenderOf).GetOr(h.result)
    decreases |ops|
  {
    if ops != [] {
      var s := Step(h, ops[0]);
      RunResult(s, ops[1..]);
      assert [ops[0]] + ops[1..] == ops;
      LatestCons(ops[0], ops[1..], RenderOf);
    }
  }

  /** The error is the one recorded by the last cancellation, or the
      starting one if there was none: later cancellations overwrite. */
  lemma {:induction false} RunErrors<H>(h: C.Helper<H>, ops: seq<Op>)
    ensures Run(h, ops).errors == Latest(ops, CancelOf).GetOr(h.errors)
    decreases |ops|
  {
    if ops != [] {
      var s := Step(h, ops[0]);
      RunErrors(s, ops[1..]);
      assert [ops[0]] + ops[1..] == ops;
      LatestCons(ops[0], ops[1..], CancelOf);
    }
  }

  /** Each data key holds the value of the last `Set` of that key, or its
      starting value (or stays absent) if the trace never sets it. */
  lemma {:induction false} RunData<H>(h: C.Helper<H>, ops: seq<Op>)
    ensures forall k :: Lookup(Run(h, ops).data, k) == Latest(ops, SetOf(k)).OrElse(Lookup(h.data, k))
    decreases |ops|
  {
    if ops != [] {
      var s := Step(h, ops[0]);
      RunData(s, ops[1..]);
      assert [ops[0]] + ops[1..] == ops;
      forall k
        ensures Lookup(Run(h, ops).data, k) == Latest(ops, SetOf(k)).OrElse(Lookup(h.data, k))
      {
        LatestCons(ops[0], ops[1..], SetOf(k));
      }
    }
  }

  /** Every intermediate state of a run extends every earlier one: the
      hidden fields, protected fields and logs only ever grow at the end. */
  lemma {:induction false} RunGrowsMonotonically<H>(h: C.Helper<H>, ops: seq<Op>, i: nat, j: nat)
    requires i <= j <= |ops|
    ensures Run(h, ops[..i]).hideFields <= Run(h, ops[..j]).hideFields
    ensures Run(h, ops[..i]).protectFields <= Run(h, ops[..j]).protectFields
    ensures Run(h, ops[..i]).logs <= Run(h, ops[..j]).logs
  {
    assert ops[..j] == ops[..i] + ops[i..j];
    RunAppend(h, ops[..i], ops[i..j]);
  }

  /** Each field is hidden exactly as many times as the trace hides it:
      duplicates are kept and nothing is lost. */
  lemma {:induction false} HiddenCountsHides(ops: seq<Op>, field: string)
    ensures multiset(Collect(ops, HideOf))[field] == multiset(ops)[Hide(field)]
    decreases |ops|
  {
    if ops != [] {
      HiddenCountsHides(ops[1..], field);
      assert ops == [ops[0]] + ops[1..];
      assert multiset(ops) == multiset([ops[0]]) + multiset(ops[1..]);
    }
  }

  /** The same for protected fields. */
  lemma {:induction false} ProtectedCountsProtects(ops: seq<Op>, field: string)
    ensures multiset(Collect(ops, ProtectOf))[field] == multiset(ops)[Protect(field)]
    decreases |ops|
  {
    if ops != [] {
      ProtectedCountsProtects(ops[1..], field);
      assert ops == [ops[0]] + ops[1..];
      assert multiset(ops) == multiset([ops[0]]) + multiset(ops[1..]);
    }
  }

  /** From a fresh context, the three lists hold exactly what the trace
      added, in call order; the result, the error and each data key hold the
      last value written to them, or stay nil, zero or absent. A fresh
      context is not a hook, so every `Render` takes effect. */
  lemma {:induction false} RunFromFresh<H>(handler: H, ops: seq<Op>)
    ensures Run(C.NewHelper(handler), ops).hideFields == Collect(ops, HideOf)
    ensures Run(C.NewHelper(handler), ops).protectFields == Collect(ops, ProtectOf)
    ensures Run(C.NewHelper(handler), ops).logs == Collect(ops, LogOf)
    ensures Run(C.NewHelper(handler), ops).result == Latest(ops, RenderOf).GetOr(C.Null)
    ensures Run(C.NewHelper(handler), ops).errors == Latest(ops, CancelOf).GetOr(C.NoError)
    ensures forall k :: Lookup(Run(C.NewHelper(handler), ops).data, k) == Latest(ops, SetOf(k))
  {
    var h := C.NewHelper(handler);
    RunHidden(h, ops);
    RunProtected(h, ops);
    RunLogs(h, ops);
    RunResult(h, ops);
    RunErrors(h, ops);
    RunData(h, ops);
    assert [] + Collect(ops, HideOf) == Collect(ops, HideOf);
    assert [] + Collect(ops, ProtectOf) == Collect(ops, ProtectOf);
    assert [] + Collect(ops, LogOf) == Collect(ops, LogOf);
    forall k
      ensures Lookup(Run(h, ops).data, k) == Latest(ops, SetOf(k))
    {
      assert Lookup(h.data, k) == None;
    }
  }
}
