/**
 Short concrete traces, each stating the expected outcome of one typical
 sequence of calls from cloud code.
 */
module Scenarios {
  import C = CloudHelper
  import opened Trace

  /** A second cancellation replaces the first, code included. */
  lemma CancelTwice<H>(h: C.Helper<H>)
    ensures Run(h, [CancelWithCode("boom", 42), Cancel("oops")]).errors == C.CloudError(-1, "oops")
  {
  }

  /** `Log` then `LogWithFlag` add two entries, in call order, with the
      flags "info" and the given one. */
  lemma LogThenWarn<H>(h: C.Helper<H>, t1: string, t2: string)
    ensures Run(h, [Log("a", t1), LogWithFlag("b", "warn", t2)]).logs
         == h.logs + [C.CloudLog("a", "info", t1), C.CloudLog("b", "warn", t2)]
  {
    var ops := [Log("a", t1), LogWithFlag("b", "warn", t2)];
    assert ops[1..] == [LogWithFlag("b", "warn", t2)];
    var s := Step(h, ops[0]);
    assert s.logs == h.logs + [C.CloudLog("a", "info", t1)];
    assert Run(h, ops) == Run(s, ops[1..]);
    assert ops[1..][1..] == [];
    assert Run(s, ops[1..]) == Step(s, ops[1]);
  }

  /** Setting one field twice keeps the second value. */
  lemma SetTwice<H>(h: C.Helper<H>)
    ensures "x" in Run(h, [Set("x", C.Number(1)), Set("x", C.Number(2))]).data
    ensures Run(h, [Set("x", C.Number(1)), Set("x", C.Number(2))]).data["x"] == C.Number(2)
  {
  }

  /** In a hook, rendering changes nothing at all, whatever is rendered. */
  lemma RenderInHook<H>(h: C.Helper<H>, v: C.Value)
    requires h.kind == "hook"
    ensures Run(h, [Render(v)]) == h
  {
  }
}
