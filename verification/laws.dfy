/**
 Algebraic laws of the context operations taken two at a time: which
 writes overwrite, which accumulate, and which are independent.
 */
module HelperLaws {
  import opened CloudHelper

  /** A second `Render` replaces the first; in a hook neither takes effect. */
  lemma RenderLastWins<H>(h: Helper<H>, v: Value, w: Value)
    ensures Render(Render(h, v), w) == Render(h, w)
    ensures h.kind == HookType ==> Render(Render(h, v), w).result == h.result
  {
  }

  /** Setting the same field twice keeps only the second value. */
  lemma SetLastWins<H>(h: Helper<H>, field: string, a: Value, b: Value)
    ensures Set(Set(h, field, a), field, b) == Set(h, field, b)
    ensures Set(Set(h, field, a), field, b).data[field] == b
  {
  }

  /** Setting two different fields gives the same data in either order. */
  lemma SetDistinctFieldsCommute<H>(h: Helper<H>, f: string, g: string, a: Value, b: Value)
    requires f != g
    ensures Set(Set(h, f, a), g, b) == Set(Set(h, g, b), f, a)
  {
  }

  /** A later cancellation overwrites an earlier one instead of adding to it. */
  lemma CancelLastWins<H>(h: Helper<H>, m1: string, c1: int, m2: string, c2: int)
    ensures CancelWithCode(CancelWithCode(h, m1, c1), m2, c2) == CancelWithCode(h, m2, c2)
    ensures Cancel(CancelWithCode(h, m1, c1), m2).errors == CloudError(-1, m2)
  {
  }

  /** The error record is a plain value whose zero is (0, ""): cancelling a
      fresh context with an empty message and code 0 leaves it exactly as
      fresh, so such a cancellation cannot be told apart from none. */
  lemma ZeroCancelIsInvisible<H>(handler: H)
    ensures CancelWithCode(NewHelper(handler), "", 0) == NewHelper(handler)
  {
  }

  /** Hiding a field that is already hidden records it again. */
  lemma HideKeepsDuplicates<H>(h: Helper<H>, field: string)
    ensures multiset(Hide(h, field).hideFields)[field] == multiset(h.hideFields)[field] + 1
    ensures Hide(Hide(h, field), field).hideFields == h.hideFields + [field, field]
  {
  }

  /** Protecting a field that is already protected records it again. */
  lemma ProtectKeepsDuplicates<H>(h: Helper<H>, field: string)
    ensures multiset(Protect(h, field).protectFields)[field] == multiset(h.protectFields)[field] + 1
    ensures Protect(Protect(h, field), field).protectFields == h.protectFields + [field, field]
  {
  }

  /** The hidden and the protected list are independent of each other. */
  lemma HideProtectCommute<H>(h: Helper<H>, a: string, b: string)
    ensures Hide(Protect(h, a), b) == Protect(Hide(h, b), a)
  {
  }
}
