# cloud-helper context, modelled in Dafny

The Go package `helper` gives cloud code a per-invocation context, the
`Helper`. Cloud code means user-defined functions and table hooks running
on a hosted backend. The context lets the code hand a result back to the
platform (`Render`) and accumulate data fields (`Set`). It can cancel the
invocation with an error (`Cancel`, `CancelWithCode`) and mark record
fields as hidden or protected (`Hide`, `Protect`). It can also write log
lines (`Log`, `LogWithFlag`) and call another cloud function through a
pluggable dispatcher (`Call`).

This project models that context as an immutable record with one pure
function per Go method. It proves the frame conditions of each operation:
which field it writes, how it writes it, and that every other field is
left alone. It then proves what an arbitrary sequence of method calls does:

- No method writes `Type`, `IsFunction` or the dispatcher.
- Through the methods, the hidden fields, protected fields and log only
  grow at the end. They keep every entry in call order, duplicates
  included.
- The result, the error record and each data key hold the last value a
  method wrote to them. In a hook, `Render` never changes the result.

These are properties of the methods, not guarantees Go enforces: the
struct's fields are exported and can be assigned directly (see "Left out").

Files:

- `optional.dfy` (module `Optional`): the `Option` type.
- `cloud_helper.dfy` (module `CloudHelper`): the value, log, error and
  context records, and the operations of `helper.go`.
- `trace.dfy` (module `Trace`): an operation datatype `Op`, `Step`/`Run`
  over traces, and reference projections of a trace. `Collect` gathers
  what the appending operations add; `Latest` finds what the last
  overwriting operation wrote. The trace theorems relate these to `Run`.
- `laws.dfy` (module `HelperLaws`): laws about pairs of operations.
- `scenarios.dfy` (module `Scenarios`): short concrete traces.

Modelling choices:

- Go's `interface{}` values become the JSON-like datatype `Value`, and Go's
  `nil` becomes `Null`. `Render(Null)` outside a hook sets the result to
  `Null`, as the Go assignment does.
- The Go field `Type` is named `kind` (`type` is a Dafny keyword). The
  platform assigns it and `IsFunction` directly on the struct; no method of
  `helper.go` writes them. So every theorem holds for any starting context,
  not only for the one `NewHelper` returns.
- `Errors` is a plain `types.CloudError` struct value, not a pointer. It
  starts at its zero value, code 0 with an empty message, and the model
  keeps it that way (`NoError`). There is no separate "unset" state. So
  `CancelWithCode("", 0)` on a fresh context cannot be told apart from no
  cancellation at all (`HelperLaws.ZeroCancelIsInvisible`).
- `NewHelper` accepts any dispatcher, including a nil one; the Go code does
  not check it. What `Call` then does is listed under "Left out".
- `LogWithFlag` and `Log` take the clock reading as a parameter `at`.
  Go's `time.Now().Format(time.RFC3339Nano)` is wall-clock input.
- `Call` is opaque delegation. The stored dispatcher is a value of a type
  parameter `H`, and its behaviour is a function parameter `dispatch`.
  That function receives the context and returns the context as the
  called function left it, plus that function's result map and error.
  `Call` is not an operation of a trace, because the dispatched function
  may change any field.

## Model

| member | source | states |
|---|---|---|
| CloudHelper.NewHelper | helper.go:16-24 | A fresh context has empty hidden, protected and log lists and empty data. It has an empty type, is not a function call, has a nil result and the zero error (0, ""), and records the given dispatcher. |
| CloudHelper.Call | helper.go:40-43 | For every dispatcher, the delegated call returns the dispatcher's result map, error and post-call context unchanged. It adds no wrapping and writes no field itself, so the error record after the call is whatever the dispatched function left. |
| CloudHelper.Render | helper.go:47-53 | In a hook the context is returned exactly as it was, whatever the value. Otherwise the result becomes the value. Either way no field other than the result differs. |
| CloudHelper.Set | helper.go:56-58 | The data gains the key, or keeps it, and the key maps to the new value. Every other key keeps its value, and no other field changes. |
| CloudHelper.CancelWithCode | helper.go:70-72 | The error record becomes exactly (code, message), whatever it was before. No other field changes. |
| CloudHelper.Cancel | helper.go:63-65 | Cancelling is the same as `CancelWithCode` with code -1. The error becomes (-1, message). |
| CloudHelper.Hide | helper.go:75-77 | The hidden list grows by exactly one. The old list is kept as its prefix and the new last entry is the field. No other field changes. |
| CloudHelper.Protect | helper.go:80-82 | The protected list grows by exactly one. The old list is kept as its prefix and the new last entry is the field. No other field changes. |
| CloudHelper.LogWithFlag | helper.go:89-95 | The log grows by one entry. Earlier entries are kept as a prefix. The new entry has the message as content, the given flag and the given timestamp. No other field changes. |
| CloudHelper.Log | helper.go:85-87 | Logging is exactly `LogWithFlag` with flag "info": the log grows by one entry (message, "info", timestamp), earlier entries are kept as a prefix, and no other field changes. |
| Trace.Step | helper.go:47-95 | No single operation writes the type, the function flag or the dispatcher. Each of the three lists keeps its old value as a prefix. |
| Trace.Run | helper.go:47-95 | Over any sequence of operations the type, the function flag and the dispatcher stay as they were. The hidden, protected and log lists each keep their starting value as a prefix. |
| Trace.RunAppend | helper.go:47-95 | Running two traces one after the other equals running their concatenation, so operations have no hidden state beyond the context. |
| Trace.RunGrowsMonotonically | helper.go:75-95 | For any trace and any two points in it, each list at the earlier point is a prefix of the same list at the later point. |
| Trace.RunHidden | helper.go:75-77 | After any trace, the hidden list is its starting value followed by the field of every `Hide` in the trace, in call order. |
| Trace.RunProtected | helper.go:80-82 | After any trace, the protected list is its starting value followed by the field of every `Protect` in the trace, in call order. |
| Trace.RunLogs | helper.go:85-95 | After any trace, the log is its starting entries followed by one entry per `Log`/`LogWithFlag`, in call order. Each entry carries its flag ("info" for `Log`) and its timestamp. |
| Trace.HiddenCountsHides | helper.go:75-77 | Each field occurs in the hidden additions exactly as often as the trace hides it. Duplicates are kept and nothing is lost. |
| Trace.ProtectedCountsProtects | helper.go:80-82 | Each field occurs in the protected additions exactly as often as the trace protects it. |
| Trace.RunResult | helper.go:47-53 | In a hook, the result after any trace is the starting result. Otherwise it is the value of the last `Render`, or the starting result if there was none. |
| Trace.RunErrors | helper.go:63-72 | After any trace, the error is the one written by the last `Cancel`/`CancelWithCode` (code -1 for `Cancel`), or the starting error if there was none. |
| Trace.RunFromFresh | helper.go:16-95 | From a fresh context, after any trace the three lists hold exactly what the trace hid, protected and logged, in call order. Every `Render` takes effect, because a fresh context is not a hook. The result, the error and each data key hold the last value written, or stay nil, (0, "") or absent. |
| Trace.RunData | helper.go:56-58 | After any trace, every key holds the value of the last `Set` of that key. A key the trace never sets keeps its starting value, or stays absent. |
| HelperLaws.RenderLastWins | helper.go:47-53 | A second `Render` replaces the first. In a hook neither takes effect. |
| HelperLaws.SetLastWins | helper.go:56-58 | Setting a field to a and then to b gives the same context as setting it to b once, so the field holds b. |
| HelperLaws.SetDistinctFieldsCommute | helper.go:56-58 | Sets of two different fields give the same context in either order. |
| HelperLaws.CancelLastWins | helper.go:63-72 | A later cancellation overwrites an earlier one instead of accumulating. A `Cancel` after a `CancelWithCode` leaves (-1, message). |
| HelperLaws.ZeroCancelIsInvisible | helper.go:70-72 | `CancelWithCode("", 0)` on a fresh context yields the fresh context itself. |
| HelperLaws.HideKeepsDuplicates | helper.go:75-77 | Hiding an already hidden field adds one more occurrence. Hiding the same field twice appends it twice. |
| HelperLaws.ProtectKeepsDuplicates | helper.go:80-82 | Protecting an already protected field adds one more occurrence. Protecting the same field twice appends it twice. |
| HelperLaws.HideProtectCommute | helper.go:75-82 | `Hide` and `Protect` act on separate lists and commute. |
| Scenarios.CancelTwice | helper.go:63-72 | `CancelWithCode("boom", 42)` followed by `Cancel("oops")` leaves the error (-1, "oops"). |
| Scenarios.LogThenWarn | helper.go:85-95 | `Log("a")` followed by `LogWithFlag("b", "warn")` appends exactly the entries ("a", "info") and ("b", "warn"), in that order. |
| Scenarios.SetTwice | helper.go:56-58 | `Set("x", 1)` followed by `Set("x", 2)` leaves x holding 2. |
| Scenarios.RenderInHook | helper.go:47-51 | In a hook, a trace made of one `Render` leaves the context exactly as it was. |

## Left out

- Direct field writes. Every state field of the Go struct except the dispatcher is exported (helper.go:27-35), so cloud code or the platform can assign `Type`, `IsFunction`, `HideFields`, `ProtectFields`, `Result`, `Data`, `Logs` or `Errors` directly. It could, for example, clear `Type` so that a later `Render` takes effect in a hook, set `HideFields` to nil, or edit a log entry already written. Traces contain only method calls, so the read-only and append-only properties above describe the methods; Go does not enforce them.
- CloudHelper.Call: does not model the panic of a `Call` on a context whose dispatcher is nil. helper.go:41 calls a method on a nil interface, and the model applies `dispatch` to any stored dispatcher value. It also treats a nil result map as the empty map, since Dafny maps have no nil.
- The `FuncHandler` interface and the dispatcher's behaviour (helper.go:11-13). It calls foreign code with opaque SDK types (`types.CloudRequest`, `*skynology.App`), so it is a function parameter here.
- The real clock. `time.Now()` is I/O, so timestamps are opaque strings supplied by the caller. Nothing is claimed about their order; a wall clock can step backwards.
- JSON serialisation of `Value`, and non-integer JSON numbers. The context only stores values and never inspects them.
- The external records `types.CloudLog` and `types.CloudError` are mirrored with only the fields `helper.go` sets.
- A `Helper` built as a bare struct literal instead of by `NewHelper`. Its `Data` map would be nil and `Set` would panic in Go; the model always has a map.
- Slice aliasing. Go's `append` may share a backing array between copies of a `Helper` value; the model's lists are values.
- Concurrency. The context is used by one invocation at a time and has no locking.
