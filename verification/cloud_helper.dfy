/**
 The per-invocation context that cloud code (user-defined functions and
 table hooks) uses to talk back to the platform: render a result, set data
 fields, cancel with an error, hide or protect record fields, and log.

 The context is an immutable record here; every method of the Go `Helper`
 becomes a pure function from the old context to the new one. Each
 function's contract says which field it writes, how, and that every other
 field is left as it was (`r.(f := h.f) == h` reads "r and h differ at most
 in f").
 */
module CloudHelper {
  import opened Optional

  /** A value cloud code may hand to the platform: any JSON-compatible tree.
      `Null` stands for Go's `nil`. */
  datatype Value =
    | Null
    | Bool(b: bool)
    | Number(n: int)
    | Str(s: string)
    | Array(items: seq<Value>)
    | Object(members: map<string, Value>)

  /** One log line: its text, its severity flag and the time it was written. */
  datatype CloudLog = CloudLog(content: string, flag: string, createdAt: string)

  /** The error a cancelled invocation reports to the API caller. */
  datatype CloudError = CloudError(code: int, message: string)

  /** The invocation type under which `Render` is ignored. */
  const HookType: string := "hook"

  /** The flag `Log` gives its entries. */
  const InfoFlag: string := "info"

  /** The code `Cancel` reports. */
  const DefaultCancelCode: int := -1

  /** The zero value of the error record, held until the first cancellation. */
  const NoError: CloudError := CloudError(0, "")

  /** The context of one invocation. `kind` is the Go field `Type`;
      `funcHandler` is the dispatcher `Call` delegates to, kept opaque. */
  datatype Helper<H> = Helper(
    kind: string,
    isFunction: bool,
    hideFields: seq<string>,
    protectFields: seq<string>,
    result: Value,
    data: map<string, Value>,
    logs: seq<CloudLog>,
    errors: CloudError,
    funcHandler: H)

  /** A fresh context: every collection present and empty, no type, not a
      function call, no result, no error; only the dispatcher is recorded. */
  function NewHelper<H>(handler: H): (r: Helper<H>)
    ensures r.kind == "" && !r.isFunction
    ensures r.hideFields == [] && r.protectFields == [] && r.logs == []
    ensures r.data == map[]
    ensures r.result == Null
    ensures r.errors.code == 0 && r.errors.message == ""
    ensures r.funcHandler == handler
  {
    Helper("", false, [], [], Null, map[], [], NoError, handler)
  }

  /** What a dispatched call hands back: the context as the called function
      left it, its own result map, and its error if any. */
  datatype CallOutcome<H, E> = CallOutcome(helper: Helper<H>, result: map<string, Value>, err: Option<E>)

  /** Calls another cloud function by name. The behaviour of the stored
      dispatcher is given by `dispatch`; the call passes the context, request,
      app handle, name and arguments through and returns whatever comes back. */
  function Call<H, Req, App, E>(
    h: Helper<H>,
    dispatch: (H, Helper<H>, Req, App, string, map<string, Value>) -> CallOutcome<H, E>,
    req: Req, app: App, name: string, args: map<string, Value>): (r: CallOutcome<H, E>)
    ensures r.err == dispatch(h.funcHandler, h, req, app, name, args).err
    ensures r.result == dispatch(h.funcHandler, h, req, app, name, args).result
    ensures r.helper == dispatch(h.funcHandler, h, req, app, name, args).helper
  {
    dispatch(h.funcHandler, h, req, app, name, args)
  }

  /** Sets the invocation's result, except in a hook, where it does nothing. */
  function Render<H>(h: Helper<H>, v: Value): (r: Helper<H>)
    ensures h.kind == HookType ==> r == h
    ensures h.kind != HookType ==> r.result == v
    ensures r.(result := h.result) == h
  {
    if h.kind == HookType then h else h.(result := v)
  }

  /** Maps `field` to `v` in the data, replacing any earlier value. */
  function Set<H>(h: Helper<H>, field: string, v: Value): (r: Helper<H>)
    ensures r.data.Keys == h.data.Keys + {field}
    ensures field in r.data && r.data[field] == v
    ensures forall k :: k in h.data && k != field ==> r.data[k] == h.data[k]
    ensures r.(data := h.data) == h
  {
    h.(data := h.data[field := v])
  }

  /** Records the error (`code`, `message`), replacing any earlier one. */
  function CancelWithCode<H>(h: Helper<H>, message: string, code: int): (r: Helper<H>)
    ensures r.errors.code == code && r.errors.message == message
    ensures r.(errors := h.errors) == h
  {
    h.(errors := CloudError(code, message))
  }

  /** Records the error `message` under the default code -1. */
  function Cancel<H>(h: Helper<H>, message: string): (r: Helper<H>)
    ensures r == CancelWithCode(h, message, DefaultCancelCode)
    ensures r.errors.code == -1 && r.errors.message == message
  {
    h.(errors := CloudError(DefaultCancelCode, message))
  }

  /** Appends `field` to the hidden fields; repeats are kept. */
  function Hide<H>(h: Helper<H>, field: string): (r: Helper<H>)
    ensures |r.hideFields| == |h.hideFields| + 1
    ensures h.hideFields <= r.hideFields
    ensures r.hideFields[|h.hideFields|] == field
    ensures r.(hideFields := h.hideFields) == h
  {
    h.(hideFields := h.hideFields + [field])
  }

  /** Appends `field` to the protected fields; repeats are kept. */
  function Protect<H>(h: Helper<H>, field: string): (r: Helper<H>)
    ensures |r.protectFields| == |h.protectFields| + 1
    ensures h.protectFields <= r.protectFields
    ensures r.protectFields[|h.protectFields|] == field
    ensures r.(protectFields := h.protectFields) == h
  {
    h.(protectFields := h.protectFields + [field])
  }

  /** Appends a log entry with the given flag. `at` is the clock reading
      taken when the entry is written. */
  function LogWithFlag<H>(h: Helper<H>, message: string, flag: string, at: string): (r: Helper<H>)
    ensures |r.logs| == |h.logs| + 1
    ensures h.logs <= r.logs
    ensures r.logs[|h.logs|].content == message
    ensures r.logs[|h.logs|].flag == flag
    ensures r.logs[|h.logs|].createdAt == at
    ensures r.(logs := h.logs) == h
  {
    h.(logs := h.logs + [CloudLog(message, flag, at)])
  }

  /** Appends a log entry flagged "info". */
  function Log<H>(h: Helper<H>, message: string, at: string): (r: Helper<H>)
    ensures r == LogWithFlag(h, message, InfoFlag, at)
    ensures |r.logs| == |h.logs| + 1 && h.logs <= r.logs
    ensures r.logs[|h.logs|] == CloudLog(message, "info", at)
    ensures r.(logs := h.logs) == h
  {
    LogWithFlag(h, message, InfoFlag, at)
  }
}
