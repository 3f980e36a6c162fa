/**
  The trace carrier of context.go. A Go `context.Context` is modelled as the
  immutable chain of `WithValue` layers it is built from; `Value(key)` asks
  the innermost layer first. `withTraceContext` adds a layer holding a
  `*Trace` under the package's private key, and `traceFromContext` reads it
  back with a type check.
 */
module TraceContext {
  import opened Wrappers

  /** The immutable trace triple stored in a context. */
  datatype Trace = Trace(traceID: string, spanID: string, sampled: bool)

  /**
    A context key together with its Go type. Keys of the package's unexported
    `contextKey` type are `PackageKey`s; a key of any other type never equals
    one of them, even when it has the same text.
   */
  datatype Key = PackageKey(name: string) | ForeignKey(typeName: string, name: string)

  /** `traceKey`, the private key under which the trace is stored. */
  const TraceKey := PackageKey("trace")

  /** A stored value: Go's `nil`, a `*Trace`, or a value of some other type. */
  datatype Value = NilValue | TracePtr(trace: Trace) | OtherValue(typeName: string)

  /** A context: the empty root, or a parent with one more key/value layer. */
  datatype Context = Background | WithValue(parent: Context, key: Key, val: Value)

  /** The key/value layers of a context, outermost first. */
  function Entries(ctx: Context): seq<(Key, Value)>
  {
    match ctx
    case Background => []
    case WithValue(parent, k, v) => Entries(parent) + [(k, v)]
  }

  /** `ctx.Value(key)`: the value of the innermost layer with this key, `nil` when there is none. */
  function Lookup(ctx: Context, key: Key): Value
  {
    match ctx
    case Background => NilValue
    case WithValue(parent, k, v) => if k == key then v else Lookup(parent, key)
  }

  /** With no layer under `key`, the lookup yields `nil`. */
  lemma {:induction false} LookupAbsent(ctx: Context, key: Key)
    requires forall i :: 0 <= i < |Entries(ctx)| ==> Entries(ctx)[i].0 != key
    ensures Lookup(ctx, key) == NilValue
  {
    if ctx.WithValue? {
      var e := Entries(ctx.parent);
      assert Entries(ctx)[|e|] == (ctx.key, ctx.val);
      forall i | 0 <= i < |e| ensures e[i].0 != key {
        assert Entries(ctx)[i] == e[i];
      }
      LookupAbsent(ctx.parent, key);
    }
  }

  /** The lookup yields the value of the last (innermost) layer with `key`. */
  lemma {:induction false} LookupInnermost(ctx: Context, key: Key, i: nat)
    requires i < |Entries(ctx)| && Entries(ctx)[i].0 == key
    requires forall j :: i < j < |Entries(ctx)| ==> Entries(ctx)[j].0 != key
    ensures Lookup(ctx, key) == Entries(ctx)[i].1
  {
    var e := Entries(ctx.parent);
    if i < |e| {
      assert Entries(ctx)[|e|] == (ctx.key, ctx.val);
      assert ctx.key != key;
      forall j | i < j < |e| ensures e[j].0 != key {
        assert Entries(ctx)[j] == e[j];
      }
      LookupInnermost(ctx.parent, key, i);
    }
  }

  /**
    `traceFromContext`: the trace stored under `TraceKey`, or `None` (Go's
    `nil`) when nothing is stored there or the stored value is not a `*Trace`.
   */
  function TraceFromContext(ctx: Context): (t: Option<Trace>)
    ensures t.Some? <==> Lookup(ctx, TraceKey).TracePtr?
    ensures t.Some? ==> Lookup(ctx, TraceKey) == TracePtr(t.value)
  {
    match Lookup(ctx, TraceKey)
    case NilValue => None
    case TracePtr(trace) => Some(trace)
    case OtherValue(_) => None
  }

  /**
    `withTraceContext`: an empty trace id gives back the context itself;
    otherwise a new layer over `ctx` holds exactly the given trace, which is
    what is read back, while every other key reads as in `ctx`.
   */
  function WithTraceContext(ctx: Context, traceID: string, spanID: string, sampled: bool): (r: Context)
    ensures traceID == "" ==> r == ctx
    ensures traceID != "" ==> r.WithValue? && r.parent == ctx
    ensures traceID != "" ==> Entries(r) == Entries(ctx) + [(TraceKey, TracePtr(Trace(traceID, spanID, sampled)))]
    ensures traceID != "" ==> TraceFromContext(r) == Some(Trace(traceID, spanID, sampled))
    ensures forall k :: k != TraceKey ==> Lookup(r, k) == Lookup(ctx, k)
  {
    if traceID == "" then ctx
    else WithValue(ctx, TraceKey, TracePtr(Trace(traceID, spanID, sampled)))
  }

  /** A context with no layer under `TraceKey` holds no trace. */
  lemma NoTraceLayer(ctx: Context)
    requires forall i :: 0 <= i < |Entries(ctx)| ==> Entries(ctx)[i].0 != TraceKey
    ensures TraceFromContext(ctx) == None
  {
    LookupAbsent(ctx, TraceKey);
  }

  /** A value of another type under `TraceKey` reads as no trace rather than failing. */
  lemma ForeignValueIsNoTrace(ctx: Context, v: Value)
    requires !v.TracePtr?
    ensures TraceFromContext(WithValue(ctx, TraceKey, v)) == None
  {
  }

  /** A key of another Go type, whatever its text, does not hide or replace the trace. */
  lemma ForeignKeyIsTransparent(ctx: Context, typeName: string, name: string, v: Value)
    ensures TraceFromContext(WithValue(ctx, ForeignKey(typeName, name), v)) == TraceFromContext(ctx)
  {
  }

  /** The most recently attached trace is the one read back. */
  lemma LatestTraceWins(ctx: Context, t1: Trace, t2: Trace)
    requires t2.traceID != ""
    ensures TraceFromContext(WithTraceContext(WithTraceContext(ctx, t1.traceID, t1.spanID, t1.sampled),
                                              t2.traceID, t2.spanID, t2.sampled)) == Some(t2)
  {
  }

  /** Every `*Trace` stored under `TraceKey` has a non-empty trace id. */
  predicate StoredTracesNonEmpty(ctx: Context)
  {
    match ctx
    case Background => true
    case WithValue(parent, k, v) =>
      (k == TraceKey && v.TracePtr? ==> v.trace.traceID != "") && StoredTracesNonEmpty(parent)
  }

  /** `withTraceContext` never stores an empty trace id, so it keeps the invariant. */
  lemma AttachKeepsInvariant(ctx: Context, traceID: string, spanID: string, sampled: bool)
    requires StoredTracesNonEmpty(ctx)
    ensures StoredTracesNonEmpty(WithTraceContext(ctx, traceID, spanID, sampled))
  {
  }

  /** Under the invariant, a trace read from a context has a non-empty id. */
  lemma {:induction false} ReadTraceNonEmpty(ctx: Context)
    requires StoredTracesNonEmpty(ctx)
    requires TraceFromContext(ctx).Some?
    ensures TraceFromContext(ctx).value.traceID != ""
  {
    if ctx.key != TraceKey {
      ReadTraceNonEmpty(ctx.parent);
    }
  }
}
