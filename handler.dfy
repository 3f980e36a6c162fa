/**
  The enriching log handler of handler.go. `CloudLoggingHandler` wraps a
  JSON handler (the inner sink) and, before delegating a record to it,
  appends Google Cloud Logging's correlation attributes taken from the trace
  stored in the context. The inner sink is abstract: it appends what it
  receives, with its own configuration, to an output stream and returns the
  stream's write error.
 */
module Handler {
  import opened Wrappers
  import opened TraceContext

  /** The kinds of `slog.Value` the model distinguishes. */
  datatype AttrValue = StringValue(s: string) | BoolValue(b: bool) | LevelValue(level: int)

  /** `slog.Attr`: a key and a value. */
  datatype Attr = Attr(key: string, value: AttrValue)

  /** `slog.LevelInfo`, the minimum level of the handler `NewCloudLoggingHandler` builds. */
  const LevelInfo := 0

  /** `slog.MessageKey` and `slog.LevelKey`, the keys of the built-in fields. */
  const MessageKey := "msg"
  const LevelKey := "level"

  /** The field names Google Cloud Logging expects for those built-in fields. */
  const CloudMessageKey := "message"
  const CloudLevelKey := "severity"

  /** The correlation keys Cloud Logging reads. */
  const TraceAttrKey := "logging.googleapis.com/trace"
  const SampledAttrKey := "logging.googleapis.com/trace_sampled"
  const SpanAttrKey := "logging.googleapis.com/spanId"

  /**
    The `ReplaceAttr` option of the JSON handler: the message key becomes
    `message`, the level key becomes `severity`, whatever the enclosing
    groups; every other key, and every value, is kept.
   */
  function ReplaceAttr(groups: seq<string>, a: Attr): (r: Attr)
    ensures r.value == a.value
    ensures a.key == MessageKey ==> r.key == CloudMessageKey
    ensures a.key == LevelKey ==> r.key == CloudLevelKey
    ensures a.key != MessageKey && a.key != LevelKey ==> r == a
  {
    if a.key == MessageKey then a.(key := CloudMessageKey)
    else if a.key == LevelKey then a.(key := CloudLevelKey)
    else a
  }

  /** Renaming twice is renaming once, and no renamed attribute keeps a built-in key. */
  lemma ReplaceAttrIdempotent(groups: seq<string>, a: Attr)
    ensures ReplaceAttr(groups, ReplaceAttr(groups, a)) == ReplaceAttr(groups, a)
    ensures ReplaceAttr(groups, a).key != MessageKey && ReplaceAttr(groups, a).key != LevelKey
  {
  }

  /** `ReplaceAttr` applied, with the open groups, to each attribute of a record at emission time. */
  function RenameKeys(groups: seq<string>, attrs: seq<Attr>): (r: seq<Attr>)
    ensures |r| == |attrs|
    ensures forall i :: 0 <= i < |attrs| ==> r[i] == ReplaceAttr(groups, attrs[i])
  {
    if attrs == [] then [] else [ReplaceAttr(groups, attrs[0])] + RenameKeys(groups, attrs[1..])
  }

  /** Renaming a concatenation renames each part. */
  lemma RenameKeysAppend(groups: seq<string>, a: seq<Attr>, b: seq<Attr>)
    ensures RenameKeys(groups, a + b) == RenameKeys(groups, a) + RenameKeys(groups, b)
  {
    var r := RenameKeys(groups, a + b);
    forall i | 0 <= i < |r|
      ensures r[i] == (RenameKeys(groups, a) + RenameKeys(groups, b))[i]
    {
      if i < |a| {
        assert (a + b)[i] == a[i];
      } else {
        assert (a + b)[i] == b[i - |a|];
      }
    }
  }

  /** The immutable contents of a `slog.Record` (its time and caller are left out). */
  datatype RecordValue = RecordValue(message: string, level: int, attrs: seq<Attr>)

  /** `slog.Record`: `Add` appends attributes in place, `Clone` makes an independent copy. */
  class Record {
    var message: string
    var level: int
    var attrs: seq<Attr>

    function Value(): RecordValue
      reads this
    {
      RecordValue(message, level, attrs)
    }

    constructor (message: string, level: int, attrs: seq<Attr>)
      ensures Value() == RecordValue(message, level, attrs)
    {
      this.message, this.level, this.attrs := message, level, attrs;
    }

    /** `r.Clone()`: a new record with the same contents, sharing nothing with this one. */
    method Clone() returns (c: Record)
      ensures fresh(c) && c.Value() == Value()
    {
      c := new Record(message, level, attrs);
    }

    /** `r.Add(key, value)`: appends one attribute. */
    method Add(key: string, value: AttrValue)
      modifies this
      ensures Value() == old(Value()).(attrs := old(attrs) + [Attr(key, value)])
    {
      attrs := attrs + [Attr(key, value)];
    }
  }

  /** What the inner sink wrote for one record: its own attributes and groups, and the record. */
  datatype Entry = Entry(handlerAttrs: seq<Attr>, groups: seq<string>, record: RecordValue)

  /**
    The fields of the JSON object written for an entry, group nesting and the
    time field left out: the level and the message, then the handler's and
    the record's attributes, every key passed through `ReplaceAttr`.
   */
  function Emitted(e: Entry): seq<Attr>
  {
    [ReplaceAttr([], Attr(LevelKey, LevelValue(e.record.level))),
     ReplaceAttr([], Attr(MessageKey, StringValue(e.record.message)))]
    + RenameKeys(e.groups, e.handlerAttrs + e.record.attrs)
  }

  /** The stream the inner sink writes to (standard error): what was written, and the error a write returns. */
  class Output {
    var entries: seq<Entry>
    const writeError: Option<string>

    constructor (writeError: Option<string>)
      ensures entries == [] && this.writeError == writeError
    {
      entries := [];
      this.writeError := writeError;
    }
  }

  /** The inner sink, `slog.JSONHandler`, reduced to its configuration and its output. */
  class JSONHandler {
    const minLevel: int
    const attrs: seq<Attr>
    const groups: seq<string>
    const out: Output

    constructor (minLevel: int, attrs: seq<Attr>, groups: seq<string>, out: Output)
      ensures this.minLevel == minLevel && this.attrs == attrs && this.groups == groups && this.out == out
    {
      this.minLevel, this.attrs, this.groups, this.out := minLevel, attrs, groups, out;
    }

    /** Records at or above the minimum level are enabled. */
    predicate Enabled(level: int)
    {
      level >= minLevel
    }

    /** Writes one entry for the record and returns the write's error. */
    method Handle(r: Record) returns (err: Option<string>)
      modifies out
      ensures out.entries == old(out.entries) + [Entry(attrs, groups, r.Value())]
      ensures err == out.writeError
    {
      out.entries := out.entries + [Entry(attrs, groups, r.Value())];
      err := out.writeError;
    }

    /** A handler with more attributes, writing to the same stream. */
    method WithAttrs(more: seq<Attr>) returns (h: JSONHandler)
      ensures fresh(h)
      ensures h.minLevel == minLevel && h.attrs == attrs + more && h.groups == groups && h.out == out
    {
      h := new JSONHandler(minLevel, attrs + more, groups, out);
    }

    /** A handler inside one more group, writing to the same stream. */
    method WithGroup(name: string) returns (h: JSONHandler)
      ensures fresh(h)
      ensures h.minLevel == minLevel && h.attrs == attrs && h.groups == groups + [name] && h.out == out
    {
      h := new JSONHandler(minLevel, attrs, groups + [name], out);
    }
  }

  /**
    The attributes `Handle` appends for a trace, in the order it appends them:
    each of Cloud Logging's correlation keys at most once, the trace id and
    the sampled flag always, the span id exactly when it is non-empty.
   */
  function CorrelationAttrs(t: Trace): (r: seq<Attr>)
    ensures forall i, j :: 0 <= i < j < |r| ==> r[i].key != r[j].key
    ensures forall i :: 0 <= i < |r| ==> r[i].key in {TraceAttrKey, SampledAttrKey, SpanAttrKey}
    ensures Attr(TraceAttrKey, StringValue(t.traceID)) in r
    ensures Attr(SampledAttrKey, BoolValue(t.sampled)) in r
    ensures Attr(SpanAttrKey, StringValue(t.spanID)) in r <==> t.spanID != ""
  {
    [Attr(TraceAttrKey, StringValue(t.traceID)), Attr(SampledAttrKey, BoolValue(t.sampled))]
    + (if t.spanID != "" then [Attr(SpanAttrKey, StringValue(t.spanID))] else [])
  }

  /**
    The attributes of the record that reaches the inner sink, given those of
    the caller's record and the trace read from the context: unchanged
    without a trace or with an empty trace id, otherwise followed by the
    correlation attributes.
   */
  function Enrich(attrs: seq<Attr>, t: Option<Trace>): (r: seq<Attr>)
    ensures |attrs| <= |r| && r[..|attrs|] == attrs
    ensures t.None? || t.value.traceID == "" ==> r == attrs
  {
    if t.Some? && t.value.traceID != "" then attrs + CorrelationAttrs(t.value) else attrs
  }

  /**
    With a trace present, the record gets the trace id and then the sampled
    flag, and a span id attribute exactly when the span id is non-empty.
   */
  lemma EnrichedFields(attrs: seq<Attr>, t: Trace)
    requires t.traceID != ""
    ensures var r := Enrich(attrs, Some(t));
      && |r| == |attrs| + (if t.spanID != "" then 3 else 2)
      && r[|attrs|] == Attr(TraceAttrKey, StringValue(t.traceID))
      && r[|attrs| + 1] == Attr(SampledAttrKey, BoolValue(t.sampled))
      && (t.spanID != "" ==> r[|attrs| + 2] == Attr(SpanAttrKey, StringValue(t.spanID)))
  {
  }

  /** Among the added attributes, the span key appears exactly when the span id is non-empty. */
  lemma SpanKeyIffSpanID(attrs: seq<Attr>, t: Trace)
    requires t.traceID != ""
    ensures var r := Enrich(attrs, Some(t));
      (exists i :: |attrs| <= i < |r| && r[i].key == SpanAttrKey) <==> t.spanID != ""
  {
    var r := Enrich(attrs, Some(t));
    assert r[|attrs|].key == TraceAttrKey && r[|attrs| + 1].key == SampledAttrKey;
    if t.spanID != "" {
      assert r[|attrs| + 2].key == SpanAttrKey;
    } else {
      assert |r| == |attrs| + 2;
    }
  }

  /** The correlation keys pass through `ReplaceAttr` unchanged. */
  lemma CorrelationSurvivesRenaming(groups: seq<string>, t: Trace)
    ensures RenameKeys(groups, CorrelationAttrs(t)) == CorrelationAttrs(t)
  {
  }

  /**
    `CloudLoggingHandler`: delegates everything to the inner JSON handler and
    only intercepts `Handle`.
   */
  class CloudLoggingHandler {
    const handler: JSONHandler

    /**
      `NewCloudLoggingHandler`: a JSON handler at minimum level Info, with no
      attributes or groups, writing to the given stream.
     */
    constructor New(out: Output)
      ensures fresh(handler)
      ensures handler.minLevel == LevelInfo && handler.attrs == [] && handler.groups == [] && handler.out == out
    {
      handler := new JSONHandler(LevelInfo, [], [], out);
    }

    /** `&CloudLoggingHandler{handler: inner}`. */
    constructor Wrap(inner: JSONHandler)
      ensures handler == inner
    {
      handler := inner;
    }

    /** The inner handler's answer; for a handler built by `New`, level Info and above. */
    predicate Enabled(level: int)
      ensures Enabled(level) == handler.Enabled(level)
      ensures handler.minLevel == LevelInfo ==> (Enabled(level) <==> level >= LevelInfo)
    {
      handler.Enabled(level)
    }

    /**
      Enriches a clone of `r` with the trace of `ctx`, if any, and delegates
      it to the inner handler exactly once, returning its error unchanged.
      The caller's record is not modified.
     */
    method Handle(ctx: Context, r: Record) returns (err: Option<string>)
      modifies handler.out
      ensures handler.out.entries == old(handler.out.entries)
        + [Entry(handler.attrs, handler.groups, RecordValue(r.message, r.level, Enrich(r.attrs, TraceFromContext(ctx))))]
      ensures err == handler.out.writeError
      ensures r.Value() == old(r.Value())
    {
      var trace := TraceFromContext(ctx);
      var rec := r;
      if trace.Some? && trace.value.traceID != "" {
        rec := r.Clone();
        rec.Add(TraceAttrKey, StringValue(trace.value.traceID));
        rec.Add(SampledAttrKey, BoolValue(trace.value.sampled));
        if trace.value.spanID != "" {
          rec.Add(SpanAttrKey, StringValue(trace.value.spanID));
        }
        assert rec.attrs == r.attrs + CorrelationAttrs(trace.value);
      }
      err := handler.Handle(rec);
    }

    /** A new wrapper around `handler.WithAttrs(attrs)`. */
    method WithAttrs(attrs: seq<Attr>) returns (h: CloudLoggingHandler)
      ensures fresh(h) && fresh(h.handler)
      ensures h.handler.minLevel == handler.minLevel && h.handler.out == handler.out
      ensures h.handler.attrs == handler.attrs + attrs && h.handler.groups == handler.groups
    {
      var inner := handler.WithAttrs(attrs);
      h := new CloudLoggingHandler.Wrap(inner);
    }

    /** A new wrapper around `handler.WithGroup(name)`. */
    method WithGroup(name: string) returns (h: CloudLoggingHandler)
      ensures fresh(h) && fresh(h.handler)
      ensures h.handler.minLevel == handler.minLevel && h.handler.out == handler.out
      ensures h.handler.attrs == handler.attrs && h.handler.groups == handler.groups + [name]
    {
      var inner := handler.WithGroup(name);
      h := new CloudLoggingHandler.Wrap(inner);
    }
  }

  /**
    Attributes that renaming leaves alone, appended to a record, reach the
    output last and unchanged, after the renamed level and message fields.
   */
  lemma EmittedWithSuffix(handlerAttrs: seq<Attr>, groups: seq<string>, rec: RecordValue, extra: seq<Attr>)
    requires RenameKeys(groups, extra) == extra
    ensures var e := Entry(handlerAttrs, groups, rec.(attrs := rec.attrs + extra));
      && Emitted(e)[0].key == CloudLevelKey
      && Emitted(e)[1] == Attr(CloudMessageKey, StringValue(rec.message))
      && Emitted(e)[|Emitted(e)| - |extra|..] == extra
  {
    var e := Entry(handlerAttrs, groups, rec.(attrs := rec.attrs + extra));
    var level := ReplaceAttr([], Attr(LevelKey, LevelValue(rec.level)));
    var message := ReplaceAttr([], Attr(MessageKey, StringValue(rec.message)));
    assert LevelKey != MessageKey;
    var base := handlerAttrs + rec.attrs;
    assert e.handlerAttrs + e.record.attrs == base + extra;
    RenameKeysAppend(groups, base, extra);
    var head := [level, message] + RenameKeys(groups, base);
    assert Emitted(e) == head + extra;
    assert (head + extra)[|head|..] == extra;
  }

  /**
    For a handler outside any group (the one `New` builds, and those derived
    from it by `WithAttrs`), a traced record reaches the output with its
    correlation fields last and under their exact names, after the renamed
    level and message fields.
   */
  lemma CorrelationFieldsEmitted(handlerAttrs: seq<Attr>, groups: seq<string>, rec: RecordValue, t: Trace)
    requires groups == []
    requires t.traceID != ""
    ensures var e := Entry(handlerAttrs, groups, rec.(attrs := Enrich(rec.attrs, Some(t))));
      && Emitted(e)[0].key == CloudLevelKey
      && Emitted(e)[1] == Attr(CloudMessageKey, StringValue(rec.message))
      && Emitted(e)[|Emitted(e)| - |CorrelationAttrs(t)|..] == CorrelationAttrs(t)
  {
    CorrelationSurvivesRenaming(groups, t);
    EmittedWithSuffix(handlerAttrs, groups, rec, CorrelationAttrs(t));
  }
}
