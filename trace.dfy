/**
  The trace-header extractor of trace.go. A request's two trace headers are
  given as strings, the empty string standing for an absent header. The W3C
  `traceparent` header is tried first, Google's `X-Cloud-Trace-Context`
  second, and anything else yields the empty triple. The ids are not checked
  for length or hex form, and a version-00 header may have more than four
  fields, as in the code.
 */
module TraceHeaders {
  import opened Wrappers
  import opened GoStrings
  import opened GoStrconv

  /** The `(traceID, spanID, sampled)` triple `extractTraceInfo` returns. */
  datatype TraceInfo = TraceInfo(traceID: string, spanID: string, sampled: bool)

  const NoTrace := TraceInfo("", "", false)

  /** The only `traceparent` version the extractor accepts. */
  const Version := "00"

  /** The option token that marks an X-Cloud-Trace-Context trace as sampled. */
  const SampledOption := "o=1"

  /** Bit 0 of the trace-flags field read as a hex byte; false when it does not parse. */
  function FlagsSampled(flags: string): (sampled: bool)
    ensures sampled <==> ParseHexByte(flags).Some? && DigitValue(flags[|flags| - 1]) % 2 == 1
  {
    match ParseHexByte(flags)
    case Some(v) =>
      LowBitIsLastDigit(flags);
      v % 2 == 1
    case None => false
  }

  /**
    What the `traceparent` branch returns, or `None` when it falls through.
    It accepts only headers that start with the version and a `-`, and the
    ids it returns are whole `-`-separated fields.
   */
  function FromTraceparent(header: string): (r: Option<TraceInfo>)
    ensures r.Some? ==> Version + "-" <= header
    ensures r.Some? ==> '-' !in r.value.traceID && '-' !in r.value.spanID
  {
    if header == "" then None
    else
      var parts := Split(header, '-');
      if |parts| >= 4 && parts[0] == Version
      then
        JoinSplit(header, '-');
        assert Join(parts, '-') == parts[0] + ['-'] + Join(parts[1..], '-');
        Some(TraceInfo(parts[1], parts[2], FlagsSampled(parts[3])))
      else None
  }

  /**
    What the `X-Cloud-Trace-Context` branch returns, or `None` when it falls
    through. The trace id it returns is the non-empty text before the first
    `/`, and the span id contains neither `/` nor `;`.
   */
  function FromCloudTraceContext(header: string): (r: Option<TraceInfo>)
    ensures r.Some? ==> r.value.traceID != "" && r.value.traceID + "/" <= header
    ensures r.Some? ==> '/' !in r.value.traceID && '/' !in r.value.spanID && ';' !in r.value.spanID
  {
    if header == "" then None
    else
      var parts := Split(header, '/');
      if |parts| >= 2 && parts[0] != ""
      then
        var spanParts := Split(parts[1], ';');
        JoinSplit(header, '/');
        assert Join(parts, '/') == parts[0] + ['/'] + Join(parts[1..], '/');
        SplitFirstPiece(parts[1], ';');
        Some(TraceInfo(parts[0], spanParts[0], SampledOption in spanParts[1..]))
      else None
  }

  /**
    The specification of `extractTraceInfo`: the headers in precedence order.
    Any result other than the empty triple comes from a `traceparent` that
    starts with the version, or from an X-Cloud-Trace-Context that starts
    with the (non-empty) trace id and a `/`.
   */
  function Extract(traceparent: string, cloudTraceContext: string): (r: TraceInfo)
    ensures r != NoTrace ==>
      Version + "-" <= traceparent || (r.traceID != "" && r.traceID + "/" <= cloudTraceContext)
  {
    match FromTraceparent(traceparent)
    case Some(info) => info
    case None =>
      match FromCloudTraceContext(cloudTraceContext)
      case Some(info) => info
      case None => NoTrace
  }

  /**
    `extractTraceInfo`, step by step: early returns from each branch, and the
    loop over the options after the span id that stops at the first `o=1`.
   */
  method ExtractTraceInfo(traceparent: string, cloudTraceContext: string)
    returns (traceID: string, spanID: string, sampled: bool)
    ensures TraceInfo(traceID, spanID, sampled) == Extract(traceparent, cloudTraceContext)
  {
    if traceparent != "" {
      var parts := Split(traceparent, '-');
      if |parts| >= 4 && parts[0] == Version {
        traceID, spanID := parts[1], parts[2];
        var flags := ParseHexByte(parts[3]);
        if flags.Some? {
          sampled := flags.value % 2 == 1;
          return;
        }
        sampled := false;
        return;
      }
    }

    if cloudTraceContext != "" {
      var parts := Split(cloudTraceContext, '/');
      if |parts| >= 2 && parts[0] != "" {
        traceID := parts[0];
        var spanInfo := parts[1];
        var spanParts := Split(spanInfo, ';');
        spanID := spanParts[0];

        sampled := false;
        if |spanParts| > 1 {
          var options := spanParts[1..];
          var i := 0;
          while i < |options|
            invariant 0 <= i <= |options|
            invariant !sampled
            invariant SampledOption !in options[..i]
          {
            if options[i] == SampledOption {
              sampled := true;
              break;
            }
            i := i + 1;
          }
          assert i == |options| ==> options[..i] == options;
        }
        return;
      }
    }

    traceID, spanID, sampled := "", "", false;
  }

  // ----- Properties of the extractor -----

  /**
    A `traceparent` whose first field is `00` and that has at least four
    fields gives field 1 as trace id, field 2 as span id and bit 0 of field 3
    as the sampled flag; further fields are ignored.
   */
  lemma TraceparentAccepted(traceparent: string, cloudTraceContext: string)
    requires |Split(traceparent, '-')| >= 4 && Split(traceparent, '-')[0] == Version
    ensures var parts := Split(traceparent, '-');
      Extract(traceparent, cloudTraceContext) == TraceInfo(parts[1], parts[2], FlagsSampled(parts[3]))
  {
  }

  /** Trace flags that do not parse as a byte keep the ids and clear sampled. */
  lemma BadFlagsKeepIds(traceparent: string, cloudTraceContext: string)
    requires |Split(traceparent, '-')| >= 4 && Split(traceparent, '-')[0] == Version
    requires ParseHexByte(Split(traceparent, '-')[3]).None?
    ensures var parts := Split(traceparent, '-');
      Extract(traceparent, cloudTraceContext) == TraceInfo(parts[1], parts[2], false)
  {
  }

  /**
    An empty `traceparent`, one with a version other than `00` or one with
    fewer than four fields is ignored as a whole: the result is what the
    X-Cloud-Trace-Context header alone gives.
   */
  lemma TraceparentRejected(traceparent: string, cloudTraceContext: string)
    requires traceparent == "" || |Split(traceparent, '-')| < 4 || Split(traceparent, '-')[0] != Version
    ensures Extract(traceparent, cloudTraceContext) == Extract("", cloudTraceContext)
  {
  }

  /** An accepted `traceparent` wins whatever X-Cloud-Trace-Context holds, even with empty ids. */
  lemma TraceparentWins(traceparent: string, cloud1: string, cloud2: string)
    requires FromTraceparent(traceparent).Some?
    ensures Extract(traceparent, cloud1) == Extract(traceparent, cloud2)
  {
  }

  /**
    An X-Cloud-Trace-Context with at least two `/`-parts and a non-empty first
    part gives part 0 as trace id, part 1 up to its first `;` as span id, and
    sampled exactly when a later `;`-token is `o=1`.
   */
  lemma CloudAccepted(traceparent: string, cloudTraceContext: string)
    requires FromTraceparent(traceparent).None?
    requires |Split(cloudTraceContext, '/')| >= 2 && Split(cloudTraceContext, '/')[0] != ""
    ensures var parts := Split(cloudTraceContext, '/');
      var spanParts := Split(parts[1], ';');
      var info := Extract(traceparent, cloudTraceContext);
      && info.traceID == parts[0]
      && info.spanID == spanParts[0]
      && (info.sampled <==> exists k :: 1 <= k < |spanParts| && spanParts[k] == SampledOption)
  {
  }

  /** When neither header is accepted the result is the empty triple. */
  lemma NeitherAccepted(traceparent: string, cloudTraceContext: string)
    requires FromTraceparent(traceparent).None?
    requires cloudTraceContext == "" || |Split(cloudTraceContext, '/')| < 2 || Split(cloudTraceContext, '/')[0] == ""
    ensures Extract(traceparent, cloudTraceContext) == NoTrace
  {
  }

  /**
    An empty extracted trace id means either an accepted `traceparent` with an
    empty id field, or no usable header at all: the X-Cloud branch never
    yields an empty trace id.
   */
  lemma EmptyTraceID(traceparent: string, cloudTraceContext: string)
    requires Extract(traceparent, cloudTraceContext).traceID == ""
    ensures FromTraceparent(traceparent).Some? || Extract(traceparent, cloudTraceContext) == NoTrace
  {
  }

  /**
    Any well-formed `traceparent` built from a trace id, a span id and a
    flags byte, extra fields or not, is read back as exactly those ids and
    bit 0 of the byte.
   */
  lemma {:induction false} WellFormedTraceparent(
    traceID: string, spanID: string, flags: nat, extra: seq<string>, cloudTraceContext: string)
    requires '-' !in traceID && '-' !in spanID && flags < 256
    requires forall i :: 0 <= i < |extra| ==> '-' !in extra[i]
    ensures Extract(Join([Version, traceID, spanID, FormatHexByte(flags)] + extra, '-'), cloudTraceContext)
         == TraceInfo(traceID, spanID, flags % 2 == 1)
  {
    var fields := [Version, traceID, spanID, FormatHexByte(flags)] + extra;
    SplitJoin(fields, '-');
    ParseFormatHexByte(flags);
  }

  /**
    An X-Cloud-Trace-Context built as `TRACE/SPAN` followed by `;`-options is
    read back as those ids, sampled exactly when some option is `o=1`.
   */
  lemma {:induction false} WellFormedCloudTraceContext(traceID: string, spanID: string, options: seq<string>)
    requires traceID != "" && '/' !in traceID && '/' !in spanID && ';' !in spanID
    requires forall i :: 0 <= i < |options| ==> '/' !in options[i] && ';' !in options[i]
    ensures Extract("", traceID + "/" + Join([spanID] + options, ';'))
         == TraceInfo(traceID, spanID, SampledOption in options)
  {
    var spanInfo := Join([spanID] + options, ';');
    NoSeparatorInJoin([spanID] + options, ';', '/');
    SplitJoin([spanID] + options, ';');
    SplitAtFirst(traceID, '/', spanInfo);
    SplitNoSeparator(spanInfo, '/');
    assert traceID + "/" + spanInfo == traceID + ['/'] + spanInfo;
    assert ([spanID] + options)[1..] == options;
  }

  /** Joining pieces free of a character other than the separator keeps it out. */
  lemma {:induction false} NoSeparatorInJoin(parts: seq<string>, sep: char, c: char)
    requires |parts| >= 1 && c != sep
    requires forall i :: 0 <= i < |parts| ==> c !in parts[i]
    ensures c !in Join(parts, sep)
  {
    if |parts| > 1 {
      NoSeparatorInJoin(parts[1..], sep, c);
    }
  }
}
