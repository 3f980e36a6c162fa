/**
  The cases of the extractor's table-driven test (trace_test.go), each as a
  lemma about `Extract`. An absent header is the empty string.
 */
module TraceCases {
  import opened GoStrings
  import opened GoStrconv
  import opened TraceHeaders

  const W3CTraceID := "4bf92f3577b34da6a3ce929d0e0e4736"
  const W3CSpanID := "00f067aa0ba902b7"
  const CloudTraceID := "105445aa7843bc8bf206b120001000"

  /** The test's `traceparent` values, `VERSION-TRACE-SPAN[-FLAGS]`, as the join of their fields. */
  function Traceparent(fields: seq<string>): string
  {
    Join(fields, '-')
  }

  /** The test's X-Cloud-Trace-Context values, `TRACE[/SPANINFO]`, as the join of their parts. */
  function CloudHeader(parts: seq<string>): string
  {
    Join(parts, '/')
  }

  // The lemmas below tie the joined headers to the literal strings of the
  // test table. Dafny does not unfold a long literal on its own, so each
  // literal is reached by appending short pieces, one step at a time.

  lemma JoinFour(a: string, b: string, c: string, d: string)
    ensures Traceparent([a, b, c, d]) == a + "-" + b + "-" + c + "-" + d
  {
    var p := [a, b, c, d];
    assert p[1..][1..][1..] == [d];
    assert Join(p[1..][1..], '-') == c + ['-'] + d;
    assert p[1..][1..] == [c, d];
    assert Join(p[1..], '-') == b + ['-'] + (c + ['-'] + d);
    assert Join(p, '-') == a + ['-'] + (b + ['-'] + (c + ['-'] + d));
  }

  lemma JoinTwo(a: string, b: string)
    ensures CloudHeader([a, b]) == a + "/" + b
  {
    var p := [a, b];
    assert Join(p[1..], '/') == b;
    assert Join(p, '/') == a + ['/'] + b;
  }

  // The test's `traceparent` literals are built from the ids by short
  // appends, each proved in a lemma of its own.

  lemma W3CTraceIDHalves()
    ensures W3CTraceID == "4bf92f3577b34da6" + "a3ce929d0e0e4736"
  {
  }

  lemma W3CFirstHalf00()
    ensures "00" + "-" + "4bf92f3577b34da6" == "00-4bf92f3577b34da6"
  {
  }

  lemma W3CSecondHalf00()
    ensures "00-4bf92f3577b34da6" + "a3ce929d0e0e4736" == "00-4bf92f3577b34da6a3ce929d0e0e4736"
  {
  }

  lemma W3CSpanStep00()
    ensures "00-4bf92f3577b34da6a3ce929d0e0e4736" + "-" + W3CSpanID == "00-4bf92f3577b34da6a3ce929d0e0e4736-00f067aa0ba902b7"
  {
  }

  /** The version and ids of the test `traceparent` values with version `00`. */
  lemma W3CIds00()
    ensures "00" + "-" + W3CTraceID + "-" + W3CSpanID == "00-4bf92f3577b34da6a3ce929d0e0e4736-00f067aa0ba902b7"
  {
    W3CTraceIDHalves();
    W3CFirstHalf00();
    W3CSecondHalf00();
    assert "00" + "-" + W3CTraceID == "00-4bf92f3577b34da6a3ce929d0e0e4736";
    W3CSpanStep00();
  }

  lemma W3CFirstHalf01()
    ensures "01" + "-" + "4bf92f3577b34da6" == "01-4bf92f3577b34da6"
  {
  }

  lemma W3CSecondHalf01()
    ensures "01-4bf92f3577b34da6" + "a3ce929d0e0e4736" == "01-4bf92f3577b34da6a3ce929d0e0e4736"
  {
  }

  lemma W3CSpanStep01()
    ensures "01-4bf92f3577b34da6a3ce929d0e0e4736" + "-" + W3CSpanID == "01-4bf92f3577b34da6a3ce929d0e0e4736-00f067aa0ba902b7"
  {
  }

  /** The version and ids of the test `traceparent` values with version `01`. */
  lemma W3CIds01()
    ensures "01" + "-" + W3CTraceID + "-" + W3CSpanID == "01-4bf92f3577b34da6a3ce929d0e0e4736-00f067aa0ba902b7"
  {
    W3CTraceIDHalves();
    W3CFirstHalf01();
    W3CSecondHalf01();
    assert "01" + "-" + W3CTraceID == "01-4bf92f3577b34da6a3ce929d0e0e4736";
    W3CSpanStep01();
  }

  lemma ValidW3CSampledLiteral()
    ensures Traceparent(["00", W3CTraceID, W3CSpanID, "01"]) == "00-4bf92f3577b34da6a3ce929d0e0e4736-00f067aa0ba902b7-01"
  {
    JoinFour("00", W3CTraceID, W3CSpanID, "01");
    W3CIds00();
    assert "00-4bf92f3577b34da6a3ce929d0e0e4736-00f067aa0ba902b7" + "-" + "01"
        == "00-4bf92f3577b34da6a3ce929d0e0e4736-00f067aa0ba902b7-01";
  }

  lemma ValidW3CNotSampledLiteral()
    ensures Traceparent(["00", W3CTraceID, W3CSpanID, "00"]) == "00-4bf92f3577b34da6a3ce929d0e0e4736-00f067aa0ba902b7-00"
  {
    JoinFour("00", W3CTraceID, W3CSpanID, "00");
    W3CIds00();
    assert "00-4bf92f3577b34da6a3ce929d0e0e4736-00f067aa0ba902b7" + "-" + "00"
        == "00-4bf92f3577b34da6a3ce929d0e0e4736-00f067aa0ba902b7-00";
  }

  lemma InvalidW3CFlagsLiteral()
    ensures Traceparent(["00", W3CTraceID, W3CSpanID, "xx"]) == "00-4bf92f3577b34da6a3ce929d0e0e4736-00f067aa0ba902b7-xx"
  {
    JoinFour("00", W3CTraceID, W3CSpanID, "xx");
    W3CIds00();
    assert "00-4bf92f3577b34da6a3ce929d0e0e4736-00f067aa0ba902b7" + "-" + "xx"
        == "00-4bf92f3577b34da6a3ce929d0e0e4736-00f067aa0ba902b7-xx";
  }

  lemma WrongW3CVersionLiteral()
    ensures Traceparent(["01", W3CTraceID, W3CSpanID, "01"]) == "01-4bf92f3577b34da6a3ce929d0e0e4736-00f067aa0ba902b7-01"
  {
    JoinFour("01", W3CTraceID, W3CSpanID, "01");
    W3CIds01();
    assert "01-4bf92f3577b34da6a3ce929d0e0e4736-00f067aa0ba902b7" + "-" + "01"
        == "01-4bf92f3577b34da6a3ce929d0e0e4736-00f067aa0ba902b7-01";
  }

  lemma TooFewW3CFieldsLiteral()
    ensures Traceparent(["00", W3CTraceID, W3CSpanID]) == "00-4bf92f3577b34da6a3ce929d0e0e4736-00f067aa0ba902b7"
  {
    var p := ["00", W3CTraceID, W3CSpanID];
    assert p[1..][1..] == [W3CSpanID];
    assert Join(p[1..], '-') == W3CTraceID + ['-'] + W3CSpanID;
    assert Join(p, '-') == "00" + ['-'] + (W3CTraceID + ['-'] + W3CSpanID);
    W3CIds00();
  }

  lemma ValidCloudSampledLiteral()
    ensures CloudHeader([CloudTraceID, "1;o=1"]) == "105445aa7843bc8bf206b120001000/1;o=1"
  {
    JoinTwo(CloudTraceID, "1;o=1");
    assert CloudTraceID + "/" == "105445aa7843bc8bf206b120001000/";
  }

  lemma ValidCloudNotSampledLiteral()
    ensures CloudHeader([CloudTraceID, "1;o=0"]) == "105445aa7843bc8bf206b120001000/1;o=0"
  {
    JoinTwo(CloudTraceID, "1;o=0");
    assert CloudTraceID + "/" == "105445aa7843bc8bf206b120001000/";
  }

  lemma ValidCloudNoOptionsLiteral()
    ensures CloudHeader([CloudTraceID, "1"]) == "105445aa7843bc8bf206b120001000/1"
  {
    JoinTwo(CloudTraceID, "1");
    assert CloudTraceID + "/" == "105445aa7843bc8bf206b120001000/";
  }

  lemma CloudMissingSpanIDLiteral()
    ensures CloudHeader([CloudTraceID]) == "105445aa7843bc8bf206b120001000"
  {
  }

  lemma CloudEmptyTraceIDLiteral()
    ensures CloudHeader(["", "1;o=1"]) == "/1;o=1"
  {
    JoinTwo("", "1;o=1");
  }

  // Each case is first proved on the joined header (`…Joined`), where `Split`
  // meets `Join`, and then restated on the test's literal header.

  lemma ValidW3CSampledJoined()
    ensures Extract(Traceparent(["00", W3CTraceID, W3CSpanID, "01"]), "") == TraceInfo(W3CTraceID, W3CSpanID, true)
  {
    SplitJoin(["00", W3CTraceID, W3CSpanID, "01"], '-');
    assert HexValue("01") == 1 by { assert "01"[..1] == "0"; }
  }

  lemma ValidW3CSampled()
    ensures Extract("00-4bf92f3577b34da6a3ce929d0e0e4736-00f067aa0ba902b7-01", "") == TraceInfo(W3CTraceID, W3CSpanID, true)
  {
    ValidW3CSampledLiteral();
    ValidW3CSampledJoined();
  }

  lemma ValidW3CNotSampledJoined()
    ensures Extract(Traceparent(["00", W3CTraceID, W3CSpanID, "00"]), "") == TraceInfo(W3CTraceID, W3CSpanID, false)
  {
    SplitJoin(["00", W3CTraceID, W3CSpanID, "00"], '-');
    assert HexValue("00") == 0 by { assert "00"[..1] == "0"; }
  }

  lemma ValidW3CNotSampled()
    ensures Extract("00-4bf92f3577b34da6a3ce929d0e0e4736-00f067aa0ba902b7-00", "") == TraceInfo(W3CTraceID, W3CSpanID, false)
  {
    ValidW3CNotSampledLiteral();
    ValidW3CNotSampledJoined();
  }

  lemma InvalidW3CFlagsJoined()
    ensures Extract(Traceparent(["00", W3CTraceID, W3CSpanID, "xx"]), "") == TraceInfo(W3CTraceID, W3CSpanID, false)
  {
    SplitJoin(["00", W3CTraceID, W3CSpanID, "xx"], '-');
    assert !IsHexDigit("xx"[0]);
  }

  lemma InvalidW3CFlags()
    ensures Extract("00-4bf92f3577b34da6a3ce929d0e0e4736-00f067aa0ba902b7-xx", "") == TraceInfo(W3CTraceID, W3CSpanID, false)
  {
    InvalidW3CFlagsLiteral();
    InvalidW3CFlagsJoined();
  }

  lemma WrongW3CVersionJoined()
    ensures Extract(Traceparent(["01", W3CTraceID, W3CSpanID, "01"]), "") == NoTrace
  {
    SplitJoin(["01", W3CTraceID, W3CSpanID, "01"], '-');
  }

  lemma WrongW3CVersion()
    ensures Extract("01-4bf92f3577b34da6a3ce929d0e0e4736-00f067aa0ba902b7-01", "") == NoTrace
  {
    WrongW3CVersionLiteral();
    WrongW3CVersionJoined();
  }

  lemma TooFewW3CFieldsJoined()
    ensures Extract(Traceparent(["00", W3CTraceID, W3CSpanID]), "") == NoTrace
  {
    SplitJoin(["00", W3CTraceID, W3CSpanID], '-');
  }

  lemma TooFewW3CFields()
    ensures Extract("00-4bf92f3577b34da6a3ce929d0e0e4736-00f067aa0ba902b7", "") == NoTrace
  {
    TooFewW3CFieldsLiteral();
    TooFewW3CFieldsJoined();
  }

  lemma ValidCloudSampledJoined()
    ensures Extract("", CloudHeader([CloudTraceID, "1;o=1"])) == TraceInfo(CloudTraceID, "1", true)
  {
    SplitJoin([CloudTraceID, "1;o=1"], '/');
    SplitJoin(["1", "o=1"], ';');
  }

  lemma ValidCloudSampled()
    ensures Extract("", "105445aa7843bc8bf206b120001000/1;o=1") == TraceInfo(CloudTraceID, "1", true)
  {
    ValidCloudSampledLiteral();
    ValidCloudSampledJoined();
  }

  lemma ValidCloudNotSampledJoined()
    ensures Extract("", CloudHeader([CloudTraceID, "1;o=0"])) == TraceInfo(CloudTraceID, "1", false)
  {
    SplitJoin([CloudTraceID, "1;o=0"], '/');
    SplitJoin(["1", "o=0"], ';');
  }

  lemma ValidCloudNotSampled()
    ensures Extract("", "105445aa7843bc8bf206b120001000/1;o=0") == TraceInfo(CloudTraceID, "1", false)
  {
    ValidCloudNotSampledLiteral();
    ValidCloudNotSampledJoined();
  }

  lemma ValidCloudNoOptionsJoined()
    ensures Extract("", CloudHeader([CloudTraceID, "1"])) == TraceInfo(CloudTraceID, "1", false)
  {
    SplitJoin([CloudTraceID, "1"], '/');
    SplitJoin(["1"], ';');
  }

  lemma ValidCloudNoOptions()
    ensures Extract("", "105445aa7843bc8bf206b120001000/1") == TraceInfo(CloudTraceID, "1", false)
  {
    ValidCloudNoOptionsLiteral();
    ValidCloudNoOptionsJoined();
  }

  /** An X-Cloud-Trace-Context without a `/` is a single part, and is rejected. */
  lemma NoSlashRejected(header: string)
    requires '/' !in header
    ensures Extract("", header) == NoTrace
  {
    SplitNoSeparator(header, '/');
  }

  lemma CloudMissingSpanIDJoined()
    ensures Extract("", CloudHeader([CloudTraceID])) == NoTrace
  {
    assert CloudHeader([CloudTraceID]) == CloudTraceID;
    NoSlashRejected(CloudTraceID);
  }

  lemma CloudMissingSpanID()
    ensures Extract("", "105445aa7843bc8bf206b120001000") == NoTrace
  {
    CloudMissingSpanIDLiteral();
    CloudMissingSpanIDJoined();
  }

  lemma CloudEmptyTraceIDJoined()
    ensures Extract("", CloudHeader(["", "1;o=1"])) == NoTrace
  {
  }

  lemma CloudEmptyTraceID()
    ensures Extract("", "/1;o=1") == NoTrace
  {
    CloudEmptyTraceIDLiteral();
    CloudEmptyTraceIDJoined();
  }

  lemma W3CTakesPrecedence()
    ensures Extract("00-4bf92f3577b34da6a3ce929d0e0e4736-00f067aa0ba902b7-01", "105445aa7843bc8bf206b120001000/1;o=0")
         == TraceInfo(W3CTraceID, W3CSpanID, true)
  {
    ValidW3CSampledLiteral();
    ValidCloudNotSampledLiteral();
    ValidW3CSampledJoined();
    TraceparentWins(Traceparent(["00", W3CTraceID, W3CSpanID, "01"]), "", CloudHeader([CloudTraceID, "1;o=0"]));
  }

  /** An empty `traceparent`, an empty X-Cloud-Trace-Context and no headers at all are the same input. */
  lemma NoHeaders()
    ensures Extract("", "") == NoTrace
  {
  }

  /** A version-00 header with empty ids is still accepted, and still wins. */
  lemma EmptyIdsStillWin(cloudTraceContext: string)
    ensures Extract(Traceparent(["00", "", "", "01"]), cloudTraceContext) == TraceInfo("", "", true)
  {
    SplitJoin(["00", "", "", "01"], '-');
    assert HexValue("01") == 1 by { assert "01"[..1] == "0"; }
  }
}
