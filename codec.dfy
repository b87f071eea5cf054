/** Identifier codec: X-Ray trace ids into 16-byte OpenTelemetry trace ids
    (exporter/segment.go, parseXrayTraceID) and the fixed-width lower-case hex
    decoders of the OpenTelemetry Go API (`trace.TraceIDFromHex`,
    `trace.SpanIDFromHex`), which the source calls but does not contain. */
module Codec {
  import opened Wrappers

  newtype byte = x: int | 0 <= x < 256

  /** Why an identifier could not be decoded. */
  datatype IdError =
    | TraceIdFieldCount      // the X-Ray trace id does not split into three fields
    | InvalidTraceIdLength   // the hex text is not 32 characters long
    | InvalidSpanIdLength    // the hex text is not 16 characters long
    | InvalidHexId           // a character outside 0-9 and a-f
    | NilTraceId             // all sixteen bytes are zero
    | NilSpanId              // all eight bytes are zero

  const TraceIdBytes: nat := 16
  const SpanIdBytes: nat := 8

  // ---------------------------------------------------------------------------
  // Splitting on '-' (Go's strings.Split with a one-character separator)

  /** The number of occurrences of `c` in `s`. */
  function Occurrences(s: string, c: char): nat
  {
    if s == [] then 0 else (if s[0] == c then 1 else 0) + Occurrences(s[1..], c)
  }

  /** The fields of `s` between hyphens; the empty string has one empty field. */
  function Split(s: string): (fields: seq<string>)
    ensures |fields| >= 1
  {
    if s == [] then [[]]
    else if s[0] == '-' then [[]] + Split(s[1..])
    else
      var rest := Split(s[1..]);
      [[s[0]] + rest[0]] + rest[1..]
  }

  /** The fields joined back with hyphens between them. */
  function Join(fields: seq<string>): string
    requires |fields| >= 1
  {
    if |fields| == 1 then fields[0] else fields[0] + "-" + Join(fields[1..])
  }

  predicate NoHyphen(s: string)
  {
    forall i :: 0 <= i < |s| ==> s[i] != '-'
  }

  lemma {:induction false} SplitFieldCount(s: string)
    ensures |Split(s)| == Occurrences(s, '-') + 1
  {
    if s != [] {
      SplitFieldCount(s[1..]);
    }
  }

  lemma {:induction false} SplitFieldsHaveNoHyphen(s: string)
    ensures forall k :: 0 <= k < |Split(s)| ==> NoHyphen(Split(s)[k])
  {
    if s != [] {
      SplitFieldsHaveNoHyphen(s[1..]);
    }
  }

  /** Splitting loses nothing: joining the fields gives the input back. */
  lemma {:induction false} JoinSplit(s: string)
    ensures Join(Split(s)) == s
  {
    if s != [] {
      JoinSplit(s[1..]);
      var rest := Split(s[1..]);
      if s[0] == '-' {
        assert Split(s)[1..] == rest;
      } else {
        var first := [s[0]] + rest[0];
        assert Split(s) == [first] + rest[1..];
        JoinCons(first, rest[1..]);
        assert rest == [rest[0]] + rest[1..];
        JoinCons(rest[0], rest[1..]);
        if rest[1..] != [] {
          PrefixSeparated(s[0], rest[0], Join(rest[1..]));
        }
      }
      assert s == [s[0]] + s[1..];
    }
  }

  /** Join on a sequence written as a first field and the others. */
  lemma JoinCons(first: string, others: seq<string>)
    ensures Join([first] + others) == if others == [] then first else first + "-" + Join(others)
  {
    assert ([first] + others)[1..] == others;
  }

  lemma PrefixSeparated(c: char, a: string, b: string)
    ensures [c] + a + "-" + b == [c] + (a + "-" + b)
  { }

  /** Joining fields that hold no hyphen and splitting again gives the fields back. */
  lemma {:induction false} SplitJoin(fields: seq<string>)
    requires |fields| >= 1
    requires forall k :: 0 <= k < |fields| ==> NoHyphen(fields[k])
    ensures Split(Join(fields)) == fields
    decreases |fields|, |fields[0]|
  {
    var f := fields[0];
    if |fields| == 1 {
      if f != [] {
        SplitJoin([f[1..]]);
        assert Join([f[1..]]) == f[1..];
        assert [f[0]] + f[1..] == f;
      }
    } else if f == [] {
      SplitJoin(fields[1..]);
      assert Join(fields) == "-" + Join(fields[1..]);
      assert Join(fields)[1..] == Join(fields[1..]);
      assert [[]] + fields[1..] == fields;
    } else {
      var shorter := [f[1..]] + fields[1..];
      assert shorter[1..] == fields[1..];
      assert forall k :: 0 <= k < |shorter| ==> NoHyphen(shorter[k]);
      SplitJoin(shorter);
      assert Join(shorter) == f[1..] + "-" + Join(fields[1..]);
      assert Join(fields) == [f[0]] + Join(shorter);
      assert Join(fields)[1..] == Join(shorter);
      assert Join(fields)[0] == f[0];
      assert [f[0]] + f[1..] == f;
      assert [f] + fields[1..] == fields;
    }
  }

  // ---------------------------------------------------------------------------
  // Lower-case hexadecimal

  predicate IsHexDigit(c: char)
  {
    '0' <= c <= '9' || 'a' <= c <= 'f'
  }

  predicate AllHex(s: string)
  {
    forall i :: 0 <= i < |s| ==> IsHexDigit(s[i])
  }

  function HexValue(c: char): (v: nat)
    requires IsHexDigit(c)
    ensures v < 16
  {
    if '0' <= c <= '9' then (c - '0') as nat else (c - 'a') as nat + 10
  }

  function HexChar(v: nat): (c: char)
    requires v < 16
    ensures IsHexDigit(c) && HexValue(c) == v
  {
    if v < 10 then '0' + v as char else 'a' + (v - 10) as char
  }

  /** Two hex digits per byte, high nibble first. */
  function DecodeHex(s: string): (b: seq<byte>)
    requires |s| % 2 == 0 && AllHex(s)
    ensures |b| == |s| / 2
  {
    if s == [] then []
    else [(16 * HexValue(s[0]) + HexValue(s[1])) as byte] + DecodeHex(s[2..])
  }

  function EncodeHex(b: seq<byte>): (s: string)
    ensures |s| == 2 * |b| && AllHex(s)
  {
    if b == [] then []
    else [HexChar(b[0] as nat / 16), HexChar(b[0] as nat % 16)] + EncodeHex(b[1..])
  }

  lemma {:induction false} DecodeEncodeHex(b: seq<byte>)
    ensures DecodeHex(EncodeHex(b)) == b
  {
    if b != [] {
      var s := EncodeHex(b);
      assert s[2..] == EncodeHex(b[1..]);
      DecodeEncodeHex(b[1..]);
    }
  }

  lemma {:induction false} EncodeDecodeHex(s: string)
    requires |s| % 2 == 0 && AllHex(s)
    ensures EncodeHex(DecodeHex(s)) == s
  {
    if s != [] {
      var b := (16 * HexValue(s[0]) + HexValue(s[1])) as byte;
      assert DecodeHex(s) == [b] + DecodeHex(s[2..]);
      EncodeDecodeHex(s[2..]);
      EncodeHexCons(b, DecodeHex(s[2..]));
      EncodeDecodePair(s[0], s[1]);
      assert EncodeHex([b]) == [s[0], s[1]];
      assert s == [s[0], s[1]] + s[2..];
    }
  }

  /** One byte of EncodeDecodeHex: a pair of hex digits survives the round trip. */
  lemma EncodeDecodePair(hi: char, lo: char)
    requires IsHexDigit(hi) && IsHexDigit(lo)
    ensures var v := 16 * HexValue(hi) + HexValue(lo);
      HexChar(v / 16) == hi && HexChar(v % 16) == lo
  {
    var v := 16 * HexValue(hi) + HexValue(lo);
    assert v / 16 == HexValue(hi) && v % 16 == HexValue(lo);
  }

  predicate AllZero(b: seq<byte>)
  {
    forall i :: 0 <= i < |b| ==> b[i] == 0
  }

  /** `trace.TraceIDFromHex`: 32 lower-case hex digits that are not all zero. */
  function TraceIdFromHex(h: string): (r: Result<seq<byte>, IdError>)
    ensures r.Success? <==> |h| == 2 * TraceIdBytes && AllHex(h) && !AllZero(DecodeHex(h))
    ensures r.Success? ==> |r.value| == TraceIdBytes && EncodeHex(r.value) == h
    ensures |h| != 2 * TraceIdBytes ==> r == Failure(InvalidTraceIdLength)
  {
    if |h| != 2 * TraceIdBytes then Failure(InvalidTraceIdLength)
    else if !AllHex(h) then Failure(InvalidHexId)
    else
      var b := DecodeHex(h);
      EncodeDecodeHex(h);
      if AllZero(b) then Failure(NilTraceId) else Success(b)
  }

  /** `trace.SpanIDFromHex`: 16 lower-case hex digits that are not all zero. */
  function SpanIdFromHex(h: string): (r: Result<seq<byte>, IdError>)
    ensures r.Success? <==> |h| == 2 * SpanIdBytes && AllHex(h) && !AllZero(DecodeHex(h))
    ensures r.Success? ==> |r.value| == SpanIdBytes && EncodeHex(r.value) == h
    ensures |h| != 2 * SpanIdBytes ==> r == Failure(InvalidSpanIdLength)
  {
    if |h| != 2 * SpanIdBytes then Failure(InvalidSpanIdLength)
    else if !AllHex(h) then Failure(InvalidHexId)
    else
      var b := DecodeHex(h);
      EncodeDecodeHex(h);
      if AllZero(b) then Failure(NilSpanId) else Success(b)
  }

  // ---------------------------------------------------------------------------
  // X-Ray trace ids: "<version>-<8 hex digits of epoch seconds>-<24 hex digits>"

  /** parseXrayTraceID: split on '-', demand exactly three fields, and decode the
      second and third fields, concatenated, as one 16-byte trace id. */
  function ParseXrayTraceId(tid: string): (r: Result<seq<byte>, IdError>)
    ensures Occurrences(tid, '-') != 2 ==> r == Failure(TraceIdFieldCount)
    ensures r.Success? ==> |Split(tid)| == 3 && |r.value| == TraceIdBytes
    ensures r.Success? ==> EncodeHex(r.value) == Split(tid)[1] + Split(tid)[2]
  {
    SplitFieldCount(tid);
    var s := Split(tid);
    if |s| != 3 then Failure(TraceIdFieldCount)
    else TraceIdFromHex(s[1] + s[2])
  }

  /** The X-Ray text form of a trace id with the given version field: the first
      four bytes as the epoch field, the other twelve as the unique field. */
  function FormatXrayTraceId(version: string, id: seq<byte>): string
    requires |id| == TraceIdBytes
  {
    version + "-" + EncodeHex(id[..4]) + "-" + EncodeHex(id[4..])
  }

  lemma {:induction false} EncodeHexAppend(a: seq<byte>, b: seq<byte>)
    ensures EncodeHex(a + b) == EncodeHex(a) + EncodeHex(b)
  {
    if a == [] {
      assert a + b == b;
    } else {
      var x, rest := a[0], a[1..];
      assert a == [x] + rest;
      assert a + b == [x] + (rest + b);
      EncodeHexAppend(rest, b);
      EncodeHexCons(x, rest);
      EncodeHexCons(x, rest + b);
    }
  }

  /** EncodeHex on a sequence written as a first byte and the others. */
  lemma EncodeHexCons(x: byte, rest: seq<byte>)
    ensures EncodeHex([x] + rest) == EncodeHex([x]) + EncodeHex(rest)
  {
    assert ([x] + rest)[1..] == rest;
    assert [x][1..] == [];
  }

  lemma HexHasNoHyphen(b: seq<byte>)
    ensures NoHyphen(EncodeHex(b))
  {
    var s := EncodeHex(b);
    forall i | 0 <= i < |s| ensures s[i] != '-' {
      assert IsHexDigit(s[i]);
    }
  }

  /** Parsing inverts formatting, whatever the (hyphen-free) version field. */
  lemma {:induction false} ParseFormatRoundTrip(version: string, id: seq<byte>)
    requires |id| == TraceIdBytes && !AllZero(id) && NoHyphen(version)
    ensures ParseXrayTraceId(FormatXrayTraceId(version, id)) == Success(id)
  {
    var e1, e2 := EncodeHex(id[..4]), EncodeHex(id[4..]);
    HexHasNoHyphen(id[..4]);
    HexHasNoHyphen(id[4..]);
    var fields := [version, e1, e2];
    assert Join(fields) == FormatXrayTraceId(version, id) by {
      assert Join(fields[1..]) == e1 + "-" + e2 by {
        assert fields[1..][1..] == [e2];
      }
    }
    SplitJoin(fields);
    EncodeHexAppend(id[..4], id[4..]);
    assert id[..4] + id[4..] == id;
    DecodeEncodeHex(id);
  }

  /** The decoding is not injective: the version field is dropped and the
      boundary between the second and third fields is not checked, so
      "1-58406520-a006649127e371903a2de979" and "2-5840652-0a006649127e371903a2de979"
      decode alike. */
  lemma {:induction false} ParseXrayTraceIdIgnoresVersionAndBoundary(
    v1: string, e1: string, u1: string, v2: string, e2: string, u2: string)
    requires NoHyphen(v1) && NoHyphen(e1) && NoHyphen(u1)
    requires NoHyphen(v2) && NoHyphen(e2) && NoHyphen(u2)
    requires e1 + u1 == e2 + u2
    ensures ParseXrayTraceId(v1 + "-" + e1 + "-" + u1) == ParseXrayTraceId(v2 + "-" + e2 + "-" + u2)
  {
    ThreeFields(v1, e1, u1);
    ThreeFields(v2, e2, u2);
  }

  lemma ThreeFields(v: string, e: string, u: string)
    requires NoHyphen(v) && NoHyphen(e) && NoHyphen(u)
    ensures Split(v + "-" + e + "-" + u) == [v, e, u]
  {
    var fs := [v, e, u];
    assert fs[1..][1..] == [u];
    assert Join(fs[1..][1..]) == u;
    assert Join(fs[1..]) == e + "-" + u;
    assert Join(fs) == v + "-" + (e + "-" + u);
    assert v + "-" + (e + "-" + u) == v + "-" + e + "-" + u;
    SplitJoin(fs);
  }
}
