/** The records in which a host reports what all scripts have printed: one line for each call, with the
    number of the node, the number of the call and the encoded output. */
module BulkRecords {
  import opened Wrappers
  import opened Decimals

  const PREFIX: string := "DBF_BULK"

  datatype Record = Record(index: int, call: nat, data: string)

  /** An encoding of outputs in one line of text, such as base64. */
  datatype Codec = Codec(encode: string -> string, decode: string -> Option<string>)

  /** The character is not in the text. */
  predicate Free(s: string, c: char) { c !in s }

  ghost predicate Sound(codec: Codec) {
    forall s: string {:trigger codec.encode(s)} ::
      codec.decode(codec.encode(s)) == Some(s) && Free(codec.encode(s), '\n')
  }

  // ---------------------------------------------------------------- lines

  /** A character in front of the first part */
  function ToFirst(c: char, parts: seq<string>): (r: seq<string>)
    ensures |r| == |parts|
  {
    if parts == [] then [] else [[c] + parts[0]] + parts[1..]
  }

  /** `strings.Split` at a character */
  function Split(s: string, c: char): (r: seq<string>)
    ensures r != []
  {
    if s == "" then [""] else if s[0] == c then [""] + Split(s[1..], c) else ToFirst(s[0], Split(s[1..], c))
  }

  /** `strings.SplitN`: at most `n` parts, the last of which is not split */
  function SplitN(s: string, c: char, n: nat): (r: seq<string>)
    decreases |s|
  {
    if s == "" || n <= 1 then [s]
    else if s[0] == c then [""] + SplitN(s[1..], c, n - 1)
    else ToFirst(s[0], SplitN(s[1..], c, n))
  }

  function Between(a: string, c: char, b: string): string { a + [c] + b }

  lemma BetweenFirst(a: string, c: char, b: string)
    requires a != ""
    ensures Between(a, c, b)[0] == a[0] && Between(a, c, b)[1..] == Between(a[1..], c, b) && [a[0]] + a[1..] == a
  {
    assert Between(a, c, b) == [a[0]] + Between(a[1..], c, b);
  }

  lemma {:induction false} SplitNNext(a: string, c: char, b: string, n: nat)
    requires n > 1 && Free(a, c)
    ensures SplitN(Between(a, c, b), c, n) == [a] + SplitN(b, c, n - 1)
  {
    if a == "" {
      assert Between(a, c, b)[1..] == b;
    } else {
      BetweenFirst(a, c, b);
      SplitNNext(a[1..], c, b, n);
    }
  }

  lemma {:induction false} SplitNext(a: string, c: char, b: string)
    requires Free(a, c)
    ensures Split(Between(a, c, b), c) == [a] + Split(b, c)
  {
    if a == "" {
      assert Between(a, c, b)[1..] == b;
    } else {
      BetweenFirst(a, c, b);
      SplitNext(a[1..], c, b);
    }
  }

  predicate IsBlank(line: string) { forall i :: 0 <= i < |line| ==> line[i] in " \t\r\n" }

  // ---------------------------------------------------------------- records

  function Line(r: Record, codec: Codec): string
    requires r.index >= 0
  {
    Fields(PREFIX, Decimal(r.index), Decimal(r.call), "OK", codec.encode(r.data))
  }

  function Tabbed(a: string, rest: string): string { Between(a, '\t', rest) }

  function Fields(a: string, b: string, c: string, d: string, e: string): string { Tabbed(a, Tabbed(b, Tabbed(c, Tabbed(d, e)))) }

  /** What a line says; none if it is not a record. A negative number of a call is no record either. */
  function ParseLine(line: string, codec: Codec): Option<Record> {
    var fields := SplitN(line, '\t', 5);
    if |fields| != 5 || fields[0] != PREFIX then None
    else
      var index, call, data := Atoi(fields[1]), Atoi(fields[2]), codec.decode(fields[4]);
      if index.None? || call.None? || fields[3] != "OK" || data.None? || call.value < 0 then None
      else Some(Record(index.value, call.value, data.value))
  }

  datatype LineKind = BlankLine | BadLine | RecordLine(record: Record)

  type Reader = string -> LineKind

  /** Lines are blank, or records, or neither. */
  function ReaderOf(codec: Codec): Reader {
    (line: string) =>
      if IsBlank(line) then BlankLine
      else
        var r := ParseLine(line, codec);
        if r.None? then BadLine else RecordLine(r.value)
  }

  lemma DecimalIsFree(n: nat)
    ensures Free(Decimal(n), '\t') && Free(Decimal(n), '\n')
  {
    var s := Decimal(n);
    assert forall i :: 0 <= i < |s| ==> '0' <= s[i];
  }

  lemma TabbedSplits(a: string, rest: string, n: nat, parts: seq<string>)
    requires Free(a, '\t') && n > 1 && SplitN(rest, '\t', n - 1) == parts
    ensures SplitN(Tabbed(a, rest), '\t', n) == [a] + parts
  {
    SplitNNext(a, '\t', rest, n);
  }

  lemma LastOne(e: string, n: nat)
    requires n == 1
    ensures SplitN(e, '\t', n) == [e]
  {
  }

  lemma FieldsSplit(a: string, b: string, c: string, d: string, e: string, n: nat)
    requires Free(a, '\t') && Free(b, '\t') && Free(c, '\t') && Free(d, '\t') && n == 5
    ensures SplitN(Fields(a, b, c, d, e), '\t', n) == [a] + ([b] + ([c] + ([d] + [e])))
  {
    LastOne(e, n - 4);
    TabbedSplits(d, e, n - 3, [e]);
    TabbedSplits(c, Tabbed(d, e), n - 2, [d] + [e]);
    TabbedSplits(b, Tabbed(c, Tabbed(d, e)), n - 1, [c] + ([d] + [e]));
    TabbedSplits(a, Tabbed(b, Tabbed(c, Tabbed(d, e))), n, [b] + ([c] + ([d] + [e])));
  }

  lemma LineParses(r: Record, codec: Codec)
    requires r.index >= 0 && Sound(codec)
    ensures ParseLine(Line(r, codec), codec) == Some(r)
  {
    DecimalIsFree(r.index);
    DecimalIsFree(r.call);
    FieldsSplit(PREFIX, Decimal(r.index), Decimal(r.call), "OK", codec.encode(r.data), 5);
    DecimalRoundTrip(r.index);
    DecimalRoundTrip(r.call);
  }

  lemma TabbedFree(a: string, rest: string, x: char)
    requires Free(a, x) && Free(rest, x) && x != '\t'
    ensures Free(Tabbed(a, rest), x)
  {
  }

  lemma FieldsFree(a: string, b: string, c: string, d: string, e: string, x: char)
    requires Free(a, x) && Free(b, x) && Free(c, x) && Free(d, x) && Free(e, x) && x != '\t'
    ensures Free(Fields(a, b, c, d, e), x)
  {
    TabbedFree(d, e, x);
    TabbedFree(c, Tabbed(d, e), x);
    TabbedFree(b, Tabbed(c, Tabbed(d, e)), x);
    TabbedFree(a, Tabbed(b, Tabbed(c, Tabbed(d, e))), x);
  }

  lemma LineIsOneLine(r: Record, codec: Codec)
    requires r.index >= 0 && Sound(codec)
    ensures !IsBlank(Line(r, codec)) && Free(Line(r, codec), '\n')
  {
    assert Line(r, codec)[0] == PREFIX[0];
    DecimalIsFree(r.index);
    DecimalIsFree(r.call);
    FieldsFree(PREFIX, Decimal(r.index), Decimal(r.call), "OK", codec.encode(r.data), '\n');
  }

  // ---------------------------------------------------------------- outputs

  type Outputs = map<int, seq<string>>

  function At(out: Outputs, index: int): seq<string> { if index in out then out[index] else [] }

  function Padded(s: seq<string>, n: nat): (r: seq<string>)
    ensures |r| == if |s| < n then n else |s|
    ensures forall i :: 0 <= i < |r| ==> r[i] == if i < |s| then s[i] else ""
  {
    if |s| < n then s + seq(n - |s|, i => "") else s
  }

  function Put(out: Outputs, r: Record): Outputs { out[r.index := Padded(At(out, r.index), r.call + 1)[r.call := r.data]] }

  function Collected(records: seq<Record>): Outputs {
    if records == [] then map[] else Put(Collected(records[..|records| - 1]), records[|records| - 1])
  }

  /** The records of the lines that are not blank, or none if one of them is not a record. */
  function Records(lines: seq<string>, read: Reader): Option<seq<Record>> {
    if lines == [] then Some([]) else WithLine(Records(lines[..|lines| - 1], read), read(lines[|lines| - 1]))
  }

  function WithLine(before: Option<seq<Record>>, line: LineKind): Option<seq<Record>> {
    if before.None? then None else
    match line
    case BlankLine => before
    case BadLine => None
    case RecordLine(r) => Some(before.value + [r])
  }

  lemma RecordsNext(lines: seq<string>, line: string, read: Reader)
    ensures Records(lines + [line], read) == WithLine(Records(lines, read), read(line))
  {
    assert (lines + [line])[..|lines|] == lines;
  }

  /** `parseBulkPlanOutput` */
  function Parsed(output: string, codec: Codec): Option<Outputs> {
    var records := Records(Split(output, '\n'), ReaderOf(codec));
    if records.None? || records.value == [] then None else Some(Collected(records.value))
  }

  method ParseBulkPlanOutput(output: string, codec: Codec) returns (r: Option<Outputs>)
    ensures r == Parsed(output, codec)
  {
    r := ReadLines(Split(output, '\n'), ReaderOf(codec));
  }

  method ReadLines(lines: seq<string>, read: Reader) returns (r: Option<Outputs>)
    ensures var records := Records(lines, read);
      r == if records.None? || records.value == [] then None else Some(Collected(records.value))
  {
    var out: Outputs := map[];
    var records := 0;
    ghost var seen: seq<Record> := [];
    for i := 0 to |lines|
      invariant Read(lines[..i], read, seen, out) && records == |seen|
    {
      assert lines[..i + 1] == lines[..i] + [lines[i]];
      ReadNext(lines[..i], lines[i], read, seen, out);
      match read(lines[i]) {
        case BlankLine => continue;
        case BadLine =>
          NoRecordsAfter(lines, i + 1, read);
          return None;
        case RecordLine(record) =>
          out := PutRecord(out, record);
          seen := seen + [record];
          records := records + 1;
      }
    }
    assert lines[..|lines|] == lines;
    r := if records == 0 then None else Some(out);
  }

  ghost predicate Read(lines: seq<string>, read: Reader, seen: seq<Record>, out: Outputs) {
    Records(lines, read) == Some(seen) && out == Collected(seen)
  }

  lemma ReadNext(before: seq<string>, line: string, read: Reader, seen: seq<Record>, out: Outputs)
    requires Read(before, read, seen, out)
    ensures match read(line)
      case BlankLine => Read(before + [line], read, seen, out)
      case BadLine => Records(before + [line], read).None?
      case RecordLine(r) => Read(before + [line], read, seen + [r], Put(out, r))
  {
    RecordsNext(before, line, read);
    if read(line).RecordLine? { CollectedNext(seen, read(line).record); }
  }

  lemma CollectedNext(seen: seq<Record>, r: Record)
    ensures Collected(seen + [r]) == Put(Collected(seen), r)
  {
    assert (seen + [r])[..|seen|] == seen;
  }

  /** Room is made for the call, if there is not enough, and its output is put there. */
  method PutRecord(start: Outputs, r: Record) returns (out: Outputs)
    ensures out == Put(start, r)
  {
    var results := At(start, r.index);
    while |results| <= r.call
      invariant results == Padded(At(start, r.index), |results|)
      invariant |At(start, r.index)| <= |results| && (|results| <= r.call + 1 || |results| == |At(start, r.index)|)
      decreases r.call + 1 - |results|
    {
      results := results + [""];
    }
    assert results == Padded(At(start, r.index), r.call + 1);
    out := start[r.index := results[r.call := r.data]];
  }

  lemma {:induction false} NoRecordsAfter(lines: seq<string>, n: nat, read: Reader)
    requires n <= |lines| && Records(lines[..n], read).None?
    ensures Records(lines, read).None?
    decreases |lines| - n
  {
    if n == |lines| { assert lines[..n] == lines; } else {
      assert lines[..n + 1][..n] == lines[..n];
      NoRecordsAfter(lines, n + 1, read);
    }
  }

  // ---------------------------------------------------------------- round trip

  function LinesOf(records: seq<Record>, codec: Codec): (lines: seq<string>)
    requires forall r :: r in records ==> r.index >= 0
    ensures |lines| == |records| && forall i :: 0 <= i < |lines| ==> lines[i] == Line(records[i], codec)
  {
    seq(|records|, i requires 0 <= i < |records| => assert records[i] in records; Line(records[i], codec))
  }

  function EndLine(line: string, rest: string): string { Between(line, '\n', rest) }

  function Ended(lines: seq<string>): string { if lines == [] then "" else EndLine(lines[0], Ended(lines[1..])) }

  lemma EndLineSplits(line: string, rest: string, lines: seq<string>)
    requires Free(line, '\n') && Split(rest, '\n') == lines
    ensures Split(EndLine(line, rest), '\n') == [line] + lines
  {
    SplitNext(line, '\n', rest);
  }

  /** What the host prints: the lines of the records, in some order. */
  function Printed(records: seq<Record>, codec: Codec): string
    requires forall r :: r in records ==> r.index >= 0
  {
    Ended(LinesOf(records, codec))
  }

  /** Lines that have been ended come apart again. */
  lemma {:induction false} EndedSplits(lines: seq<string>)
    requires forall i :: 0 <= i < |lines| ==> Free(lines[i], '\n')
    ensures Split(Ended(lines), '\n') == lines + [""]
  {
    if lines != [] {
      EndedSplits(lines[1..]);
      EndLineSplits(lines[0], Ended(lines[1..]), lines[1..] + [""]);
      assert lines + [""] == [lines[0]] + (lines[1..] + [""]);
    }
  }

  lemma {:induction false} LinesAreRecords(records: seq<Record>, lines: seq<string>, read: Reader)
    requires |lines| == |records| && forall i :: 0 <= i < |records| ==> read(lines[i]) == RecordLine(records[i])
    ensures Records(lines, read) == Some(records)
  {
    if records != [] {
      var n := |records| - 1;
      LinesAreRecords(records[..n], lines[..n], read);
      assert records[..n] + [records[n]] == records;
    }
  }

  /** What is printed is read back. */
  lemma PrintedParses(records: seq<Record>, codec: Codec)
    requires Sound(codec) && records != [] && forall r :: r in records ==> r.index >= 0
    ensures Parsed(Printed(records, codec), codec) == Some(Collected(records))
  {
    var lines, read := LinesOf(records, codec), ReaderOf(codec);
    forall i | 0 <= i < |records| ensures read(lines[i]) == RecordLine(records[i]) && Free(lines[i], '\n') {
      assert records[i] in records;
      LineIsOneLine(records[i], codec);
      LineParses(records[i], codec);
    }
    EndedSplits(lines);
    LinesAreRecords(records, lines, read);
    RecordsNext(lines, "", read);
  }

  /** The records report `results`: nothing else, and all of it. */
  ghost predicate Reports(records: seq<Record>, results: seq<seq<string>>) {
    && (forall r :: r in records ==> 0 <= r.index < |results| && r.call < |results[r.index]| && r.data == results[r.index][r.call])
    && (forall i, c :: 0 <= i < |results| && 0 <= c < |results[i]| ==> Record(i, c, results[i][c]) in records)
  }

  /** After some of the records: what has been reported is in place, and nothing is out of bounds. */
  ghost predicate InPlace(records: seq<Record>, results: seq<seq<string>>, out: Outputs) {
    && (forall i :: 0 <= i < |results| ==> |At(out, i)| <= |results[i]|)
    && (forall i, c :: 0 <= i < |results| && 0 <= c < |results[i]| && Record(i, c, results[i][c]) in records ==>
          c < |At(out, i)| && At(out, i)[c] == results[i][c])
  }

  lemma {:induction false} CollectedInPlace(records: seq<Record>, results: seq<seq<string>>)
    requires forall r :: r in records ==> 0 <= r.index < |results| && r.call < |results[r.index]| && r.data == results[r.index][r.call]
    ensures InPlace(records, results, Collected(records))
  {
    if records != [] {
      var front, last := records[..|records| - 1], records[|records| - 1];
      assert records == front + [last] && last in records;
      CollectedInPlace(front, results);
      InPlaceNext(front, results, Collected(front), last);
    }
  }

  lemma InPlaceNext(records: seq<Record>, results: seq<seq<string>>, out: Outputs, r: Record)
    requires InPlace(records, results, out)
    requires 0 <= r.index < |results| && r.call < |results[r.index]| && r.data == results[r.index][r.call]
    ensures InPlace(records + [r], results, Put(out, r))
  {
    var more := Put(out, r);
    forall i, c | 0 <= i < |results| && 0 <= c < |results[i]| && Record(i, c, results[i][c]) in records + [r]
      ensures c < |At(more, i)| && At(more, i)[c] == results[i][c]
    {
      if Record(i, c, results[i][c]) != r { assert Record(i, c, results[i][c]) in records; }
    }
  }

  /** In whatever order the records come, every node gets its results in the order of its calls. */
  lemma ReportsAreRestored(records: seq<Record>, results: seq<seq<string>>)
    requires Reports(records, results)
    ensures forall i :: 0 <= i < |results| ==> At(Collected(records), i) == results[i]
  {
    CollectedInPlace(records, results);
    forall i | 0 <= i < |results| ensures At(Collected(records), i) == results[i] {
      var got := At(Collected(records), i);
      forall c | 0 <= c < |results[i]| ensures c < |got| && got[c] == results[i][c] { assert Record(i, c, results[i][c]) in records; }
      if |results[i]| > 0 {
        var c := |results[i]| - 1;
        assert Record(i, c, results[i][c]) in records;
      }
    }
  }
}
