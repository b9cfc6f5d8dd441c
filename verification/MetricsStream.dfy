/**
 The JSONL export: a sink numbering its lines, a reporter draining the store into it, and
 the accounting over any run of records and exports.
 */
module MetricsStream {
  import opened Basics
  import opened Metrics

  datatype Body = Snapshot | Event(row: Row)

  datatype Line = Line(seqNo: nat, body: Body)

  ghost predicate NumberedFrom(base: nat, lines: seq<Line>) {
    forall i :: 0 <= i < |lines| ==> lines[i].seqNo == base + i + 1
  }

  /** A sink and its file. Opening truncates the file but keeps counting; `base` is the count at the last opening. */
  datatype Sink = Sink(isOpen: bool, seqNo: nat, base: nat, lines: seq<Line>)

  const NEW_SINK := Sink(false, 0, 0, [])

  function OpenSink(s: Sink): Sink {
    Sink(true, s.seqNo, s.seqNo, [])
  }

  function WriteLine(s: Sink, body: Body): Sink {
    if s.isOpen then s.(seqNo := s.seqNo + 1, lines := s.lines + [Line(s.seqNo + 1, body)]) else s
  }

  /** The line numbers in the file are `base + 1`, ..., `seqNo`, with no gap. */
  ghost predicate Numbered(s: Sink) {
    NumberedFrom(s.base, s.lines) && s.base + |s.lines| == s.seqNo
  }

  class JsonlMetricsSink {
    var isOpen: bool
    var seqNo: nat
    var lines: seq<Line>
    ghost var base: nat

    ghost function View(): Sink
      reads this
    {
      Sink(isOpen, seqNo, base, lines)
    }

    ghost predicate Valid()
      reads this
    {
      Numbered(View())
    }

    constructor ()
      ensures Valid() && View() == NEW_SINK
    {
      isOpen, seqNo, lines, base := false, 0, [], 0;
    }

    method Open()
      requires Valid()
      modifies this
      ensures Valid() && View() == OpenSink(old(View()))
    {
      lines := [];
      isOpen := true;
      base := seqNo;
    }

    method Close()
      requires Valid()
      modifies this`isOpen
      ensures Valid() && View() == old(View()).(isOpen := false)
    {
      isOpen := false;
    }

    /** `false` is the `RuntimeError` of a sink that is not open. */
    method Write(body: Body) returns (ok: bool)
      requires Valid()
      modifies this`seqNo, this`lines
      ensures Valid() && ok == isOpen && View() == WriteLine(old(View()), body)
    {
      if !isOpen {
        return false;
      }
      seqNo := seqNo + 1;
      lines := lines + [Line(seqNo, body)];
      return true;
    }
  }

  datatype SinkOp = OpenFile | WriteBody(body: Body) | CloseFile

  function SinkRun(ops: seq<SinkOp>): Sink {
    if ops == [] then NEW_SINK
    else
      var before := SinkRun(ops[..|ops| - 1]);
      match ops[|ops| - 1]
      case OpenFile => OpenSink(before)
      case WriteBody(body) => WriteLine(before, body)
      case CloseFile => before.(isOpen := false)
  }

  /** How many lines the sink wrote before it was last opened. */
  function WrittenBefore(ops: seq<SinkOp>): nat {
    if ops == [] then 0
    else if ops[|ops| - 1].OpenFile? then LinesWritten(ops[..|ops| - 1])
    else WrittenBefore(ops[..|ops| - 1])
  }

  function LinesWritten(ops: seq<SinkOp>): nat {
    if ops == [] then 0
    else
      var init := ops[..|ops| - 1];
      LinesWritten(init) + if ops[|ops| - 1].WriteBody? && SinkRun(init).isOpen then 1 else 0
  }

  /**
   Over any run of one sink, the file's line numbers go on, without a gap, from the lines
   written before it was opened.
   */
  lemma {:induction false} LinesGoOn(ops: seq<SinkOp>)
    ensures Numbered(SinkRun(ops))
    ensures SinkRun(ops).base == WrittenBefore(ops) && SinkRun(ops).seqNo == LinesWritten(ops)
  {
    if ops != [] {
      LinesGoOn(ops[..|ops| - 1]);
    }
  }

  /** So a file is numbered 1, 2, ..., n exactly when it is empty, or nothing was written before it was opened. */
  lemma NumberedFromOneIffFirst(ops: seq<SinkOp>)
    ensures NumberedFrom(0, SinkRun(ops).lines) <==> SinkRun(ops).lines == [] || WrittenBefore(ops) == 0
  {
    LinesGoOn(ops);
    hide SinkRun, WrittenBefore;
    if SinkRun(ops).lines != [] {
      assert SinkRun(ops).lines[0].seqNo == WrittenBefore(ops) + 1;
    }
  }

  /** A second opening of the same sink starts its file at line 2. */
  lemma ReopenedGoesOn()
    ensures SinkRun([OpenFile, WriteBody(Snapshot), OpenFile, WriteBody(Snapshot)]).lines == [Line(2, Snapshot)]
  {
    var ops := [OpenFile, WriteBody(Snapshot), OpenFile, WriteBody(Snapshot)];
    assert ops[..3] == [OpenFile, WriteBody(Snapshot), OpenFile];
    assert ops[..3][..2] == [OpenFile, WriteBody(Snapshot)] && ops[..3][..2][..1] == [OpenFile]
      && [OpenFile][..0] == [];
    assert SinkRun([OpenFile]) == Sink(true, 0, 0, []);
    assert SinkRun([OpenFile, WriteBody(Snapshot)]) == Sink(true, 1, 0, [Line(1, Snapshot)]);
    assert SinkRun(ops[..3]) == Sink(true, 1, 1, []);
  }

  /** The file's contents after one event line per row. */
  function WriteRows(bodies: seq<Body>, rows: seq<Row>): seq<Body> {
    if rows == [] then bodies else WriteRows(bodies, rows[..|rows| - 1]) + [Event(rows[|rows| - 1])]
  }

  function Bodies(lines: seq<Line>): seq<Body> {
    if lines == [] then [] else Bodies(lines[..|lines| - 1]) + [lines[|lines| - 1].body]
  }

  lemma WriteRowsAppend(bodies: seq<Body>, rows: seq<Row>, row: Row)
    ensures WriteRows(bodies, rows + [row]) == WriteRows(bodies, rows) + [Event(row)]
  {
    assert (rows + [row])[..|rows|] == rows;
  }

  lemma BodiesAppend(lines: seq<Line>, line: Line)
    ensures Bodies(lines + [line]) == Bodies(lines) + [line.body]
  {
    assert (lines + [line])[..|lines|] == lines;
  }

  lemma {:induction false} WriteRowsAt(bodies: seq<Body>, rows: seq<Row>)
    ensures var out := WriteRows(bodies, rows);
            && |out| == |bodies| + |rows| && out[..|bodies|] == bodies
            && forall i :: 0 <= i < |rows| ==> out[|bodies| + i] == Event(rows[i])
  {
    if rows != [] {
      WriteRowsAt(bodies, rows[..|rows| - 1]);
    }
  }

  lemma {:induction false} BodiesAt(lines: seq<Line>)
    ensures |Bodies(lines)| == |lines| && forall i :: 0 <= i < |lines| ==> Bodies(lines)[i] == lines[i].body
  {
    if lines != [] {
      BodiesAt(lines[..|lines| - 1]);
    }
  }

  lemma WriteStep(lines: seq<Line>, before: seq<Body>, rows: seq<Row>, i: nat, line: Line)
    requires i < |rows| && line.body == Event(rows[i])
    requires Bodies(lines) == WriteRows(before, rows[..i])
    ensures Bodies(lines + [line]) == WriteRows(before, rows[..i + 1])
  {
    BodiesAppend(lines, line);
    WriteRowsAppend(before, rows[..i], rows[i]);
    assert rows[..i + 1] == rows[..i] + [rows[i]];
  }

  /**
   One reporter tick: a snapshot line, then every drained row. Without a sink it does nothing; on a
   sink that is not open the snapshot raises, and nothing has been drained.
   */
  method EmitJsonl(store: RuntimeMetricsStore, sink: JsonlMetricsSink?) returns (ok: bool)
    requires sink != null ==> sink.Valid()
    modifies store, sink
    ensures ok == (sink == null || sink.isOpen)
    ensures sink != null ==> sink.Valid() && sink.isOpen == old(sink.isOpen) && sink.base == old(sink.base)
    ensures sink == null || !ok
        ==> store.View() == old(store.View()) && (sink != null ==> sink.View() == old(sink.View()))
    ensures sink != null && ok ==> Bodies(sink.lines) == Tick(Bodies(old(sink.lines)), old(store.View()).stream)
    ensures sink != null && ok ==> store.View() == old(store.View()).(stream := Stream([], 0))
  {
    if sink == null {
      return true;
    }
    BodiesAppend(sink.lines, Line(sink.seqNo + 1, Snapshot));
    ok := sink.Write(Snapshot);
    if !ok {
      return;
    }
    var rows := store.DrainStreamEvents();
    WriteEvents(sink, rows);
  }

  method WriteEvents(sink: JsonlMetricsSink, rows: seq<Row>)
    requires sink.Valid() && sink.isOpen
    modifies sink`seqNo, sink`lines
    ensures sink.Valid()
    ensures Bodies(sink.lines) == WriteRows(Bodies(old(sink.lines)), rows)
  {
    ghost var before := Bodies(sink.lines);
    assert rows[..|rows|] == rows;
    for i := 0 to |rows|
      invariant sink.Valid() && sink.isOpen
      invariant Bodies(sink.lines) == WriteRows(before, rows[..i])
    {
      WriteStep(sink.lines, before, rows, i, Line(sink.seqNo + 1, Event(rows[i])));
      var _ := sink.Write(Event(rows[i]));
    }
  }

  function Tick(bodies: seq<Body>, stream: Stream): seq<Body> {
    WriteRows(bodies + [Snapshot], DrainedRows(stream))
  }

  /**
   What one tick adds to the file: the snapshot, the pending rows in order, and last, only if rows
   were dropped since the tick before, how many.
   */
  lemma TickShape(bodies: seq<Body>, stream: Stream)
    ensures var out, n, rows := Tick(bodies, stream), |bodies|, stream.pending;
            && |out| == n + 1 + |rows| + (if stream.overflow > 0 then 1 else 0)
            && out[..n] == bodies && out[n] == Snapshot
            && (forall i :: 0 <= i < |rows| ==> out[n + 1 + i] == Event(rows[i]))
            && (stream.overflow > 0 ==> out[|out| - 1] == Event(StreamOverflow(stream.overflow)))
  {
    hide WriteRows;
    var out, drained := Tick(bodies, stream), DrainedRows(stream);
    WriteRowsAt(bodies + [Snapshot], drained);
    forall i | 0 <= i < |stream.pending| ensures drained[i] == stream.pending[i] {
    }
    assert stream.overflow > 0 ==> drained[|drained| - 1] == StreamOverflow(stream.overflow);
    assert stream.overflow > 0 ==> out[|bodies| + 1 + (|drained| - 1)] == Event(drained[|drained| - 1]);
    assert out[..|bodies|] == out[..|bodies| + 1][..|bodies|];
    assert out[|bodies|] == out[..|bodies| + 1][|bodies|];
  }

  /** A run of the store's stream and the sink's file: session rows recorded, ticks emitted. */
  datatype Op = Record(row: Row) | Emit

  datatype Export = Export(stream: Stream, bodies: seq<Body>)

  function Run(ops: seq<Op>): Export {
    if ops == [] then Export(Stream([], 0), [])
    else
      var before := Run(ops[..|ops| - 1]);
      match ops[|ops| - 1]
      case Record(row) => before.(stream := Append(before.stream, row))
      case Emit => Export(Stream([], 0), Tick(before.bodies, before.stream))
  }

  /** The store records session rows only; overflow rows are made by a drain. */
  ghost predicate SessionRowsOnly(ops: seq<Op>) {
    forall op :: op in ops && op.Record? ==> !op.row.StreamOverflow?
  }

  function Recorded(ops: seq<Op>): seq<Row> {
    if ops == [] then []
    else Recorded(ops[..|ops| - 1]) + if ops[|ops| - 1].Record? then [ops[|ops| - 1].row] else []
  }

  /** The session rows that reached the file. */
  function Written(bodies: seq<Body>): seq<Row> {
    if bodies == [] then []
    else
      var last := bodies[|bodies| - 1];
      Written(bodies[..|bodies| - 1]) + if last.Event? && !last.row.StreamOverflow? then [last.row] else []
  }

  /** The sum of the file's overflow rows. */
  function ReportedLost(bodies: seq<Body>): nat {
    if bodies == [] then 0
    else
      var last := bodies[|bodies| - 1];
      ReportedLost(bodies[..|bodies| - 1]) + if last.Event? && last.row.StreamOverflow? then last.row.dropped else 0
  }

  lemma WrittenAppend(bodies: seq<Body>, body: Body)
    ensures Written(bodies + [body])
         == Written(bodies) + if body.Event? && !body.row.StreamOverflow? then [body.row] else []
    ensures ReportedLost(bodies + [body])
         == ReportedLost(bodies) + if body.Event? && body.row.StreamOverflow? then body.row.dropped else 0
  {
    assert (bodies + [body])[..|bodies|] == bodies;
  }

  lemma {:induction false} WrittenSessionRows(bodies: seq<Body>, rows: seq<Row>)
    requires forall row :: row in rows ==> !row.StreamOverflow?
    ensures Written(WriteRows(bodies, rows)) == Written(bodies) + rows
    ensures ReportedLost(WriteRows(bodies, rows)) == ReportedLost(bodies)
  {
    if rows != [] {
      var init, last := rows[..|rows| - 1], rows[|rows| - 1];
      assert rows == init + [last];
      hide Written, ReportedLost, WriteRows;
      WrittenSessionRows(bodies, init);
      WriteRowsAppend(bodies, init, last);
      WrittenAppend(WriteRows(bodies, init), Event(last));
      assert Written(bodies) + init + [last] == Written(bodies) + (init + [last]);
    }
  }

  lemma WrittenDrain(bodies: seq<Body>, stream: Stream)
    requires forall row :: row in stream.pending ==> !row.StreamOverflow?
    ensures Written(Tick(bodies, stream)) == Written(bodies) + stream.pending
    ensures ReportedLost(Tick(bodies, stream)) == ReportedLost(bodies) + stream.overflow
  {
    hide Written, ReportedLost;
    WrittenAppend(bodies, Snapshot);
    var mid := bodies + [Snapshot];
    WrittenSessionRows(mid, stream.pending);
    if stream.overflow > 0 {
      WrittenAppend(WriteRows(mid, stream.pending), Event(StreamOverflow(stream.overflow)));
      WriteRowsAppend(mid, stream.pending, StreamOverflow(stream.overflow));
    } else {
      assert DrainedRows(stream) == stream.pending;
    }
  }

  /**
   Over any run: every recorded row is in the file, in the buffer, or counted as lost by
   exactly one overflow counter; what reached the file (then the buffer) is in recording
   order; and the buffer never exceeds its bound.
   */
  lemma {:induction false} StreamAccounting(ops: seq<Op>)
    requires SessionRowsOnly(ops)
    ensures var e := Run(ops);
            && |Recorded(ops)| == |Written(e.bodies)| + |e.stream.pending| + ReportedLost(e.bodies) + e.stream.overflow
            && IsSubsequence(Written(e.bodies) + e.stream.pending, Recorded(ops))
            && |e.stream.pending| <= STREAM_EVENTS_MAXLEN
            && (e.stream.overflow > 0 ==> |e.stream.pending| == STREAM_EVENTS_MAXLEN)
            && forall row :: row in e.stream.pending ==> !row.StreamOverflow?
  {
    if ops != [] {
      hide Written, ReportedLost, Tick;
      var init, op := ops[..|ops| - 1], ops[|ops| - 1];
      StreamAccounting(init);
      var before, after := Run(init), Run(ops);
      var kept := Written(before.bodies) + before.stream.pending;
      match op {
        case Record(row) =>
          assert row == ops[|ops| - 1].row;
          if |before.stream.pending| >= STREAM_EVENTS_MAXLEN {
            SubsequenceSkip(kept, Recorded(init), row);
          } else {
            SubsequenceKeep(kept, Recorded(init), row);
            assert Written(after.bodies) + after.stream.pending == kept + [row];
          }
        case Emit =>
          WrittenDrain(before.bodies, before.stream);
          assert Written(after.bodies) + after.stream.pending == kept;
          assert Recorded(ops) == Recorded(init);
      }
    }
  }

  /** How many rows were recorded since the last tick. */
  function SinceTick(ops: seq<Op>): nat {
    if ops == [] || ops[|ops| - 1].Emit? then 0 else SinceTick(ops[..|ops| - 1]) + 1
  }

  function Lost(ops: seq<Op>): nat {
    ReportedLost(Run(ops).bodies) + Run(ops).stream.overflow
  }

  /** No gap between ticks ever held more rows than the buffer takes. */
  ghost predicate WithinBound(ops: seq<Op>) {
    SinceTick(ops) <= STREAM_EVENTS_MAXLEN && (ops != [] ==> WithinBound(ops[..|ops| - 1]))
  }

  /** The rows recorded since the last tick. */
  function GapRows(ops: seq<Op>): seq<Row> {
    if ops == [] || ops[|ops| - 1].Emit? then [] else GapRows(ops[..|ops| - 1]) + [ops[|ops| - 1].row]
  }

  lemma {:induction false} GapLength(ops: seq<Op>)
    ensures |GapRows(ops)| == SinceTick(ops)
  {
    if ops != [] && ops[|ops| - 1].Record? {
      GapLength(ops[..|ops| - 1]);
    }
  }

  function FirstOf(rows: seq<Row>, n: nat): seq<Row> {
    if |rows| > n then rows[..n] else rows
  }

  /** The buffer holds the first rows of the gap, up to its bound, and counts the others. */
  lemma {:induction false} BufferKeepsFirst(ops: seq<Op>)
    ensures var rows, stream := GapRows(ops), Run(ops).stream;
            stream.pending == FirstOf(rows, STREAM_EVENTS_MAXLEN) && stream.overflow == |rows| - |stream.pending|
  {
    if ops != [] && ops[|ops| - 1].Record? {
      BufferKeepsFirst(ops[..|ops| - 1]);
    }
  }

  /** So as many rows are dropped as a gap exceeds the bound by, and none are lost at all if and only if no gap does. */
  lemma {:induction false} LostExactlyOverBound(ops: seq<Op>)
    requires SessionRowsOnly(ops)
    ensures var n, stream := SinceTick(ops), Run(ops).stream;
            && |stream.pending| == (if n > STREAM_EVENTS_MAXLEN then STREAM_EVENTS_MAXLEN else n)
            && stream.overflow == n - |stream.pending|
    ensures Lost(ops) == 0 <==> WithinBound(ops)
  {
    BufferKeepsFirst(ops);
    GapLength(ops);
    if ops != [] {
      var init := ops[..|ops| - 1];
      LostExactlyOverBound(init);
      BufferKeepsFirst(init);
      GapLength(init);
      if ops[|ops| - 1].Emit? {
        StreamAccounting(init);
        WrittenDrain(Run(init).bodies, Run(init).stream);
      }
    }
  }

  /** File plus buffer are exactly what was recorded if and only if no gap between ticks overfilled the buffer. */
  lemma LosslessIffWithinBound(ops: seq<Op>)
    requires SessionRowsOnly(ops)
    ensures Written(Run(ops).bodies) + Run(ops).stream.pending == Recorded(ops) <==> WithinBound(ops)
  {
    StreamAccounting(ops);
    LostExactlyOverBound(ops);
    FullSubsequence(Written(Run(ops).bodies) + Run(ops).stream.pending, Recorded(ops));
  }

  lemma {:induction false} FullSubsequence<T>(a: seq<T>, b: seq<T>)
    requires IsSubsequence(a, b)
    ensures |a| <= |b| && (|a| == |b| ==> a == b)
    decreases |b|
  {
    if a != [] {
      var a', b' := a[..|a| - 1], b[..|b| - 1];
      if IsSubsequence(a, b') {
        FullSubsequence(a, b');
      } else {
        FullSubsequence(a', b');
        assert a == a' + [a[|a| - 1]] && b == b' + [b[|b| - 1]];
      }
    }
  }
}
