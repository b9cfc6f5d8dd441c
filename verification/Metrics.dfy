/**
 The worker's runtime counters: live-session gauges per agent and per tenant, lifetime
 totals, and the bounded buffer of stream rows waiting for JSONL export.
 */
module Metrics {
  import opened Basics

  const STREAM_EVENTS_MAXLEN: nat := 256
  const STREAM_ERROR_MAXLEN: nat := 500

  datatype Row =
    | SessionStarted(agent: string, tenant: string)
    | SessionFinished(agent: string, tenant: string)
    | SessionFailed(agent: string, tenant: string, error: string)
    | StreamOverflow(dropped: nat)

  /** Rows waiting for the next drain, and how many were dropped since the last one. */
  datatype Stream = Stream(pending: seq<Row>, overflow: nat)

  datatype Store = Store(
    started: nat,
    failures: nat,
    lastAgent: Option<string>,
    lastError: Option<string>,
    byAgent: map<string, nat>,
    byTenant: map<string, nat>,
    stream: Stream)

  const EMPTY_STORE := Store(0, 0, None, None, map[], map[], Stream([], 0))

  function Increment(counts: map<string, nat>, key: string): map<string, nat> {
    counts[key := Get(counts, key) + 1]
  }

  /** Drop one, removing the key at zero; an absent key stays absent (the floor). */
  function Decrement(counts: map<string, nat>, key: string): map<string, nat> {
    if Get(counts, key) > 1 then counts[key := counts[key] - 1] else counts - {key}
  }

  function Append(stream: Stream, row: Row): Stream {
    if |stream.pending| >= STREAM_EVENTS_MAXLEN then stream.(overflow := stream.overflow + 1)
    else stream.(pending := stream.pending + [row])
  }

  function Started(store: Store, agent: string, tenant: string): Store {
    store.(started := store.started + 1, lastAgent := Some(agent),
           byAgent := Increment(store.byAgent, agent),
           byTenant := Increment(store.byTenant, tenant),
           stream := Append(store.stream, SessionStarted(agent, tenant)))
  }

  function Finished(store: Store, agent: string, tenant: string): Store {
    store.(byAgent := Decrement(store.byAgent, agent),
           byTenant := Decrement(store.byTenant, tenant),
           stream := Append(store.stream, SessionFinished(agent, tenant)))
  }

  function Shorten(text: string): string {
    if |text| > STREAM_ERROR_MAXLEN then text[..STREAM_ERROR_MAXLEN] else text
  }

  function Failed(store: Store, agent: string, error: string, tenant: string): Store {
    store.(failures := store.failures + 1, lastAgent := Some(agent), lastError := Some(error),
           stream := Append(store.stream, SessionFailed(agent, tenant, Shorten(error))))
  }

  /** The rows one drain hands out: everything pending, then one overflow row if rows were lost. */
  function DrainedRows(stream: Stream): seq<Row> {
    stream.pending + if stream.overflow > 0 then [StreamOverflow(stream.overflow)] else []
  }

  /** What a start does to a gauge, the matching finish undoes, key presence included. */
  lemma DecrementUndoesIncrement(counts: map<string, nat>, key: string)
    requires AllPositive(counts)
    ensures AllPositive(Increment(counts, key))
    ensures Decrement(Increment(counts, key), key) == counts
  {
    if key !in counts {
      assert counts[key := 1] - {key} == counts;
    }
  }

  lemma IncrementGauge(counts: map<string, nat>, key: string)
    requires AllPositive(counts)
    ensures AllPositive(Increment(counts, key))
    ensures Total(Increment(counts, key)) == Total(counts) + 1
    ensures forall k :: Get(Increment(counts, key), k) == Get(counts, k) + if k == key then 1 else 0
  {
    TotalPut(counts, key, Get(counts, key) + 1);
  }

  /** Above the floor, a decrement takes exactly one off one key and leaves no zero behind. */
  lemma DecrementGauge(counts: map<string, nat>, key: string)
    requires AllPositive(counts) && key in counts
    ensures AllPositive(Decrement(counts, key))
    ensures Total(Decrement(counts, key)) + 1 == Total(counts)
    ensures forall k :: Get(Decrement(counts, key), k) + (if k == key then 1 else 0) == Get(counts, k)
  {
    if counts[key] > 1 {
      TotalPut(counts, key, counts[key] - 1);
    } else {
      TotalRemove(counts, key);
    }
  }

  /** The lock-guarded store itself; each method holds the lock for its whole body. */
  class RuntimeMetricsStore {
    var totalSessionsStarted: nat
    var totalSessionFailures: nat
    var lastRoutedAgent: Option<string>
    var lastError: Option<string>
    var sessionsByAgent: map<string, nat>
    var sessionsByTenant: map<string, nat>
    var streamEvents: seq<Row>
    var overflowSinceDrain: nat

    ghost function View(): Store
      reads this
    {
      Store(totalSessionsStarted, totalSessionFailures, lastRoutedAgent, lastError,
            sessionsByAgent, sessionsByTenant, Stream(streamEvents, overflowSinceDrain))
    }

    constructor ()
      ensures View() == EMPTY_STORE
    {
      totalSessionsStarted, totalSessionFailures := 0, 0;
      lastRoutedAgent, lastError := None, None;
      sessionsByAgent, sessionsByTenant := map[], map[];
      streamEvents, overflowSinceDrain := [], 0;
    }

    method AppendStreamEvent(row: Row)
      modifies this`streamEvents, this`overflowSinceDrain
      ensures View() == old(View()).(stream := Append(old(View()).stream, row))
    {
      if |streamEvents| >= STREAM_EVENTS_MAXLEN {
        overflowSinceDrain := overflowSinceDrain + 1;
        return;
      }
      streamEvents := streamEvents + [row];
    }

    method RecordSessionStarted(agent: string, tenant: string)
      modifies this
      ensures View() == Started(old(View()), agent, tenant)
    {
      totalSessionsStarted := totalSessionsStarted + 1;
      lastRoutedAgent := Some(agent);
      sessionsByAgent := sessionsByAgent[agent := Get(sessionsByAgent, agent) + 1];
      sessionsByTenant := sessionsByTenant[tenant := Get(sessionsByTenant, tenant) + 1];
      AppendStreamEvent(SessionStarted(agent, tenant));
    }

    static method DecrementCount(counts: map<string, nat>, key: string) returns (r: map<string, nat>)
      ensures r == Decrement(counts, key)
    {
      var nextValue := Get(counts, key) - 1;
      if nextValue > 0 {
        r := counts[key := nextValue];
      } else {
        r := counts - {key};
      }
    }

    method RecordSessionFinished(agent: string, tenant: string)
      modifies this
      ensures View() == Finished(old(View()), agent, tenant)
    {
      sessionsByAgent := DecrementCount(sessionsByAgent, agent);
      sessionsByTenant := DecrementCount(sessionsByTenant, tenant);
      AppendStreamEvent(SessionFinished(agent, tenant));
    }

    method RecordSessionFailure(agent: string, error: string, tenant: string)
      modifies this
      ensures View() == Failed(old(View()), agent, error, tenant)
    {
      lastRoutedAgent := Some(agent);
      totalSessionFailures := totalSessionFailures + 1;
      lastError := Some(error);
      AppendStreamEvent(SessionFailed(agent, tenant, Shorten(error)));
    }

    method DrainStreamEvents() returns (out: seq<Row>)
      modifies this
      ensures out == DrainedRows(old(View()).stream)
      ensures |out| == |old(streamEvents)| + (if old(overflowSinceDrain) > 0 then 1 else 0)
      ensures old(streamEvents) <= out
      ensures old(overflowSinceDrain) > 0 ==> out[|out| - 1] == StreamOverflow(old(overflowSinceDrain))
      ensures View() == old(View()).(stream := Stream([], 0))
    {
      out := streamEvents;
      streamEvents := [];
      var dropped := overflowSinceDrain;
      overflowSinceDrain := 0;
      if dropped > 0 {
        out := out + [StreamOverflow(dropped)];
      }
    }
  }
}
