/**
 Life events and their outbox rows: `appendEvent` in src/services/core.js.
 */
module EventLog {

  datatype Aggregate = Aggregate(kind: string, id: string)

  datatype Event = Event(aggregate: Aggregate, seqNo: nat, eventType: string)

  /** `outbox` holds the position of the event each row publishes. */
  datatype Log = Log(events: seq<Event>, outbox: seq<nat>)

  /** `COALESCE(MAX(aggregate_seq), 0)` over the events of one aggregate. */
  function LastSeq(events: seq<Event>, aggregate: Aggregate): nat {
    if events == [] then 0
    else
      var last, before := events[|events| - 1], LastSeq(events[..|events| - 1], aggregate);
      if last.aggregate == aggregate && last.seqNo > before then last.seqNo else before
  }

  function Append(log: Log, aggregate: Aggregate, eventType: string): Log {
    Log(log.events + [Event(aggregate, LastSeq(log.events, aggregate) + 1, eventType)], log.outbox + [|log.events|])
  }

  function CountOf(events: seq<Event>, aggregate: Aggregate): nat {
    if events == [] then 0
    else CountOf(events[..|events| - 1], aggregate) + if events[|events| - 1].aggregate == aggregate then 1 else 0
  }

  /** Each aggregate's events are numbered 1, 2, 3, … in order, and each event has exactly one outbox row. */
  predicate Numbered(log: Log) {
    && (forall i :: 0 <= i < |log.events| ==>
          log.events[i].seqNo == CountOf(log.events[..i], log.events[i].aggregate) + 1)
    && |log.outbox| == |log.events| && (forall i :: 0 <= i < |log.outbox| ==> log.outbox[i] == i)
  }

  lemma {:induction false} LastSeqIsCount(events: seq<Event>, aggregate: Aggregate)
    requires forall i :: 0 <= i < |events| ==> events[i].seqNo == CountOf(events[..i], events[i].aggregate) + 1
    ensures LastSeq(events, aggregate) == CountOf(events, aggregate)
  {
    if events == [] {
    } else {
      var n := |events| - 1;
      assert forall i :: 0 <= i < n ==> events[..n][..i] == events[..i];
      LastSeqIsCount(events[..n], aggregate);
      assert events[..n + 1][..n] == events[..n];
    }
  }

  lemma AppendKeepsNumbered(log: Log, aggregate: Aggregate, eventType: string)
    requires Numbered(log)
    ensures Numbered(Append(log, aggregate, eventType))
  {
    LastSeqIsCount(log.events, aggregate);
    hide LastSeq, CountOf;
    var n, events := |log.events|, Append(log, aggregate, eventType).events;
    forall i | 0 <= i < |events| ensures events[i].seqNo == CountOf(events[..i], events[i].aggregate) + 1 {
      if i < n {
        assert events[..i] == log.events[..i];
      } else {
        assert events[..i] == log.events;
      }
    }
  }

  /** No two events of one aggregate share a number, and later ones have higher numbers. */
  lemma {:induction false} NumbersRise(log: Log, i: nat, j: nat)
    requires Numbered(log) && i < j < |log.events| && log.events[i].aggregate == log.events[j].aggregate
    ensures log.events[i].seqNo < log.events[j].seqNo
  {
    CountRises(log.events, i, j);
  }

  lemma {:induction false} CountRises(events: seq<Event>, i: nat, j: nat)
    requires i < j <= |events|
    ensures CountOf(events[..i], events[i].aggregate) < CountOf(events[..j], events[i].aggregate)
    decreases j
  {
    assert events[..j][..j - 1] == events[..j - 1];
    if i == j - 1 {
    } else {
      CountRises(events, i, j - 1);
    }
  }
}
