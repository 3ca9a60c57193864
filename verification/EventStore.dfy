/** The durable event table: append-only, with contiguous sequences per run, and atomic batches. */
module EventStore {
  import opened Events

  const CURRENT_SCHEMA_VERSION := 1

  /** An event before the store has numbered it; its constructor has checked id and version. */
  datatype NewRunEvent = NewRunEvent(eventId: string, event: Event, schemaVersion: int) {
    predicate Valid() {
      !Blank(eventId) && schemaVersion >= 1
    }
  }

  datatype RunEvent = RunEvent(eventId: string, runId: string, sequence: int, event: Event, schemaVersion: int)

  /* ---------------------------------------------------------------- streams */

  /** The rows of one run, in the order in which they were stored. */
  function Stream(rows: seq<RunEvent>, runId: string): seq<RunEvent> {
    if rows == [] then []
    else Stream(rows[..|rows| - 1], runId) + (if rows[|rows| - 1].runId == runId then [rows[|rows| - 1]] else [])
  }

  function EventsOf(stream: seq<RunEvent>): (r: seq<Event>)
    ensures |r| == |stream|
  {
    if stream == [] then [] else EventsOf(stream[..|stream| - 1]) + [stream[|stream| - 1].event]
  }

  /** Sequences are exactly 1, 2, 3 and so on. */
  predicate Contiguous(stream: seq<RunEvent>) {
    forall i | 0 <= i < |stream| :: stream[i].sequence == i + 1
  }

  predicate HasId(rows: seq<RunEvent>, id: string) {
    exists i | 0 <= i < |rows| :: rows[i].eventId == id
  }

  /** The batch as it is stored when the run already has `stored` events. */
  function Numbered(runId: string, events: seq<NewRunEvent>, stored: nat): (r: seq<RunEvent>)
    ensures |r| == |events|
  {
    if events == [] then []
    else
      var n := |events| - 1;
      Numbered(runId, events[..n], stored)
      + [RunEvent(events[n].eventId, runId, stored + n + 1, events[n].event, events[n].schemaVersion)]
  }

  /** Every id of the batch is new: neither in the table nor earlier in the batch. */
  predicate Insertable(rows: seq<RunEvent>, events: seq<NewRunEvent>) {
    && (forall i | 0 <= i < |events| :: !HasId(rows, events[i].eventId))
    && (forall i, j | 0 <= i < j < |events| :: events[i].eventId != events[j].eventId)
  }

  lemma {:induction false} StreamSnoc(rows: seq<RunEvent>, row: RunEvent, runId: string)
    ensures Stream(rows + [row], runId) == Stream(rows, runId) + (if row.runId == runId then [row] else [])
  {
    assert (rows + [row])[..|rows + [row]| - 1] == rows;
  }

  lemma {:induction false} StreamRows(rows: seq<RunEvent>, runId: string)
    ensures forall i | 0 <= i < |Stream(rows, runId)| :: Stream(rows, runId)[i].runId == runId
  {
    if rows != [] {
      StreamRows(rows[..|rows| - 1], runId);
    }
  }

  lemma {:induction false} EventsAt(stream: seq<RunEvent>, i: nat)
    requires i < |stream|
    ensures EventsOf(stream)[i] == stream[i].event
  {
    if i < |stream| - 1 {
      EventsAt(stream[..|stream| - 1], i);
    }
  }

  lemma {:induction false} EventsSnoc(stream: seq<RunEvent>, row: RunEvent)
    ensures EventsOf(stream + [row]) == EventsOf(stream) + [row.event]
  {
    assert (stream + [row])[..|stream + [row]| - 1] == stream;
  }

  lemma {:induction false} NumberedAt(runId: string, events: seq<NewRunEvent>, stored: nat, i: nat)
    requires i < |events|
    ensures Numbered(runId, events, stored)[i]
         == RunEvent(events[i].eventId, runId, stored + i + 1, events[i].event, events[i].schemaVersion)
  {
    if i < |events| - 1 {
      NumberedAt(runId, events[..|events| - 1], stored, i);
    }
  }

  /** Storing a numbered batch extends the stream of its run and leaves every other stream as it is. */
  lemma {:induction false} StreamConcat(a: seq<RunEvent>, b: seq<RunEvent>, runId: string)
    ensures Stream(a + b, runId) == Stream(a, runId) + Stream(b, runId)
  {
    if b == [] {
      assert a + b == a;
    } else {
      StreamConcat(a, b[..|b| - 1], runId);
      assert a + b == (a + b[..|b| - 1]) + [b[|b| - 1]];
      StreamSnoc(a + b[..|b| - 1], b[|b| - 1], runId);
    }
  }

  lemma {:induction false} StreamOfOneRun(rows: seq<RunEvent>, runId: string, other: string)
    requires forall i | 0 <= i < |rows| :: rows[i].runId == runId
    ensures Stream(rows, other) == if other == runId then rows else []
  {
    if rows != [] {
      StreamOfOneRun(rows[..|rows| - 1], runId, other);
    }
  }

  lemma {:induction false} StreamAfterBatch(rows: seq<RunEvent>, runId: string, events: seq<NewRunEvent>, stored: nat, other: string)
    ensures Stream(rows + Numbered(runId, events, stored), other)
         == Stream(rows, other) + (if other == runId then Numbered(runId, events, stored) else [])
  {
    hide Stream, Numbered;
    forall i | 0 <= i < |events| ensures Numbered(runId, events, stored)[i].runId == runId {
      NumberedAt(runId, events, stored, i);
    }
    StreamConcat(rows, Numbered(runId, events, stored), other);
    StreamOfOneRun(Numbered(runId, events, stored), runId, other);
  }

  lemma {:induction false} ContiguousAfterBatch(stream: seq<RunEvent>, runId: string, events: seq<NewRunEvent>)
    requires Contiguous(stream)
    ensures Contiguous(stream + Numbered(runId, events, |stream|))
  {
    var all := stream + Numbered(runId, events, |stream|);
    forall i | 0 <= i < |all| ensures all[i].sequence == i + 1 {
      if i >= |stream| {
        NumberedAt(runId, events, |stream|, i - |stream|);
      }
    }
  }

  /* ---------------------------------------------------------------- the store */

  class SQLiteEventStore {
    var rows: seq<RunEvent>

    /** Sequences are contiguous in every run, and event ids are unique over the whole table. */
    ghost predicate Valid()
      reads this
    {
      && (forall runId: string :: Contiguous(Stream(rows, runId)))
      && (forall i, j | 0 <= i < j < |rows| :: rows[i].eventId != rows[j].eventId)
    }

    constructor ()
      ensures Valid() && rows == []
    {
      rows := [];
    }

    /** `SELECT COALESCE(MAX(sequence), 0)`. */
    method LastSequence(runId: string) returns (last: nat)
      requires Valid()
      ensures last == |Stream(rows, runId)|
    {
      last := 0;
      var i := 0;
      while i < |rows|
        invariant 0 <= i <= |rows|
        invariant last == |Stream(rows[..i], runId)|
        invariant Stream(rows[..i], runId) <= Stream(rows, runId)
      {
        assert rows[..i + 1] == rows[..i] + [rows[i]];
        StreamSnoc(rows[..i], rows[i], runId);
        StreamPrefix(rows, i + 1, runId);
        if rows[i].runId == runId {
          var at := |Stream(rows[..i], runId)|;
          assert Stream(rows, runId)[at] == Stream(rows[..i + 1], runId)[at] == rows[i];
          if rows[i].sequence > last {
            last := rows[i].sequence;
          }
        }
        i := i + 1;
      }
      assert rows[..i] == rows;
    }

    /** The whole batch is stored with the next sequences of its run, or, when some id is taken, nothing is. None stands
        for the error. */
    method AppendBatch(runId: string, events: seq<NewRunEvent>) returns (r: Option<seq<RunEvent>>)
      requires Valid() && forall i | 0 <= i < |events| :: events[i].Valid()
      modifies this
      ensures Valid()
      ensures r.Some? <==> !Blank(runId) && Insertable(old(rows), events)
      ensures r.Some? ==> r.value == Numbered(runId, events, |Stream(old(rows), runId)|) && rows == old(rows) + r.value
      ensures r.None? ==> rows == old(rows)
    {
      if Blank(runId) {
        return None;
      }
      if events == [] {
        return Some([]);
      }
      var before := rows;
      var last := LastSequence(runId);
      var stored: seq<RunEvent> := [];
      var i := 0;
      while i < |events|
        invariant 0 <= i <= |events| && last == |Stream(before, runId)|
        invariant stored == Numbered(runId, events[..i], last) && rows == before + stored
        invariant Insertable(before, events[..i])
      {
        assert events[..i + 1][..i] == events[..i];
        var taken := IdTaken(events[i].eventId);
        StoredIds(before, runId, events[..i], last, events[i].eventId);
        if taken {
          rows := before;
          NotInsertable(before, events, i);
          return None;
        }
        stored := stored + [RunEvent(events[i].eventId, runId, last + i + 1, events[i].event, events[i].schemaVersion)];
        rows := before + stored;
        i := i + 1;
      }
      assert events[..i] == events;
      BatchKeepsValid(before, runId, events);
      return Some(stored);
    }

    /** The UNIQUE constraint. */
    method IdTaken(id: string) returns (taken: bool)
      ensures taken <==> HasId(rows, id)
    {
      var i := 0;
      while i < |rows|
        invariant 0 <= i <= |rows| && forall k | 0 <= k < i :: rows[k].eventId != id
      {
        if rows[i].eventId == id {
          return true;
        }
        i := i + 1;
      }
      return false;
    }

    method Append(runId: string, event: NewRunEvent) returns (r: Option<RunEvent>)
      requires Valid() && event.Valid()
      modifies this
      ensures Valid()
      ensures r.Some? <==> !Blank(runId) && !HasId(old(rows), event.eventId)
      ensures r.Some? ==> r.value == RunEvent(event.eventId, runId, |Stream(old(rows), runId)| + 1, event.event, event.schemaVersion)
                          && rows == old(rows) + [r.value]
      ensures r.None? ==> rows == old(rows)
    {
      var appended := AppendBatch(runId, [event]);
      NumberedAt(runId, [event], |Stream(old(rows), runId)|, 0);
      if appended.None? {
        return None;
      }
      return Some(appended.value[0]);
    }

    /** The events of a run after a sequence, in order: the suffix of its stream. */
    method Replay(runId: string, after: int) returns (r: Option<seq<RunEvent>>)
      requires Valid()
      ensures r.Some? <==> !Blank(runId) && after >= 0
      ensures r.Some? ==> r.value == if after <= |Stream(rows, runId)| then Stream(rows, runId)[after..] else []
    {
      if Blank(runId) || after < 0 {
        return None;
      }
      var found: seq<RunEvent> := [];
      var i := 0;
      while i < |rows|
        invariant 0 <= i <= |rows|
        invariant found == Suffix(Stream(rows[..i], runId), after)
        invariant Stream(rows[..i], runId) <= Stream(rows, runId)
      {
        assert rows[..i + 1] == rows[..i] + [rows[i]];
        StreamSnoc(rows[..i], rows[i], runId);
        StreamPrefix(rows, i + 1, runId);
        if rows[i].runId == runId {
          var at := |Stream(rows[..i], runId)|;
          assert Stream(rows, runId)[at] == Stream(rows[..i + 1], runId)[at] == rows[i];
          if rows[i].sequence > after {
            found := found + [rows[i]];
          }
        }
        i := i + 1;
      }
      assert rows[..i] == rows;
      return Some(found);
    }
  }

  function Suffix(stream: seq<RunEvent>, after: nat): seq<RunEvent> {
    if after <= |stream| then stream[after..] else []
  }

  lemma {:induction false} StreamPrefix(rows: seq<RunEvent>, i: nat, runId: string)
    requires i <= |rows|
    ensures Stream(rows[..i], runId) <= Stream(rows, runId)
  {
    if i < |rows| {
      StreamPrefix(rows[..|rows| - 1], i, runId);
      assert rows[..|rows| - 1][..i] == rows[..i];
    } else {
      assert rows[..i] == rows;
    }
  }

  lemma {:induction false} StoredIds(rows: seq<RunEvent>, runId: string, events: seq<NewRunEvent>, stored: nat, id: string)
    ensures HasId(rows + Numbered(runId, events, stored), id)
            <==> HasId(rows, id) || exists i | 0 <= i < |events| :: events[i].eventId == id
  {
    var all := rows + Numbered(runId, events, stored);
    forall i | 0 <= i < |events| ensures all[|rows| + i].eventId == events[i].eventId {
      NumberedAt(runId, events, stored, i);
    }
    if HasId(rows, id) {
      var i :| 0 <= i < |rows| && rows[i].eventId == id;
      assert all[i].eventId == id;
    }
    if HasId(all, id) && !HasId(rows, id) {
      var i :| 0 <= i < |all| && all[i].eventId == id;
      assert i >= |rows|;
      assert events[i - |rows|].eventId == all[|rows| + (i - |rows|)].eventId;
    }
  }

  lemma {:induction false} NotInsertable(rows: seq<RunEvent>, events: seq<NewRunEvent>, i: nat)
    requires i < |events|
    requires HasId(rows, events[i].eventId) || exists j | 0 <= j < i :: events[..i][j].eventId == events[i].eventId
    ensures !Insertable(rows, events)
  {
  }

  lemma {:induction false} BatchKeepsValid(rows: seq<RunEvent>, runId: string, events: seq<NewRunEvent>)
    requires forall other: string :: Contiguous(Stream(rows, other))
    requires forall i, j | 0 <= i < j < |rows| :: rows[i].eventId != rows[j].eventId
    requires Insertable(rows, events)
    ensures var all := rows + Numbered(runId, events, |Stream(rows, runId)|);
            && (forall other: string :: Contiguous(Stream(all, other)))
            && (forall i, j | 0 <= i < j < |all| :: all[i].eventId != all[j].eventId)
  {
    hide Stream, Contiguous, Numbered;
    var stored := |Stream(rows, runId)|;
    var all := rows + Numbered(runId, events, stored);
    forall other: string ensures Contiguous(Stream(all, other)) {
      StreamAfterBatch(rows, runId, events, stored, other);
      ContiguousAfterBatch(Stream(rows, runId), runId, events);
      assert Stream(rows, other) + [] == Stream(rows, other);
    }
    forall i, j | 0 <= i < j < |all| ensures all[i].eventId != all[j].eventId {
      if j >= |rows| {
        NumberedAt(runId, events, stored, j - |rows|);
        if i >= |rows| {
          NumberedAt(runId, events, stored, i - |rows|);
        }
      }
    }
  }

  /* ---------------------------------------------------------------- any interleaving */

  /** A table after a list of batches, each stored whole or not at all. */
  function AfterBatches(batches: seq<(string, seq<NewRunEvent>)>): seq<RunEvent> {
    if batches == [] then []
    else
      var rows := AfterBatches(batches[..|batches| - 1]);
      var batch := batches[|batches| - 1];
      if !Blank(batch.0) && Insertable(rows, batch.1) then rows + Numbered(batch.0, batch.1, |Stream(rows, batch.0)|) else rows
  }

  /** However the batches of different runs interleave, and whichever of them fail, the stored sequences of every run are
      exactly 1 to n. */
  lemma {:induction false} InterleavingsStayContiguous(batches: seq<(string, seq<NewRunEvent>)>, runId: string)
    ensures Contiguous(Stream(AfterBatches(batches), runId))
  {
    if batches != [] {
      var rows := AfterBatches(batches[..|batches| - 1]);
      var batch := batches[|batches| - 1];
      InterleavingsStayContiguous(batches[..|batches| - 1], runId);
      StreamAfterBatch(rows, batch.0, batch.1, |Stream(rows, batch.0)|, runId);
      if runId == batch.0 {
        ContiguousAfterBatch(Stream(rows, runId), runId, batch.1);
      } else {
        assert Stream(rows, runId) + [] == Stream(rows, runId);
      }
    }
  }
}
