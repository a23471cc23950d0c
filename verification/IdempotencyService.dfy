/** `run` as the service writes it, alone on the table; a run of the key machine with one caller. */
module IdempotencyService {
  import opened Wrappers
  import opened Idempotency

  type RowKey = (nat, string)

  /** How each statement of one call ends, in the order they come. */
  datatype Fates = Fates(insert: Fate, select: Fate, reclaim: Fate, again: Fate, record: Fate, clear: Fate)

  /** What `run` leaves in the key's row, what it answers, and whether the handler was called. */
  datatype RunEffect = RunEffect(row: Option<Row>, answer: Answer, ran: bool)

  function Claim(call: Call, now: int): Row {
    Row(call.hash, false, None, None, now)
  }

  /** The row after a statement that would make it `after`. */
  function Effective(before: Option<Row>, after: Option<Row>, fate: Fate): Option<Row> {
    if fate == FailsWithoutEffect then before else after
  }

  /** The handler's end and its record; the key is cleared after an unexpected failure. */
  function Handled(row: Row, call: Call, end: HandlerEnd, fates: Fates): RunEffect {
    match end
    case Broke => RunEffect(Effective(Some(row), None, fates.clear), Unexpected, true)
    case Refused(refusal) =>
      RunEffect(Effective(Some(row), Some(row.(completed := true, response := Some(refusal))), fates.record),
                if fates.record == Works then Rejected(refusal) else Unexpected, true)
    case Returned(body, entry) =>
      var response := Response(call.success, body);
      var written := Some(row.(completed := true, response := Some(response), entry := entry));
      if fates.record == Works then RunEffect(written, Fresh(response), true)
      else RunEffect(Effective(Effective(Some(row), written, fates.record), None, fates.clear), Unexpected, true)
  }

  /** `run` on a key that has no row. */
  function Claimed(call: Call, now: int, end: HandlerEnd, insert: Fate, fates: Fates): RunEffect {
    if insert == Works then Handled(Claim(call, now), call, end, fates)
    else RunEffect(Effective(None, Some(Claim(call, now)), insert), Unexpected, false)
  }

  /** `handleExistingKey` on the row it finds, or on none. */
  function Existing(stale: int, row: Option<Row>, call: Call, now: int, end: HandlerEnd, fates: Fates): RunEffect {
    if fates.select != Works then RunEffect(row, Unexpected, false)
    else if row.None? then Claimed(call, now, end, fates.again, fates)
    else
      var r := row.value;
      if r.hash != call.hash then RunEffect(row, Mismatch, false)
      else if r.completed then
        RunEffect(row, if r.response.Some? then Replayed(r.response.value) else Unexpected, false)
      else if now - r.createdAt < stale then RunEffect(row, Conflict, false)
      else if fates.reclaim != Works then RunEffect(Effective(row, None, fates.reclaim), Unexpected, false)
      else Claimed(call, now, end, fates.again, fates)
  }

  function Answered(stale: int, row: Option<Row>, call: Call, now: int, end: HandlerEnd, fates: Fates): RunEffect {
    if row.None? then Claimed(call, now, end, fates.insert, fates)
    else if fates.insert != Works then RunEffect(row, Unexpected, false)
    else Existing(stale, row, call, now, end, fates)
  }

  predicate AllWork(fates: Fates) {
    fates == Fates(Works, Works, Works, Works, Works, Works)
  }

  /** The key is free, or its claim has reached the age at which it counts as abandoned. */
  predicate Claimable(stale: int, row: Option<Row>, call: Call, now: int) {
    row.None? || (row.value.hash == call.hash && !row.value.completed && now - row.value.createdAt >= stale)
  }

  /** A key that is not claimable is left as it is: another payload is refused, a young claim is a conflict, an outcome is replayed. */
  predicate LeftAlone(row: Row, call: Call, answer: Answer) {
    if row.hash != call.hash then answer == Mismatch
    else if !row.completed then answer == Conflict
    else row.response.Some? ==> answer == Replayed(row.response.value)
  }

  /** The handler ran once, and its end is stored and answered. */
  predicate RanOnce(call: Call, now: int, end: HandlerEnd, after: Option<Row>, answer: Answer) {
    match end
    case Returned(body, entry) =>
      var response := Response(call.success, body);
      answer == Fresh(response) && after == Some(Row(call.hash, true, Some(response), entry, now))
    case Refused(refusal) =>
      answer == Rejected(refusal) && after == Some(Row(call.hash, true, Some(refusal), None, now))
    case Broke => answer == Unexpected && after == None
  }

  /** What `run` does where every statement works. */
  predicate Undisturbed(stale: int, row: Option<Row>, call: Call, now: int, end: HandlerEnd, after: RunEffect) {
    if Claimable(stale, row, call, now) then after.ran && RanOnce(call, now, end, after.row, after.answer)
    else !after.ran && after.row == row && LeftAlone(row.value, call, after.answer)
  }

  lemma AnsweredUndisturbed(stale: int, row: Option<Row>, call: Call, now: int, end: HandlerEnd, fates: Fates)
    requires AllWork(fates)
    ensures Undisturbed(stale, row, call, now, end, Answered(stale, row, call, now, end, fates))
    ensures Undisturbed(stale, row, call, now, end, Existing(stale, row, call, now, end, fates))
  {
  }

  class Service {
    var rows: map<RowKey, Row>
    const staleMs: int

    constructor (staleMs: int)
      ensures rows == map[] && this.staleMs == staleMs
    {
      rows := map[];
      this.staleMs := staleMs;
    }

    function At(key: RowKey): Option<Row>
      reads this
    {
      if key in rows then Some(rows[key]) else None
    }

    /** Insert unless the key is there; says whether it did. */
    method Insert(key: RowKey, row: Row, fate: Fate) returns (inserted: Result<bool, ()>)
      modifies this
      ensures rows - {key} == old(rows) - {key}
      ensures At(key) == if old(At(key)).Some? then old(At(key)) else Effective(None, Some(row), fate)
      ensures inserted == if fate == Works then Ok(old(At(key)).None?) else Err(())
    {
      var missing := key !in rows;
      if missing && fate != FailsWithoutEffect {
        rows := rows[key := row];
      }
      return if fate == Works then Ok(missing) else Err(());
    }

    method Select(key: RowKey, fate: Fate) returns (found: Result<Option<Row>, ()>)
      ensures found == if fate == Works then Ok(At(key)) else Err(())
    {
      return if fate == Works then Ok(if key in rows then Some(rows[key]) else None) else Err(());
    }

    /** Mark the key's row completed with this response, and with this entry if one is given. */
    method Complete(key: RowKey, response: Response, entry: Option<Option<nat>>, fate: Fate) returns (ok: bool)
      requires key in rows
      modifies this
      ensures rows - {key} == old(rows) - {key} && key in rows && ok == (fate == Works)
      ensures var r := old(rows[key]);
              rows[key] == if fate == FailsWithoutEffect then r
                           else r.(completed := true, response := Some(response), entry := if entry.Some? then entry.value else r.entry)
    {
      ok := fate == Works;
      if fate != FailsWithoutEffect {
        var r := rows[key];
        rows := rows[key := r.(completed := true, response := Some(response), entry := if entry.Some? then entry.value else r.entry)];
      }
    }

    /** Delete the key's row, or only a PROCESSING one; says whether there was one to delete. */
    method Delete(key: RowKey, processingOnly: bool, fate: Fate) returns (deleted: Result<bool, ()>)
      modifies this
      ensures rows - {key} == old(rows) - {key}
      ensures var hit := old(At(key)).Some? && (processingOnly ==> !old(At(key)).value.completed);
              && At(key) == (if hit then Effective(old(At(key)), None, fate) else old(At(key)))
              && deleted == if fate == Works then Ok(hit) else Err(())
    {
      var hit := key in rows && (!processingOnly || !rows[key].completed);
      if hit && fate != FailsWithoutEffect {
        rows := rows - {key};
      }
      return if fate == Works then Ok(hit) else Err(());
    }

    /** One call with a key; `end` is how its handler would end. */
    method Run(key: RowKey, call: Call, now: int, end: HandlerEnd, fates: Fates) returns (answer: Answer, ran: bool)
      modifies this
      ensures RunEffect(At(key), answer, ran) == Answered(staleMs, old(At(key)), call, now, end, fates)
      ensures AllWork(fates) ==> Undisturbed(staleMs, old(At(key)), call, now, end, RunEffect(At(key), answer, ran))
      ensures rows - {key} == old(rows) - {key}
      decreases if key in rows then 3 else 0
    {
      if AllWork(fates) {
        AnsweredUndisturbed(staleMs, At(key), call, now, end, fates);
      }
      var inserted := Insert(key, Claim(call, now), fates.insert);
      if inserted.Err? {
        return Unexpected, false;
      }
      if !inserted.value {
        answer, ran := HandleExistingKey(key, call, now, end, fates);
      } else {
        answer := RunHandlerAndFinalize(key, call, end, fates);
        ran := true;
      }
    }

    method RunHandlerAndFinalize(key: RowKey, call: Call, end: HandlerEnd, fates: Fates) returns (answer: Answer)
      requires key in rows
      modifies this
      ensures RunEffect(At(key), answer, true) == Handled(old(rows[key]), call, end, fates)
      ensures rows - {key} == old(rows) - {key}
      decreases 0
    {
      match end {
        case Returned(body, entry) =>
          var response := Response(call.success, body);
          var updated := Complete(key, response, Some(entry), fates.record);
          if updated {
            return Fresh(response);
          }
          var _ := Delete(key, false, fates.clear);
          return Unexpected;
        case Refused(refusal) =>
          var updated := Complete(key, refusal, None, fates.record);
          return if updated then Rejected(refusal) else Unexpected;
        case Broke =>
          var _ := Delete(key, false, fates.clear);
          return Unexpected;
      }
    }

    method HandleExistingKey(key: RowKey, call: Call, now: int, end: HandlerEnd, fates: Fates)
      returns (answer: Answer, ran: bool)
      modifies this
      ensures RunEffect(At(key), answer, ran) == Existing(staleMs, old(At(key)), call, now, end, fates)
      ensures AllWork(fates) ==> Undisturbed(staleMs, old(At(key)), call, now, end, RunEffect(At(key), answer, ran))
      ensures rows - {key} == old(rows) - {key}
      decreases if key in rows then 2 else 1
    {
      if AllWork(fates) {
        AnsweredUndisturbed(staleMs, At(key), call, now, end, fates);
      }
      var found := Select(key, fates.select);
      if found.Err? {
        return Unexpected, false;
      }
      if found.value.None? {
        answer, ran := Run(key, call, now, end, fates.(insert := fates.again));
        return;
      }
      var existing := found.value.value;
      if existing.hash != call.hash {
        return Mismatch, false;
      }
      if !existing.completed {
        if now - existing.createdAt < staleMs {
          return Conflict, false;
        }
        var reclaimed := Delete(key, true, fates.reclaim);
        if reclaimed.Err? {
          return Unexpected, false;
        }
        answer, ran := Run(key, call, now, end, fates.(insert := fates.again));
        return;
      }
      return if existing.response.Some? then Replayed(existing.response.value) else Unexpected, false;
    }
  }

  // ---------------------------------------------------------------- the machine agrees

  /** One caller that has the key to itself. */
  predicate Solo(stale: int, h: Run, row: Option<Row>, call: Call, now: int, pc: Pc) {
    && IsRun(stale, h) && Now(h) == Keyed(row, now, [Caller(call, pc)])
  }

  /** The handler runs, commits the entry it will name, and ends. */
  lemma SoloHandler(stale: int, h: Run, row: Row, call: Call, now: int, end: HandlerEnd) returns (h': Run)
    requires Solo(stale, h, Some(row), call, now, Pc.Claimed)
    ensures Solo(stale, h', Some(row), call, now, Ended(call, end))
    ensures Starts(h') == Starts(h) + 1 && First(h') == First(h)
  {
    hide StatementOf;
    h' := Do(stale, h, 0, Begin);
    if end.Returned? && end.entry.Some? {
      h' := Do(stale, h', 0, Commit(end.entry.value));
    }
    h' := Do(stale, h', 0, End(end));
  }

  lemma SoloHandled(stale: int, h: Run, row: Row, call: Call, now: int, end: HandlerEnd, fates: Fates) returns (h': Run)
    requires Solo(stale, h, Some(row), call, now, Pc.Claimed)
    ensures var r := Handled(row, call, end, fates);
            r.ran && Solo(stale, h', r.row, call, now, Finished(r.answer)) && Starts(h') == Starts(h) + 1
    ensures First(h') == First(h)
  {
    h' := SoloHandler(stale, h, row, call, now, end);
    h' := Do(stale, h', 0, Statement(if end.Broke? then fates.clear else fates.record));
    if Now(h').callers[0].pc.Clearing? {
      h' := Do(stale, h', 0, Statement(fates.clear));
    }
  }

  lemma SoloClaimed(stale: int, h: Run, call: Call, now: int, end: HandlerEnd, insert: Fate, fates: Fates) returns (h': Run)
    requires Solo(stale, h, None, call, now, Arriving)
    ensures var r := Claimed(call, now, end, insert, fates);
            && Solo(stale, h', r.row, call, now, Finished(r.answer))
            && Starts(h') == Starts(h) + if r.ran then 1 else 0
    ensures First(h') == First(h)
  {
    hide Handled;
    h' := Do(stale, h, 0, Statement(insert));
    if insert == Works {
      h' := SoloHandled(stale, h', Claim(call, now), call, now, end, fates);
    }
  }

  lemma SoloExisting(stale: int, h: Run, row: Option<Row>, call: Call, now: int, end: HandlerEnd, fates: Fates) returns (h': Run)
    requires Solo(stale, h, row, call, now, Looking)
    ensures var r := Existing(stale, row, call, now, end, fates);
            && Solo(stale, h', r.row, call, now, Finished(r.answer))
            && Starts(h') == Starts(h) + if r.ran then 1 else 0
    ensures First(h') == First(h)
  {
    hide Claimed;
    h' := Do(stale, h, 0, Statement(fates.select));
    if fates.select == Works && row.None? {
      h' := SoloClaimed(stale, h', call, now, end, fates.again, fates);
    } else if fates.select == Works {
      h' := Do(stale, h', 0, Judge);
      if Now(h').callers[0].pc.Reclaiming? {
        h' := Do(stale, h', 0, Statement(fates.reclaim));
        if fates.reclaim == Works {
          h' := SoloClaimed(stale, h', call, now, end, fates.again, fates);
        }
      }
    }
  }

  /** The service's answer and row are those of a run of the machine in which nobody interferes. */
  lemma ServiceIsSoloRun(stale: int, row: Option<Row>, call: Call, now: int, end: HandlerEnd, fates: Fates) returns (h: Run)
    requires row.Some? ==> RowOk(row.value)
    ensures var r := Answered(stale, row, call, now, end, fates);
            && IsRun(stale, h) && First(h) == Keyed(row, now, [Caller(call, Arriving)])
            && Now(h).row == r.row && Now(h).callers == [Caller(call, Finished(r.answer))]
            && Starts(h) == if r.ran then 1 else 0
  {
    hide Claimed, Existing;
    h := Begun(Keyed(row, now, [Caller(call, Arriving)]));
    if row.None? {
      h := SoloClaimed(stale, h, call, now, end, fates.insert, fates);
    } else {
      h := Do(stale, h, 0, Statement(fates.insert));
      if fates.insert == Works {
        h := SoloExisting(stale, h, row, call, now, end, fates);
      }
    }
  }
}
