/**
 One (user, key) row of `idempotency_keys` and any number of calls of `run` with that key, one SQL
 statement at a time in any order.  Statements may work, fail without effect, or take effect and still
 report failure; callers may crash anywhere; the clock moves when it likes.
 */
module Idempotency {
  import opened Wrappers
  import opened Sums

  datatype Response = Response(status: int, body: string)

  /** `response` is set together with COMPLETED; `entry` is null for refusals. */
  datatype Row = Row(hash: string, completed: bool, response: Option<Response>, entry: Option<nat>, createdAt: int)

  /** `requestHash` and `successStatus` of one call. */
  datatype Call = Call(hash: string, success: int)

  /** A handler's end: a body and perhaps an entry id, an `HttpException`, or anything else thrown. */
  datatype HandlerEnd = Returned(body: string, entry: Option<nat>) | Refused(refusal: Response) | Broke

  /** What the caller of `run` gets. */
  datatype Answer =
    | Fresh(response: Response)
    | Replayed(response: Response)
    | Rejected(response: Response)
    | Mismatch
    | Conflict
    | Unexpected

  /** The next statement a call will execute, with the values it holds. */
  datatype Pc =
    | Arriving                                             // INSERT ... ON CONFLICT DO NOTHING
    | Looking                                              // SELECT
    | Seen(row: Row)                                       // decide on what was read
    | Reclaiming(stale: Row)                               // DELETE ... AND status = PROCESSING
    | Claimed                                              // call the handler
    | Running                                              // inside the handler
    | Committed(posted: nat)                               // inside it, its ledger transaction committed
    | Finalizing(response: Response, entry: Option<nat>)   // UPDATE with the success
    | Recording(response: Response)                        // UPDATE with the refusal
    | Clearing                                             // DELETE after an unexpected failure
    | Finished(answer: Answer)
    | Crashed

  datatype Caller = Caller(call: Call, pc: Pc)

  datatype Keyed = Keyed(row: Option<Row>, clock: int, callers: seq<Caller>)

  datatype Move =
    | Statement(fate: Fate)
    | Judge
    | Begin
    | Commit(entry: nat)
    | End(end: HandlerEnd)
    | Crash
    | Tick(delay: nat)

  // ---------------------------------------------------------------- steps

  predicate IsProcessing(row: Option<Row>) { row.Some? && !row.value.completed }

  function Present(row: Option<Row>): nat { if row.Some? then 1 else 0 }

  datatype Effect = Effect(row: Option<Row>, works: Pc, fails: Pc)

  /** What the next statement does to the row, and where it leads when it works and when it fails. */
  function StatementOf(row: Option<Row>, clock: int, c: Caller): Option<Effect> {
    match c.pc
    case Arriving => Some(
      if row.Some? then Effect(row, Looking, Finished(Unexpected))
      else Effect(Some(Row(c.call.hash, false, None, None, clock)), Claimed, Finished(Unexpected)))
    case Looking => Some(
      if row.Some? then Effect(row, Seen(row.value), Finished(Unexpected))
      else Effect(row, Arriving, Finished(Unexpected)))
    case Reclaiming(_) => Some(
      if IsProcessing(row) then Effect(None, Arriving, Finished(Unexpected))
      else Effect(row, Looking, Finished(Unexpected)))
    case Finalizing(response, entry) => Some(Effect(
      if row.Some? then Some(row.value.(completed := true, response := Some(response), entry := entry)) else None,
      Finished(Fresh(response)), Clearing))
    case Recording(response) => Some(Effect(
      if row.Some? then Some(row.value.(completed := true, response := Some(response))) else None,
      Finished(Rejected(response)), Finished(Unexpected)))
    case Clearing => Some(Effect(None, Finished(Unexpected), Finished(Unexpected)))
    case _ => None
  }

  /** `handleExistingKey` after its SELECT found a row. */
  function Judged(stale: int, clock: int, call: Call, row: Row): Pc {
    if row.hash != call.hash then Finished(Mismatch)
    else if !row.completed then
      if clock - row.createdAt < stale then Finished(Conflict) else Reclaiming(row)
    else if row.response.Some? then Finished(Replayed(row.response.value))
    else Finished(Unexpected)
  }

  /** Where the handler's end leads `runHandlerAndFinalize`. */
  function Ended(call: Call, end: HandlerEnd): Pc {
    match end
    case Returned(body, entry) => Finalizing(Response(call.success, body), entry)
    case Refused(refusal) => Recording(refusal)
    case Broke => Clearing
  }

  /** A handler that returns names the entry it committed; it may fail before or after committing one. */
  predicate CanEnd(pc: Pc, end: HandlerEnd) {
    && (pc.Running? || pc.Committed?)
    && (end.Returned? ==> end.entry == if pc.Committed? then Some(pc.posted) else None)
  }

  predicate Over(pc: Pc) { pc.Finished? || pc.Crashed? }

  function At(s: Keyed, i: nat, pc: Pc): Keyed
    requires i < |s.callers|
  {
    s.(callers := s.callers[i := s.callers[i].(pc := pc)])
  }

  /** Caller `i` makes a move, if it can. */
  function Step(stale: int, s: Keyed, i: nat, m: Move): Option<Keyed>
    requires i < |s.callers|
  {
    var c := s.callers[i];
    match m
    case Tick(delay) => Some(s.(clock := s.clock + delay))
    case Crash => if Over(c.pc) then None else Some(At(s, i, Crashed))
    case Judge => if c.pc.Seen? then Some(At(s, i, Judged(stale, s.clock, c.call, c.pc.row))) else None
    case Begin => if c.pc.Claimed? then Some(At(s, i, Running)) else None
    case Commit(entry) => if c.pc.Running? then Some(At(s, i, Committed(entry))) else None
    case End(end) => if CanEnd(c.pc, end) then Some(At(s, i, Ended(c.call, end))) else None
    case Statement(fate) =>
      match StatementOf(s.row, s.clock, c)
      case None => None
      case Some(e) =>
        var after := s.(row := if fate == FailsWithoutEffect then s.row else e.row);
        Some(At(after, i, if fate == Works then e.works else e.fails))
  }

  // ---------------------------------------------------------------- runs

  /** A run so far: its first state, or a shorter run and one more move. */
  datatype Run = Begun(start: Keyed) | Then(before: Run, i: nat, move: Move, after: Keyed)

  function Now(h: Run): Keyed {
    match h
    case Begun(s) => s
    case Then(_, _, _, s) => s
  }

  function First(h: Run): Keyed {
    match h
    case Begun(s) => s
    case Then(before, _, _, _) => First(before)
  }

  predicate RowOk(row: Row) { row.completed <==> row.response.Some? }

  /** Every call has yet to begin; the key may already have a row from earlier calls. */
  predicate Fair(s: Keyed) {
    && (s.row.Some? ==> RowOk(s.row.value))
    && forall i :: 0 <= i < |s.callers| ==> s.callers[i].pc == Arriving
  }

  predicate IsRun(stale: int, h: Run) {
    match h
    case Begun(s) => Fair(s)
    case Then(before, i, m, s) =>
      IsRun(stale, before) && i < |Now(before).callers| && Step(stale, Now(before), i, m) == Some(s)
  }

  /** `h` is `h'` or an earlier stage of it. */
  predicate Earlier(h: Run, h': Run) {
    h == h' || (h'.Then? && Earlier(h, h'.before))
  }

  /** Times the handler was called. */
  function Starts(h: Run): nat {
    match h
    case Begun(_) => 0
    case Then(before, _, m, _) => Starts(before) + if m.Begin? then 1 else 0
  }

  /** The ledger entries handlers committed, in order. */
  function PostedBy(h: Run): seq<nat> {
    match h
    case Begun(_) => []
    case Then(before, _, m, _) => PostedBy(before) + if m.Commit? then [m.entry] else []
  }

  function Posts(h: Run): nat { |PostedBy(h)| }

  /** Times the row was deleted. */
  function Deletions(h: Run): nat {
    match h
    case Begun(_) => 0
    case Then(before, _, _, s) => Deletions(before) + if Now(before).row.Some? && s.row.None? then 1 else 0
  }

  /** Times the row changed at all. */
  function Changes(h: Run): nat {
    match h
    case Begun(_) => 0
    case Then(before, _, _, s) => Changes(before) + if Now(before).row != s.row then 1 else 0
  }

  /** Times the row was changed by somebody other than caller `i`. */
  function OthersChanges(h: Run, i: nat): nat {
    match h
    case Begun(_) => 0
    case Then(before, j, _, s) => OthersChanges(before, i) + if j != i && Now(before).row != s.row then 1 else 0
  }

  /** Times caller `i` entered `handleExistingKey`. */
  function Rounds(h: Run, i: nat): nat {
    match h
    case Begun(_) => 0
    case Then(before, j, m, s) =>
      Rounds(before, i) + if j == i && !m.Tick? && i < |s.callers| && s.callers[i].pc.Looking? then 1 else 0
  }

  /** Moves caller `i` made. */
  function Moves(h: Run, i: nat): nat {
    match h
    case Begun(_) => 0
    case Then(before, j, m, _) => Moves(before, i) + if j == i && !m.Tick? then 1 else 0
  }

  // ---------------------------------------------------------------- weights summed over the callers

  /** What one move does to a total. */
  lemma TotalStep(stale: int, h: Run, weight: Caller -> nat)
    requires IsRun(stale, h) && h.Then?
    ensures |h.after.callers| == |Now(h.before).callers|
    ensures Total(h.after.callers, weight) ==
            Total(Now(h.before).callers, weight)
            - weight(Now(h.before).callers[h.i]) + weight(h.after.callers[h.i])
    ensures forall j :: 0 <= j < |h.after.callers| && j != h.i ==> h.after.callers[j] == Now(h.before).callers[j]
    ensures h.after.callers[h.i].call == Now(h.before).callers[h.i].call
  {
    hide Total, StatementOf, Judged, Ended, IsProcessing;
    var s := Now(h.before);
    TotalUpdate(s.callers, weight, h.i, h.after.callers[h.i]);
    assert h.after.callers == s.callers[h.i := h.after.callers[h.i]];
  }

  // ---------------------------------------------------------------- claim accounting

  function Claiming(c: Caller): nat { if c.pc.Claimed? then 1 else 0 }

  function InHandler(c: Caller): nat { if c.pc.Running? then 1 else 0 }

  function Gone(s: Keyed, s': Keyed): nat { if s.row.Some? && s'.row.None? then 1 else 0 }

  lemma ClaimStep(stale: int, s: Keyed, i: nat, m: Move, s': Keyed)
    requires i < |s.callers| && Step(stale, s, i, m) == Some(s')
    ensures i < |s'.callers|
    ensures (if m.Begin? then 1 else 0) + Claiming(s'.callers[i]) + Present(s.row) <=
            Claiming(s.callers[i]) + Gone(s, s') + Present(s'.row)
  {
  }

  /** Every start of the handler is paid for by its own inserted row: one now present, or one deleted. */
  lemma {:induction false} ClaimAccounting(stale: int, h: Run)
    requires IsRun(stale, h)
    ensures Starts(h) + Total(Now(h).callers, Claiming) + Present(First(h).row) <= Deletions(h) + Present(Now(h).row)
  {
    hide Step;
    match h
    case Begun(s) => TotalEven(s.callers, Claiming, 0);
    case Then(before, i, m, s) =>
      ClaimAccounting(stale, before);
      TotalStep(stale, h, Claiming);
      ClaimStep(stale, Now(before), i, m, s);
  }

  lemma HandlerStep(stale: int, s: Keyed, i: nat, m: Move, s': Keyed)
    requires i < |s.callers| && Step(stale, s, i, m) == Some(s')
    ensures i < |s'.callers|
    ensures (if m.Commit? then 1 else 0) + InHandler(s'.callers[i]) <=
            InHandler(s.callers[i]) + if m.Begin? then 1 else 0
  {
  }

  /** No start of the handler posts more than one entry. */
  lemma {:induction false} PostsAtMostStarts(stale: int, h: Run)
    requires IsRun(stale, h)
    ensures Posts(h) + Total(Now(h).callers, InHandler) <= Starts(h)
  {
    hide Step;
    match h
    case Begun(s) => TotalEven(s.callers, InHandler, 0);
    case Then(before, i, m, s) =>
      PostsAtMostStarts(stale, before);
      TotalStep(stale, h, InHandler);
      HandlerStep(stale, Now(before), i, m, s);
  }

  /** Every entry id a caller or the row names was posted by a handler for this key. */
  ghost predicate Named(c: Caller, posted: seq<nat>) {
    && (c.pc.Committed? ==> c.pc.posted in posted)
    && (c.pc.Finalizing? && c.pc.entry.Some? ==> c.pc.entry.value in posted)
    && (c.pc.Seen? && c.pc.row.entry.Some? ==> c.pc.row.entry.value in posted)
  }

  lemma NamedStep(stale: int, s: Keyed, i: nat, m: Move, s': Keyed, posted: seq<nat>)
    requires i < |s.callers| && Step(stale, s, i, m) == Some(s') && Named(s.callers[i], posted)
    requires s.row.Some? && s.row.value.entry.Some? ==> s.row.value.entry.value in posted
    ensures var posted' := posted + if m.Commit? then [m.entry] else [];
            && i < |s'.callers| && Named(s'.callers[i], posted')
            && (s'.row.Some? && s'.row.value.entry.Some? ==> s'.row.value.entry.value in posted')
  {
  }

  /** A stored entry id, hence also a replayed one, is that of an entry a handler for this key posted. */
  lemma {:induction false} StoredEntryWasPosted(stale: int, h: Run)
    requires IsRun(stale, h) && First(h).row.None?
    ensures Now(h).row.Some? && Now(h).row.value.entry.Some? ==> Now(h).row.value.entry.value in PostedBy(h)
    ensures forall j :: 0 <= j < |Now(h).callers| ==> Named(Now(h).callers[j], PostedBy(h))
  {
    hide Step;
    match h
    case Begun(_) =>
    case Then(before, i, m, s) =>
      StoredEntryWasPosted(stale, before);
      TotalStep(stale, h, Claiming);
      NamedStep(stale, Now(before), i, m, s, PostedBy(before));
      forall j | 0 <= j < |s.callers| ensures Named(s.callers[j], PostedBy(h)) {
        if j != i {
          assert Named(Now(before).callers[j], PostedBy(before));
        }
      }
  }

  /** Nobody judged a claim stale, and neither a handler nor a success UPDATE failed unexpectedly. */
  predicate Calm(stale: int, h: Run)
    requires IsRun(stale, h)
  {
    h.Then? ==> Calm(stale, h.before) && CalmMove(stale, Now(h.before), h.i, h.move)
  }

  predicate Deleting(pc: Pc) { pc.Clearing? || pc.Reclaiming? }

  /** The last move of a calm run. */
  predicate CalmMove(stale: int, s: Keyed, i: nat, m: Move)
    requires i < |s.callers| && Step(stale, s, i, m).Some?
  {
    var c := s.callers[i];
    && !(m.Judge? && Judged(stale, s.clock, c.call, c.pc.row).Reclaiming?)
    && Orderly(c.pc, m)
  }

  /** Not a handler that breaks, nor a success UPDATE that fails. */
  predicate Orderly(pc: Pc, m: Move) {
    && !(m.End? && m.end.Broke?)
    && !(pc.Finalizing? && m.Statement? && m.fate != Works)
  }

  lemma CalmStep(stale: int, s: Keyed, i: nat, m: Move, s': Keyed)
    requires i < |s.callers| && Step(stale, s, i, m) == Some(s') && CalmMove(stale, s, i, m)
    requires !Deleting(s.callers[i].pc)
    ensures i < |s'.callers| && !Deleting(s'.callers[i].pc) && Gone(s, s') == 0
  {
  }

  lemma {:induction false} CalmDeletesNothing(stale: int, h: Run)
    requires IsRun(stale, h) && Calm(stale, h)
    ensures Deletions(h) == 0
    ensures forall j :: 0 <= j < |Now(h).callers| ==> !Deleting(Now(h).callers[j].pc)
  {
    hide Step, CalmMove, Deleting;
    match h
    case Begun(s) => NoneDeleting(s);
    case Then(before, i, m, s) =>
      CalmDeletesNothing(stale, before);
      TotalStep(stale, h, Claiming);
      assert !Deleting(Now(before).callers[i].pc);
      CalmStep(stale, Now(before), i, m, s);
  }

  lemma NoneDeleting(s: Keyed)
    requires Fair(s)
    ensures forall j :: 0 <= j < |s.callers| ==> !Deleting(s.callers[j].pc)
  {
  }

  /** With no stale reclaim and no unexpected failure, one key starts its handler and posts at most once. */
  lemma AtMostOnce(stale: int, h: Run)
    requires IsRun(stale, h) && Calm(stale, h)
    ensures Starts(h) <= 1 && Posts(h) <= 1
    ensures First(h).row.Some? ==> Starts(h) == 0
  {
    hide Starts, Posts, Deletions, Calm, IsRun;
    CalmDeletesNothing(stale, h);
    ClaimAccounting(stale, h);
    PostsAtMostStarts(stale, h);
  }

  // ---------------------------------------------------------------- young claims

  lemma JudgedStale(stale: int, s: Keyed, i: nat, m: Move, s': Keyed)
    requires i < |s.callers| && Step(stale, s, i, m) == Some(s')
    ensures i < |s'.callers| && s'.clock >= s.clock
    ensures s'.callers[i].pc.Reclaiming? && s'.callers[i].pc != s.callers[i].pc ==>
              s'.clock - s'.callers[i].pc.stale.createdAt >= stale
  {
  }

  /** A caller goes to reclaim only a claim that had reached the age `stale`. */
  lemma {:induction false} OnlyStaleReclaimed(stale: int, h: Run, j: nat)
    requires IsRun(stale, h) && j < |Now(h).callers| && Now(h).callers[j].pc.Reclaiming?
    ensures Now(h).clock - Now(h).callers[j].pc.stale.createdAt >= stale
  {
    hide Step;
    if h.Then? {
      TotalStep(stale, h, Claiming);
      JudgedStale(stale, Now(h.before), h.i, h.move, h.after);
      if Now(h.before).callers[j].pc == Now(h).callers[j].pc {
        OnlyStaleReclaimed(stale, h.before, j);
      }
    }
  }

  /** No PROCESSING row ever reaches the age `stale`, and neither a handler nor a success UPDATE fails unexpectedly. */
  predicate Prompt(stale: int, h: Run)
    requires IsRun(stale, h)
  {
    && (IsProcessing(Now(h).row) ==> Now(h).clock - Now(h).row.value.createdAt < stale)
    && (h.Then? ==> Prompt(stale, h.before) && Orderly(Now(h.before).callers[h.i].pc, h.move))
  }

  /** What a caller holds was read from the one row there is; a claim it wants to reclaim is old. */
  predicate UpToDate(stale: int, s: Keyed, pc: Pc) {
    && !pc.Clearing?
    && (pc.Seen? ==> s.row.Some? && s.row.value.createdAt == pc.row.createdAt)
    && (pc.Reclaiming? ==>
          s.row.Some? && s.row.value.createdAt == pc.stale.createdAt && s.clock - pc.stale.createdAt >= stale)
  }

  lemma PromptStep(stale: int, s: Keyed, i: nat, m: Move, s': Keyed)
    requires i < |s.callers| && Step(stale, s, i, m) == Some(s') && Orderly(s.callers[i].pc, m)
    requires UpToDate(stale, s, s.callers[i].pc)
    requires IsProcessing(s.row) ==> s.clock - s.row.value.createdAt < stale
    ensures Gone(s, s') == 0 && s'.clock >= s.clock
    ensures s.row.Some? ==> s'.row.Some? && s'.row.value.createdAt == s.row.value.createdAt
    ensures i < |s'.callers| && UpToDate(stale, s', s'.callers[i].pc)
  {
  }

  lemma {:induction false} PromptDeletesNothing(stale: int, h: Run)
    requires IsRun(stale, h) && Prompt(stale, h)
    ensures Deletions(h) == 0
    ensures forall j :: 0 <= j < |Now(h).callers| ==> UpToDate(stale, Now(h), Now(h).callers[j].pc)
  {
    hide Step, Orderly, IsProcessing;
    match h
    case Begun(_) =>
    case Then(before, i, m, s) =>
      PromptDeletesNothing(stale, before);
      TotalStep(stale, h, Claiming);
      PromptStep(stale, Now(before), i, m, s);
      forall j | 0 <= j < |s.callers| ensures UpToDate(stale, s, s.callers[j].pc) {
        if j != i {
          assert UpToDate(stale, Now(before), Now(before).callers[j].pc);
        }
      }
  }

  /** Where no claim grows old and nothing fails unexpectedly, one key starts its handler and posts at most once. */
  lemma PromptAtMostOnce(stale: int, h: Run)
    requires IsRun(stale, h) && Prompt(stale, h)
    ensures Starts(h) <= 1 && Posts(h) <= 1
    ensures First(h).row.Some? ==> Starts(h) == 0
  {
    hide Starts, Posts, Deletions, Prompt, IsRun, UpToDate;
    PromptDeletesNothing(stale, h);
    ClaimAccounting(stale, h);
    PostsAtMostStarts(stale, h);
  }

  // ---------------------------------------------------------------- the completed row

  /** Callers that may still write an outcome. */
  function Writing(c: Caller): nat { if c.pc.Claimed? || c.pc.Running? || c.pc.Committed? || c.pc.Finalizing? || c.pc.Recording? then 1 else 0 }

  function ProcessingCount(row: Option<Row>): nat { if IsProcessing(row) then 1 else 0 }

  /** A move adds a writer only together with a PROCESSING row, and takes that row away only with its writer. */
  lemma WriterStep(stale: int, s: Keyed, i: nat, m: Move, s': Keyed)
    requires i < |s.callers| && Step(stale, s, i, m) == Some(s')
    ensures i < |s'.callers|
    ensures Writing(s'.callers[i]) + ProcessingCount(s.row) <=
            Writing(s.callers[i]) + Gone(s, s') + ProcessingCount(s'.row)
  {
  }

  /** Beyond the deletions so far, only a PROCESSING row has a writer, and only one. */
  lemma {:induction false} Writers(stale: int, h: Run)
    requires IsRun(stale, h)
    ensures Total(Now(h).callers, Writing) <= Deletions(h) + ProcessingCount(Now(h).row)
  {
    hide Step, ProcessingCount, Writing;
    match h
    case Begun(s) =>
      WritingArriving(s);
      TotalEven(s.callers, Writing, 0);
    case Then(before, i, m, s) =>
      Writers(stale, before);
      TotalStep(stale, h, Writing);
      WriterStep(stale, Now(before), i, m, s);
  }

  lemma WritingArriving(s: Keyed)
    requires Fair(s)
    ensures forall i :: 0 <= i < |s.callers| ==> Writing(s.callers[i]) == 0
  {
  }

  lemma RowsOkStep(stale: int, s: Keyed, i: nat, m: Move, s': Keyed)
    requires i < |s.callers| && Step(stale, s, i, m) == Some(s')
    requires s.row.Some? ==> RowOk(s.row.value)
    requires s.callers[i].pc.Seen? ==> RowOk(s.callers[i].pc.row)
    ensures s'.row.Some? ==> RowOk(s'.row.value)
    ensures i < |s'.callers| && (s'.callers[i].pc.Seen? ==> RowOk(s'.callers[i].pc.row))
  {
  }

  lemma {:induction false} RowsOk(stale: int, h: Run)
    requires IsRun(stale, h)
    ensures Now(h).row.Some? ==> RowOk(Now(h).row.value)
    ensures forall j :: 0 <= j < |Now(h).callers| && Now(h).callers[j].pc.Seen? ==> RowOk(Now(h).callers[j].pc.row)
  {
    hide Step, RowOk;
    match h
    case Begun(_) =>
    case Then(before, i, m, s) =>
      RowsOk(stale, before);
      TotalStep(stale, h, Claiming);
      RowsOkStep(stale, Now(before), i, m, s);
  }

  /** A replay always finds the stored response it reads. */
  lemma ReplayHasResponse(stale: int, h: Run, i: nat)
    requires IsRun(stale, h) && i < |Now(h).callers| && Now(h).callers[i].pc.Seen?
    ensures var c := Now(h).callers[i];
            Judged(stale, Now(h).clock, c.call, c.pc.row) != Finished(Unexpected)
  {
    RowsOk(stale, h);
    assert RowOk(Now(h).callers[i].pc.row);
  }

  lemma {:induction false} EarlierRun(stale: int, h: Run, h': Run)
    requires IsRun(stale, h') && Earlier(h, h')
    ensures IsRun(stale, h) && Deletions(h) <= Deletions(h') && First(h) == First(h')
    ensures |Now(h).callers| == |Now(h').callers|
  {
    if h != h' {
      TotalStep(stale, h', Claiming);
      EarlierRun(stale, h, h'.before);
    }
  }

  /** While a row is not deleted its request hash and creation time stay. */
  lemma {:induction false} HashStays(stale: int, h: Run, h': Run)
    requires IsRun(stale, h') && Earlier(h, h') && Deletions(h') == Deletions(h) && Now(h).row.Some?
    ensures Now(h').row.Some? && Now(h').row.value.hash == Now(h).row.value.hash
    ensures Now(h').row.value.createdAt == Now(h).row.value.createdAt
  {
    if h != h' {
      EarlierRun(stale, h, h'.before);
      HashStays(stale, h, h'.before);
    }
  }

  /** In a run that deletes nothing, a COMPLETED row never changes again. */
  lemma {:induction false} CompletedStays(stale: int, h: Run, h': Run)
    requires IsRun(stale, h') && Earlier(h, h') && Deletions(h') == 0
    requires Now(h).row.Some? && Now(h).row.value.completed
    ensures Now(h').row == Now(h).row
  {
    if h != h' {
      EarlierRun(stale, h, h'.before);
      CompletedStays(stale, h, h'.before);
      Writers(stale, h'.before);
      TotalAtLeast(Now(h'.before).callers, Writing, h'.i);
    }
  }

  /** Where a call can be that began when the row was already `row`. */
  predicate Follows(c: Caller, row: Row) {
    match c.pc
    case Arriving => true
    case Looking => true
    case Seen(seen) => seen == row
    case Finished(answer) =>
      || answer.Unexpected?
      || if c.call.hash != row.hash then answer == Mismatch
         else row.response.Some? && answer == Replayed(row.response.value)
    case Crashed => true
    case _ => false
  }

  /**
   In a run that deletes nothing, a call that begins after completion never runs its handler: with the
   same hash it can only be answered by the stored response, with another hash it can only be refused.
   */
  lemma {:induction false} LaterCallReplays(stale: int, h: Run, h': Run, i: nat)
    requires IsRun(stale, h') && Earlier(h, h') && Deletions(h') == 0
    requires Now(h).row.Some? && Now(h).row.value.completed
    requires i < |Now(h).callers| && Now(h).callers[i].pc == Arriving
    ensures i < |Now(h').callers| && Now(h').callers[i].call == Now(h).callers[i].call
    ensures Follows(Now(h').callers[i], Now(h).row.value)
  {
    if h != h' {
      hide Step, Follows, Fair, RowOk;
      EarlierRun(stale, h, h'.before);
      LaterCallReplays(stale, h, h'.before, i);
      CompletedStays(stale, h, h'.before);
      RowsOk(stale, h);
      TotalStep(stale, h', Claiming);
      if h'.i == i {
        FollowsStep(stale, Now(h'.before), i, h'.move, h'.after, Now(h).row.value);
      }
    } else {
      assert Follows(Now(h).callers[i], Now(h).row.value);
    }
  }

  lemma FollowsStep(stale: int, s: Keyed, i: nat, m: Move, s': Keyed, row: Row)
    requires i < |s.callers| && Step(stale, s, i, m) == Some(s') && Follows(s.callers[i], row)
    requires s.row == Some(row) && row.completed && RowOk(row)
    ensures i < |s'.callers| && Follows(s'.callers[i], row)
  {
  }

  /** A call that reads a row with another hash is refused, be the row PROCESSING or COMPLETED. */
  predicate Refuted(c: Caller, hash: string) {
    match c.pc
    case Arriving => true
    case Looking => true
    case Seen(seen) => seen.hash == hash
    case Finished(answer) => answer.Mismatch? || answer.Unexpected?
    case Crashed => true
    case _ => false
  }

  /** While a row is not deleted, every call begun with a different hash can only be refused. */
  lemma {:induction false} OtherHashRefused(stale: int, h: Run, h': Run, i: nat)
    requires IsRun(stale, h') && Earlier(h, h') && Deletions(h') == Deletions(h) && Now(h).row.Some?
    requires i < |Now(h).callers| && Now(h).callers[i].pc == Arriving
    requires Now(h).callers[i].call.hash != Now(h).row.value.hash
    ensures i < |Now(h').callers| && Now(h').callers[i].call == Now(h).callers[i].call
    ensures Refuted(Now(h').callers[i], Now(h).row.value.hash)
  {
    if h != h' {
      hide Step, Refuted, Fair;
      EarlierRun(stale, h, h'.before);
      OtherHashRefused(stale, h, h'.before, i);
      HashStays(stale, h, h'.before);
      TotalStep(stale, h', Claiming);
      if h'.i == i {
        RefutedStep(stale, Now(h'.before), i, h'.move, h'.after, Now(h).row.value.hash);
      }
    } else {
      assert Refuted(Now(h).callers[i], Now(h).row.value.hash);
    }
  }

  lemma RefutedStep(stale: int, s: Keyed, i: nat, m: Move, s': Keyed, hash: string)
    requires i < |s.callers| && Step(stale, s, i, m) == Some(s') && Refuted(s.callers[i], hash)
    requires s.callers[i].call.hash != hash && s.row.Some? && s.row.value.hash == hash
    ensures i < |s'.callers| && Refuted(s'.callers[i], hash)
  {
  }

  // ---------------------------------------------------------------- whose response is stored

  /** The outcome a handler's end puts on record. */
  function ResponseTo(call: Call, end: HandlerEnd): Option<Response> {
    match end
    case Returned(body, _) => Some(Response(call.success, body))
    case Refused(refusal) => Some(refusal)
    case Broke => None
  }

  /** Some handler run for a call with this hash ended with this response. */
  predicate Produced(stale: int, h: Run, hash: string, response: Response)
    requires IsRun(stale, h)
  {
    h.Then? &&
    (|| Produced(stale, h.before, hash, response)
     || (h.move.End? && Now(h.before).callers[h.i].call.hash == hash
         && ResponseTo(Now(h.before).callers[h.i].call, h.move.end) == Some(response)))
  }

  ghost predicate Sourced(stale: int, h: Run, c: Caller)
    requires IsRun(stale, h)
  {
    c.pc.Finalizing? || c.pc.Recording? ==> Produced(stale, h, c.call.hash, c.pc.response)
  }

  /** The move writes an outcome into the row. */
  predicate Records(s: Keyed, i: nat, m: Move) {
    && i < |s.callers| && m.Statement? && m.fate != FailsWithoutEffect
    && (s.callers[i].pc.Finalizing? || s.callers[i].pc.Recording?)
  }

  /** The request hash of the call that last wrote the present row's outcome; one found there is its own. */
  function WrittenFor(h: Run): Option<string> {
    match h
    case Begun(s) => if s.row.Some? && s.row.value.completed then Some(s.row.value.hash) else None
    case Then(before, i, m, s) =>
      if s.row.None? then None
      else if Records(Now(before), i, m) then Some(Now(before).callers[i].call.hash)
      else WrittenFor(before)
  }

  /** The stored response, if there is one, was written for the stored request. */
  predicate ResponseBelongs(h: Run) {
    Now(h).row.Some? && Now(h).row.value.completed ==> WrittenFor(h) == Some(Now(h).row.value.hash)
  }

  /** Whoever may still write an outcome makes the request the row is for. */
  predicate OwnWritersOnly(s: Keyed) {
    s.row.Some? ==> forall j :: 0 <= j < |s.callers| && Writing(s.callers[j]) == 1 ==> s.callers[j].call.hash == s.row.value.hash
  }

  /** What was written for a request is what a handler run for that request ended with, in every run. */
  lemma {:induction false} WrittenWasProduced(stale: int, h: Run)
    requires IsRun(stale, h) && First(h).row.None?
    ensures Now(h).row.Some? && Now(h).row.value.completed ==>
              && WrittenFor(h).Some? && Now(h).row.value.response.Some?
              && Produced(stale, h, WrittenFor(h).value, Now(h).row.value.response.value)
    ensures forall j :: 0 <= j < |Now(h).callers| ==> Sourced(stale, h, Now(h).callers[j])
  {
    hide Step, Sourced;
    match h
    case Begun(s) => NobodySourced(stale, h);
    case Then(before, i, m, s) =>
      WrittenWasProduced(stale, before);
      TotalStep(stale, h, Claiming);
      WrittenStep(stale, h);
      forall j | 0 <= j < |s.callers| ensures Sourced(stale, h, s.callers[j]) {
        if j != i {
          StillSourced(stale, h, s.callers[j]);
        }
      }
  }

  lemma NobodySourced(stale: int, h: Run)
    requires IsRun(stale, h) && h.Begun?
    ensures forall j :: 0 <= j < |Now(h).callers| ==> Sourced(stale, h, Now(h).callers[j])
  {
  }

  lemma StillSourced(stale: int, h: Run, c: Caller)
    requires IsRun(stale, h) && h.Then? && Sourced(stale, h.before, c)
    ensures Sourced(stale, h, c)
  {
    hide Step;
  }

  lemma WrittenStep(stale: int, h: Run)
    requires IsRun(stale, h) && h.Then?
    requires Sourced(stale, h.before, Now(h.before).callers[h.i])
    requires var row := Now(h.before).row;
             row.Some? && row.value.completed ==>
               && WrittenFor(h.before).Some? && row.value.response.Some?
               && Produced(stale, h.before, WrittenFor(h.before).value, row.value.response.value)
    ensures Now(h).row.Some? && Now(h).row.value.completed ==>
              && WrittenFor(h).Some? && Now(h).row.value.response.Some?
              && Produced(stale, h, WrittenFor(h).value, Now(h).row.value.response.value)
    ensures h.i < |h.after.callers| && Sourced(stale, h, h.after.callers[h.i])
  {
  }

  /** While a row stays, nobody new comes to write it: every INSERT finds it there. */
  lemma NoNewWriter(stale: int, s: Keyed, i: nat, m: Move, s': Keyed)
    requires i < |s.callers| && Step(stale, s, i, m) == Some(s') && s.row.Some?
    ensures i < |s'.callers| && Writing(s'.callers[i]) <= Writing(s.callers[i])
  {
  }

  lemma OnlyRecordingCompletes(stale: int, s: Keyed, i: nat, m: Move, s': Keyed)
    requires i < |s.callers| && Step(stale, s, i, m) == Some(s') && s.row.Some? && s'.row.Some?
    ensures s'.row.value.hash == s.row.value.hash
    ensures Records(s, i, m) ==> Writing(s.callers[i]) == 1 && s'.row.value.completed
    ensures !Records(s, i, m) ==> s'.row == s.row
  {
  }

  lemma {:induction false} OwnWritersStay(stale: int, h: Run, h': Run)
    requires IsRun(stale, h') && Earlier(h, h') && Deletions(h') == Deletions(h) && Now(h).row.Some?
    requires OwnWritersOnly(Now(h)) && ResponseBelongs(h)
    ensures Now(h').row.Some? && OwnWritersOnly(Now(h')) && ResponseBelongs(h')
  {
    if h != h' {
      hide Step, Writing, Records, Fair;
      EarlierRun(stale, h, h'.before);
      OwnWritersStay(stale, h, h'.before);
      HashStays(stale, h, h');
      HashStays(stale, h, h'.before);
      TotalStep(stale, h', Writing);
      NoNewWriter(stale, Now(h'.before), h'.i, h'.move, h'.after);
      OnlyRecordingCompletes(stale, Now(h'.before), h'.i, h'.move, h'.after);
      WritingIsOne(h'.after.callers[h'.i]);
      WritingIsOne(Now(h'.before).callers[h'.i]);
    }
  }

  lemma WritingIsOne(c: Caller)
    ensures Writing(c) <= 1
  {
  }

  /** A writer that has not ended its handler can end it with a response. */
  lemma EndWithResponse(stale: int, h: Run, j: nat) returns (h': Run)
    requires IsRun(stale, h) && j < |Now(h).callers| && Writing(Now(h).callers[j]) == 1
    ensures IsRun(stale, h') && Earlier(h, h') && Deletions(h') == Deletions(h) && Now(h').row == Now(h).row
    ensures j < |Now(h').callers| && Now(h').callers[j].call == Now(h).callers[j].call
    ensures Now(h').callers[j].pc.Finalizing? || Now(h').callers[j].pc.Recording?
  {
    hide StatementOf;
    h' := h;
    if Now(h').callers[j].pc.Claimed? {
      h' := Do(stale, h, j, Begin);
    }
    var running := h';
    if Now(h').callers[j].pc.Running? || Now(h').callers[j].pc.Committed? {
      var pc := Now(running).callers[j].pc;
      h' := Do(stale, running, j, End(Returned("", if pc.Committed? then Some(pc.posted) else None)));
    }
    EarlierTransitive(h, running, h');
  }

  /** A writer can go through with it and leave its response in whatever row is there. */
  lemma GoThrough(stale: int, h: Run, j: nat) returns (h': Run)
    requires IsRun(stale, h) && Now(h).row.Some? && j < |Now(h).callers| && Writing(Now(h).callers[j]) == 1
    ensures IsRun(stale, h') && Earlier(h, h') && Deletions(h') == Deletions(h)
    ensures Now(h').row.Some? && Now(h').row.value.completed && Now(h').row.value.hash == Now(h).row.value.hash
    ensures WrittenFor(h') == Some(Now(h).callers[j].call.hash)
  {
    hide Writing, Deletions, IsRun, Earlier;
    var ended := EndWithResponse(stale, h, j);
    h' := Do(stale, ended, j, PROCEED);
    EarlierTransitive(h, ended, h');
  }

  /**
   Exactly when a row's stored response is, and as long as the row is kept will be, the response to the stored
   request: nobody who may still write an outcome makes another request.
   */
  lemma ResponseBelongsIff(stale: int, h: Run)
    requires IsRun(stale, h) && Now(h).row.Some? && ResponseBelongs(h)
    ensures (forall h' :: IsRun(stale, h') && Earlier(h, h') && Deletions(h') == Deletions(h) ==> ResponseBelongs(h')) <==>
            OwnWritersOnly(Now(h))
  {
    if OwnWritersOnly(Now(h)) {
      forall h' | IsRun(stale, h') && Earlier(h, h') && Deletions(h') == Deletions(h) ensures ResponseBelongs(h') {
        OwnWritersStay(stale, h, h');
      }
    } else {
      var s := Now(h);
      var j :| 0 <= j < |s.callers| && Writing(s.callers[j]) == 1 && s.callers[j].call.hash != s.row.value.hash;
      var h' := GoThrough(stale, h, j);
      assert !ResponseBelongs(h');
    }
  }

  /** From such a state on, whatever else is deleted later, the kept row's response came from a handler run for its request. */
  lemma StoredForItsHash(stale: int, h: Run, h': Run)
    requires IsRun(stale, h') && Earlier(h, h') && Deletions(h') == Deletions(h) && First(h').row.None?
    requires Now(h).row.Some? && ResponseBelongs(h) && OwnWritersOnly(Now(h))
    ensures Now(h').row.Some?
    ensures Now(h').row.value.completed ==>
              && Now(h').row.value.response.Some?
              && Produced(stale, h', Now(h').row.value.hash, Now(h').row.value.response.value)
  {
    OwnWritersStay(stale, h, h');
    WrittenWasProduced(stale, h');
  }

  /** It is the state of every run from no row that has deleted nothing so far. */
  lemma {:induction false} QuietRunsOwnTheirRow(stale: int, h: Run)
    requires IsRun(stale, h) && First(h).row.None? && Deletions(h) == 0
    ensures OwnWritersOnly(Now(h)) && ResponseBelongs(h)
  {
    if h.Then? {
      hide Step, Writing, Records, Fair;
      QuietRunsOwnTheirRow(stale, h.before);
      if Now(h.before).row.Some? {
        OwnWritersStay(stale, h.before, h);
      } else {
        Writers(stale, h.before);
        TotalStep(stale, h, Writing);
        OwnClaim(stale, h);
      }
    }
  }

  /** The first writer of a new row is the one whose INSERT made it. */
  lemma OwnClaim(stale: int, h: Run)
    requires IsRun(stale, h) && h.Then? && Now(h.before).row.None? && Total(Now(h.before).callers, Writing) == 0
    ensures OwnWritersOnly(Now(h)) && ResponseBelongs(h)
  {
    hide Total;
    TotalStep(stale, h, Writing);
    forall j | 0 <= j < |Now(h.before).callers| ensures Writing(Now(h.before).callers[j]) == 0 {
      TotalAtLeast(Now(h.before).callers, Writing, j);
    }
  }

  // ---------------------------------------------------------------- rounds and termination

  /** What caller `i` has to show for its rounds, given where it is. */
  predicate Paid(s: Keyed, pc: Pc, rounds: nat, changes: nat) {
    && rounds <= 1 + changes
    && (pc.Arriving? && s.row.Some? && rounds > 0 ==> rounds <= changes)
    && (pc.Seen? && s.row != Some(pc.row) ==> rounds <= changes)
    && (pc.Reclaiming? && s.row != Some(pc.stale) ==> rounds <= changes)
    && (pc.Reclaiming? ==> !pc.stale.completed)
  }

  lemma PaidStep(stale: int, s: Keyed, i: nat, m: Move, s': Keyed, rounds: nat, changes: nat)
    requires i < |s.callers| && Step(stale, s, i, m) == Some(s') && Paid(s, s.callers[i].pc, rounds, changes)
    ensures i < |s'.callers|
    ensures Paid(s', s'.callers[i].pc, rounds + if !m.Tick? && s'.callers[i].pc.Looking? then 1 else 0, changes)
  {
  }

  lemma PaidAnyway(s: Keyed, s': Keyed, pc: Pc, rounds: nat, changes: nat)
    requires Paid(s, pc, rounds, changes)
    ensures Paid(s', pc, rounds, changes + if s.row != s'.row then 1 else 0)
  {
  }

  /** Every further round of `handleExistingKey` is paid for by another caller's change of the row. */
  lemma {:induction false} RoundsArePaidFor(stale: int, h: Run, i: nat)
    requires IsRun(stale, h) && i < |Now(h).callers|
    ensures Rounds(h, i) <= 1 + OthersChanges(h, i)
    ensures Paid(Now(h), Now(h).callers[i].pc, Rounds(h, i), OthersChanges(h, i))
  {
    hide Step, Paid;
    match h
    case Begun(s) => assert Paid(s, Arriving, 0, 0) by { UnpaidStart(s); }
    case Then(before, j, m, s) =>
      TotalStep(stale, h, Claiming);
      RoundsArePaidFor(stale, before, i);
      if j == i {
        PaidStep(stale, Now(before), i, m, s, Rounds(before, i), OthersChanges(before, i));
      } else {
        PaidAnyway(Now(before), s, s.callers[i].pc, Rounds(before, i), OthersChanges(before, i));
      }
      PaidBound(s, s.callers[i].pc, Rounds(h, i), OthersChanges(h, i));
  }

  lemma UnpaidStart(s: Keyed)
    ensures Paid(s, Arriving, 0, 0)
  {
  }

  lemma PaidBound(s: Keyed, pc: Pc, rounds: nat, changes: nat)
    requires Paid(s, pc, rounds, changes)
    ensures rounds <= 1 + changes
  {
  }

  /** Row changes a caller may still cause that no later deletion makes up for. */
  function Credit(c: Caller): nat {
    match c.pc
    case Arriving => 3
    case Looking => 3
    case Seen(_) => 3
    case Reclaiming(_) => 3
    case Claimed => 1
    case Running => 1
    case Committed(_) => 1
    case Finalizing(_, _) => 1
    case Recording(_) => 1
    case _ => 0
  }

  lemma CreditAtStart(s: Keyed)
    requires Fair(s)
    ensures forall i :: 0 <= i < |s.callers| ==> Credit(s.callers[i]) == 3
  {
  }

  lemma CreditStep(stale: int, s: Keyed, i: nat, m: Move, s': Keyed)
    requires i < |s.callers| && Step(stale, s, i, m) == Some(s')
    ensures i < |s'.callers|
    ensures (if s.row != s'.row then 1 else 0) + Present(s'.row) + Credit(s'.callers[i]) <=
            Present(s.row) + Credit(s.callers[i])
  {
  }

  /** All callers together change the row at most three times each, and once for a row found there. */
  lemma {:induction false} ChangesBounded(stale: int, h: Run)
    requires IsRun(stale, h)
    ensures |Now(h).callers| == |First(h).callers|
    ensures Changes(h) + Present(Now(h).row) + Total(Now(h).callers, Credit)
            <= 3 * |First(h).callers| + Present(First(h).row)
  {
    hide Step, Credit;
    match h
    case Begun(s) =>
      CreditAtStart(s);
      TotalEven(s.callers, Credit, 3);
    case Then(before, i, m, s) =>
      ChangesBounded(stale, before);
      TotalStep(stale, h, Credit);
      CreditStep(stale, Now(before), i, m, s);
  }

  lemma {:induction false} OthersAmongAll(h: Run, i: nat)
    ensures OthersChanges(h, i) <= Changes(h)
  {
    if h.Then? {
      OthersAmongAll(h.before, i);
    }
  }

  /** Moves made since the caller last had a whole round behind it. */
  function Progress(pc: Pc): int {
    match pc
    case Arriving => 0
    case Looking => -3
    case Seen(_) => -2
    case Reclaiming(_) => -1
    case Claimed => 1
    case Running => 2
    case Committed(_) => 3
    case Finalizing(_, _) => 4
    case Recording(_) => 4
    case Clearing => 5
    case Finished(_) => 6
    case Crashed => 6
  }

  lemma ProgressStep(stale: int, s: Keyed, i: nat, m: Move, s': Keyed)
    requires i < |s.callers| && Step(stale, s, i, m) == Some(s') && !m.Tick?
    ensures i < |s'.callers|
    ensures 1 + Progress(s.callers[i].pc) <= Progress(s'.callers[i].pc) + if s'.callers[i].pc.Looking? then 4 else 0
  {
  }

  lemma TickKeepsCallers(stale: int, s: Keyed, i: nat, m: Move, s': Keyed)
    requires i < |s.callers| && Step(stale, s, i, m) == Some(s') && m.Tick?
    ensures s'.callers == s.callers
  {
  }

  lemma NothingYet(s: Keyed, i: nat)
    requires Fair(s) && i < |s.callers|
    ensures Progress(s.callers[i].pc) == 0
  {
  }

  lemma {:induction false} MovesBounded(stale: int, h: Run, i: nat)
    requires IsRun(stale, h) && i < |Now(h).callers|
    ensures Moves(h, i) <= 4 * Rounds(h, i) + Progress(Now(h).callers[i].pc)
  {
    hide Step, Progress, Fair;
    match h
    case Begun(s) => NothingYet(s, i);
    case Then(before, j, m, s) =>
      TotalStep(stale, h, Claiming);
      MovesBounded(stale, before, i);
      if m.Tick? {
        TickKeepsCallers(stale, Now(before), j, m, s);
      } else if j == i {
        ProgressStep(stale, Now(before), i, m, s);
      }
  }

  /** Every call ends: with `n` calls racing on the key, none makes more than `12n + 14` moves. */
  lemma CallsEnd(stale: int, h: Run, i: nat)
    requires IsRun(stale, h) && i < |Now(h).callers|
    ensures Moves(h, i) <= 10 + 4 * OthersChanges(h, i)
    ensures Moves(h, i) <= 12 * |First(h).callers| + 14
  {
    hide Moves, Rounds, Changes, OthersChanges, IsRun;
    MovesBounded(stale, h, i);
    RoundsArePaidFor(stale, h, i);
    ChangesBounded(stale, h);
    OthersAmongAll(h, i);
  }

  // ---------------------------------------------------------------- when the handler can still start

  /** One more move of a run. */
  function Do(stale: int, h: Run, i: nat, m: Move): (h': Run)
    requires IsRun(stale, h) && i < |Now(h).callers| && Step(stale, Now(h), i, m).Some?
    ensures IsRun(stale, h') && Starts(h') == Starts(h) + (if m.Begin? then 1 else 0)
    ensures Posts(h') == Posts(h) + (if m.Commit? then 1 else 0)
    ensures Deletions(h') == Deletions(h) + Gone(Now(h), Now(h'))
    ensures First(h') == First(h) && Earlier(h, h') && Now(h') == Step(stale, Now(h), i, m).value
    ensures forall hash, r :: Produced(stale, h', hash, r) ==>
              Produced(stale, h, hash, r) || (m.End? && Now(h).callers[i].call.hash == hash)
  {
    Then(h, i, m, Step(stale, Now(h), i, m).value)
  }

  const PROCEED: Move := Statement(Works)

  /** The outcome is on record and nobody is left who could delete it or has a claim. */
  predicate Settled(s: Keyed) {
    && s.row.Some? && s.row.value.completed
    && forall i :: 0 <= i < |s.callers| ==> !Unsettling(s.callers[i].pc)
  }

  predicate Unsettling(pc: Pc) {
    pc.Claimed? || pc.Running? || pc.Committed? || pc.Finalizing? || pc.Clearing?
  }

  lemma SettledStep(stale: int, s: Keyed, i: nat, m: Move, s': Keyed)
    requires i < |s.callers| && Step(stale, s, i, m) == Some(s')
    requires s.row.Some? && s.row.value.completed && !Unsettling(s.callers[i].pc)
    ensures s'.row.Some? && s'.row.value.completed && i < |s'.callers| && !Unsettling(s'.callers[i].pc)
    ensures !m.Begin?
  {
  }

  lemma {:induction false} SettledStays(stale: int, h: Run, h': Run)
    requires IsRun(stale, h') && Earlier(h, h') && Settled(Now(h))
    ensures Settled(Now(h')) && Starts(h') == Starts(h)
  {
    if h != h' {
      hide Step, Unsettling, Fair;
      SettledStays(stale, h, h'.before);
      TotalStep(stale, h', Claiming);
      SettledStep(stale, Now(h'.before), h'.i, h'.move, h'.after);
    }
  }

  lemma {:induction false} EarlierTransitive(h: Run, h1: Run, h2: Run)
    requires Earlier(h, h1) && Earlier(h1, h2)
    ensures Earlier(h, h2)
  {
    if h1 != h2 {
      EarlierTransitive(h, h1, h2.before);
    }
  }

  /** From no row, an arriving call claims the key and starts its handler. */
  lemma StartFresh(stale: int, h: Run, a: nat) returns (h': Run)
    requires IsRun(stale, h) && a < |Now(h).callers| && Now(h).callers[a].pc == Arriving && Now(h).row.None?
    ensures IsRun(stale, h') && Earlier(h, h') && Starts(h') == Starts(h) + 1
    ensures First(h') == First(h) && Posts(h') == Posts(h)
    ensures a < |Now(h').callers| && Now(h').callers[a].pc == Running
  {
    var claimed := Do(stale, h, a, PROCEED);
    h' := Do(stale, claimed, a, Begin);
    EarlierTransitive(h, claimed, h');
  }

  /** A PROCESSING row grows stale and is reclaimed by a retry of its request. */
  lemma Reclaim(stale: int, h: Run, a: nat) returns (h': Run)
    requires IsRun(stale, h) && a < |Now(h).callers| && Now(h).callers[a].pc == Arriving
    requires IsProcessing(Now(h).row) && Now(h).row.value.hash == Now(h).callers[a].call.hash
    ensures IsRun(stale, h') && Earlier(h, h') && Starts(h') == Starts(h)
    ensures a < |Now(h').callers| && Now(h').callers[a].pc == Arriving && Now(h').row.None?
    ensures First(h') == First(h) && Posts(h') == Posts(h)
  {
    var due := Now(h).row.value.createdAt + stale - Now(h).clock;
    var aged := Do(stale, h, a, Tick(if due < 0 then 0 else due));
    var looking := Do(stale, aged, a, PROCEED);
    var seen := Do(stale, looking, a, PROCEED);
    var judged := Do(stale, seen, a, Judge);
    h' := Do(stale, judged, a, PROCEED);
    EarlierTransitive(h, aged, looking);
    EarlierTransitive(h, looking, seen);
    EarlierTransitive(h, seen, judged);
    EarlierTransitive(h, judged, h');
  }

  /** A caller inside its handler, or finalizing, may fail and clear the key. */
  lemma Clear(stale: int, h: Run, j: nat) returns (h': Run)
    requires IsRun(stale, h) && j < |Now(h).callers|
    requires var pc := Now(h).callers[j].pc; pc.Running? || pc.Committed? || pc.Finalizing? || pc.Clearing?
    ensures IsRun(stale, h') && Earlier(h, h') && Starts(h') == Starts(h) && Now(h').row.None?
    ensures |Now(h').callers| == |Now(h).callers|
    ensures forall k :: 0 <= k < |Now(h).callers| && k != j ==> Now(h').callers[k] == Now(h).callers[k]
  {
    hide IsRun, Starts, PostedBy, Deletions, Gone, Earlier, First;
    var clearing := ComeToClear(stale, h, j);
    h' := Do(stale, clearing, j, PROCEED);
    EarlierTransitive(h, clearing, h');
  }

  lemma ComeToClear(stale: int, h: Run, j: nat) returns (h': Run)
    requires IsRun(stale, h) && j < |Now(h).callers|
    requires var pc := Now(h).callers[j].pc; pc.Running? || pc.Committed? || pc.Finalizing? || pc.Clearing?
    ensures IsRun(stale, h') && Earlier(h, h') && Starts(h') == Starts(h)
    ensures Now(h') == At(Now(h), j, Clearing)
  {
    hide IsRun, PostedBy, Deletions, Gone, First;
    if Now(h).callers[j].pc.Running? || Now(h).callers[j].pc.Committed? {
      h' := Do(stale, h, j, End(Broke));
    } else if Now(h).callers[j].pc.Finalizing? {
      h' := Do(stale, h, j, Statement(FailsWithoutEffect));
    } else {
      h' := h;
      assert Now(h).callers[j := Now(h).callers[j].(pc := Clearing)] == Now(h).callers;
    }
  }

  lemma StartAgain(stale: int, h: Run, a: nat) returns (h': Run)
    requires IsRun(stale, h) && a < |Now(h).callers| && Now(h).callers[a].pc == Arriving && !Settled(Now(h))
    requires Now(h).row.Some? ==> Now(h).row.value.hash == Now(h).callers[a].call.hash
    ensures IsRun(stale, h') && Earlier(h, h') && Starts(h') == Starts(h) + 1
  {
    var s := Now(h);
    var free := h;
    if IsProcessing(s.row) {
      free := Reclaim(stale, h, a);
    } else if s.row.Some? {
      var j :| 0 <= j < |s.callers| && Unsettling(s.callers[j].pc);
      if s.callers[j].pc.Claimed? {
        h' := Do(stale, h, j, Begin);
        return;
      }
      free := Clear(stale, h, j);
    }
    h' := StartFresh(stale, free, a);
    EarlierTransitive(h, free, h');
  }

  /**
   Exactly when no handler for the key can start any more, whatever fails and however the calls
   interleave: the outcome is recorded and no caller holds a claim, is in a handler, or is about to
   finalize or clear.  `a` is a retry of the recorded request.
   */
  lemma NoMoreStartsIff(stale: int, h: Run, a: nat)
    requires IsRun(stale, h) && a < |Now(h).callers| && Now(h).callers[a].pc == Arriving
    requires Now(h).row.Some? ==> Now(h).row.value.hash == Now(h).callers[a].call.hash
    ensures (forall h' :: IsRun(stale, h') && Earlier(h, h') ==> Starts(h') == Starts(h)) <==> Settled(Now(h))
  {
    if Settled(Now(h)) {
      forall h' | IsRun(stale, h') && Earlier(h, h') ensures Starts(h') == Starts(h) {
        SettledStays(stale, h, h');
      }
    } else {
      var h' := StartAgain(stale, h, a);
      assert Starts(h') != Starts(h);
    }
  }

  // ---------------------------------------------------------------- what does not hold

  /** Callers, all with one hash, about to use a key nobody has used. */
  function Race(callers: nat): (h: Run)
    ensures h.Begun? && Now(h).row.None? && Now(h).clock == 0 && |Now(h).callers| == callers
    ensures forall i :: 0 <= i < callers ==> Now(h).callers[i] == Caller(Call("h", 201), Arriving)
    ensures forall stale :: IsRun(stale, h)
  {
    Begun(Keyed(None, 0, seq(callers, i => Caller(Call("h", 201), Arriving))))
  }

  /** Two retries have both judged an abandoned claim stale. */
  lemma BothJudgeStale(stale: nat) returns (both: Run)
    ensures IsRun(stale, both) && First(both).row.None? && Starts(both) == 0 && Posts(both) == 0
    ensures var call, row := Call("h", 201), Row("h", false, None, None, 0);
            Now(both) == Keyed(Some(row), stale,
                               [Caller(call, Crashed), Caller(call, Reclaiming(row)), Caller(call, Reclaiming(row))])
  {
    hide IsRun, Produced, Starts, PostedBy, First, Deletions, Gone;
    var abandoned := Abandoned(stale);
    var first := JudgesStale(stale, abandoned, 1, "h");
    both := JudgesStale(stale, first, 2, "h");
  }

  /** A claim whose caller died, grown old. */
  lemma Abandoned(stale: nat) returns (h: Run)
    ensures IsRun(stale, h) && First(h).row.None? && Starts(h) == 0 && Posts(h) == 0
    ensures var call, row := Call("h", 201), Row("h", false, None, None, 0);
            Now(h) == Keyed(Some(row), stale, [Caller(call, Crashed), Caller(call, Arriving), Caller(call, Arriving)])
  {
    h := Do(stale, Do(stale, Do(stale, Race(3), 0, PROCEED), 0, Crash), 0, Tick(stale));
  }

  /** A retry finds an old PROCESSING row and is about to reclaim it. */
  lemma JudgesStale(stale: nat, h: Run, i: nat, hash: string) returns (h': Run)
    requires IsRun(stale, h) && i < |Now(h).callers| && Now(h).callers[i] == Caller(Call(hash, 201), Arriving)
    requires Now(h).row == Some(Row(hash, false, None, None, 0)) && Now(h).clock == stale
    ensures IsRun(stale, h') && First(h') == First(h) && Starts(h') == Starts(h) && Posts(h') == Posts(h)
    ensures Now(h') == At(Now(h), i, Reclaiming(Now(h).row.value))
    ensures forall r, k :: k != hash && Produced(stale, h', k, r) ==> Produced(stale, h, k, r)
  {
    hide IsRun, Produced, Starts, PostedBy, First, Deletions, Gone;
    var h1 := Do(stale, h, i, PROCEED);
    var h2 := Do(stale, h1, i, PROCEED);
    h' := Do(stale, h2, i, Judge);
  }

  /**
   The reclaiming DELETE looks at the status but not at the age: when two callers both judged an abandoned
   claim stale, the second one deletes the claim the first one has just made, and both handlers run.
   */
  lemma FreshClaimReclaimed(stale: nat, body: string) returns (claimed: Run, reclaimed: Run, h: Run)
    ensures IsRun(stale, h) && First(h).row.None?
    ensures Now(claimed).row == Some(Row("h", false, None, None, Now(claimed).clock)) && Now(reclaimed).row.None?
    ensures reclaimed == Then(claimed, 2, PROCEED, Now(reclaimed)) && Earlier(reclaimed, h)
    ensures Starts(h) == 2 && Posts(h) == 2
  {
    var both := BothJudgeStale(stale);
    claimed := Do(stale, Do(stale, both, 1, PROCEED), 1, PROCEED);
    reclaimed := Do(stale, claimed, 2, PROCEED);
    h := BothRun(stale, reclaimed, body);
  }

  lemma BothRun(stale: nat, reclaimed: Run, body: string) returns (h: Run)
    requires IsRun(stale, reclaimed) && Now(reclaimed).row.None? && |Now(reclaimed).callers| == 3
    requires Now(reclaimed).callers[1].pc == Claimed && Now(reclaimed).callers[2].pc == Arriving
    ensures IsRun(stale, h) && First(h) == First(reclaimed) && Earlier(reclaimed, h)
    ensures Starts(h) == Starts(reclaimed) + 2 && Posts(h) == Posts(reclaimed) + 2
  {
    var h1 := Do(stale, reclaimed, 2, PROCEED);
    var h2 := Do(stale, h1, 1, Begin);
    var h3 := Do(stale, h2, 2, Begin);
    var h4 := Do(stale, h3, 1, Commit(1));
    h := Do(stale, h4, 2, Commit(2));
    EarlierTransitive(reclaimed, h1, h2);
    EarlierTransitive(reclaimed, h2, h3);
    EarlierTransitive(reclaimed, h3, h4);
    EarlierTransitive(reclaimed, h4, h);
  }

  /** A caller that dies after its handler has committed: its claim grows stale and a retry posts again. */
  lemma CrashPostsTwice(stale: nat) returns (h: Run)
    ensures IsRun(stale, h) && First(h).row.None? && Starts(h) == 2 && Posts(h) == 2
  {
    hide StatementOf;
    var claimed := Claim0(stale);
    var posted := Do(stale, Do(stale, claimed, 0, Begin), 0, Commit(1));
    var free := Reclaim(stale, Do(stale, posted, 0, Crash), 1);
    var again := StartFresh(stale, free, 1);
    h := Do(stale, again, 1, Commit(2));
  }

  lemma Claim0(stale: nat) returns (h: Run)
    ensures IsRun(stale, h) && First(h).row.None? && Starts(h) == 0 && Posts(h) == 0
    ensures Now(h) == Keyed(Some(Row("h", false, None, None, 0)), 0,
                            [Caller(Call("h", 201), Claimed), Caller(Call("h", 201), Arriving)])
  {
    h := Do(stale, Race(2), 0, PROCEED);
  }

  /** A success UPDATE that fails frees the key although the handler has committed: a retry posts again. */
  lemma FailedFinalizePostsTwice(stale: nat, body: string) returns (h: Run)
    ensures IsRun(stale, h) && First(h).row.None?
    ensures Starts(h) == 2 && Posts(h) == 2 && Now(h).clock == First(h).clock
  {
    var posted := Do(stale, Do(stale, Do(stale, Race(2), 0, PROCEED), 0, Begin), 0, Commit(1));
    var ended := Do(stale, posted, 0, End(Returned(body, Some(1))));
    var freed := Do(stale, Do(stale, ended, 0, Statement(FailsWithoutEffect)), 0, PROCEED);
    assert Now(freed).row.None?;
    h := Do(stale, Do(stale, Do(stale, freed, 1, PROCEED), 1, Begin), 1, Commit(2));
  }

  /**
   The success UPDATE does not check whose claim the row is: a slow caller whose claim was reclaimed fills
   the row of a later request with another payload, and a retry of that request gets the wrong response.
   */
  lemma WrongResponseReplayed(stale: nat, body: string) returns (h: Run)
    ensures IsRun(stale, h) && First(h).row.None?
    ensures |Now(h).callers| == 4 && Now(h).callers[3].call.hash == "other"
    ensures Now(h).callers[3].pc == Finished(Replayed(Response(201, body)))
    ensures !Produced(stale, h, "other", Response(201, body))
  {
    hide IsRun, Produced, Starts, PostedBy, First, Deletions, Gone;
    var taken := ClaimTakenOver(stale);
    var posted := Do(stale, taken, 0, Commit(1));
    var ended := Do(stale, posted, 0, End(Returned(body, Some(1))));
    var written := Do(stale, ended, 0, PROCEED);
    h := ReadsResponse(stale, written, 3, Response(201, body));
  }

  /** A retry reclaims the key of a handler still running, and a request with another payload claims it. */
  lemma ClaimTakenOver(stale: nat) returns (h: Run)
    ensures IsRun(stale, h) && First(h).row.None?
    ensures var mine, other := Call("mine", 201), Call("other", 201);
            Now(h) == Keyed(Some(Row("other", false, None, None, stale)), stale,
                            [Caller(mine, Running), Caller(mine, Arriving), Caller(other, Claimed), Caller(other, Arriving)])
    ensures forall r :: !Produced(stale, h, "other", r)
  {
    hide IsRun, Produced, Starts, PostedBy, First, Deletions, Gone;
    var slow := SlowHandler(stale);
    var judged := JudgesStale(stale, slow, 1, "mine");
    var reclaimed := Do(stale, judged, 1, PROCEED);
    h := Do(stale, reclaimed, 2, PROCEED);
  }

  /** A handler still running when its claim has grown old; nothing was ever returned. */
  lemma SlowHandler(stale: nat) returns (h: Run)
    ensures IsRun(stale, h) && First(h).row.None?
    ensures var mine, other := Call("mine", 201), Call("other", 201);
            Now(h) == Keyed(Some(Row("mine", false, None, None, 0)), stale,
                            [Caller(mine, Running), Caller(mine, Arriving), Caller(other, Arriving), Caller(other, Arriving)])
    ensures forall r :: !Produced(stale, h, "other", r)
  {
    var mine, other := Call("mine", 201), Call("other", 201);
    var start := Begun(Keyed(None, 0, [Caller(mine, Arriving), Caller(mine, Arriving), Caller(other, Arriving), Caller(other, Arriving)]));
    assert IsRun(stale, start);
    h := Do(stale, Do(stale, Do(stale, start, 0, PROCEED), 0, Begin), 0, Tick(stale));
  }

  /** A retry of the stored request is answered with the stored response. */
  lemma ReadsResponse(stale: nat, h: Run, i: nat, response: Response) returns (h': Run)
    requires IsRun(stale, h) && i < |Now(h).callers| && Now(h).callers[i].pc == Arriving
    requires Now(h).row.Some? && Now(h).row.value.completed && Now(h).row.value.response == Some(response)
    requires Now(h).row.value.hash == Now(h).callers[i].call.hash
    ensures IsRun(stale, h') && First(h') == First(h)
    ensures Now(h') == At(Now(h), i, Finished(Replayed(response)))
    ensures forall k, r :: Produced(stale, h', k, r) ==> Produced(stale, h, k, r)
  {
    hide IsRun, Produced, First, Deletions, Gone;
    var h1 := Do(stale, h, i, PROCEED);
    var h2 := Do(stale, h1, i, PROCEED);
    h' := Do(stale, h2, i, Judge);
  }
}
