/** What a scan of the fill worker achieves. */
module ScanLaws {
  import opened Wrappers
  import opened Ledger
  import opened Trading
  import opened System
  import opened Invariant
  import opened Outcomes
  import opened Reals
  import opened Services
  import Runs

  /** The order fills in this attempt. */
  ghost predicate Fills(cfg: Config, o: Order, luck: Luck)
    requires ConfigOk(cfg) && PairOk(cfg, o) && o.limitPrice.Some?
  {
    && !luck.breaks && luck.rate.Some? && Reached(o.side, luck.rate.value, o.limitPrice.value)
    && (o.side == Buy || WorthSomething(cfg, o))
  }

  /** The row `o` becomes `o'`: filled at its limit price. */
  predicate FilledRow(o: Order, o': Order, at: int) {
    o'.fillEntry.Some? && o' == FilledOrder(o, o'.fillEntry.value, at)
  }

  /** The attempt's sums stay within twenty digits. */
  ghost predicate RoomyAttempt(cfg: Config, mid: Db, op: Op)
    requires ConfigOk(cfg)
  {
    Covered(mid, Plan(cfg, op, RowOf(mid, op))) && Roomy(cfg, mid, op)
  }

  /**
   One attempt on an open limit order: true is returned and its row is filled exactly when it should be, and no
   other row is touched.
   */
  lemma AttemptAchieves(cfg: Config, before: Db, mid: Db, id: nat, luck: Luck, at: int, after: Db, filled: Result<bool, Error>)
    requires Sound(cfg, before) && Tried(cfg, before, mid, TryFill(id, luck.rate, at), luck.breaks, after, filled)
    requires id < |before.orders| && before.orders[id].status == Open
    ensures Sound(cfg, after) && after.requests == before.requests && |after.orders| == |before.orders|
    ensures PairOk(cfg, before.orders[id]) && before.orders[id].limitPrice.Some?
    ensures forall i :: 0 <= i < |before.orders| && i != id ==> after.orders[i] == before.orders[i]
    ensures if Fills(cfg, before.orders[id], luck) then FilledRow(before.orders[id], after.orders[id], at)
            else after.orders[id] == before.orders[id]
    ensures filled == Ok(true) <==> Fills(cfg, before.orders[id], luck)
  {
    hide Sound, Plan, Opened, Apply, Covered, KeysOf, Reached, WorthSomething, PairOk, Fillable;
    var op := TryFill(id, luck.rate, at);
    var keys := KeysOf(Plan(cfg, op, RowOf(before, op)));
    Runs.OpenSound(cfg, before, mid, keys);
    Runs.OpenCovers(cfg, before, mid, op);
    OpenedRows(before, mid, keys);
    Runs.ApplySound(cfg, mid, op);
    FillsExactly(cfg, mid, id, luck.rate, at);
    if Apply(cfg, mid, op).1.Done? {
      OpenIsLimit(cfg, mid, id);
      FillSucceedsIff(cfg, mid, id, luck.rate.value, at);
    }
  }

  /** Within twenty digits an attempt keeps every balance in step too. */
  lemma AttemptKeeps(cfg: Config, before: Db, mid: Db, op: Op, breaks: bool, after: Db, filled: Result<bool, Error>)
    requires Inv(cfg, before) && Tried(cfg, before, mid, op, breaks, after, filled) && RoomyAttempt(cfg, mid, op)
    ensures Inv(cfg, after)
  {
    hide Inv, Plan, Opened, Apply, Covered, Roomy, KeysOf;
    Runs.OpenKeeps(cfg, before, mid, KeysOf(Plan(cfg, op, RowOf(before, op))));
    Runs.ApplyKeeps(cfg, mid, op);
  }

  lemma OpenedRows(before: Db, mid: Db, keys: set<AccountKey>)
    requires Opened(before, mid, keys)
    ensures mid.orders == before.orders && mid.requests == before.requests
  {
  }

  /** What the first `k` attempts have made of each order. */
  ghost predicate Achieved(cfg: Config, start: Db, ids: seq<nat>, luck: nat -> Luck, at: int, k: nat, now: Db)
    requires ConfigOk(cfg) && k <= |ids|
  {
    && Sound(cfg, now) && now.requests == start.requests && |now.orders| == |start.orders|
    && forall i :: 0 <= i < |start.orders| ==>
         && (start.orders[i].status == Open ==> PairOk(cfg, start.orders[i]) && start.orders[i].limitPrice.Some?)
         && if i in ids[..k] && start.orders[i].status == Open && Fills(cfg, start.orders[i], luck(i))
            then FilledRow(start.orders[i], now.orders[i], at)
            else now.orders[i] == start.orders[i]
  }

  lemma {:induction false} OpenLimitsAreOpen(orders: seq<Order>)
    ensures forall k :: 0 <= k < |OpenLimitIds(orders)| ==>
              OpenLimitIds(orders)[k] < |orders| && orders[OpenLimitIds(orders)[k]].status == Open
    ensures forall j, k :: 0 <= j < k < |OpenLimitIds(orders)| ==> OpenLimitIds(orders)[j] < OpenLimitIds(orders)[k]
  {
    if orders != [] {
      OpenLimitsAreOpen(Init(orders));
    }
  }

  lemma {:induction false} ScanSoFar(cfg: Config, luck: nat -> Luck, at: int, scan: Scan, k: nat)
    requires |scan.states| > 0 && Sound(cfg, scan.states[0]) && k < |scan.states|
    requires Scanned(cfg, OpenLimitIds(scan.states[0].orders), luck, at, scan)
    ensures k <= |OpenLimitIds(scan.states[0].orders)|
    ensures Achieved(cfg, scan.states[0], OpenLimitIds(scan.states[0].orders), luck, at, k, scan.states[k])
  {
    hide Sound, Tried, PairOk, Fills, OpenLimitIds;
    var start := scan.states[0];
    var ids := OpenLimitIds(start.orders);
    OpenLimitsAreOpen(start.orders);
    if k == 0 {
      OpenRowsPaired(cfg, start);
    } else {
      ScanSoFar(cfg, luck, at, scan, k - 1);
      var id := ids[k - 1];
      assert ids[..k] == ids[..k - 1] + [id];
      assert id !in ids[..k - 1];
      assert Tried(cfg, scan.states[k - 1], scan.mids[k - 1], TryFill(id, luck(id).rate, at), luck(id).breaks,
                   scan.states[k - 1 + 1], scan.results[k - 1]);
      AttemptAchieves(cfg, scan.states[k - 1], scan.mids[k - 1], id, luck(id), at, scan.states[k], scan.results[k - 1]);
    }
  }

  lemma OpenRowsPaired(cfg: Config, db: Db)
    requires Sound(cfg, db)
    ensures forall i :: 0 <= i < |db.orders| && db.orders[i].status == Open ==>
              PairOk(cfg, db.orders[i]) && db.orders[i].limitPrice.Some?
  {
    hide Sound, PairOk;
    Runs.SoundParts(cfg, db);
    forall i | 0 <= i < |db.orders| && db.orders[i].status == Open
      ensures PairOk(cfg, db.orders[i]) && db.orders[i].limitPrice.Some?
    {
      OpenIsLimit(cfg, db, i);
    }
  }

  lemma {:induction false} OpenLimitsComplete(orders: seq<Order>, i: nat)
    requires i < |orders| && orders[i].status == Open && orders[i].kind == Limit
    ensures i in OpenLimitIds(orders)
  {
    if i < |orders| - 1 {
      OpenLimitsComplete(Init(orders), i);
    }
  }

  /**
   What a scan achieves: each order open at its start is filled exactly when its own attempt does not break, its
   rate has crossed and it is a BUY or worth more than half a quote unit; every other row is as it was.
   */
  lemma ScanAchieves(cfg: Config, luck: nat -> Luck, at: int, scan: Scan)
    requires |scan.states| > 0 && Sound(cfg, scan.states[0])
    requires Scanned(cfg, OpenLimitIds(scan.states[0].orders), luck, at, scan)
    requires |scan.results| == |OpenLimitIds(scan.states[0].orders)|
    ensures var start, end := scan.states[0], Last(scan.states);
            && Sound(cfg, end) && end.requests == start.requests && |end.orders| == |start.orders|
            && forall i :: 0 <= i < |start.orders| ==>
                 && (start.orders[i].status == Open ==> PairOk(cfg, start.orders[i]) && start.orders[i].limitPrice.Some?)
                 && if start.orders[i].status == Open && Fills(cfg, start.orders[i], luck(i))
                    then FilledRow(start.orders[i], end.orders[i], at)
                    else end.orders[i] == start.orders[i]
  {
    hide Sound, Tried, PairOk, Fills, OpenLimitIds, FilledRow;
    var start := scan.states[0];
    var ids := OpenLimitIds(start.orders);
    ScanSoFar(cfg, luck, at, scan, |ids|);
    assert ids[..|ids|] == ids;
    forall i | 0 <= i < |start.orders| && start.orders[i].status == Open ensures i in ids {
      OpenIsLimit(cfg, start, i);
      OpenLimitsComplete(start.orders, i);
    }
  }

  /** Within twenty digits a scan keeps the whole invariant, attempt by attempt. */
  lemma {:induction false} ScanKeeps(cfg: Config, ids: seq<nat>, luck: nat -> Luck, at: int, scan: Scan, k: nat)
    requires |scan.states| > 0 && Inv(cfg, scan.states[0]) && k < |scan.states| && Scanned(cfg, ids, luck, at, scan)
    requires forall n :: 0 <= n < |scan.results| ==> RoomyAttempt(cfg, scan.mids[n], TryFill(ids[n], luck(ids[n]).rate, at))
    ensures Inv(cfg, scan.states[k])
  {
    hide Inv, Tried, RoomyAttempt;
    if k > 0 {
      ScanKeeps(cfg, ids, luck, at, scan, k - 1);
      var op := TryFill(ids[k - 1], luck(ids[k - 1]).rate, at);
      assert Tried(cfg, scan.states[k - 1], scan.mids[k - 1], op, luck(ids[k - 1]).breaks,
                   scan.states[k - 1 + 1], scan.results[k - 1]);
      AttemptKeeps(cfg, scan.states[k - 1], scan.mids[k - 1], op, luck(ids[k - 1]).breaks, scan.states[k], scan.results[k - 1]);
    }
  }
}
