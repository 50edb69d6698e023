/** Many calls on one allocator instance: the IDs it hands out, and how often it
    goes to the sequence row. */
module IncrementerSessions {
  import opened Wrappers
  import opened IncrementerSql
  import opened Jdbc
  import opened SafeModeIncrementer

  /** One call: the connection the data source hands out for it and how the JDBC
      calls of a refill answer. */
  datatype Request = Request(con: ConnState, env: Env)

  /** The IDs returned (failed calls return none), the final counters and row, and
      the number of calls that sent a statement to the store. */
  datatype Served = Served(ids: seq<int>, counters: Counters, row: int, roundTrips: nat)

  /** One call on an allocator with configuration `cfg` and connection policy `useNew`. */
  function Call(cfg: Config, useNew: bool): (Counters, int, Request) -> Outcome {
    (c: Counters, row: int, req: Request) => NextKey(cfg, useNew, c, row, req.con, req.env)
  }

  /** The calls `reqs`, in order, each made by `step` from the counters and the row the
      previous call left. A call that raises returns no ID; a call whose connection
      executed a statement made one round trip. */
  function Run(step: (Counters, int, Request) -> Outcome, c: Counters, row: int, reqs: seq<Request>): (s: Served)
    ensures |s.ids| <= |reqs| && s.roundTrips <= |reqs|
    decreases |reqs|
  {
    if reqs == [] then Served([], c, row, 0)
    else
      var o := step(c, row, reqs[0]);
      var rest := Run(step, o.counters, o.row, reqs[1..]);
      Served((if o.result.Ok? then [o.result.value] else []) + rest.ids,
             rest.counters, rest.row,
             (if o.con.log != reqs[0].con.log then 1 else 0) + rest.roundTrips)
  }

  /** The calls `reqs`, in order, on one allocator with counters `c` and a sequence
      row that no other allocator writes, starting at `row`. */
  function Session(cfg: Config, useNew: bool, c: Counters, row: int, reqs: seq<Request>): Served {
    Run(Call(cfg, useNew), c, row, reqs)
  }

  predicate StrictlyIncreasing(ids: seq<int>) {
    forall i, j :: 0 <= i < j < |ids| ==> ids[i] < ids[j]
  }

  /** `n` consecutive IDs starting at `lo`. */
  function Consecutive(lo: int, n: nat): seq<int>
    decreases n
  {
    if n == 0 then [] else [lo] + Consecutive(lo + 1, n - 1)
  }

  predicate AllSucceed(reqs: seq<Request>) {
    forall i :: 0 <= i < |reqs| ==> Succeeds(reqs[i].env)
  }

  /** Whatever fails along the way, the IDs one instance hands out strictly increase,
      all lie above the starting `nextId` and at or below the final one, and the
      invariant holds at the end. */
  lemma {:induction false} SessionIdsIncrease(cfg: Config, useNew: bool, c: Counters, row: int, reqs: seq<Request>)
    requires Inv(cfg, c, row)
    ensures var s := Session(cfg, useNew, c, row, reqs);
      && StrictlyIncreasing(s.ids)
      && (forall i :: 0 <= i < |s.ids| ==> c.nextId < s.ids[i] <= s.counters.nextId)
      && Inv(cfg, s.counters, s.row) && s.row >= row && s.counters.nextId >= c.nextId
    decreases |reqs|
  {
    if reqs != [] {
      var o := NextKey(cfg, useNew, c, row, reqs[0].con, reqs[0].env);
      NextKeyKeepsInvariant(cfg, useNew, c, row, reqs[0].con, reqs[0].env);
      SessionIdsIncrease(cfg, useNew, o.counters, o.row, reqs[1..]);
      var rest := Session(cfg, useNew, o.counters, o.row, reqs[1..]);
      var s := Session(cfg, useNew, c, row, reqs);
      if o.result.Ok? {
        assert s.ids == [o.result.value] + rest.ids;
        assert forall i :: 0 < i < |s.ids| ==> s.ids[i] == rest.ids[i - 1];
      } else {
        assert s.ids == rest.ids;
      }
    }
  }

  lemma {:induction false} ConsecutiveSplit(lo: int, n: nat, m: nat)
    ensures Consecutive(lo, n + m) == Consecutive(lo, n) + Consecutive(lo + n, m)
    decreases n
  {
    if n > 0 {
      ConsecutiveSplit(lo + 1, n - 1, m);
    }
  }

  /** Running `a + b` is running `a`, then `b` from where `a` ends. */
  lemma {:induction false} RunAppend(step: (Counters, int, Request) -> Outcome, c: Counters, row: int, a: seq<Request>, b: seq<Request>)
    ensures var s1 := Run(step, c, row, a);
      var s2 := Run(step, s1.counters, s1.row, b);
      Run(step, c, row, a + b) == Served(s1.ids + s2.ids, s2.counters, s2.row, s1.roundTrips + s2.roundTrips)
    decreases |a|
  {
    if a == [] {
      assert a + b == b;
    } else {
      assert (a + b)[0] == a[0];
      assert (a + b)[1..] == a[1..] + b;
      var o := step(c, row, a[0]);
      RunAppend(step, o.counters, o.row, a[1..], b);
      var r1 := Run(step, o.counters, o.row, a[1..]);
      var r2 := Run(step, r1.counters, r1.row, b);
      var head := if o.result.Ok? then [o.result.value] else [];
      assert head + (r1.ids + r2.ids) == (head + r1.ids) + r2.ids;
    }
  }

  /** The requests of consecutive blocks of calls, in order. */
  function Flatten(blocks: seq<seq<Request>>): seq<Request>
    decreases |blocks|
  {
    if blocks == [] then [] else Flatten(blocks[..|blocks| - 1]) + blocks[|blocks| - 1]
  }

  /** Every block holds `k` calls, all of which succeed. */
  predicate FullBlocks(blocks: seq<seq<Request>>, k: int) {
    forall i :: 0 <= i < |blocks| ==> |blocks[i]| == k && AllSucceed(blocks[i])
  }

  /** Successful calls within the cached block serve the next IDs in order and never
      go to the store. */
  lemma {:induction false} ServeFromBlock(cfg: Config, useNew: bool, c: Counters, row: int, reqs: seq<Request>)
    requires c.nextId + |reqs| <= c.maxId
    ensures Session(cfg, useNew, c, row, reqs)
         == Served(Consecutive(c.nextId + 1, |reqs|), Counters(c.nextId + |reqs|, c.maxId), row, 0)
    decreases |reqs|
  {
    if reqs != [] {
      var o := NextKey(cfg, useNew, c, row, reqs[0].con, reqs[0].env);
      FastPath(cfg, useNew, c, row, reqs[0].con, reqs[0].env);
      ServeFromBlock(cfg, useNew, o.counters, o.row, reqs[1..]);
    }
  }

  /** From a used-up block, `cacheSize` successful calls serve the `cacheSize` IDs after
      the row's value with exactly one round trip, and leave the block used up again,
      ending at the row's new value. */
  lemma {:induction false} OneBlock(cfg: Config, useNew: bool, c: Counters, row: int, reqs: seq<Request>)
    requires cfg.cacheSize >= 1 && c.nextId == c.maxId && row > 0
    requires |reqs| == cfg.cacheSize && AllSucceed(reqs)
    ensures Session(cfg, useNew, c, row, reqs)
         == Served(Consecutive(row + 1, cfg.cacheSize),
                   Counters(row + cfg.cacheSize, row + cfg.cacheSize), row + cfg.cacheSize, 1)
  {
    var k := cfg.cacheSize;
    var o := NextKey(cfg, useNew, c, row, reqs[0].con, reqs[0].env);
    RefillServesNextAfterRow(cfg, useNew, c, row, reqs[0].con, reqs[0].env);
    ServeFromBlock(cfg, useNew, o.counters, o.row, reqs[1..]);
  }

  /** What one full block of successful calls does, from any used-up state. */
  ghost predicate ServesBlocks(step: (Counters, int, Request) -> Outcome, blocks: seq<seq<Request>>, k: nat) {
    forall c: Counters, row: int, i :: 0 <= i < |blocks| && c.nextId == c.maxId <= row && row > 0 ==>
      Run(step, c, row, blocks[i]) == Served(Consecutive(row + 1, k), Counters(row + k, row + k), row + k, 1)
  }

  lemma ServesBlocksInit(step: (Counters, int, Request) -> Outcome, blocks: seq<seq<Request>>, k: nat)
    requires blocks != [] && ServesBlocks(step, blocks, k)
    ensures ServesBlocks(step, blocks[..|blocks| - 1], k)
  {
    var init := blocks[..|blocks| - 1];
    forall c': Counters, row': int, i | 0 <= i < |init| && c'.nextId == c'.maxId <= row' && row' > 0
      ensures Run(step, c', row', init[i]) == Served(Consecutive(row' + 1, k), Counters(row' + k, row' + k), row' + k, 1)
    {
      assert init[i] == blocks[i];
    }
  }

  /** Blocks that each serve the `k` IDs above the row with one round trip, run one
      after another, serve consecutive IDs with one round trip per block. */
  lemma {:induction false} RunBlocks(step: (Counters, int, Request) -> Outcome, c: Counters, row: int, blocks: seq<seq<Request>>, k: nat)
    requires c.nextId == c.maxId <= row && row > 0 && k >= 1
    requires ServesBlocks(step, blocks, k) && forall i :: 0 <= i < |blocks| ==> |blocks[i]| == k
    ensures var reqs := Flatten(blocks);
      var s := Run(step, c, row, reqs);
      && s.ids == Consecutive(row + 1, |reqs|)
      && s.roundTrips == |blocks|
      && s.row == row + |reqs|
      && s.counters.nextId == s.counters.maxId <= s.row
    decreases |blocks|
  {
    if blocks != [] {
      var init, last := blocks[..|blocks| - 1], blocks[|blocks| - 1];
      ServesBlocksInit(step, blocks, k);
      RunBlocks(step, c, row, init, k);
      RunAppend(step, c, row, Flatten(init), last);
      var s1 := Run(step, c, row, Flatten(init));
      assert Run(step, s1.counters, s1.row, last)
          == Served(Consecutive(s1.row + 1, k), Counters(s1.row + k, s1.row + k), s1.row + k, 1);
      ConsecutiveSplit(row + 1, |Flatten(init)|, k);
    }
  }

  /** From a used-up block, successful calls in blocks of `cacheSize` serve the IDs
      just above the row's value, consecutively, with exactly one round trip per
      block, and the row rises by exactly the number of IDs served. */
  lemma BlocksOfCalls(cfg: Config, useNew: bool, c: Counters, row: int, blocks: seq<seq<Request>>)
    requires cfg.cacheSize >= 1 && c.nextId == c.maxId <= row && row > 0
    requires FullBlocks(blocks, cfg.cacheSize)
    ensures var reqs := Flatten(blocks);
      var s := Session(cfg, useNew, c, row, reqs);
      && s.ids == Consecutive(row + 1, |reqs|)
      && s.roundTrips == |blocks|
      && s.row == row + |reqs|
      && s.counters.nextId == s.counters.maxId <= s.row
  {
    var k := cfg.cacheSize;
    forall c': Counters, row': int, i | 0 <= i < |blocks| && c'.nextId == c'.maxId <= row' && row' > 0
      ensures Run(Call(cfg, useNew), c', row', blocks[i]) == Served(Consecutive(row' + 1, k), Counters(row' + k, row' + k), row' + k, 1)
    {
      OneBlock(cfg, useNew, c', row', blocks[i]);
    }
    RunBlocks(Call(cfg, useNew), c, row, blocks, k);
  }

  /** A new allocator over a row seeded at `row >= 1`: after full blocks of successful
      calls it has handed out exactly `row + 1 .. row + n` for the `n` calls made,
      refilled once per block, and left the row at the last ID handed out. */
  lemma FreshAllocatorServes(cfg: Config, useNew: bool, row: int, blocks: seq<seq<Request>>)
    requires cfg.cacheSize >= 1 && row >= 1 && FullBlocks(blocks, cfg.cacheSize)
    ensures var reqs := Flatten(blocks);
      var s := Session(cfg, useNew, Counters(0, 0), row, reqs);
      s.ids == Consecutive(row + 1, |reqs|) && s.roundTrips == |blocks| && s.row == row + |reqs|
  {
    BlocksOfCalls(cfg, useNew, Counters(0, 0), row, blocks);
  }

  /** A row at 100 and blocks of 10: the first 20 calls serve 101 to 120 with two
      refills, and the row ends at 120. */
  lemma RowAtHundredExample(cfg: Config, useNew: bool, first: seq<Request>, second: seq<Request>)
    requires cfg.cacheSize == 10 && FullBlocks([first, second], 10)
    ensures var s := Session(cfg, useNew, Counters(0, 0), 100, first + second);
      |s.ids| == 20 && s.ids[0] == 101 && s.ids[9] == 110 && s.ids[10] == 111 && s.roundTrips == 2 && s.row == 120
  {
    var blocks := [first, second];
    assert blocks[..1] == [first] && [first][..0] == [];
    assert Flatten([first]) == [] + first == first;
    assert Flatten(blocks) == first + second;
    FreshAllocatorServes(cfg, useNew, 100, blocks);
    ConsecutiveAt(101, 20, 0);
    ConsecutiveAt(101, 20, 9);
    ConsecutiveAt(101, 20, 10);
  }

  lemma {:induction false} ConsecutiveAt(lo: int, n: nat, i: nat)
    requires i < n
    ensures |Consecutive(lo, n)| == n && Consecutive(lo, n)[i] == lo + i
    decreases n
  {
    if i > 0 {
      ConsecutiveAt(lo + 1, n - 1, i - 1);
    } else {
      ConsecutiveLength(lo, n);
    }
  }

  lemma {:induction false} ConsecutiveLength(lo: int, n: nat)
    ensures |Consecutive(lo, n)| == n
    decreases n
  {
    if n > 0 {
      ConsecutiveLength(lo + 1, n - 1);
    }
  }
}
