/**
 When the Redis balance is an underestimate.

 Three stretches of the service read or move a balance and then write it to the cache.  If each runs
 without another act in between and its cache write is not lost, a present cached balance never
 exceeds the PostgreSQL balance.  Serialised requests and events are a special case.  Inside a stretch,
 or when one is interrupted, it can: the last lemmas say when.
 */
module SerialCache {
  import opened Base
  import opened Ledger
  import opened Billing
  import opened System
  import opened Simulation
  import opened Erasure
  import opened Replies
  import opened Settlement
  import Q = Queue

  ghost predicate CacheBelow(b: Sys) {
    forall u | u in b.cache :: u in b.db.balances && b.cache[u] <= b.db.balances[u]
  }

  ghost predicate Good(b: Sys) {
    Wired(b) && Sound(Abs(b))
  }

  lemma DoGood(b: Sys, act: Act, maxRetries: int)
    requires Good(b)
    ensures Good(Do(b, act, maxRetries))
  {
    hide Wired, Sound, Do, Abs, Apply;
    DoWired(b, act, maxRetries);
    DoSim(b, act, maxRetries);
    if Erase(b, act).Some? {
      ApplyKeeps(Abs(b), Erase(b, act).value);
    }
  }

  // ----- filling the cache after a miss -----

  ghost predicate Reading(b: Sys, c: Sys, id: string) {
    && id in b.calls && id in c.calls && c.db == b.db && c.calls[id].user == b.calls[id].user
    && !c.calls[id].phase.HoldPlaced?
  }

  lemma BalanceFetched(b: Sys, id: string)
    requires id in b.calls && !b.calls[id].phase.Fetched? && !b.calls[id].phase.HoldPlaced?
    ensures var c := OnGateway(b, id, Fetch);
            && Reading(b, c, id) && c.cache == b.cache
            && (c.calls[id].phase.Fetched? ==>
                  c.calls[id].user in c.db.balances && c.calls[id].phase.balance == c.db.balances[c.calls[id].user])
  {
    hide CacheKey, LiveReply, ReserveNow, SinceHold;
  }

  lemma CacheFilled(b: Sys, id: string)
    requires CacheBelow(b) && id in b.calls && !b.calls[id].phase.HoldPlaced?
    requires b.calls[id].phase.Fetched? ==>
               b.calls[id].user in b.db.balances && b.calls[id].phase.balance == b.db.balances[b.calls[id].user]
    ensures Reading(b, OnGateway(b, id, Fill(false)), id) && CacheBelow(OnGateway(b, id, Fill(false)))
  {
    hide CacheKey, LiveReply, ReserveNow, SinceHold;
  }

  /** The PostgreSQL balance read after a miss, and at once written to the cache. */
  ghost function FetchAndFill(b: Sys, id: string): Sys {
    OnGateway(OnGateway(b, id, Fetch), id, Fill(false))
  }

  lemma FillBelow(b: Sys, id: string)
    requires CacheBelow(b) && id in b.calls && b.calls[id].phase.Missed?
    ensures CacheBelow(FetchAndFill(b, id))
  {
    hide OnGateway;
    BalanceFetched(b, id);
    CacheFilled(OnGateway(b, id, Fetch), id);
  }

  // ----- placing a hold -----

  /** ApplyHold, and at once the cache write of the balance it left. */
  ghost function HoldAndPublish(b: Sys, id: string): Sys {
    OnGateway(OnGateway(b, id, Reserve), id, Publish(false))
  }

  /** ApplyHold moves one balance and the cache write that follows stores that very balance. */
  lemma HoldBelow(b: Sys, id: string)
    requires CacheBelow(b) && id in b.calls && b.calls[id].phase.Seen?
    ensures CacheBelow(HoldAndPublish(b, id))
  {
    hide OnGateway;
    ReserveMoves(b, id);
    PublishMoves(OnGateway(b, id, Reserve), id);
  }

  lemma ReserveMoves(b: Sys, id: string)
    requires id in b.calls && b.calls[id].phase.Seen?
    ensures var user := b.calls[id].user;
            var c := OnGateway(b, id, Reserve);
            && c.cache == b.cache && id in c.calls && c.calls[id].user == user
            && (if c.calls[id].phase.HoldPlaced?
                then user in b.db.balances && c.db.balances == b.db.balances[user := c.calls[id].phase.left]
                else c.db == b.db)
  {
    hide KeyFree, KeyRef, BeforeHold, SinceHold;
  }

  lemma PublishMoves(b: Sys, id: string)
    requires id in b.calls
    ensures var c := OnGateway(b, id, Publish(false));
            && c.db == b.db
            && c.cache == if b.calls[id].phase.HoldPlaced? then b.cache[b.calls[id].user := b.calls[id].phase.left] else b.cache
  {
    hide BeforeHold, ReserveNow, CacheKey, Q.Emit, EventOf, InsertLog, InsertSession;
  }

  // ----- processing one event -----

  /** ProcessEvent on a message already delivered to job j, up to its cache write. */
  ghost function Process(b: Sys, j: nat, price: nat, status: Status, lost: bool, maxRetries: int): Sys {
    var b1 := OnWork(b, j, Attempt(Some(price), status), maxRetries);
    var b2 := OnWork(b1, j, Delete(lost), maxRetries);
    var b3 := OnWork(b2, j, ReadUser, maxRetries);
    OnWork(b3, j, WriteCache(false), maxRetries)
  }

  ghost predicate Ready(b: Sys, j: nat) {
    j in b.jobs && b.jobs[j].msg < |b.queue.stream| && b.jobs[j].phase.Working?
  }

  lemma AttemptMoves(b: Sys, j: nat, price: nat, status: Status, maxRetries: int)
    requires Ready(b, j)
    ensures var ev := b.queue.stream[b.jobs[j].msg];
            var c := OnWork(b, j, Attempt(Some(price), status), maxRetries);
            && c.cache == b.cache && c.queue == b.queue && j in c.jobs && c.jobs[j].msg == b.jobs[j].msg
            && (if c.jobs[j].phase.Committed?
                then ev.user in b.db.balances && ev.user in c.db.balances
                     && c.db.balances == b.db.balances[ev.user := c.db.balances[ev.user]]
                else c.jobs[j].phase.Failing? && c.db == b.db)
  {
    hide CanSettle, AfterSettle, Q.Ack, Q.Bury, Q.Deliver, Q.Reclaim, Q.Deliveries, DeleteSession;
    var ev := b.queue.stream[b.jobs[j].msg];
    var (capture, release) := CaptureRelease(ev.hold, price);
    if CanSettle(b.db, ev.user, ev.id, capture, release, ev.clientKey) {
      CanSettleUser(b.db, ev.user, ev.id, capture, release, ev.clientKey);
      SettleMoves(b.db, ev.user, ev.id, capture, release, status, ev.clientKey);
    }
  }

  lemma RefreshMoves(b: Sys, j: nat, lost: bool, maxRetries: int)
    requires j in b.jobs && b.jobs[j].msg < |b.queue.stream| && (b.jobs[j].phase.Committed? || b.jobs[j].phase.Failing?)
    ensures var user := b.queue.stream[b.jobs[j].msg].user;
            var b2 := OnWork(b, j, Delete(lost), maxRetries);
            var b3 := OnWork(b2, j, ReadUser, maxRetries);
            var c := OnWork(b3, j, WriteCache(false), maxRetries);
            && c.db.balances == b.db.balances
            && c.cache == if b.jobs[j].phase.Committed? && user in b.db.balances
                          then b.cache[user := b.db.balances[user]] else b.cache
  {
    hide AttemptNow, Q.Ack, Q.Bury, Q.Deliver, Q.Reclaim, Q.Deliveries;
    var user := b.queue.stream[b.jobs[j].msg].user;
    var b2 := OnWork(b, j, Delete(lost), maxRetries);
    assert b2.db.balances == b.db.balances && b2.cache == b.cache && b2.queue == b.queue
        && j in b2.jobs && b2.jobs[j].msg == b.jobs[j].msg
        && (if b.jobs[j].phase.Committed? then b2.jobs[j].phase.Deleted? else b2.jobs[j].phase.Failing?);
    var b3 := OnWork(b2, j, ReadUser, maxRetries);
    assert b3.db.balances == b.db.balances && b3.cache == b.cache && b3.queue == b.queue
        && j in b3.jobs && b3.jobs[j].msg == b.jobs[j].msg;
  }

  lemma ProcessBelow(b: Sys, j: nat, price: nat, status: Status, lost: bool, maxRetries: int)
    requires CacheBelow(b) && Ready(b, j)
    ensures CacheBelow(Process(b, j, price, status, lost, maxRetries))
  {
    hide OnWork;
    AttemptMoves(b, j, price, status, maxRetries);
    RefreshMoves(OnWork(b, j, Attempt(Some(price), status), maxRetries), j, lost, maxRetries);
  }

  // ----- acts that may come at any time between the two -----

  /** Every act but the ones that write a balance to the cache, and the transactions that lower a balance. */
  ghost predicate Harmless(act: Act) {
    match act
    case Gateway(_, g) => !g.Reserve? && !(g.Fill? && !g.lost) && !(g.Publish? && !g.lost)
    case Work(_, w) => !(w.Attempt? && w.price.Some?) && !(w.WriteCache? && !w.lost)
    case TopUp(_, amount, _) => amount >= 0
    case Auditing(_, _, _, lost) => lost
    case _ => true
  }

  ghost predicate BalancesRise(b: Sys, c: Sys) {
    c.cache == b.cache && forall u | u in b.db.balances :: u in c.db.balances && b.db.balances[u] <= c.db.balances[u]
  }

  lemma SweepRises(b: Sys, j: nat, p: SweepAct)
    requires Good(b)
    ensures BalancesRise(b, OnSweep(b, j, p))
  {
    hide Good, KeyFree;
    if j in b.sweeps && p.SweepNow? && b.sweeps[j].phase.Got? {
      SweepHoldSign(b, j);
      var id, hold := b.sweeps[j].id, b.sweeps[j].phase.hold;
      var user := b.db.logs[id].user;
      if CanSettle(b.db, user, id, 0, hold, "") {
        SettleMoves(b.db, user, id, 0, hold, Failed, "");
      }
    }
  }

  lemma SweepHoldSign(b: Sys, j: nat)
    requires Good(b) && j in b.sweeps && b.sweeps[j].phase.Got?
    ensures b.sweeps[j].phase.hold >= 0 && b.sweeps[j].id in b.db.logs
  {
    hide Sound;
    assert SweepOk(b, b.sweeps[j]);
    assert CallOk(b, b.sweeps[j].id);
  }

  lemma WorkRises(b: Sys, j: nat, w: JobAct, maxRetries: int)
    requires Harmless(Work(j, w))
    ensures BalancesRise(b, OnWork(b, j, w, maxRetries))
  {
    hide AttemptNow, Q.Ack, Q.Bury, Q.Deliver, Q.Reclaim, Q.Deliveries;
    var c := OnWork(b, j, w, maxRetries);
    assert c.db.balances == b.db.balances && c.cache == b.cache;
  }

  lemma GatewayRises(b: Sys, id: string, g: GatewayAct)
    requires Harmless(Gateway(id, g))
    ensures BalancesRise(b, OnGateway(b, id, g))
  {
    hide BeforeHold, SinceHold, ReserveNow;
    if id in b.calls {
      BeforeHoldSame(b, id, g);
      SinceHoldSame(b, id, g);
    }
  }

  lemma BeforeHoldSame(b: Sys, id: string, g: GatewayAct)
    requires id in b.calls && !(g.Fill? && !g.lost)
    ensures var c := BeforeHold(b, id, g); c.db == b.db && c.cache == b.cache
  {
    hide CacheKey, LiveReply;
  }

  lemma SinceHoldSame(b: Sys, id: string, g: GatewayAct)
    requires id in b.calls && !(g.Publish? && !g.lost)
    ensures var c := SinceHold(b, id, g); c.db.balances == b.db.balances && c.cache == b.cache
  {
    hide CacheKey, Q.Emit, EventOf, InsertLog, InsertSession;
    InsertsKeepBalances(b.db, id, b.calls[id].user, b.calls[id].hold, if g.Open? then g.expires else 0);
  }

  lemma InsertsKeepBalances(db: Db, id: string, user: string, hold: int, expires: int)
    ensures InsertLog(db, id, user, hold).balances == InsertSession(db, id, user, hold, expires).balances == db.balances
  {
  }

  lemma ReconcileSame(b: Sys, user: string)
    requires Good(b)
    ensures Reconciled(b.db, user) == b.db
  {
    hide Wired, UniqueKeys, RunningBalances, RowsShaped, HoldsRecorded;
    if user in b.db.balances {
      ReconcileRestores(b.db, user);
    }
  }

  lemma HarmlessBelow(b: Sys, act: Act, maxRetries: int)
    requires Good(b) && CacheBelow(b) && Harmless(act)
    ensures CacheBelow(Do(b, act, maxRetries))
  {
    hide Good, OnGateway, OnWork, OnSweep, Q.Emit, KeyFree, Reconciled;
    match act
    case Gateway(id, g) => GatewayRises(b, id, g);
    case Work(j, w) => WorkRises(b, j, w, maxRetries);
    case Sweeping(j, p) => SweepRises(b, j, p);
    case Reconciling(u) => ReconcileSame(b, u);
    case _ =>
  }

  // ----- runs whose cache writes follow their reads at once -----

  /** The three sections in which a balance is read or moved and then cached, and any other act. */
  datatype Block =
    | Filling(id: string)
    | Holding(id: string)
    | Processing(job: nat, price: nat, status: Status, lost: bool)
    | Between(act: Act)

  ghost function RunBlock(b: Sys, block: Block, maxRetries: int): Sys {
    match block
    case Filling(id) => if id in b.calls && b.calls[id].phase.Missed? then FetchAndFill(b, id) else b
    case Holding(id) => if id in b.calls && b.calls[id].phase.Seen? then HoldAndPublish(b, id) else b
    case Processing(j, price, status, lost) => if Ready(b, j) then Process(b, j, price, status, lost, maxRetries) else b
    case Between(act) => if Harmless(act) then Do(b, act, maxRetries) else b
  }

  ghost function RunBlocks(blocks: seq<Block>, maxRetries: int): Sys {
    if blocks == [] then START
    else RunBlock(RunBlocks(blocks[..|blocks| - 1], maxRetries), blocks[|blocks| - 1], maxRetries)
  }

  /** The acts a block consists of; a block whose guard fails is none. */
  ghost function BlockActs(b: Sys, block: Block): seq<Act> {
    match block
    case Filling(id) =>
      if id in b.calls && b.calls[id].phase.Missed? then [Gateway(id, Fetch), Gateway(id, Fill(false))] else []
    case Holding(id) =>
      if id in b.calls && b.calls[id].phase.Seen? then [Gateway(id, Reserve), Gateway(id, Publish(false))] else []
    case Processing(j, price, status, lost) =>
      if Ready(b, j)
      then [Work(j, Attempt(Some(price), status)), Work(j, Delete(lost)), Work(j, ReadUser), Work(j, WriteCache(false))]
      else []
    case Between(act) => if Harmless(act) then [act] else []
  }

  ghost function Flatten(blocks: seq<Block>, maxRetries: int): seq<Act> {
    if blocks == [] then []
    else
      var front := blocks[..|blocks| - 1];
      Flatten(front, maxRetries) + BlockActs(RunBlocks(front, maxRetries), blocks[|blocks| - 1])
  }

  lemma PlayTwo(b: Sys, x: Act, y: Act, maxRetries: int)
    ensures PlayFrom(b, [x, y], maxRetries) == Do(Do(b, x, maxRetries), y, maxRetries)
    ensures PlayFrom(b, [x], maxRetries) == Do(b, x, maxRetries) && PlayFrom(b, [], maxRetries) == b
  {
    hide Do;
    var one, two := [x], [x, y];
    assert one[..0] == [] && one[0] == x && two[..1] == one && two[1] == y;
    assert PlayFrom(b, one, maxRetries) == Do(PlayFrom(b, one[..0], maxRetries), one[0], maxRetries);
    assert PlayFrom(b, two, maxRetries) == Do(PlayFrom(b, two[..1], maxRetries), two[1], maxRetries);
  }

  lemma PlayFour(b: Sys, x: Act, y: Act, z: Act, w: Act, maxRetries: int)
    ensures PlayFrom(b, [x, y, z, w], maxRetries)
         == Do(Do(Do(Do(b, x, maxRetries), y, maxRetries), z, maxRetries), w, maxRetries)
  {
    hide Do;
    PlayTwo(b, x, y, maxRetries);
    var three, four := [x, y, z], [x, y, z, w];
    assert three[..2] == [x, y] && three[2] == z && four[..3] == three && four[3] == w;
    assert PlayFrom(b, three, maxRetries) == Do(PlayFrom(b, three[..2], maxRetries), three[2], maxRetries);
    assert PlayFrom(b, four, maxRetries) == Do(PlayFrom(b, four[..3], maxRetries), four[3], maxRetries);
  }

  lemma BlockIsPlay(b: Sys, block: Block, maxRetries: int)
    ensures RunBlock(b, block, maxRetries) == PlayFrom(b, BlockActs(b, block), maxRetries)
  {
    hide OnGateway, OnWork, OnSweep, OnAudit, Ready, Harmless, PlayFrom;
    match block
    case Filling(id) => PlayTwo(b, Gateway(id, Fetch), Gateway(id, Fill(false)), maxRetries);
    case Holding(id) => PlayTwo(b, Gateway(id, Reserve), Gateway(id, Publish(false)), maxRetries);
    case Processing(j, price, status, lost) =>
      PlayTwo(b, Tick(0), Tick(0), maxRetries);
      PlayFour(b, Work(j, Attempt(Some(price), status)), Work(j, Delete(lost)), Work(j, ReadUser), Work(j, WriteCache(false)),
               maxRetries);
    case Between(act) => PlayTwo(b, act, act, maxRetries);
  }

  /** A run of blocks is a run of the service. */
  lemma {:induction false} BlocksArePlay(blocks: seq<Block>, maxRetries: int)
    ensures RunBlocks(blocks, maxRetries) == Play(Flatten(blocks, maxRetries), maxRetries)
  {
    hide RunBlock, BlockActs;
    if blocks != [] {
      var front, last := blocks[..|blocks| - 1], blocks[|blocks| - 1];
      var b := RunBlocks(front, maxRetries);
      BlocksArePlay(front, maxRetries);
      BlockIsPlay(b, last, maxRetries);
      PlayConcat(Flatten(front, maxRetries), BlockActs(b, last), maxRetries);
    }
  }

  lemma BlockGood(b: Sys, block: Block, maxRetries: int)
    requires Good(b)
    ensures Good(RunBlock(b, block, maxRetries))
  {
    hide Good, OnGateway, OnWork, OnSweep, Ready;
    match block
    case Filling(id) =>
      DoGood(b, Gateway(id, Fetch), maxRetries);
      DoGood(Do(b, Gateway(id, Fetch), maxRetries), Gateway(id, Fill(false)), maxRetries);
    case Holding(id) =>
      DoGood(b, Gateway(id, Reserve), maxRetries);
      DoGood(Do(b, Gateway(id, Reserve), maxRetries), Gateway(id, Publish(false)), maxRetries);
    case Processing(j, price, status, lost) =>
      var b1 := Do(b, Work(j, Attempt(Some(price), status)), maxRetries);
      DoGood(b, Work(j, Attempt(Some(price), status)), maxRetries);
      var b2 := Do(b1, Work(j, Delete(lost)), maxRetries);
      DoGood(b1, Work(j, Delete(lost)), maxRetries);
      var b3 := Do(b2, Work(j, ReadUser), maxRetries);
      DoGood(b2, Work(j, ReadUser), maxRetries);
      DoGood(b3, Work(j, WriteCache(false)), maxRetries);
    case Between(act) => DoGood(b, act, maxRetries);
  }

  /** If nothing comes between a balance's read or move and its cache write, and those writes are not lost, a
      present cached balance is at most the PostgreSQL balance between sections, whatever else interleaves. */
  lemma {:induction false} CacheUnderestimates(blocks: seq<Block>, maxRetries: int)
    ensures CacheBelow(RunBlocks(blocks, maxRetries)) && Good(RunBlocks(blocks, maxRetries))
    ensures RunBlocks(blocks, maxRetries) == Play(Flatten(blocks, maxRetries), maxRetries)
  {
    hide Good, CacheBelow, FetchAndFill, HoldAndPublish, Process, Do, Ready;
    BlocksArePlay(blocks, maxRetries);
    if blocks == [] {
      StartGood();
    } else {
      var b := RunBlocks(blocks[..|blocks| - 1], maxRetries);
      CacheUnderestimates(blocks[..|blocks| - 1], maxRetries);
      BlockGood(b, blocks[|blocks| - 1], maxRetries);
      match blocks[|blocks| - 1]
      case Filling(id) =>
        if id in b.calls && b.calls[id].phase.Missed? {
          FillBelow(b, id);
        }
      case Holding(id) =>
        if id in b.calls && b.calls[id].phase.Seen? {
          HoldBelow(b, id);
        }
      case Processing(j, price, status, lost) =>
        if Ready(b, j) {
          ProcessBelow(b, j, price, status, lost, maxRetries);
        }
      case Between(act) =>
        if Harmless(act) {
          HarmlessBelow(b, act, maxRetries);
        }
    }
  }

  lemma StartGood()
    ensures Good(START) && CacheBelow(START)
  {
    StartWired();
    Reachable([]);
  }

  // ----- and when it is not -----

  ghost predicate CommitsNow(b: Sys, j: nat, price: nat, status: Status, maxRetries: int) {
    var c := OnWork(b, j, Attempt(Some(price), status), maxRetries);
    j in c.jobs && c.jobs[j].phase.Committed?
  }

  lemma CommitMoves(b: Sys, j: nat, price: nat, status: Status, maxRetries: int)
    requires Ready(b, j)
    requires CommitsNow(b, j, price, status, maxRetries)
    ensures var ev := b.queue.stream[b.jobs[j].msg];
            var c := OnWork(b, j, Attempt(Some(price), status), maxRetries);
            var (capture, release) := CaptureRelease(ev.hold, price);
            && c.cache == b.cache && ev.user in b.db.balances
            && c.db.balances == b.db.balances[ev.user := b.db.balances[ev.user] - Max(capture, 0) + Max(release, 0)]
  {
    hide CanSettle, AfterSettle, CaptureRelease, Q.Ack, Q.Bury, Q.Deliver, Q.Reclaim, Q.Deliveries, DeleteSession;
    var ev := b.queue.stream[b.jobs[j].msg];
    var (capture, release) := CaptureRelease(ev.hold, price);
    CanSettleUser(b.db, ev.user, ev.id, capture, release, ev.clientKey);
    SettleMoves(b.db, ev.user, ev.id, capture, release, status, ev.clientKey);
  }

  /** Right after a settlement commits and before the worker's cache write, a cache that was exact is still
      an underestimate exactly when no more was captured than released. */
  lemma SettlementOutrunsCache(b: Sys, j: nat, price: nat, status: Status, maxRetries: int)
    requires Good(b) && Ready(b, j)
    requires var user := b.queue.stream[b.jobs[j].msg].user;
             user in b.cache && user in b.db.balances && b.cache[user] == b.db.balances[user]
    requires CommitsNow(b, j, price, status, maxRetries)
    ensures var ev := b.queue.stream[b.jobs[j].msg];
            var c := OnWork(b, j, Attempt(Some(price), status), maxRetries);
            var (capture, release) := CaptureRelease(ev.hold, price);
            && ev.user in c.cache && ev.user in c.db.balances
            && (c.cache[ev.user] <= c.db.balances[ev.user] <==> capture <= release)
            && (capture <= release <==> 2 * capture <= ev.hold)
  {
    hide Good, OnWork;
    HoldOfEvent(b, j);
    CommitMoves(b, j, price, status, maxRetries);
  }

  lemma HoldOfEvent(b: Sys, j: nat)
    requires Good(b) && j in b.jobs && b.jobs[j].msg < |b.queue.stream|
    ensures b.queue.stream[b.jobs[j].msg].hold > 0
  {
    hide Sound;
    var ev := b.queue.stream[b.jobs[j].msg];
    assert EventOk(b, ev);
    assert CallOk(b, ev.id);
  }

  // ----- a cache write that comes late -----

  /** The hold row of a call that has placed its hold and not yet published the balance it left. */
  ghost predicate LeftRow(rows: seq<Row>, i: nat, id: string, user: string, left: int) {
    i < |rows| && rows[i].kind == Hold && rows[i].ref == Some(id) && rows[i].user == user && rows[i].after == left
  }

  ghost predicate LeftOk(b: Sys, id: string) {
    id in b.calls && b.calls[id].phase.HoldPlaced? ==>
      exists i :: LeftRow(b.db.rows, i, id, b.calls[id].user, b.calls[id].phase.left)
  }

  /** Only ApplyHold puts a call into that phase, with the row it appends. */
  lemma NewHoldPlaced(b: Sys, act: Act, maxRetries: int, id: string)
    requires var c := Do(b, act, maxRetries); id in c.calls && c.calls[id].phase.HoldPlaced?
    ensures var c := Do(b, act, maxRetries);
            || (id in b.calls && b.calls[id] == c.calls[id])
            || LeftRow(c.db.rows, |b.db.rows|, id, c.calls[id].user, c.calls[id].phase.left)
  {
    hide OnGateway, OnWork, OnSweep, LeftRow;
    if act.Gateway? {
      if act.g.Reserve? {
        ReserveLeaves(b, act.id, id);
      } else {
        OtherPhase(b, act.id, act.g, id);
      }
    } else {
      OthersKeepCalls(b, act, maxRetries);
    }
  }

  lemma ReserveLeaves(b: Sys, who: string, id: string)
    requires var c := OnGateway(b, who, Reserve); id in c.calls && c.calls[id].phase.HoldPlaced?
    ensures var c := OnGateway(b, who, Reserve);
            || (id in b.calls && b.calls[id] == c.calls[id])
            || LeftRow(c.db.rows, |b.db.rows|, id, c.calls[id].user, c.calls[id].phase.left)
  {
    hide KeyFree, KeyRef, BeforeHold, SinceHold;
  }

  lemma OtherPhase(b: Sys, who: string, g: GatewayAct, id: string)
    requires !g.Reserve?
    requires var c := OnGateway(b, who, g); id in c.calls && c.calls[id].phase.HoldPlaced?
    ensures id in b.calls && b.calls[id] == OnGateway(b, who, g).calls[id]
  {
    hide BeforeHold, SinceHold, ReserveNow;
    if who in b.calls {
      BeforeHoldOthers(b, who, g, id);
      SinceHoldOthers(b, who, g, id);
    }
  }

  lemma BeforeHoldOthers(b: Sys, who: string, g: GatewayAct, id: string)
    requires who in b.calls
    ensures var c := BeforeHold(b, who, g); c.calls.Keys == b.calls.Keys
    ensures var c := BeforeHold(b, who, g);
            id in c.calls ==> c.calls[id] == b.calls[id] || !c.calls[id].phase.HoldPlaced?
  {
    hide BeforeHold;
    BeforeHoldPhase(b, who, g);
  }

  lemma SinceHoldOthers(b: Sys, who: string, g: GatewayAct, id: string)
    requires who in b.calls
    ensures var c := SinceHold(b, who, g); c.calls.Keys == b.calls.Keys
    ensures var c := SinceHold(b, who, g);
            id in c.calls ==> c.calls[id] == b.calls[id] || !c.calls[id].phase.HoldPlaced?
  {
    hide SinceHold;
    SinceHoldPhase(b, who, g);
  }

  lemma RowsGrow(b: Sys, act: Act, maxRetries: int)
    requires Wired(b)
    ensures b.db.rows <= Do(b, act, maxRetries).db.rows
  {
    hide Wired, Do, Apply, Erase;
    DoSim(b, act, maxRetries);
    if Erase(b, act).Some? {
      ApplyLater(Abs(b), Erase(b, act).value);
    }
  }

  lemma {:induction false} PlayLeft(acts: seq<Act>, maxRetries: int, id: string)
    ensures LeftOk(Play(acts, maxRetries), id)
  {
    hide Do, Wired, LeftRow;
    if acts != [] {
      var front, last := acts[..|acts| - 1], acts[|acts| - 1];
      var b, c := Play(front, maxRetries), Play(acts, maxRetries);
      PlayLeft(front, maxRetries, id);
      PlayWired(front, maxRetries);
      RowsGrow(b, last, maxRetries);
      if id in c.calls && c.calls[id].phase.HoldPlaced? {
        NewHoldPlaced(b, last, maxRetries, id);
        if id in b.calls && b.calls[id] == c.calls[id] {
          var i :| LeftRow(b.db.rows, i, id, b.calls[id].user, b.calls[id].phase.left);
          LeftRowStays(b.db.rows, c.db.rows, i, id, b.calls[id].user, b.calls[id].phase.left);
        }
      }
    }
  }

  lemma LeftRowStays(rows: seq<Row>, more: seq<Row>, i: nat, id: string, user: string, left: int)
    requires LeftRow(rows, i, id, user, left) && rows <= more
    ensures LeftRow(more, i, id, user, left)
  {
    assert more[i] == rows[i];
  }

  /** In any run, a call that publishes the balance its hold left makes the cache differ from PostgreSQL by the
      user's ledger rows since that hold: it overshoots exactly when those sum to less than zero, and is
      exact when there were none. */
  lemma LatePublish(acts: seq<Act>, maxRetries: int, id: string, i: nat)
    requires var b := Play(acts, maxRetries);
             && id in b.calls && b.calls[id].phase.HoldPlaced?
             && i < |b.db.rows| && b.db.rows[i].kind == Hold && b.db.rows[i].ref == Some(id)
    ensures var b := Play(acts, maxRetries);
            var user := b.calls[id].user;
            var since := LedgerSum(b.db.rows[i + 1..], user);
            var c := Do(b, Gateway(id, Publish(false)), maxRetries);
            && user in c.cache && user in c.db.balances
            && c.db.balances[user] - c.cache[user] == since
            && (c.cache[user] <= c.db.balances[user] <==> since >= 0)
  {
    hide Play, OnGateway, LedgerSum, Wired, Sound, LeftRow;
    var b := Play(acts, maxRetries);
    var c := b.calls[id];
    PlayLeft(acts, maxRetries, id);
    ErasedRun(acts, maxRetries);
    PublishMoves(b, id);
    var k :| LeftRow(b.db.rows, k, id, c.user, c.phase.left);
    MovedSince(Abs(b), id, i, k, c.user, c.phase.left);
  }

  /** The balance now is what the hold left, plus the user's rows since. */
  lemma MovedSince(s: Core, id: string, i: nat, k: nat, user: string, left: int)
    requires Sound(s) && LeftRow(s.db.rows, k, id, user, left)
    requires i < |s.db.rows| && s.db.rows[i].kind == Hold && s.db.rows[i].ref == Some(id)
    ensures user in s.db.balances && s.db.balances[user] == left + LedgerSum(s.db.rows[i + 1..], user)
  {
    hide Sound, Total;
    OneHoldRow(s, id, i, k);
    SumsAt(s, user, i);
    assert s.db.rows[..i + 1] + s.db.rows[i + 1..] == s.db.rows;
    TotalConcat(s.db.rows[..i + 1], s.db.rows[i + 1..], OfUser(user));
  }

  lemma OneHoldRow(s: Core, id: string, i: nat, k: nat)
    requires Sound(s) && i < |s.db.rows| && k < |s.db.rows|
    requires s.db.rows[i].kind == s.db.rows[k].kind == Hold && s.db.rows[i].ref == s.db.rows[k].ref == Some(id)
    ensures i == k
  {
    assert RowShape(s.requests, s.db.rows[i]) && RowShape(s.requests, s.db.rows[k]);
  }

  lemma SumsAt(s: Core, user: string, i: nat)
    requires Sound(s) && i < |s.db.rows| && s.db.rows[i].user == user
    ensures user in s.db.balances && s.db.balances[user] == Total(s.db.rows, OfUser(user))
    ensures s.db.rows[i].after == Total(s.db.rows[..i + 1], OfUser(user))
  {
  }
}
