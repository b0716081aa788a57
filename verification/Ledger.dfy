/** The trade ledger: a stored list that the services use as a map keyed by trade id. */
module Ledger {
  import opened Options
  import opened Lists

  /** A point in time, in microseconds. */
  type Time = int
  const MILLISECOND: Time := 1000

  datatype TradeMode = Paper | Live

  datatype TradeStatus =
    Candidate | Open | Hedged | Closing | Closed | Failed | RecoveryPending | Cancelled

  datatype TradeLedgerRecord = TradeLedgerRecord(
    tradeId: string,
    mode: TradeMode,
    strategyId: string,
    symbol: string,
    status: TradeStatus,
    openedAt: Time,
    closedAt: Option<Time>,
    netExposure: real,
    spotNotional: real,
    perpNotional: real,
    realizedPnl: real,
    notes: Option<string>)

  function Find(ledger: seq<TradeLedgerRecord>, tradeId: string): Option<TradeLedgerRecord>
  {
    if ledger == [] then None
    else if ledger[0].tradeId == tradeId then Some(ledger[0])
    else Find(ledger[1..], tradeId)
  }

  function Put(ledger: seq<TradeLedgerRecord>, record: TradeLedgerRecord): seq<TradeLedgerRecord>
  {
    if ledger == [] then [record]
    else if ledger[0].tradeId == record.tradeId then [record] + ledger[1..]
    else [ledger[0]] + Put(ledger[1..], record)
  }

  /** What the list means: the first record listed for an id is the one that counts. */
  function AsMap(ledger: seq<TradeLedgerRecord>): map<string, TradeLedgerRecord>
  {
    if ledger == [] then map[] else AsMap(ledger[1..])[ledger[0].tradeId := ledger[0]]
  }

  predicate UniqueIds(ledger: seq<TradeLedgerRecord>)
  {
    forall i, j :: 0 <= i < j < |ledger| ==> ledger[i].tradeId != ledger[j].tradeId
  }

  lemma {:induction false} FindIsLookup(ledger: seq<TradeLedgerRecord>, tradeId: string)
    ensures Find(ledger, tradeId)
         == if tradeId in AsMap(ledger) then Some(AsMap(ledger)[tradeId]) else None
  {
    if ledger != [] && ledger[0].tradeId != tradeId {
      FindIsLookup(ledger[1..], tradeId);
    }
  }

  lemma {:induction false} FindBelongs(ledger: seq<TradeLedgerRecord>, tradeId: string)
    ensures Find(ledger, tradeId).Some? ==>
              Find(ledger, tradeId).value in ledger && Find(ledger, tradeId).value.tradeId == tradeId
    ensures Find(ledger, tradeId).None? ==> forall r :: r in ledger ==> r.tradeId != tradeId
  {
    if ledger != [] {
      FindBelongs(ledger[1..], tradeId);
      assert ledger == [ledger[0]] + ledger[1..];
    }
  }

  lemma {:induction false} FindUnique(ledger: seq<TradeLedgerRecord>, record: TradeLedgerRecord)
    requires UniqueIds(ledger) && record in ledger
    ensures Find(ledger, record.tradeId) == Some(record)
  {
    if ledger[0].tradeId != record.tradeId {
      assert record in ledger[1..];
      FindUnique(ledger[1..], record);
    }
  }

  /** Saving a record is one map update. */
  lemma {:induction false} PutUpdates(ledger: seq<TradeLedgerRecord>, record: TradeLedgerRecord)
    ensures AsMap(Put(ledger, record)) == AsMap(ledger)[record.tradeId := record]
  {
    if ledger == [] {
      assert [record][1..] == [];
    } else if ledger[0].tradeId == record.tradeId {
      assert ([record] + ledger[1..])[1..] == ledger[1..];
    } else {
      PutUpdates(ledger[1..], record);
      assert ([ledger[0]] + Put(ledger[1..], record))[1..] == Put(ledger[1..], record);
    }
  }

  lemma {:induction false} PutPut(ledger: seq<TradeLedgerRecord>, first: TradeLedgerRecord, second: TradeLedgerRecord)
    requires first.tradeId == second.tradeId
    ensures Put(Put(ledger, first), second) == Put(ledger, second)
  {
    if ledger == [] {
      assert Put([first], second) == [second] + [first][1..];
    } else if ledger[0].tradeId == first.tradeId {
      assert ([first] + ledger[1..])[1..] == ledger[1..];
    } else {
      PutPut(ledger[1..], first, second);
      assert ([ledger[0]] + Put(ledger[1..], first))[1..] == Put(ledger[1..], first);
    }
  }

  lemma FindPut(ledger: seq<TradeLedgerRecord>, record: TradeLedgerRecord, tradeId: string)
    ensures Find(Put(ledger, record), tradeId)
         == if tradeId == record.tradeId then Some(record) else Find(ledger, tradeId)
  {
  }

  /** Where a save lands: in place at the first match, or at the end. */
  lemma {:induction false} PutPosition(ledger: seq<TradeLedgerRecord>, record: TradeLedgerRecord) returns (k: nat)
    ensures k <= |ledger|
    ensures forall j :: 0 <= j < k ==> ledger[j].tradeId != record.tradeId
    ensures k < |ledger| ==> ledger[k].tradeId == record.tradeId && Put(ledger, record) == ledger[k := record]
    ensures k == |ledger| ==> Put(ledger, record) == ledger + [record]
  {
    if ledger == [] || ledger[0].tradeId == record.tradeId {
      k := 0;
    } else {
      var tail := PutPosition(ledger[1..], record);
      k := tail + 1;
      assert ledger == [ledger[0]] + ledger[1..];
    }
  }

  lemma PutKeepsUnique(ledger: seq<TradeLedgerRecord>, record: TradeLedgerRecord)
    requires UniqueIds(ledger)
    ensures UniqueIds(Put(ledger, record))
  {
    var k := PutPosition(ledger, record);
  }

  class TradeLedgerService {
    var records: seq<TradeLedgerRecord>

    constructor (initial: seq<TradeLedgerRecord>)
      ensures records == initial
    {
      records := initial;
    }

    method GetRecord(tradeId: string) returns (found: Option<TradeLedgerRecord>)
      ensures found == Find(records, tradeId)
    {
      var i := 0;
      while i < |records|
        invariant 0 <= i <= |records|
        invariant Find(records, tradeId) == Find(records[i..], tradeId)
      {
        if records[i].tradeId == tradeId {
          return Some(records[i]);
        }
        assert records[i..][1..] == records[i + 1..];
        i := i + 1;
      }
      return None;
    }

    /** Replaces the first record with the same id in place, or appends. */
    method SaveRecord(record: TradeLedgerRecord)
      modifies this
      ensures records == Put(old(records), record)
    {
      var listed := records;
      var replaced := false;
      var i := 0;
      while i < |listed|
        invariant 0 <= i <= |records| && listed == records && !replaced
        invariant Put(records, record) == records[..i] + Put(records[i..], record)
      {
        if listed[i].tradeId == record.tradeId {
          listed := listed[i := record];
          replaced := true;
          assert listed == records[..i] + ([record] + records[i..][1..]);
          break;
        }
        assert records[i..][1..] == records[i + 1..];
        assert records[..i] + ([records[i]] + Put(records[i + 1..], record))
            == records[..i + 1] + Put(records[i + 1..], record);
        i := i + 1;
      }
      if !replaced {
        listed := listed + [record];
      }
      records := listed;
    }

    /** The list filtered by the criteria that are given. */
    method ListRecords(mode: Option<TradeMode>, status: Option<TradeStatus>, strategyId: Option<string>,
                       symbol: Option<string>)
      returns (listed: seq<TradeLedgerRecord>)
      ensures listed == Filter(records, Selecting(mode, status, strategyId, symbol))
    {
      FilterAll(records, Selecting(None, None, None, None));
      listed := records;
      if mode.Some? {
        listed := Filter(listed, Selecting(mode, None, None, None));
      }
      FilterStage(records, mode.Some?, Selecting(None, None, None, None), Selecting(mode, None, None, None),
                  Selecting(mode, None, None, None));
      if status.Some? {
        listed := Filter(listed, Selecting(None, status, None, None));
      }
      FilterStage(records, status.Some?, Selecting(mode, None, None, None), Selecting(None, status, None, None),
                  Selecting(mode, status, None, None));
      if strategyId.Some? {
        listed := Filter(listed, Selecting(None, None, strategyId, None));
      }
      FilterStage(records, strategyId.Some?, Selecting(mode, status, None, None),
                  Selecting(None, None, strategyId, None),
                  Selecting(mode, status, strategyId, None));
      if symbol.Some? {
        listed := Filter(listed, Selecting(None, None, None, symbol));
      }
      FilterStage(records, symbol.Some?, Selecting(mode, status, strategyId, None), Selecting(None, None, None, symbol),
                  Selecting(mode, status, strategyId, symbol));
    }
  }

  function Selecting(mode: Option<TradeMode>, status: Option<TradeStatus>, strategyId: Option<string>,
                     symbol: Option<string>): TradeLedgerRecord -> bool
  {
    (r: TradeLedgerRecord) => Selected(r, mode, status, strategyId, symbol)
  }

  /** A record is listed exactly when it is there and meets every criterion given. */
  lemma ListedIff(records: seq<TradeLedgerRecord>, mode: Option<TradeMode>, status: Option<TradeStatus>,
                  strategyId: Option<string>, symbol: Option<string>, r: TradeLedgerRecord)
    ensures r in Filter(records, Selecting(mode, status, strategyId, symbol)) <==>
              && r in records && mode in {None, Some(r.mode)} && status in {None, Some(r.status)}
              && strategyId in {None, Some(r.strategyId)} && symbol in {None, Some(r.symbol)}
  {
    FilterMembers(records, Selecting(mode, status, strategyId, symbol));
  }

  predicate Selected(r: TradeLedgerRecord, mode: Option<TradeMode>, status: Option<TradeStatus>,
                     strategyId: Option<string>, symbol: Option<string>)
  {
    && (mode.Some? ==> r.mode == mode.value)
    && (status.Some? ==> r.status == status.value)
    && (strategyId.Some? ==> r.strategyId == strategyId.value)
    && (symbol.Some? ==> r.symbol == symbol.value)
  }
}
