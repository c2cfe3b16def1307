/**
 * Fraud data access (internal/repository/fraud_data_repository.go): the
 * interface the detector reads through, and the in-memory implementation
 * whose maps are seeded in place. Time is an integer count of nanoseconds;
 * the current time is passed in as `now`.
 */
module Repository {
  import opened Wrappers
  import opened Values

  /** IP or device reputation data: `map[string]interface{}`. */
  type Attributes = map<string, Value>

  datatype TransactionRecord = TransactionRecord(id: string, amount: real, currency: string, timestamp: int)

  /**
   * The `FraudDataRepository` interface as the three lookups it offers.
   * Each may fail with an error message; an absent IP or device entry is `None`.
   */
  datatype FraudDataRepository = FraudDataRepository(
    getTransactionHistory: (string, int) -> Result<seq<TransactionRecord>, string>,
    getIPData: string -> Result<Option<Attributes>, string>,
    getDeviceData: string -> Result<Option<Attributes>, string>)

  /** The records of `txns` strictly after `cutoff`, in their stored order. */
  function RecentTransactions(txns: seq<TransactionRecord>, cutoff: int): seq<TransactionRecord>
    decreases |txns|
  {
    if txns == [] then []
    else
      var last := txns[|txns| - 1];
      RecentTransactions(txns[..|txns| - 1], cutoff) + (if last.timestamp > cutoff then [last] else [])
  }

  /** `a` is `b` with some elements deleted, the rest kept in order. */
  ghost predicate IsSubsequence<T>(a: seq<T>, b: seq<T>)
    decreases |b|
  {
    if b == [] then a == []
    else
      (a != [] && a[|a| - 1] == b[|b| - 1] && IsSubsequence(a[..|a| - 1], b[..|b| - 1]))
      || IsSubsequence(a, b[..|b| - 1])
  }

  /** The window filter keeps the surviving records in their stored order. */
  lemma {:induction false} RecentIsSubsequence(txns: seq<TransactionRecord>, cutoff: int)
    ensures IsSubsequence(RecentTransactions(txns, cutoff), txns)
    decreases |txns|
  {
    if txns != [] {
      var init, last := txns[..|txns| - 1], txns[|txns| - 1];
      RecentIsSubsequence(init, cutoff);
      var prev := RecentTransactions(init, cutoff);
      var recent := RecentTransactions(txns, cutoff);
      if last.timestamp > cutoff {
        assert recent == prev + [last];
        assert recent[..|recent| - 1] == prev;
        assert recent[|recent| - 1] == last;
      } else {
        assert recent == prev;
        assert IsSubsequence(recent, txns[..|txns| - 1]);
      }
    }
  }

  /** It keeps every record after the cutoff as often as it is stored, and no other. */
  lemma {:induction false} RecentCounts(txns: seq<TransactionRecord>, cutoff: int)
    ensures forall t :: multiset(RecentTransactions(txns, cutoff))[t]
                     == if t.timestamp > cutoff then multiset(txns)[t] else 0
    decreases |txns|
  {
    if txns != [] {
      var init, last := txns[..|txns| - 1], txns[|txns| - 1];
      RecentCounts(init, cutoff);
      assert txns == init + [last];
      assert multiset(txns) == multiset(init) + multiset{last};
    }
  }

  /** So a record is in the window exactly when it is stored and after the cutoff. */
  lemma RecentMembers(txns: seq<TransactionRecord>, cutoff: int, t: TransactionRecord)
    ensures t in RecentTransactions(txns, cutoff) <==> t in txns && t.timestamp > cutoff
  {
    RecentCounts(txns, cutoff);
    assert t in RecentTransactions(txns, cutoff) <==> multiset(RecentTransactions(txns, cutoff))[t] > 0;
    assert t in txns <==> multiset(txns)[t] > 0;
  }

  /** The list stored for a customer, or nothing. */
  function StoredHistory(transactions: map<string, seq<TransactionRecord>>, customerId: string): seq<TransactionRecord>
  {
    if customerId in transactions then transactions[customerId] else []
  }

  /** An in-memory repository's contents at time `now`, seen through the interface. */
  function Snapshot(
    transactions: map<string, seq<TransactionRecord>>,
    ipData: map<string, Attributes>,
    deviceData: map<string, Attributes>,
    now: int): FraudDataRepository
  {
    FraudDataRepository(
      (customerId, lookback) => Success(RecentTransactions(StoredHistory(transactions, customerId), now - lookback)),
      ip => Success(if ip in ipData then Some(ipData[ip]) else None),
      device => Success(if device in deviceData then Some(deviceData[device]) else None))
  }

  /** The in-memory repository never reports an error, whatever it is asked. */
  lemma SnapshotNeverFails(
    transactions: map<string, seq<TransactionRecord>>,
    ipData: map<string, Attributes>,
    deviceData: map<string, Attributes>,
    now: int, customerId: string, lookback: int, key: string)
    ensures var repo := Snapshot(transactions, ipData, deviceData, now);
      && repo.getTransactionHistory(customerId, lookback).Success?
      && repo.getIPData(key).Success?
      && repo.getDeviceData(key).Success?
  {
  }

  /** `InMemoryFraudDataRepository`: three maps keyed by customer, IP address and device. */
  class InMemoryFraudDataRepository {
    var transactions: map<string, seq<TransactionRecord>>
    var ipData: map<string, Attributes>
    var deviceData: map<string, Attributes>

    constructor ()
      ensures transactions == map[] && ipData == map[] && deviceData == map[]
    {
      transactions := map[];
      ipData := map[];
      deviceData := map[];
    }

    /** This repository as the interface the detector uses, at time `now`. */
    function AsRepository(now: int): FraudDataRepository
      reads this
    {
      Snapshot(transactions, ipData, deviceData, now)
    }

    /** The customer's records with a timestamp strictly after `now - lookback`. */
    method GetTransactionHistory(customerId: string, lookback: int, now: int) returns (history: seq<TransactionRecord>)
      ensures history == RecentTransactions(StoredHistory(transactions, customerId), now - lookback)
      ensures customerId !in transactions ==> history == []
      ensures AsRepository(now).getTransactionHistory(customerId, lookback) == Success(history)
    {
      if customerId in transactions {
        var txns := transactions[customerId];
        var recentTxns := [];
        var cutoff := now - lookback;
        for i := 0 to |txns|
          invariant recentTxns == RecentTransactions(txns[..i], cutoff)
        {
          assert txns[..i + 1][..i] == txns[..i];
          if txns[i].timestamp > cutoff {
            recentTxns := recentTxns + [txns[i]];
          }
        }
        assert txns[..|txns|] == txns;
        return recentTxns;
      }
      return [];
    }

    /** The stored entry for an IP address, or `None` (Go's nil) when there is none. */
    method GetIPData(ipAddress: string) returns (data: Option<Attributes>)
      ensures data.Some? <==> ipAddress in ipData
      ensures data.Some? ==> data.value == ipData[ipAddress]
      ensures forall now :: AsRepository(now).getIPData(ipAddress) == Success(data)
    {
      if ipAddress in ipData {
        return Some(ipData[ipAddress]);
      }
      return None;
    }

    /** The stored entry for a device, or `None` when there is none. */
    method GetDeviceData(deviceId: string) returns (data: Option<Attributes>)
      ensures data.Some? <==> deviceId in deviceData
      ensures data.Some? ==> data.value == deviceData[deviceId]
      ensures forall now :: AsRepository(now).getDeviceData(deviceId) == Success(data)
    {
      if deviceId in deviceData {
        return Some(deviceData[deviceId]);
      }
      return None;
    }

    /** Appends one record to the end of that customer's list. */
    method AddTransaction(customerId: string, txn: TransactionRecord)
      modifies this
      ensures transactions == old(transactions)[customerId := StoredHistory(old(transactions), customerId) + [txn]]
      ensures ipData == old(ipData) && deviceData == old(deviceData)
    {
      transactions := transactions[customerId := StoredHistory(transactions, customerId) + [txn]];
    }

    /** Replaces the entry for one IP address. */
    method AddIPData(ipAddress: string, data: Attributes)
      modifies this
      ensures ipData == old(ipData)[ipAddress := data]
      ensures transactions == old(transactions) && deviceData == old(deviceData)
    {
      ipData := ipData[ipAddress := data];
    }

    /** Replaces the entry for one device. */
    method AddDeviceData(deviceId: string, data: Attributes)
      modifies this
      ensures deviceData == old(deviceData)[deviceId := data]
      ensures transactions == old(transactions) && ipData == old(ipData)
    {
      deviceData := deviceData[deviceId := data];
    }
  }

  /**
   * Seeding one customer's history: that customer's list grows by exactly
   * the new record at its end, and every other customer sees the same list.
   */
  lemma AppendedHistory(
    transactions: map<string, seq<TransactionRecord>>, customerId: string, txn: TransactionRecord, other: string)
    ensures var after := transactions[customerId := StoredHistory(transactions, customerId) + [txn]];
      && StoredHistory(after, customerId) == StoredHistory(transactions, customerId) + [txn]
      && (other != customerId ==> StoredHistory(after, other) == StoredHistory(transactions, other))
  {
  }

  /** A record seeded after the window's start shows up at the end of the windowed history. */
  lemma {:induction false} RecentAfterAppend(txns: seq<TransactionRecord>, txn: TransactionRecord, cutoff: int)
    ensures RecentTransactions(txns + [txn], cutoff)
      == RecentTransactions(txns, cutoff) + (if txn.timestamp > cutoff then [txn] else [])
  {
    assert (txns + [txn])[..|txns|] == txns;
  }
}
