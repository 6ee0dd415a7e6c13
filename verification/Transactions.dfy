// The transaction table of pkg/qmi/client.go: transaction IDs from wrapping counters, pending
// requests with their response channels, the read loop that matches responses, and the teardown
// that fails what is pending.

module Transactions {
  import opened Bytes
  import opened Wrappers

  const TWO_32 := 0x1_0000_0000

  type U32 = n: int | 0 <= n < TWO_32

  // ------------------------------------------------------------------ IDs and keys

  // The number of IDs a service can draw before they repeat.
  function Period(service: Byte): nat {
    if service == SERVICE_CONTROL then 0x100 else 0x1_0000
  }

  // The n-th increment of a counter yields this ID.
  function IdOf(service: Byte, n: nat): U16 {
    if service == SERVICE_CONTROL then n % 0x100 else n % 0x1_0000
  }

  // uint32(service)<<16 | uint32(txID)
  function Key(service: Byte, txID: U16): nat {
    service * 0x1_0000 + txID
  }

  lemma KeysAreInjective(s1: Byte, t1: U16, s2: Byte, t2: U16)
    ensures Key(s1, t1) == Key(s2, t2) <==> s1 == s2 && t1 == t2
  {
  }

  // The counters wrap at 2^32 without disturbing the sequence of IDs.
  lemma WrapKeepsIds(service: Byte, n: nat)
    ensures IdOf(service, n % TWO_32) == IdOf(service, n)
  {
    if service == SERVICE_CONTROL {
      assert n % TWO_32 % 0x100 == n % 0x100;
    } else {
      assert n % TWO_32 % 0x1_0000 == n % 0x1_0000;
    }
  }

  // Two draws of one counter collide exactly when they are a multiple of the period apart.
  lemma IdsCollideIff(service: Byte, n: nat, d: nat)
    ensures IdOf(service, n + d) == IdOf(service, n) <==> d % Period(service) == 0
  {
    if service == SERVICE_CONTROL {
      SameLowOctet(n, d);
    } else {
      SameLowWord(n, d);
    }
  }

  lemma SameLowOctet(n: nat, d: nat)
    ensures (n + d) % 0x100 == n % 0x100 <==> d % 0x100 == 0
  {
  }

  lemma SameLowWord(n: nat, d: nat)
    ensures (n + d) % 0x1_0000 == n % 0x1_0000 <==> d % 0x1_0000 == 0
  {
  }

  // One increment of a 32-bit counter.
  function Next(n: U32): U32 {
    (n + 1) % TWO_32
  }

  lemma AfterZeroComesOne(service: Byte, n: U32)
    requires IdOf(service, n) == 0
    ensures IdOf(service, Next(n)) == 1
  {
  }

  // ------------------------------------------------------------------ the objects

  class ResponseChannel {
    var closed: bool
    var buffer: Option<nat>

    constructor ()
      ensures !closed && buffer == None
    {
      closed, buffer := false, None;
    }
  }

  class TransactionTable {
    var ctlTxID: U32
    var lastTxID: U32
    var transactions: map<nat, ResponseChannel>

    constructor ()
      ensures ctlTxID == 0 && lastTxID == 0 && transactions == map[]
    {
      ctlTxID, lastTxID, transactions := 0, 0, map[];
    }

    // One atomic increment, masked to the width of the ID.
    method Draw(service: Byte) returns (txID: U16)
      modifies this
      ensures service == SERVICE_CONTROL ==>
                ctlTxID == Next(old(ctlTxID)) && lastTxID == old(lastTxID) && txID == IdOf(service, ctlTxID)
      ensures service != SERVICE_CONTROL ==>
                lastTxID == Next(old(lastTxID)) && ctlTxID == old(ctlTxID) && txID == IdOf(service, lastTxID)
      ensures transactions == old(transactions)
    {
      if service == SERVICE_CONTROL {
        ctlTxID := (ctlTxID + 1) % TWO_32;
        txID := ctlTxID % 0x100;
      } else {
        lastTxID := (lastTxID + 1) % TWO_32;
        txID := lastTxID % 0x1_0000;
      }
    }

    // The allocation of SendRequest when nobody draws in between.
    method AllocateTxID(service: Byte) returns (txID: U16)
      modifies this
      ensures txID != 0
      ensures var first := Next(if service == SERVICE_CONTROL then old(ctlTxID) else old(lastTxID));
              var drawn := if IdOf(service, first) != 0 then first else Next(first);
              && txID == IdOf(service, drawn)
              && (if service == SERVICE_CONTROL then ctlTxID else lastTxID) == drawn
      ensures if service == SERVICE_CONTROL then lastTxID == old(lastTxID) else ctlTxID == old(ctlTxID)
      ensures transactions == old(transactions)
    {
      hide IdOf, Next;
      txID := Draw(service);
      if txID == 0 {
        AfterZeroComesOne(service, if service == SERVICE_CONTROL then ctlTxID else lastTxID);
        txID := Draw(service);
      }
    }

    method Register(service: Byte, txID: U16) returns (ch: ResponseChannel)
      modifies this
      ensures fresh(ch) && !ch.closed && ch.buffer == None
      ensures transactions == old(transactions)[Key(service, txID) := ch]
      ensures ctlTxID == old(ctlTxID) && lastTxID == old(lastTxID)
    {
      ch := new ResponseChannel();
      transactions := transactions[Key(service, txID) := ch];
    }

    method Complete(service: Byte, txID: U16)
      modifies this
      ensures transactions == old(transactions) - {Key(service, txID)}
      ensures ctlTxID == old(ctlTxID) && lastTxID == old(lastTxID)
    {
      transactions := transactions - {Key(service, txID)};
    }

    // Two entries never share a channel, and no channel in the table is closed.
    ghost predicate ChannelsOpen()
      reads this, transactions.Values
    {
      && (forall k <- transactions :: !transactions[k].closed)
      && (forall j, k | j in transactions && k in transactions && transactions[j] == transactions[k] :: j == k)
    }

    method CloseEntry(key: nat, entry: ResponseChannel)
      requires key in transactions && transactions[key] == entry && ChannelsOpen()
      modifies this`transactions, entry`closed
      ensures transactions == old(transactions) - {key}
      ensures entry.closed
      ensures ChannelsOpen()
    {
      transactions := transactions - {key};
      entry.closed := true;
    }

    // failPendingTransactions: every channel in the table is closed, once, and keeps what it
    // already buffered.
    method FailPending()
      requires ChannelsOpen()
      modifies this`transactions, (set ch: ResponseChannel | ch in transactions.Values)`closed
      ensures transactions == map[]
      ensures forall k <- old(transactions) :: old(transactions)[k].closed
    {
      ghost var all := transactions;
      while transactions.Keys != {}
        invariant ChannelsOpen()
        invariant forall k <- transactions :: k in all && transactions[k] == all[k]
        invariant forall k <- all | k !in transactions :: all[k].closed
        decreases |transactions.Keys|
      {
        var key :| key in transactions.Keys;
        CloseEntry(key, transactions[key]);
      }
    }
  }
}
