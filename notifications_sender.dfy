/** The token handling of src/notifications_sender.py: reading token records,
    dropping those older than eight weeks, and splitting the remaining
    tokens into multicast batches. Firestore reads and deletes and the FCM
    send are not modelled: the documents are an input, the deletes are
    reported as the indices of the deleted documents, and the sends as the
    token list of each multicast message, in the order they are sent. */
module NotificationsSender {
  import opened Common
  import opened Values

  /** The most tokens one multicast message carries. */
  const BatchSize: nat := 500

  /** Eight weeks, in milliseconds. */
  const TokenDeadlineMs: int := 8 * 7 * 24 * 60 * 60 * 1000

  /** A stored device token; `timestampMs` is when it was registered, in
      milliseconds since the epoch. */
  datatype FcmTokenRecord = FcmTokenRecord(timestampMs: real, token: Value, uid: Value)

  /** `FcmTokenRecord.from_dict`: the timestamp must be a number (dividing
      anything else by 1000 raises); token and uid are taken as they are,
      `None` when missing. */
  function TokenRecordFromDict(data: map<string, Value>): (r: Result<FcmTokenRecord>)
    ensures r.Ok? <==> "timestamp" in data && NumberOf(data["timestamp"]).Some?
    ensures r.Ok? ==> r.value.timestampMs == NumberOf(data["timestamp"]).value
    ensures r.Ok? ==> r.value.token == (if "token" in data then data["token"] else Null)
    ensures r.Ok? ==> r.value.uid == (if "uid" in data then data["uid"] else Null)
  {
    match NumberOf(Get(data, "timestamp", Null))
    case None => Err("TypeError")
    case Some(ms) => Ok(FcmTokenRecord(ms, Get(data, "token", Null), Get(data, "uid", Null)))
  }

  /** A record is expired when it is strictly more than eight weeks old. */
  predicate Expired(record: FcmTokenRecord, nowMs: real)
  {
    nowMs - record.timestampMs > TokenDeadlineMs as real
  }

  /** A record exactly eight weeks old is still kept. */
  lemma EightWeeksOldIsKept(record: FcmTokenRecord, nowMs: real)
    requires nowMs - record.timestampMs == TokenDeadlineMs as real
    ensures !Expired(record, nowMs)
    ensures Expired(record.(timestampMs := record.timestampMs - 1.0), nowMs)
  {
  }

  /** The state of the token scan: tokens kept so far, indices of documents
      deleted so far, and whether a document failed to parse (which ends the
      scan with an exception). */
  datatype TokenScan = TokenScan(tokens: seq<Value>, deleted: seq<nat>, failed: bool)

  /** The scan of `docs`, in document order. The code reads the clock anew
      for every document: `clock(i)` is the reading, in milliseconds, taken
      while document `i` is examined. */
  function Scan(docs: seq<map<string, Value>>, clock: nat -> real): (r: TokenScan)
    ensures |r.tokens| + |r.deleted| <= |docs|
    ensures forall k :: k in r.deleted ==> k < |docs|
  {
    if docs == [] then TokenScan([], [], false)
    else
      var s := Scan(docs[..|docs| - 1], clock);
      if s.failed then s
      else
        match TokenRecordFromDict(docs[|docs| - 1])
        case Err(_) => s.(failed := true)
        case Ok(record) =>
          if Expired(record, clock(|docs| - 1)) then s.(deleted := s.deleted + [|docs| - 1])
          else s.(tokens := s.tokens + [record.token])
  }

  predicate Increasing(s: seq<nat>)
  {
    forall i, j :: 0 <= i < j < |s| ==> s[i] < s[j]
  }

  /** When every document parses, the scan partitions the documents: a
      document is deleted exactly when its record is expired at its own
      clock reading, every other document contributes its token, and
      nothing is deleted twice. */
  lemma {:induction false} ScanPartitions(docs: seq<map<string, Value>>, clock: nat -> real)
    requires forall i :: 0 <= i < |docs| ==> TokenRecordFromDict(docs[i]).Ok?
    ensures var s := Scan(docs, clock);
            && !s.failed
            && |s.tokens| + |s.deleted| == |docs|
            && Increasing(s.deleted)
            && (forall k :: k in s.deleted ==> k < |docs|)
            && (forall i :: 0 <= i < |docs| ==>
                  (i in s.deleted <==> Expired(TokenRecordFromDict(docs[i]).value, clock(i))))
            && (forall t :: t in s.tokens ==>
                  exists i :: 0 <= i < |docs| && !Expired(TokenRecordFromDict(docs[i]).value, clock(i))
                              && t == TokenRecordFromDict(docs[i]).value.token)
  {
    if docs != [] {
      var init := docs[..|docs| - 1];
      assert forall i :: 0 <= i < |init| ==> init[i] == docs[i];
      ScanPartitions(init, clock);
      var s := Scan(init, clock);
      var record := TokenRecordFromDict(docs[|docs| - 1]).value;
      if Expired(record, clock(|init|)) {
        var d := s.deleted + [|init|];
        forall i, j | 0 <= i < j < |d| ensures d[i] < d[j] {
          if j == |d| - 1 {
            assert d[i] in s.deleted;
          }
        }
      }
      forall t | t in Scan(docs, clock).tokens
        ensures exists i :: 0 <= i < |docs| && !Expired(TokenRecordFromDict(docs[i]).value, clock(i))
                            && t == TokenRecordFromDict(docs[i]).value.token
      {
        if t in s.tokens {
          var i :| 0 <= i < |init| && !Expired(TokenRecordFromDict(init[i]).value, clock(i))
                   && t == TokenRecordFromDict(init[i]).value.token;
          assert init[i] == docs[i];
        } else {
          assert !Expired(record, clock(|init|)) && t == record.token;
        }
      }
    }
  }

  /** The tokens of the documents that parse and are not expired at their
      clock reading, in document order. */
  function KeptTokens(docs: seq<map<string, Value>>, clock: nat -> real): (r: seq<Value>)
    ensures |r| <= |docs|
  {
    if docs == [] then []
    else
      var rest := KeptTokens(docs[..|docs| - 1], clock);
      match TokenRecordFromDict(docs[|docs| - 1])
      case Err(_) => rest
      case Ok(record) =>
        if Expired(record, clock(|docs| - 1)) then rest else rest + [record.token]
  }

  /** Kept tokens keep document order: when every document parses, the scan
      keeps exactly the token of each non-expired document, in document
      order, one entry per document (duplicates included). */
  lemma {:induction false} ScanKeepsTokensInOrder(docs: seq<map<string, Value>>, clock: nat -> real)
    requires forall i :: 0 <= i < |docs| ==> TokenRecordFromDict(docs[i]).Ok?
    ensures Scan(docs, clock).tokens == KeptTokens(docs, clock)
  {
    if docs != [] {
      var init := docs[..|docs| - 1];
      assert forall i :: 0 <= i < |init| ==> init[i] == docs[i];
      ScanKeepsTokensInOrder(init, clock);
      ScanPartitions(init, clock);
    }
  }

  /** The loop of `fetch_notification_tokens`: each document is parsed; an
      expired one (at the clock reading taken for it) is deleted, any other
      contributes its token. A document
      that does not parse raises: `tokens` is then `None` and the deletes
      already made stay made. */
  method FetchNotificationTokens(docs: seq<map<string, Value>>, clock: nat -> real)
    returns (tokens: Option<seq<Value>>, deleted: seq<nat>)
    ensures deleted == Scan(docs, clock).deleted
    ensures tokens == if Scan(docs, clock).failed then None else Some(Scan(docs, clock).tokens)
  {
    var kept := [];
    deleted := [];
    var i := 0;
    while i < |docs|
      invariant 0 <= i <= |docs|
      invariant Scan(docs[..i], clock) == TokenScan(kept, deleted, false)
    {
      assert docs[..i + 1][..i] == docs[..i];
      var record := TokenRecordFromDict(docs[i]);
      if record.Err? {
        assert Scan(docs[..i + 1], clock).failed;
        ScanStaysFailed(docs, i + 1, clock);
        return None, deleted;
      }
      if Expired(record.value, clock(i)) {
        deleted := deleted + [i];
      } else {
        kept := kept + [record.value.token];
      }
      i := i + 1;
    }
    assert docs[..i] == docs;
    tokens := Some(kept);
  }

  /** Once a document fails to parse, later documents change nothing. */
  lemma {:induction false} ScanStaysFailed(docs: seq<map<string, Value>>, k: nat, clock: nat -> real)
    requires k <= |docs| && Scan(docs[..k], clock).failed
    ensures Scan(docs, clock) == Scan(docs[..k], clock)
    decreases |docs| - k
  {
    if k < |docs| {
      assert docs[..k + 1][..k] == docs[..k];
      ScanStaysFailed(docs, k + 1, clock);
    } else {
      assert docs[..k] == docs;
    }
  }

  /** The scan fails exactly when some document does not parse. */
  lemma {:induction false} ScanFailsIffUnparsable(docs: seq<map<string, Value>>, clock: nat -> real)
    ensures Scan(docs, clock).failed <==> exists i :: 0 <= i < |docs| && TokenRecordFromDict(docs[i]).Err?
  {
    if docs != [] {
      var init := docs[..|docs| - 1];
      ScanFailsIffUnparsable(init, clock);
      if Scan(init, clock).failed {
        var i :| 0 <= i < |init| && TokenRecordFromDict(init[i]).Err?;
        assert init[i] == docs[i];
      } else {
        assert forall i :: 0 <= i < |init| ==> init[i] == docs[i];
      }
    }
  }

  /** The concatenation of the batches, in order. */
  function Flatten<T>(batches: seq<seq<T>>): seq<T>
  {
    if batches == [] then [] else Flatten(batches[..|batches| - 1]) + batches[|batches| - 1]
  }

  /** The batching loop of `send_push_notifications`: ceil(n / 500) batches,
      batch `i` being tokens `i*500` up to `(i+1)*500` or the end. Together
      they are the token list; each has 1 to 500 tokens, and all but the
      last exactly 500. */
  method SendPushNotifications<T>(tokens: seq<T>) returns (batches: seq<seq<T>>)
    ensures |batches| == (|tokens| + BatchSize - 1) / BatchSize
    ensures forall i :: 0 <= i < |batches| ==>
              batches[i] == tokens[i * BatchSize..Min((i + 1) * BatchSize, |tokens|)]
    ensures forall i :: 0 <= i < |batches| ==> 1 <= |batches[i]| <= BatchSize
    ensures forall i :: 0 <= i < |batches| - 1 ==> |batches[i]| == BatchSize
    ensures Flatten(batches) == tokens
  {
    var totalTokens := |tokens|;
    var numBatches := (totalTokens + BatchSize - 1) / BatchSize;
    batches := [];
    for i := 0 to numBatches
      invariant |batches| == i
      invariant forall j :: 0 <= j < i ==>
                  batches[j] == tokens[j * BatchSize..Min((j + 1) * BatchSize, totalTokens)]
      invariant forall j :: 0 <= j < i ==> 1 <= |batches[j]| <= BatchSize
      invariant forall j :: 0 <= j < i - 1 ==> |batches[j]| == BatchSize
      invariant Flatten(batches) == tokens[..Min(i * BatchSize, totalTokens)]
    {
      var startIndex := i * BatchSize;
      var endIndex := Min((i + 1) * BatchSize, totalTokens);
      assert startIndex < totalTokens;
      var batchTokens := tokens[startIndex..endIndex];
      assert batches + [batchTokens] != [] && (batches + [batchTokens])[..i] == batches;
      assert tokens[..endIndex] == tokens[..startIndex] + batchTokens;
      batches := batches + [batchTokens];
    }
    assert numBatches * BatchSize >= totalTokens;
    assert tokens[..totalTokens] == tokens;
  }
}
