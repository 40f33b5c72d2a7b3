/** The post-parse part of the channel page reader in src/telegram.py: which
    parsed entries become messages, and how many of them are returned. The
    HTTP request and the HTML parsing are not modelled; their result is the
    input sequence of entries, in page order. */
module Telegram {
  import opened Common

  /** A channel post. `date` is a UTC timestamp in seconds. */
  datatype Message = Message(id: string, author: string, text: string, date: int)

  /** One message container parsed from the page. `textNode` is the text of
      the message bubble, `None` when the bubble has no text element (a
      picture-only post, say). */
  datatype Entry = Entry(id: string, author: string, textNode: Option<string>, date: int)

  /** The default for the number of messages returned. */
  const DefaultLimit: int := 20

  /** The result of asking the page reader for a channel's posts: the
      messages, or the exception it raised. */
  datatype FetchResult = Fetched(messages: seq<Message>) | FetchFailed

  /** Whether the loop keeps an entry: it has a text node and, when a
      cutoff is given, is not older than the cutoff. */
  predicate Keeps(e: Entry, newerThan: Option<int>)
  {
    e.textNode.Some? && (newerThan.None? || e.date >= newerThan.value)
  }

  function ToMessage(e: Entry): Message
    requires e.textNode.Some?
  {
    Message(e.id, e.author, e.textNode.value, e.date)
  }

  /** The messages the loop collects from `entries`, in page order. */
  function Collected(entries: seq<Entry>, newerThan: Option<int>): (r: seq<Message>)
    ensures |r| <= |entries|
  {
    if entries == [] then []
    else
      var init := Collected(entries[..|entries| - 1], newerThan);
      var e := entries[|entries| - 1];
      if Keeps(e, newerThan) then init + [ToMessage(e)] else init
  }

  /** Python's slice `s[-limit:]`: a negative start counts from the end and
      is clamped at 0; a start past the end is clamped at the end. Note that
      `limit == 0` gives the start `-0 == 0`, so the whole sequence. */
  function LastSlice<T>(s: seq<T>, limit: int): (r: seq<T>)
    ensures limit > 0 ==> |r| == Min(limit, |s|) && r == s[|s| - |r|..]
    ensures limit == 0 ==> r == s
    ensures limit < 0 ==> r == s[Min(-limit, |s|)..]
    ensures forall x :: x in r ==> x in s
  {
    var start := -limit;
    var from := if start < 0 then Max(start + |s|, 0) else Min(start, |s|);
    s[from..]
  }

  /** Every collected message is the message of a kept entry, and every kept
      entry contributes its message: the filter drops exactly the entries
      without text and those older than the cutoff. */
  lemma {:induction false} CollectedExactly(entries: seq<Entry>, newerThan: Option<int>)
    ensures forall m :: m in Collected(entries, newerThan) <==>
              exists e :: e in entries && Keeps(e, newerThan) && m == ToMessage(e)
  {
    if entries != [] {
      var init := entries[..|entries| - 1];
      CollectedExactly(init, newerThan);
      assert entries == init + [entries[|entries| - 1]];
    }
  }

  /** With a cutoff, no collected message is older than it; an entry dated
      exactly at the cutoff is kept. */
  lemma CutoffIsInclusive(entries: seq<Entry>, cutoff: int)
    ensures forall m :: m in Collected(entries, Some(cutoff)) ==> m.date >= cutoff
    ensures forall e :: e in entries && e.textNode.Some? && e.date == cutoff ==>
              ToMessage(e) in Collected(entries, Some(cutoff))
  {
  }

  /** Without a cutoff, every entry that has text is collected. */
  lemma {:induction false} NoCutoffKeepsAllText(entries: seq<Entry>)
    ensures |Collected(entries, None)| == |TextEntries(entries)|
    ensures forall i :: 0 <= i < |TextEntries(entries)| ==>
              Collected(entries, None)[i] == ToMessage(TextEntries(entries)[i])
  {
    if entries != [] {
      NoCutoffKeepsAllText(entries[..|entries| - 1]);
    }
  }

  /** The entries that have a text node, in page order. */
  function TextEntries(entries: seq<Entry>): (r: seq<Entry>)
    ensures forall e :: e in r ==> e.textNode.Some?
  {
    if entries == [] then []
    else
      var init := TextEntries(entries[..|entries| - 1]);
      var e := entries[|entries| - 1];
      if e.textNode.Some? then init + [e] else init
  }

  /** The filter-and-truncate tail of `fetch_latest_messages`: walk the
      parsed entries, skip those without text and those older than the
      cutoff, then keep the last `limit` of what was collected. */
  method LatestMessages(entries: seq<Entry>, limit: int := DefaultLimit, newerThan: Option<int> := None)
    returns (messages: seq<Message>)
    ensures messages == LastSlice(Collected(entries, newerThan), limit)
    ensures limit > 0 ==> |messages| <= limit
    ensures forall m :: m in messages ==>
              exists e :: e in entries && Keeps(e, newerThan) && m == ToMessage(e)
  {
    messages := [];
    var i := 0;
    while i < |entries|
      invariant 0 <= i <= |entries|
      invariant messages == Collected(entries[..i], newerThan)
    {
      var e := entries[i];
      assert entries[..i + 1][..i] == entries[..i];
      if e.textNode.None? {
        i := i + 1;
        continue;
      }
      var message := Message(e.id, e.author, e.textNode.value, e.date);
      if newerThan.Some? && message.date < newerThan.value {
        i := i + 1;
        continue;
      }
      messages := messages + [message];
      i := i + 1;
    }
    assert entries[..i] == entries;
    CollectedExactly(entries, newerThan);
    messages := LastSlice(messages, limit);
  }
}
