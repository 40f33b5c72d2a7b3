/** The info monitor of src/info_monitor.py: a cursor per info channel and
    an activation flag driven by `alert` and `clear` events, and one cycle of
    its polling loop, which merges what the channels return into one batch
    ordered by date. Publishing is modelled by returning the (topic, batch)
    pairs published. */
module InfoMonitor {
  import opened Common
  import opened Telegram
  import opened AlertMonitor

  /** How far before the alert's date the cursors are rewound: 5 minutes. */
  const RewindSeconds: int := 5 * 60

  predicate SortedByDate(s: seq<Message>)
  {
    forall i, j :: 0 <= i < j < |s| ==> s[i].date <= s[j].date
  }

  /** The messages of `s` dated `d`, in order. */
  function WithDate(s: seq<Message>, d: int): seq<Message>
  {
    if s == [] then []
    else WithDate(s[..|s| - 1], d) + (if s[|s| - 1].date == d then [s[|s| - 1]] else [])
  }

  /** Inserts `m` into a date-ordered sequence after every message dated
      no later than `m`. */
  function InsertByDate(m: Message, s: seq<Message>): (r: seq<Message>)
    ensures |r| == |s| + 1
  {
    if s == [] || s[|s| - 1].date <= m.date then s + [m]
    else InsertByDate(m, s[..|s| - 1]) + [s[|s| - 1]]
  }

  /** Python's `sorted(s, key=lambda m: m.date)`: a stable sort by date,
      written as insertion sort. */
  function SortByDate(s: seq<Message>): (r: seq<Message>)
    ensures |r| == |s|
  {
    if s == [] then [] else InsertByDate(s[|s| - 1], SortByDate(s[..|s| - 1]))
  }

  lemma {:induction false} InsertPermutes(m: Message, s: seq<Message>)
    ensures multiset(InsertByDate(m, s)) == multiset(s) + multiset{m}
  {
    if s != [] && s[|s| - 1].date > m.date {
      var init := s[..|s| - 1];
      assert s == init + [s[|s| - 1]];
      InsertPermutes(m, init);
    }
  }

  lemma {:induction false} InsertKeepsOrder(m: Message, s: seq<Message>)
    requires SortedByDate(s)
    ensures SortedByDate(InsertByDate(m, s))
  {
    if s != [] && s[|s| - 1].date > m.date {
      var init, last := s[..|s| - 1], s[|s| - 1];
      InsertKeepsOrder(m, init);
      var r := InsertByDate(m, init);
      InsertPermutes(m, init);
      forall k | 0 <= k < |r| ensures r[k].date <= last.date {
        assert r[k] in multiset(r);
        if r[k] != m {
          assert r[k] in multiset(init);
        }
      }
      assert InsertByDate(m, s) == r + [last];
    }
  }

  lemma {:induction false} InsertKeepsDateOrder(m: Message, s: seq<Message>, d: int)
    ensures WithDate(InsertByDate(m, s), d) == WithDate(s, d) + (if m.date == d then [m] else [])
  {
    if s == [] || s[|s| - 1].date <= m.date {
      assert (s + [m])[..|s|] == s;
    } else {
      var init, last := s[..|s| - 1], s[|s| - 1];
      InsertKeepsDateOrder(m, init, d);
      var r := InsertByDate(m, init);
      assert (r + [last])[..|r|] == r;
    }
  }

  /** The sort returns a permutation of its input, ordered by date, in which
      messages of equal date keep their input order: a stable sort. */
  lemma {:induction false} SortByDateIsStableSort(s: seq<Message>)
    ensures SortedByDate(SortByDate(s))
    ensures multiset(SortByDate(s)) == multiset(s)
    ensures forall d :: WithDate(SortByDate(s), d) == WithDate(s, d)
  {
    if s != [] {
      var init, last := s[..|s| - 1], s[|s| - 1];
      assert s == init + [last];
      SortByDateIsStableSort(init);
      InsertKeepsOrder(last, SortByDate(init));
      InsertPermutes(last, SortByDate(init));
      forall d ensures WithDate(SortByDate(s), d) == WithDate(s, d) {
        InsertKeepsDateOrder(last, SortByDate(init), d);
      }
    }
  }

  /** What the channel loop collects: each channel in list order is fetched
      with its current cursor, which then moves to `now` (so a channel
      listed twice is fetched the second time with cutoff `now`). */
  function Gather(names: seq<string>, cursors: map<string, Option<int>>,
                  fetch: (string, Option<int>) -> seq<Message>, now: int): (r: seq<Message>)
    requires forall c :: c in names ==> c in cursors
    ensures names != [] ==> fetch(names[0], cursors[names[0]]) <= r
  {
    if names == [] then []
    else fetch(names[0], cursors[names[0]]) + Gather(names[1..], cursors[names[0] := Some(now)], fetch, now)
  }

  /** The results of fetching every listed channel with the cursor it had
      before the cycle, concatenated in list order. */
  function FetchEach(names: seq<string>, cursors: map<string, Option<int>>,
                     fetch: (string, Option<int>) -> seq<Message>): seq<Message>
    requires forall c :: c in names ==> c in cursors
  {
    if names == [] then [] else fetch(names[0], cursors[names[0]]) + FetchEach(names[1..], cursors, fetch)
  }

  predicate Distinct(names: seq<string>)
  {
    forall i, j :: 0 <= i < j < |names| ==> names[i] != names[j]
  }

  /** When no channel is listed twice, the loop fetches every channel once,
      with the cursor it had when the cycle began. */
  lemma {:induction false} GatherDistinct(names: seq<string>, cursors: map<string, Option<int>>,
                                          fetch: (string, Option<int>) -> seq<Message>, now: int)
    requires forall c :: c in names ==> c in cursors
    requires Distinct(names)
    ensures Gather(names, cursors, fetch, now) == FetchEach(names, cursors, fetch)
  {
    if names != [] {
      var rest := names[1..];
      var moved := cursors[names[0] := Some(now)];
      GatherDistinct(rest, moved, fetch, now);
      assert FetchEach(rest, moved, fetch) == FetchEach(rest, cursors, fetch) by {
        FetchEachIgnoresOthers(rest, cursors, names[0], Some(now), fetch);
      }
    }
  }

  lemma {:induction false} FetchEachIgnoresOthers(names: seq<string>, cursors: map<string, Option<int>>,
                                                  c: string, v: Option<int>, fetch: (string, Option<int>) -> seq<Message>)
    requires forall n :: n in names ==> n in cursors && n != c
    ensures FetchEach(names, cursors[c := v], fetch) == FetchEach(names, cursors, fetch)
  {
    if names != [] {
      assert forall n :: n in names[1..] ==> n in names;
      FetchEachIgnoresOthers(names[1..], cursors, c, v, fetch);
    }
  }

  class InfoMonitor {
    const channelNames: seq<string>
    /** seconds to sleep after a cycle */
    const interval: int
    /** channel -> cutoff for its next fetch, `None` for "the latest posts" */
    var channelLastFetched: map<string, Option<int>>
    /** the synchronisation flag: set by `alert`, cleared by `clear` */
    var active: bool

    /** There is a cursor for exactly the configured channels. */
    ghost predicate Valid()
      reads this
    {
      channelLastFetched.Keys == set c | c in channelNames
    }

    constructor (channelNames: seq<string>, interval: int)
      ensures Valid() && this.channelNames == channelNames && this.interval == interval
      ensures channelLastFetched == map c | c in channelNames :: None
      ensures !active
    {
      this.channelNames := channelNames;
      this.interval := interval;
      channelLastFetched := map c | c in channelNames :: None;
      active := false;
    }

    /** On `alert`: every channel's cursor is rewound to five minutes before
        the region's change date, and polling is switched on. */
    method ProcessAlertEvent(region: Region)
      requires Valid() && region.changed.Some?
      modifies this
      ensures Valid() && active
      ensures channelLastFetched == map c | c in old(channelLastFetched) :: Some(region.changed.value - RewindSeconds)
    {
      var cutoff := region.changed.value - RewindSeconds;
      var i := 0;
      while i < |channelNames|
        invariant 0 <= i <= |channelNames|
        invariant channelLastFetched.Keys == old(channelLastFetched.Keys)
        invariant forall c :: c in channelLastFetched ==>
                    channelLastFetched[c] == if c in channelNames[..i] then Some(cutoff) else old(channelLastFetched[c])
      {
        channelLastFetched := channelLastFetched[channelNames[i] := Some(cutoff)];
        assert channelNames[..i + 1] == channelNames[..i] + [channelNames[i]];
        i := i + 1;
      }
      assert channelNames[..i] == channelNames;
      active := true;
    }

    /** On `clear`: polling is switched off; the cursors stay as they are. */
    method ProcessClearEvent()
      requires Valid()
      modifies this
      ensures Valid() && !active && channelLastFetched == old(channelLastFetched)
    {
      active := false;
    }

    /** One iteration of the polling loop. It runs only while the flag is
        set (otherwise the wait blocks and nothing happens). `fetch` gives
        what reading a channel with a cutoff returns; `now` is the clock.
        Every cursor ends at `now`; the collected messages are sorted by date
        and published as `new_messages` when there are any. */
    method FetchMessages(fetch: (string, Option<int>) -> seq<Message>, now: int)
      returns (ran: bool, published: seq<(string, seq<Message>)>, sleep: int)
      requires Valid()
      modifies this
      ensures Valid() && active == old(active) && ran == old(active)
      ensures !ran ==> channelLastFetched == old(channelLastFetched) && published == []
      ensures ran ==> channelLastFetched == map c | c in old(channelLastFetched) :: Some(now)
      ensures ran ==>
                var merged := Gather(channelNames, old(channelLastFetched), fetch, now);
                published == if merged == [] then [] else [("new_messages", SortByDate(merged))]
      ensures ran ==> sleep == interval
    {
      published, sleep := [], 0;
      if !active {
        return false, [], 0;
      }
      ran := true;
      var messages := [];
      var i := 0;
      while i < |channelNames|
        invariant 0 <= i <= |channelNames|
        invariant channelLastFetched.Keys == old(channelLastFetched.Keys)
        invariant forall c :: c in channelLastFetched ==>
                    channelLastFetched[c] == if c in channelNames[..i] then Some(now) else old(channelLastFetched[c])
        invariant messages + Gather(channelNames[i..], channelLastFetched, fetch, now) ==
                  Gather(channelNames, old(channelLastFetched), fetch, now)
        invariant active == old(active)
      {
        var name := channelNames[i];
        var channelMessages := fetch(name, channelLastFetched[name]);
        assert channelNames[i..][1..] == channelNames[i + 1..];
        channelLastFetched := channelLastFetched[name := Some(now)];
        messages := messages + channelMessages;
        assert channelNames[..i + 1] == channelNames[..i] + [name];
        i := i + 1;
      }
      assert channelNames[..i] == channelNames;
      assert channelNames[i..] == [];
      assert Gather(channelNames[i..], channelLastFetched, fetch, now) == [];
      assert messages == Gather(channelNames, old(channelLastFetched), fetch, now);
      var sortedMessages := SortByDate(messages);
      if sortedMessages != [] {
        published := [("new_messages", sortedMessages)];
      } else {
        SortByDateIsStableSort(messages);
        assert |messages| == 0 by {
          assert |multiset(messages)| == 0;
        }
      }
      sleep := interval;
    }
  }
}
