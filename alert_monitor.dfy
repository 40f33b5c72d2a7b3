/** The alert monitor of src/alert_monitor.py: a fixed table of regions whose
    alert state is driven by posts of the alert channel, and one cycle of its
    polling loop. Publishing on the bus is modelled by returning the
    (topic, region) pairs the cycle publishes, in order; sleeping by
    returning the number of seconds the loop sleeps. */
module AlertMonitor {
  import opened Common
  import opened Telegram

  /** An administrative region. `changed` is the date of the last post that
      changed its state, `None` until the first such post. */
  datatype Region = Region(id: int, name: string, nameEn: string, alert: bool, changed: Option<int>)

  /** The phrase announcing an air-raid alert. */
  const RaiseMarker: string := "Повітряна тривога"
  /** The phrase announcing the end of an alert. */
  const LowerMarker: string := "Відбій"

  /** Python's `sub in text` on strings. */
  predicate Contains(text: string, sub: string)
    decreases |text|
  {
    sub <= text || (text != [] && Contains(text[1..], sub))
  }

  /** `sub` occurs in `text` starting at index `i`. */
  predicate OccursAt(text: string, sub: string, i: int)
  {
    0 <= i && i + |sub| <= |text| && text[i..i + |sub|] == sub
  }

  /** An occurrence past the first position of `text` is an occurrence in
      its tail, one position earlier. */
  lemma OccursInTail(text: string, sub: string, i: int)
    requires text != [] && i >= 1
    ensures OccursAt(text, sub, i) <==> OccursAt(text[1..], sub, i - 1)
  {
  }

  /** `Contains` holds exactly when `sub` occurs at some position of `text`. */
  lemma {:induction false} ContainsIffOccurs(text: string, sub: string)
    ensures Contains(text, sub) <==> exists i :: OccursAt(text, sub, i)
    decreases |text|
  {
    if sub <= text {
      assert OccursAt(text, sub, 0);
    } else if text != [] {
      ContainsIffOccurs(text[1..], sub);
      if exists i :: OccursAt(text, sub, i) {
        var i :| OccursAt(text, sub, i);
        OccursInTail(text, sub, i);
      }
      if Contains(text[1..], sub) {
        var i :| OccursAt(text[1..], sub, i);
        OccursInTail(text, sub, i + 1);
      }
    }
  }

  /** How a post moves a region: `Some(true)` raises an alert, `Some(false)`
      lowers it, `None` leaves every region alone. The raise marker wins
      when a post holds both phrases. */
  function Classify(text: string): (c: Option<bool>)
    ensures c == Some(true) <==> Contains(text, RaiseMarker)
    ensures c == Some(false) <==> !Contains(text, RaiseMarker) && Contains(text, LowerMarker)
    ensures c == None <==> !Contains(text, RaiseMarker) && !Contains(text, LowerMarker)
  {
    if Contains(text, RaiseMarker) then Some(true)
    else if Contains(text, LowerMarker) then Some(false)
    else None
  }

  /** The region table the monitor starts with: 24 oblasts and the city of
      Kyiv, none alerted, none changed yet. */
  const InitialRegions: seq<Region> := [
    Region(1, "Вінницька область", "Vinnytsia oblast", false, None),
    Region(2, "Волинська область", "Volyn oblast", false, None),
    Region(3, "Дніпропетровська область", "Dnipropetrovsk oblast", false, None),
    Region(4, "Донецька область", "Donetsk oblast", false, None),
    Region(5, "Житомирська область", "Zhytomyr oblast", false, None),
    Region(6, "Закарпатська область", "Zakarpattia oblast", false, None),
    Region(7, "Запорізька область", "Zaporizhzhia oblast", false, None),
    Region(8, "Івано-Франківська область", "Ivano-Frankivsk oblast", false, None),
    Region(9, "Київська область", "Kyiv oblast", false, None),
    Region(10, "Кіровоградська область", "Kirovohrad oblast", false, None),
    Region(11, "Луганська область", "Luhansk oblast", false, None),
    Region(12, "Львівська область", "Lviv oblast", false, None),
    Region(13, "Миколаївська область", "Mykolaiv oblast", false, None),
    Region(14, "Одеська область", "Odesa oblast", false, None),
    Region(15, "Полтавська область", "Poltava oblast", false, None),
    Region(16, "Рівненська область", "Rivne oblast", false, None),
    Region(17, "Сумська область", "Sumy oblast", false, None),
    Region(18, "Тернопільська область", "Ternopil oblast", false, None),
    Region(19, "Харківська область", "Kharkiv oblast", false, None),
    Region(20, "Херсонська область", "Kherson oblast", false, None),
    Region(21, "Хмельницька область", "Khmelnytskyi oblast", false, None),
    Region(22, "Черкаська область", "Cherkasy oblast", false, None),
    Region(23, "Чернівецька область", "Chernivtsi oblast", false, None),
    Region(24, "Чернігівська область", "Chernihiv oblast", false, None),
    Region(25, "м. Київ", "Kyiv", false, None)
  ]

  /** The initial table has 25 regions whose ids are 1..25 in table order
      (so they are distinct), all clear and never changed. */
  lemma InitialRegionTable()
    ensures |InitialRegions| == 25
    ensures forall i :: 0 <= i < 25 ==> InitialRegions[i].id == i + 1
    ensures forall i :: 0 <= i < 25 ==> !InitialRegions[i].alert && InitialRegions[i].changed == None
    ensures forall i, j :: 0 <= i < j < 25 ==> InitialRegions[i].id != InitialRegions[j].id
  {
  }

  /** The index of the first region, at `from` or later in table order,
      whose name occurs in `text`. */
  function FirstMatch(regions: seq<Region>, text: string, from: nat): (r: Option<nat>)
    requires from <= |regions|
    ensures r.Some? ==> from <= r.value < |regions| && Contains(text, regions[r.value].name)
    ensures r.Some? ==> forall j :: from <= j < r.value ==> !Contains(text, regions[j].name)
    ensures r.None? ==> forall j :: from <= j < |regions| ==> !Contains(text, regions[j].name)
    decreases |regions| - from
  {
    if from == |regions| then None
    else if Contains(text, regions[from].name) then Some(from)
    else FirstMatch(regions, text, from + 1)
  }

  /** The part of the monitor's state a cycle changes, with the events
      published so far. */
  datatype Progress = Progress(regions: seq<Region>, alert: bool, published: seq<(string, Region)>)

  /** The effect of one fetched post: a classified post updates the first
      region named in it; when that region is the monitored one, `alert`
      or `clear` is published with the updated region and the monitor's
      flag follows. */
  function Step(p: Progress, regionId: int, m: Message): Progress
  {
    match Classify(m.text)
    case None => p
    case Some(raise) =>
      match FirstMatch(p.regions, m.text, 0)
      case None => p
      case Some(i) =>
        var region := p.regions[i].(alert := raise, changed := Some(m.date));
        var regions := p.regions[i := region];
        if region.id == regionId then
          Progress(regions, raise, p.published + [(if raise then "alert" else "clear", region)])
        else
          Progress(regions, p.alert, p.published)
  }

  /** The effect of the fetched posts, taken in order. */
  function Run(p: Progress, regionId: int, messages: seq<Message>): (r: Progress)
    ensures |r.regions| == |p.regions|
    ensures p.published <= r.published && |r.published| <= |p.published| + |messages|
  {
    if messages == [] then p
    else Step(Run(p, regionId, messages[..|messages| - 1]), regionId, messages[|messages| - 1])
  }

  /** A post that is not classified, or names no region, changes nothing. */
  lemma StepIgnores(p: Progress, regionId: int, m: Message)
    requires Classify(m.text).None? || forall j :: 0 <= j < |p.regions| ==> !Contains(m.text, p.regions[j].name)
    ensures Step(p, regionId, m) == p
  {
  }

  /** A classified post updates the first region in table order whose name
      it contains, and no other: that region takes the classified state and
      the post's date. An event is published, and the flag set to the
      classified state, exactly when that region is the monitored one. */
  lemma StepUpdatesFirstNamed(p: Progress, regionId: int, m: Message, i: nat)
    requires Classify(m.text).Some?
    requires i < |p.regions| && Contains(m.text, p.regions[i].name)
    requires forall j :: 0 <= j < i ==> !Contains(m.text, p.regions[j].name)
    ensures var q := Step(p, regionId, m);
            var raise := Classify(m.text).value;
            && |q.regions| == |p.regions|
            && q.regions[i] == p.regions[i].(alert := raise, changed := Some(m.date))
            && (forall j :: 0 <= j < |p.regions| && j != i ==> q.regions[j] == p.regions[j])
            && (p.regions[i].id == regionId ==>
                  q.published == p.published + [(if raise then "alert" else "clear", q.regions[i])] && q.alert == raise)
            && (p.regions[i].id != regionId ==> q.published == p.published && q.alert == p.alert)
  {
  }

  /** The table keeps its length and every region its id and names. */
  predicate SameTable(before: seq<Region>, after: seq<Region>)
  {
    |before| == |after| &&
    forall j :: 0 <= j < |before| ==>
      after[j].id == before[j].id && after[j].name == before[j].name && after[j].nameEn == before[j].nameEn
  }

  /** Events are only ever published for the monitored region, which by then
      has a change date; the topic is `alert` exactly when the published
      region is alerted. */
  predicate MonitoredEvents(published: seq<(string, Region)>, regionId: int)
  {
    forall k :: 0 <= k < |published| ==>
      && published[k].1.id == regionId
      && published[k].1.changed.Some?
      && (published[k].0 == "alert" || published[k].0 == "clear")
      && (published[k].0 == "alert" <==> published[k].1.alert)
  }

  /** What a cycle keeps, from progress `p` to progress `q`: the table's ids
      and names, events only appended and only for the monitored region,
      and the flag equal to the direction of the last event published
      (unchanged when none was). */
  predicate CycleInvariants(p: Progress, q: Progress, regionId: int)
  {
    && SameTable(p.regions, q.regions)
    && MonitoredEvents(q.published, regionId)
    && p.published <= q.published
    && (q.published == p.published ==> q.alert == p.alert)
    && (q.published != p.published ==> q.alert == (q.published[|q.published| - 1].0 == "alert"))
  }

  /** One more post keeps what a cycle keeps. */
  lemma StepKeepsInvariants(p: Progress, r: Progress, regionId: int, m: Message)
    requires CycleInvariants(p, r, regionId)
    ensures CycleInvariants(p, Step(r, regionId, m), regionId)
  {
    if Classify(m.text).Some? && FirstMatch(r.regions, m.text, 0).Some? {
      var i := FirstMatch(r.regions, m.text, 0).value;
      StepUpdatesFirstNamed(r, regionId, m, i);
    } else {
      assert Step(r, regionId, m) == r;
    }
  }

  /** A cycle leaves the table's ids and names alone, only adds events for
      the monitored region, and leaves the flag equal to the direction of
      the last event it published (unchanged when it published none). */
  lemma {:induction false} RunInvariants(p: Progress, regionId: int, messages: seq<Message>)
    requires MonitoredEvents(p.published, regionId)
    ensures CycleInvariants(p, Run(p, regionId, messages), regionId)
  {
    if messages != [] {
      RunInvariants(p, regionId, messages[..|messages| - 1]);
      StepKeepsInvariants(p, Run(p, regionId, messages[..|messages| - 1]), regionId, messages[|messages| - 1]);
    }
  }

  /** Events follow every qualifying post, not only changes of state: two
      posts that both raise the monitored region publish two `alert`
      events, the second carrying the second post's date. */
  lemma RepeatedRaisePublishesTwice(p: Progress, regionId: int, m1: Message, m2: Message, i: nat)
    requires Classify(m1.text) == Some(true) && Classify(m2.text) == Some(true)
    requires i < |p.regions| && p.regions[i].id == regionId
    requires Contains(m1.text, p.regions[i].name) && Contains(m2.text, p.regions[i].name)
    requires forall j :: 0 <= j < i ==> !Contains(m1.text, p.regions[j].name) && !Contains(m2.text, p.regions[j].name)
    ensures var q := Run(p, regionId, [m1, m2]);
            && |q.published| == |p.published| + 2
            && q.published[|p.published|].0 == "alert"
            && q.published[|p.published| + 1] == ("alert", p.regions[i].(alert := true, changed := Some(m2.date)))
  {
    assert [m1, m2][..1] == [m1];
    assert [m1][..0] == [];
    var q1 := Step(p, regionId, m1);
    assert Run(p, regionId, [m1]) == q1;
    StepUpdatesFirstNamed(p, regionId, m1, i);
    StepUpdatesFirstNamed(q1, regionId, m2, i);
  }

  class AlertMonitor {
    /** the channel whose posts the `fetch` argument of `CheckAlerts` reads */
    const channelName: string
    /** seconds to sleep after a cycle while the monitored region is clear */
    const interval: int
    /** seconds to sleep after a cycle while the monitored region is alerted */
    const backoffInterval: int
    /** the id of the region whose changes are published */
    const regionId: int
    /** the cutoff passed to the next fetch, `None` before the first success */
    var lastChecked: Option<int>
    /** the direction of the last event published */
    var alert: bool
    var regions: seq<Region>

    constructor (channelName: string, interval: int, backoffInterval: int, regionToMonitor: int)
      ensures this.channelName == channelName && this.interval == interval
      ensures this.backoffInterval == backoffInterval && regionId == regionToMonitor
      ensures lastChecked == None && !alert && regions == InitialRegions
    {
      this.channelName := channelName;
      this.interval := interval;
      this.backoffInterval := backoffInterval;
      lastChecked := None;
      regionId := regionToMonitor;
      alert := false;
      regions := InitialRegions;
    }

    /** One iteration of the polling loop. `fetch` gives what reading the
        alert channel with a cutoff returns; `now` is the clock reading
        taken after a successful fetch. A failed fetch changes nothing.
        Otherwise the cutoff moves to `now` and the posts are applied in
        order. The loop then sleeps the backoff interval when the flag is
        set and the normal interval otherwise. */
    method CheckAlerts(fetch: Option<int> -> FetchResult, now: int) returns (published: seq<(string, Region)>, sleep: int)
      modifies this
      ensures fetch(old(lastChecked)).FetchFailed? ==>
                regions == old(regions) && alert == old(alert) && lastChecked == old(lastChecked) && published == []
      ensures fetch(old(lastChecked)).Fetched? ==>
                && lastChecked == Some(now)
                && Progress(regions, alert, published) ==
                   Run(Progress(old(regions), old(alert), []), regionId, fetch(old(lastChecked)).messages)
      ensures sleep == if alert then backoffInterval else interval
    {
      published := [];
      var result := fetch(lastChecked);
      if result.Fetched? {
        lastChecked := Some(now);
        var messages := result.messages;
        ghost var start := Progress(regions, alert, []);
        var k := 0;
        while k < |messages|
          invariant 0 <= k <= |messages|
          invariant lastChecked == Some(now)
          invariant Progress(regions, alert, published) == Run(start, regionId, messages[..k])
        {
          var message := messages[k];
          assert messages[..k + 1][..k] == messages[..k];
          ghost var before := Progress(regions, alert, published);
          var raise: bool;
          if Contains(message.text, RaiseMarker) {
            raise := true;
          } else if Contains(message.text, LowerMarker) {
            raise := false;
          } else {
            k := k + 1;
            continue;
          }
          var i := 0;
          while i < |regions|
            invariant 0 <= i <= |regions|
            invariant FirstMatch(regions, message.text, i) == FirstMatch(regions, message.text, 0)
            invariant Progress(regions, alert, published) == before
            invariant lastChecked == Some(now)
          {
            if Contains(message.text, regions[i].name) {
              var region := regions[i].(alert := raise, changed := Some(message.date));
              regions := regions[i := region];
              if regionId == region.id {
                if raise {
                  published := published + [("alert", region)];
                  alert := true;
                } else {
                  published := published + [("clear", region)];
                  alert := false;
                }
              }
              assert Progress(regions, alert, published) == Step(before, regionId, message);
              break;
            }
            i := i + 1;
          }
          assert Progress(regions, alert, published) == Step(before, regionId, message);
          k := k + 1;
        }
        assert messages[..k] == messages;
      }
      sleep := if alert then backoffInterval else interval;
    }
  }
}
