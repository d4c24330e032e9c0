/**
 Filtering SignalR events and dropping repeats, instance by instance.
 */
module FeedQueue {
  import opened Common

  datatype Json =
    | Text(text: string)
    | Owner(instance: Option<int>)
    | List(items: seq<Json>)
    | Dict(fields: map<string, Json>)

  const REMOVED: string := "statistics"

  // ---- The filter

  /** Dictionaries are filtered, and dictionaries that are items of a list; a
      list inside a list is kept as it is. */
  function FilterValue(v: Json): Json {
    match v
    case Dict(fields) => Dict(map k | k in fields && k != REMOVED :: FilterValue(fields[k]))
    case List(items) =>
      List(seq(|items|, i requires 0 <= i < |items| => if items[i].Dict? then FilterValue(items[i]) else items[i]))
    case _ => v
  }

  /** No removed key where the filter looks. */
  predicate Clean(v: Json) {
    match v
    case Dict(fields) => REMOVED !in fields && forall k | k in fields :: Clean(fields[k])
    case List(items) => forall i | 0 <= i < |items| && items[i].Dict? :: Clean(items[i])
    case _ => true
  }

  /** The filter removes every such key and leaves what has none as it was. */
  lemma {:induction false} FilterCleans(v: Json)
    ensures Clean(FilterValue(v))
    ensures Clean(v) ==> FilterValue(v) == v
    decreases v
  {
    match v
    case Dict(fields) =>
      forall k | k in fields
        ensures Clean(FilterValue(fields[k])) && (Clean(fields[k]) ==> FilterValue(fields[k]) == fields[k])
      {
        FilterCleans(fields[k]);
      }
    case List(items) =>
      forall i | 0 <= i < |items| && items[i].Dict?
        ensures Clean(FilterValue(items[i])) && (Clean(items[i]) ==> FilterValue(items[i]) == items[i])
      {
        FilterCleans(items[i]);
      }
      if Clean(v) {
        assert FilterValue(v).items == items;
      }
    case _ =>
  }

  /** The filter run twice changes nothing more. */
  lemma FilterIsIdempotent(v: Json)
    ensures FilterValue(FilterValue(v)) == FilterValue(v)
  {
    FilterCleans(v);
    FilterCleans(FilterValue(v));
  }

  // ---- What the filter keeps

  datatype Hop = Field(k: string) | Item(i: nat)

  /** The value found by following the path. */
  function Lookup(v: Json, path: seq<Hop>): Option<Json>
    decreases |path|
  {
    if path == [] then Some(v)
    else match path[0]
      case Field(k) => if v.Dict? && k in v.fields then Lookup(v.fields[k], path[1..]) else None
      case Item(i) => if v.List? && i < |v.items| then Lookup(v.items[i], path[1..]) else None
  }

  /** The path passes a removed key at a place the filter comes to: under dictionaries, and
      under dictionaries that are items of a list. */
  predicate PassesRemoved(v: Json, path: seq<Hop>)
    decreases |path|
  {
    path != [] &&
    match path[0]
    case Field(k) => v.Dict? && k in v.fields && (k == REMOVED || PassesRemoved(v.fields[k], path[1..]))
    case Item(i) => v.List? && i < |v.items| && v.items[i].Dict? && PassesRemoved(v.items[i], path[1..])
  }

  /** Both are dictionaries, with the same keys but for a removed one; or lists of the same
      length; or the same leaf. */
  predicate SameKind(a: Json, b: Json) {
    match a
    case Dict(fields) => b.Dict? && fields.Keys - {REMOVED} <= b.fields.Keys <= fields.Keys
    case List(items) => b.List? && |b.items| == |items|
    case _ => a == b
  }

  /** Exactly what the filter takes away: a path leads nowhere in the filtered value if it
      passes a removed key, and otherwise to the same it led to before. */
  lemma {:induction false} FilterKeepsTheRest(v: Json, path: seq<Hop>)
    ensures
      var before, after := Lookup(v, path), Lookup(FilterValue(v), path);
      if PassesRemoved(v, path) then after.None?
      else (after.Some? <==> before.Some?) && (before.Some? ==> SameKind(before.value, after.value))
    decreases |path|
  {
    if path == [] {
      assert SameKind(v, FilterValue(v));
    } else {
      match path[0]
      case Field(k) =>
        if v.Dict? && k in v.fields {
          FilterKeepsTheRest(v.fields[k], path[1..]);
        }
      case Item(i) =>
        if v.List? && i < |v.items| && v.items[i].Dict? {
          FilterKeepsTheRest(v.items[i], path[1..]);
        } else if v.List? && i < |v.items| {
          SameIsSameKind(v.items[i], path[1..]);
        }
    }
  }

  lemma SameIsSameKind(v: Json, path: seq<Hop>)
    ensures Lookup(v, path).Some? ==> SameKind(Lookup(v, path).value, Lookup(v, path).value)
  {
  }

  /** Of a dictionary the filter takes the removed key and no other. */
  lemma FilteredKeys(fields: map<string, Json>)
    ensures FilterValue(Dict(fields)).Dict? && FilterValue(Dict(fields)).fields.Keys == fields.Keys - {REMOVED}
  {
  }

  // ---- The queues

  datatype Kind = Series | Episode | Movie

  datatype Source = Source(kind: Kind, instance: Option<int>)

  datatype Received = Received(instance: Option<int>, data: Json)

  /** A list of one event stands for the event. */
  function Unwrapped(data: Json): Json {
    if data.List? && data.items != [] then data.items[0] else data
  }

  function KindOf(data: Json): Option<Kind> {
    if !data.Dict? || "name" !in data.fields then None
    else if data.fields["name"] == Text("series") then Some(Series)
    else if data.fields["name"] == Text("episode") then Some(Episode)
    else if data.fields["name"] == Text("movie") then Some(Movie)
    else None
  }

  /** `sonarr` and `radarr` are everything ever queued for each dispatcher. */
  datatype State = State(last: map<Source, Json>, sonarr: seq<Json>, radarr: seq<Json>)

  const EMPTY: State := State(map[], [], [])

  function Tagged(event: Json, instance: Option<int>): Json
    requires event.Dict?
  {
    Dict(event.fields["_arr_instance_id" := Owner(instance)])
  }

  function Fed(s: State, r: Received): State {
    var data := Unwrapped(r.data);
    var kind := KindOf(data);
    if kind.None? then s
    else
      var event, source := FilterValue(data), Source(kind.value, r.instance);
      if source in s.last && s.last[source] == event then s
      else if kind.value == Movie then
        s.(last := s.last[source := event], radarr := s.radarr + [Tagged(event, r.instance)])
      else
        s.(last := s.last[source := event], sonarr := s.sonarr + [Tagged(event, r.instance)])
  }

  function Run(feeds: seq<Received>): State
    decreases |feeds|
  {
    if feeds == [] then EMPTY else Fed(Run(feeds[..|feeds| - 1]), feeds[|feeds| - 1])
  }

  /** An event that names its kind is queued for the dispatcher of that kind, filtered and
      with its instance, unless it is what that instance sent last of the kind; a list
      stands for its first item, and everything else is left aside. */
  lemma ReceivedExactly(s: State, r: Received, event: Json, name: string)
    requires r.data == event || (r.data.List? && r.data.items != [] && r.data.items[0] == event)
    requires event.Dict? && "name" in event.fields && event.fields["name"] == Text(name)
    ensures
      var after := Fed(s, r);
      var kind := if name == "series" then Some(Series) else if name == "episode" then Some(Episode)
        else if name == "movie" then Some(Movie) else None;
      if kind.None? then after == s
      else
        var source := Source(kind.value, r.instance);
        var repeats := source in s.last && s.last[source] == FilterValue(event);
        var queue, before := if name == "movie" then after.radarr else after.sonarr,
                             if name == "movie" then s.radarr else s.sonarr;
        && after.last == s.last[source := FilterValue(event)]
        && (if name == "movie" then after.sonarr == s.sonarr else after.radarr == s.radarr)
        && if repeats then queue == before
           else
             && |queue| == |before| + 1 && queue[..|before|] == before
             && var queued := queue[|before|];
                && queued.Dict? && queued.fields.Keys == event.fields.Keys - {REMOVED} + {"_arr_instance_id"}
                && queued.fields["_arr_instance_id"] == Owner(r.instance)
                && forall k | k in event.fields && k != REMOVED && k != "_arr_instance_id" ::
                     queued.fields[k] == FilterValue(event.fields[k])
  {
  }

  /** Data that is no such event changes nothing. */
  lemma OthersAreLeftAside(s: State, r: Received)
    requires
      var event := if r.data.List? && r.data.items != [] then r.data.items[0] else r.data;
      !event.Dict? || "name" !in event.fields
      || event.fields["name"] !in {Text("series"), Text("episode"), Text("movie")}
    ensures Fed(s, r) == s
  {
  }

  // ---- What one source sees

  /** The filtered events one source sent. */
  function Sent(feeds: seq<Received>, source: Source): seq<Json>
    decreases |feeds|
  {
    if feeds == [] then []
    else
      var r := feeds[|feeds| - 1];
      var data := Unwrapped(r.data);
      Sent(feeds[..|feeds| - 1], source)
        + if KindOf(data) == Some(source.kind) && r.instance == source.instance then [FilterValue(data)] else []
  }

  /** Without repeats of the event just before. */
  function WithoutRepeats(events: seq<Json>): seq<Json>
    decreases |events|
  {
    if events == [] then []
    else
      var n := |events|;
      WithoutRepeats(events[..n - 1]) + if n >= 2 && events[n - 2] == events[n - 1] then [] else [events[n - 1]]
  }

  function IsFrom(queued: Json, source: Source): bool {
    queued.Dict? && KindOf(queued) == Some(source.kind)
    && "_arr_instance_id" in queued.fields && queued.fields["_arr_instance_id"] == Owner(source.instance)
  }

  function QueuedFrom(queue: seq<Json>, source: Source): seq<Json>
    decreases |queue|
  {
    if queue == [] then []
    else
      QueuedFrom(queue[..|queue| - 1], source) + if IsFrom(queue[|queue| - 1], source) then [queue[|queue| - 1]] else []
  }

  function AllTagged(events: seq<Json>, instance: Option<int>): seq<Json>
    requires forall e | e in events :: e.Dict?
  {
    seq(|events|, i requires 0 <= i < |events| => Tagged(events[i], instance))
  }

  lemma QueuedMore(queue: seq<Json>, event: Json, source: Source)
    ensures
      QueuedFrom(queue + [event], source) == QueuedFrom(queue, source) + if IsFrom(event, source) then [event] else []
  {
    assert (queue + [event])[..|queue|] == queue;
  }

  lemma TaggedMore(events: seq<Json>, event: Json, instance: Option<int>)
    requires event.Dict? && forall e | e in events :: e.Dict?
    ensures AllTagged(events + [event], instance) == AllTagged(events, instance) + [Tagged(event, instance)]
  {
  }

  lemma RepeatsMore(events: seq<Json>, event: Json)
    ensures WithoutRepeats(events + [event])
         == WithoutRepeats(events) + if events != [] && events[|events| - 1] == event then [] else [event]
  {
    assert (events + [event])[..|events|] == events;
  }

  lemma FilterKeepsKind(data: Json)
    requires KindOf(data).Some?
    ensures FilterValue(data).Dict? && KindOf(FilterValue(data)) == KindOf(data)
    ensures forall instance :: KindOf(Tagged(FilterValue(data), instance)) == KindOf(data)
  {
  }

  function QueueFor(s: State, kind: Kind): seq<Json> {
    if kind == Movie then s.radarr else s.sonarr
  }

  ghost predicate Matches(s: State, sent: seq<Json>, source: Source) {
    && (forall e | e in WithoutRepeats(sent) :: e.Dict?)
    && (source in s.last <==> sent != [])
    && (sent != [] ==> s.last[source] == sent[|sent| - 1])
    && QueuedFrom(QueueFor(s, source.kind), source) == AllTagged(WithoutRepeats(sent), source.instance)
  }

  lemma OtherSourceMatches(s: State, sent: seq<Json>, source: Source, r: Received)
    requires Matches(s, sent, source)
    requires KindOf(Unwrapped(r.data)) != Some(source.kind) || r.instance != source.instance
    ensures Matches(Fed(s, r), sent, source)
  {
    var data := Unwrapped(r.data);
    if KindOf(data).Some? {
      FilterKeepsKind(data);
      var event := Tagged(FilterValue(data), r.instance);
      assert !IsFrom(event, source);
      QueuedMore(QueueFor(s, source.kind), event, source);
    }
  }

  lemma SameSourceMatches(s: State, sent: seq<Json>, source: Source, r: Received)
    requires Matches(s, sent, source)
    requires KindOf(Unwrapped(r.data)) == Some(source.kind) && r.instance == source.instance
    ensures Matches(Fed(s, r), sent + [FilterValue(Unwrapped(r.data))], source)
  {
    var data := Unwrapped(r.data);
    var event := FilterValue(data);
    FilterKeepsKind(data);
    RepeatsMore(sent, event);
    var after := Fed(s, r);
    assert after.last[source] == event;
    if source !in s.last || s.last[source] != event {
      var tagged := Tagged(event, r.instance);
      assert IsFrom(tagged, source);
      assert QueueFor(after, source.kind) == QueueFor(s, source.kind) + [tagged];
      QueuedMore(QueueFor(s, source.kind), tagged, source);
      TaggedMore(WithoutRepeats(sent), event, source.instance);
    }
  }

  /** Over every run: the queue holds, for each kind and instance, exactly what
      that instance sent without the repeats. No other instance makes a
      difference. */
  lemma {:induction false} EachSourceLosesOnlyRepeats(feeds: seq<Received>, source: Source)
    ensures Matches(Run(feeds), Sent(feeds, source), source)
    decreases |feeds|
  {
    if feeds != [] {
      var init, r := feeds[..|feeds| - 1], feeds[|feeds| - 1];
      EachSourceLosesOnlyRepeats(init, source);
      if KindOf(Unwrapped(r.data)) == Some(source.kind) && r.instance == source.instance {
        SameSourceMatches(Run(init), Sent(init, source), source, r);
      } else {
        OtherSourceMatches(Run(init), Sent(init, source), source, r);
        assert Sent(feeds, source) == Sent(init, source);
      }
    }
  }

  // ---- The feed

  class Feed {
    var last: map<Source, Json>
    var sonarr: seq<Json>
    var radarr: seq<Json>

    function Contents(): State
      reads this
    {
      State(last, sonarr, radarr)
    }

    constructor ()
      ensures Contents() == EMPTY
    {
      last, sonarr, radarr := map[], [], [];
    }

    method Receive(data: Json, instance: Option<int>)
      modifies this
      ensures Contents() == Fed(old(Contents()), Received(instance, data))
    {
      var event := data;
      if event.List? && event.items != [] {
        event := event.items[0];
      }
      var kind := KindOf(event);
      if kind.None? {
        return;
      }
      event := FilterValue(event);
      var source := Source(kind.value, instance);
      if source in last && last[source] == event {
        return;
      }
      last := last[source := event];
      if kind.value == Movie {
        radarr := radarr + [Tagged(event, instance)];
      } else {
        sonarr := sonarr + [Tagged(event, instance)];
      }
    }
  }
}
