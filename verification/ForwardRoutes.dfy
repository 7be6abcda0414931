/** Which destinations one message is forwarded to (core-service/internal/app/forward.go):
    validation of a route list, selection of the routes of a source topic, and the lookup
    that finds the progress record of the route being sent. */
module ForwardRoutes {

  /** A route after validation. `destination` is the configured chat, without outer blanks. */
  datatype Route = Route(sourceTopic: nat, destination: string, destinationTopic: nat)

  /** One entry of a submitted `routes` array: an object with unchecked topics, or anything else. */
  datatype RawRoute = RawRoute(sourceTopic: int, destination: string, destinationTopic: int) | NotAnObject

  datatype RouteError = NotAnArrayOfObjects | TooManyRoutes | InvalidTopic | DuplicateRoute

  datatype Result<+T> = Ok(value: T) | Err(error: RouteError)

  /** The saved setting: no `routes` key (the settings themselves are the route), a `routes`
      value that is no array, or an array. */
  datatype Setting = Legacy(whole: Route) | Malformed | Routes(entries: seq<Option>)

  datatype Option = Some(route: Route) | None

  const MAX_ROUTES := 100
  const MAX_TOPIC := 2147483647

  predicate IsBlank(c: char) {
    c == ' ' || c == '\t' || c == '\n' || c == '\r'
  }

  function TrimLeft(s: string): string {
    if s != "" && IsBlank(s[0]) then TrimLeft(s[1..]) else s
  }

  function TrimRight(s: string): string {
    if s != "" && IsBlank(s[|s| - 1]) then TrimRight(s[..|s| - 1]) else s
  }

  function Trim(s: string): string {
    TrimRight(TrimLeft(s))
  }

  lemma {:induction false} TrimRightKeepsHead(s: string)
    ensures TrimRight(s) <= s
    ensures TrimRight(s) != "" ==> !IsBlank(TrimRight(s)[|TrimRight(s)| - 1])
  {
    if s != "" && IsBlank(s[|s| - 1]) {
      TrimRightKeepsHead(s[..|s| - 1]);
    }
  }

  lemma {:induction false} TrimLeftHead(s: string)
    ensures TrimLeft(s) != "" ==> !IsBlank(TrimLeft(s)[0])
  {
    if s != "" && IsBlank(s[0]) {
      TrimLeftHead(s[1..]);
    }
  }

  /** Trimming a trimmed destination changes nothing. */
  lemma TrimIdempotent(s: string)
    ensures Trim(Trim(s)) == Trim(s)
  {
    TrimLeftHead(s);
    TrimRightKeepsHead(TrimLeft(s));
    var t := Trim(s);
    assert t != "" ==> t[0] == TrimLeft(s)[0];
    assert TrimLeft(t) == t;
  }

  predicate SameKey(a: Route, b: Route) {
    a.sourceTopic == b.sourceTopic && a.destination == b.destination
  }

  /** What a list accepted by the validation guarantees. */
  ghost predicate Normalized(routes: seq<Route>) {
    && (forall i :: 0 <= i < |routes| ==>
          routes[i].destination != "" && Trim(routes[i].destination) == routes[i].destination)
    && forall i, j :: 0 <= i < j < |routes| ==> !SameKey(routes[i], routes[j])
  }

  predicate ValidTopic(n: int) {
    0 <= n <= MAX_TOPIC
  }

  /** An entry the validation does not refuse on its own. */
  predicate Usable(r: RawRoute) {
    r.RawRoute? && (Trim(r.destination) != "" ==> ValidTopic(r.sourceTopic) && ValidTopic(r.destinationTopic))
  }

  predicate AllUsable(raw: seq<RawRoute>) {
    forall i :: 0 <= i < |raw| ==> Usable(raw[i])
  }

  /** The routes an accepted list keeps: entries with a blank destination are dropped. */
  function Kept(raw: seq<RawRoute>): seq<Route>
    requires AllUsable(raw)
  {
    if raw == [] then [] else
      var r := raw[|raw| - 1];
      assert Usable(r);
      Kept(raw[..|raw| - 1]) +
      if Trim(r.destination) == "" then [] else [Route(r.sourceTopic, Trim(r.destination), r.destinationTopic)]
  }

  /** Validation of a submitted route list. */
  method NormalizeRoutes(raw: seq<RawRoute>) returns (result: Result<seq<Route>>)
    ensures result.Ok? ==>
              && |raw| <= MAX_ROUTES
              && (AllUsable(raw))
              && result.value == Kept(raw)
              && Normalized(result.value)
    ensures result.Err? ==> match result.error
                            case TooManyRoutes => |raw| > MAX_ROUTES
                            case NotAnArrayOfObjects => NotAnObject in raw
                            case InvalidTopic => exists r :: r in raw && r.RawRoute? && !Usable(r)
                            case DuplicateRoute => (AllUsable(raw))
                                                   && exists i, j ::
                                                        0 <= i < j < |Kept(raw)| && SameKey(Kept(raw)[i], Kept(raw)[j])
  {
    if |raw| > MAX_ROUTES {
      return Err(TooManyRoutes);
    }
    var routes: seq<Route> := [];
    for k := 0 to |raw|
      invariant AllUsable(raw[..k])
      invariant routes == Kept(raw[..k])
      invariant forall i :: 0 <= i < |routes| ==>
                  routes[i].destination != "" && Trim(routes[i].destination) == routes[i].destination
    {
      if raw[k].NotAnObject? {
        return Err(NotAnArrayOfObjects);
      }
      var destination := Trim(raw[k].destination);
      assert raw[..k + 1][..k] == raw[..k];
      if destination == "" {
        continue;
      }
      TrimIdempotent(raw[k].destination);
      if !ValidTopic(raw[k].sourceTopic) || !ValidTopic(raw[k].destinationTopic) {
        return Err(InvalidTopic);
      }
      routes := routes + [Route(raw[k].sourceTopic, destination, raw[k].destinationTopic)];
    }
    assert raw[..|raw|] == raw;
    var seen: set<(nat, string)> := {};
    for k := 0 to |routes|
      invariant seen == set i | 0 <= i < k :: (routes[i].sourceTopic, routes[i].destination)
      invariant forall i, j :: 0 <= i < j < k ==> !SameKey(routes[i], routes[j])
    {
      if (routes[k].sourceTopic, routes[k].destination) in seen {
        ghost var i :| 0 <= i < k && (routes[i].sourceTopic, routes[i].destination) ==
          (routes[k].sourceTopic, routes[k].destination);
        assert SameKey(Kept(raw)[i], Kept(raw)[k]);
        return Err(DuplicateRoute);
      }
      seen := seen + {(routes[k].sourceTopic, routes[k].destination)};
    }
    return Ok(routes);
  }

  // ---- Selection of the routes of one source topic ----

  /** The saved objects, in order; entries that are no object are skipped. */
  function Objects(entries: seq<Option>): seq<Route> {
    if entries == [] then []
    else Objects(entries[..|entries| - 1]) + if entries[|entries| - 1].Some? then [entries[|entries| - 1].route] else []
  }

  function WithTopic(routes: seq<Route>, topic: nat): seq<Route> {
    if routes == [] then []
    else WithTopic(routes[..|routes| - 1], topic) + if routes[|routes| - 1].sourceTopic == topic then
           [routes[|routes| - 1]] else []
  }

  function NotIn(routes: seq<Route>, taken: set<string>): seq<Route> {
    if routes == [] then []
    else NotIn(routes[..|routes| - 1], taken) + if routes[|routes| - 1].destination !in taken then
           [routes[|routes| - 1]] else []
  }

  function Destinations(routes: seq<Route>): set<string> {
    set i | 0 <= i < |routes| :: routes[i].destination
  }

  /** Routes for the topic, then the topic-less routes to destinations not already covered. */
  function Matching(setting: Setting, topic: nat): seq<Route> {
    match setting
    case Legacy(whole) => [whole]
    case Malformed => []
    case Routes(entries) =>
      var routes := Objects(entries);
      var exact := if topic == 0 then [] else WithTopic(routes, topic);
      exact + NotIn(WithTopic(routes, 0), Destinations(exact))
  }

  lemma ObjectsStep(entries: seq<Option>, k: nat, topic: nat)
    requires k < |entries|
    ensures var before, after := Objects(entries[..k]), Objects(entries[..k + 1]);
            if entries[k].None? then after == before
            else WithTopic(after, topic) == WithTopic(before, topic) + if entries[k].route.sourceTopic == topic then
                   [entries[k].route] else []
  {
    var before := Objects(entries[..k]);
    assert entries[..k + 1][..k] == entries[..k];
    if entries[k].Some? {
      assert (before + [entries[k].route])[..|before|] == before;
    }
  }

  method MatchingForwardRoutes(setting: Setting, topic: nat) returns (exact: seq<Route>)
    ensures exact == Matching(setting, topic)
  {
    if setting.Legacy? {
      return [setting.whole];
    }
    if setting.Malformed? {
      return [];
    }
    var fallback;
    exact, fallback := ByTopic(setting.entries, topic);
    exact := AddUncovered(exact, fallback);
  }

  /** The first loop: routes of the topic, and routes without one. */
  method ByTopic(entries: seq<Option>, topic: nat) returns (exact: seq<Route>, fallback: seq<Route>)
    ensures exact == if topic == 0 then [] else WithTopic(Objects(entries), topic)
    ensures fallback == WithTopic(Objects(entries), 0)
  {
    exact, fallback := [], [];
    for k := 0 to |entries|
      invariant exact == if topic == 0 then [] else WithTopic(Objects(entries[..k]), topic)
      invariant fallback == WithTopic(Objects(entries[..k]), 0)
    {
      ObjectsStep(entries, k, topic);
      ObjectsStep(entries, k, 0);
      if entries[k].None? {
        continue;
      }
      var route := entries[k].route;
      if route.sourceTopic == topic && topic != 0 {
        exact := exact + [route];
      }
      if route.sourceTopic == 0 {
        fallback := fallback + [route];
      }
    }
    assert entries[..|entries|] == entries;
  }

  /** The other two: the fallback routes to destinations not covered yet. */
  method AddUncovered(specific: seq<Route>, fallback: seq<Route>) returns (exact: seq<Route>)
    ensures exact == specific + NotIn(fallback, Destinations(specific))
  {
    exact := specific;
    var destinations: set<string> := {};
    for k := 0 to |specific|
      invariant destinations == set i | 0 <= i < k :: specific[i].destination
    {
      destinations := destinations + {specific[k].destination};
    }
    for k := 0 to |fallback|
      invariant exact == specific + NotIn(fallback[..k], destinations)
    {
      assert fallback[..k + 1][..k] == fallback[..k];
      if fallback[k].destination !in destinations {
        exact := exact + [fallback[k]];
      }
    }
    assert fallback[..|fallback|] == fallback;
  }

  // ---- What the selection guarantees ----

  ghost predicate DistinctDestinations(routes: seq<Route>) {
    forall i, j :: 0 <= i < j < |routes| ==> routes[i].destination != routes[j].destination
  }

  /** A route made for the topic goes to the same destination. */
  predicate Shadowed(routes: seq<Route>, topic: nat, r: Route) {
    topic != 0 && exists s :: s in routes && s.sourceTopic == topic && s.destination == r.destination
  }

  lemma {:induction false} WithTopicMeaning(routes: seq<Route>, topic: nat)
    requires Normalized(routes)
    ensures forall r :: r in WithTopic(routes, topic) <==> r in routes && r.sourceTopic == topic
    ensures DistinctDestinations(WithTopic(routes, topic))
  {
    if routes != [] {
      var init, last := routes[..|routes| - 1], routes[|routes| - 1];
      WithTopicMeaning(init, topic);
      assert routes == init + [last];
      var sub := WithTopic(init, topic);
      if last.sourceTopic == topic {
        forall i | 0 <= i < |sub| ensures sub[i].destination != last.destination {
          assert sub[i] in init;
          var k :| 0 <= k < |init| && init[k] == sub[i];
          assert !SameKey(routes[k], routes[|routes| - 1]);
        }
      }
    }
  }

  lemma {:induction false} NotInMembers(routes: seq<Route>, taken: set<string>)
    ensures forall r :: r in NotIn(routes, taken) <==> r in routes && r.destination !in taken
  {
    if routes != [] {
      NotInMembers(routes[..|routes| - 1], taken);
      assert routes == routes[..|routes| - 1] + [routes[|routes| - 1]];
    }
  }

  lemma {:induction false} NotInMeaning(routes: seq<Route>, taken: set<string>)
    requires DistinctDestinations(routes)
    ensures forall r :: r in NotIn(routes, taken) <==> r in routes && r.destination !in taken
    ensures DistinctDestinations(NotIn(routes, taken))
  {
    NotInMembers(routes, taken);
    if routes != [] {
      var init, last := routes[..|routes| - 1], routes[|routes| - 1];
      NotInMeaning(init, taken);
      var sub := NotIn(init, taken);
      forall i | 0 <= i < |sub| ensures sub[i].destination != last.destination {
        assert sub[i] in init;
        var k :| 0 <= k < |init| && init[k] == sub[i];
        assert routes[k].destination != routes[|routes| - 1].destination;
      }
    }
  }

  /** For an accepted list every destination is selected at most once, exactly the routes of
      the topic and the unshadowed topic-less routes are selected, and nothing else. */
  lemma MatchingSelects(entries: seq<Option>, topic: nat)
    requires Normalized(Objects(entries))
    ensures var routes, selected := Objects(entries), Matching(Routes(entries), topic);
            && DistinctDestinations(selected)
            && (forall r :: r in selected <==>
                  && r in routes
                  && (|| (topic != 0 && r.sourceTopic == topic)
                      || (r.sourceTopic == 0 && !Shadowed(routes, topic, r))))
  {
    var routes := Objects(entries);
    var exact := if topic == 0 then [] else WithTopic(routes, topic);
    var tail := NotIn(WithTopic(routes, 0), Destinations(exact));
    WithTopicMeaning(routes, topic);
    WithTopicMeaning(routes, 0);
    NotInMeaning(WithTopic(routes, 0), Destinations(exact));
    assert Matching(Routes(entries), topic) == exact + tail;
    forall r: Route ensures r.destination in Destinations(exact) <==> Shadowed(routes, topic, r) {
      DestinationsOfExact(routes, topic, r);
    }
    forall i, j | 0 <= i < |exact| && 0 <= j < |tail| ensures exact[i].destination != tail[j].destination {
      assert tail[j] in tail;
    }
  }

  lemma DestinationsOfExact(routes: seq<Route>, topic: nat, r: Route)
    requires Normalized(routes)
    ensures r.destination in Destinations(if topic == 0 then [] else WithTopic(routes, topic)) <==>
              Shadowed(routes, topic, r)
  {
    var exact := if topic == 0 then [] else WithTopic(routes, topic);
    WithTopicMeaning(routes, topic);
    if r.destination in Destinations(exact) {
      var k :| 0 <= k < |exact| && exact[k].destination == r.destination;
      assert exact[k] in exact;
    }
    if Shadowed(routes, topic, r) {
      var s :| s in routes && s.sourceTopic == topic && s.destination == r.destination;
      assert s in exact;
    }
  }

  // ---- Finding the record of the route being sent ----

  /** First record with this destination and topic, or -1. */
  method ForwardDestinationIndex(records: seq<Route>, destination: string, topic: nat) returns (index: int)
    ensures index == DestinationIndex(records, destination, topic)
  {
    for i := 0 to |records|
      invariant forall j :: 0 <= j < i ==>
                  !(records[j].destination == destination && records[j].destinationTopic == topic)
    {
      if records[i].destination == destination && records[i].destinationTopic == topic {
        FirstIndex(records, destination, topic, i);
        return i;
      }
    }
    if DestinationIndex(records, destination, topic) != -1 {
      DestinationIndexFound(records, destination, topic);
    }
    return -1;
  }

  function DestinationIndex(records: seq<Route>, destination: string, topic: nat): int {
    if records == [] then -1
    else if records[0].destination == destination && records[0].destinationTopic == topic then 0
    else var i := DestinationIndex(records[1..], destination, topic); if i < 0 then -1 else i + 1
  }

  lemma {:induction false} DestinationIndexFound(records: seq<Route>, destination: string, topic: nat)
    ensures var i := DestinationIndex(records, destination, topic);
            -1 <= i < |records| && (i >= 0 ==>
                                      records[i].destination == destination && records[i].destinationTopic == topic)
  {
    if records != [] {
      DestinationIndexFound(records[1..], destination, topic);
    }
  }

  lemma {:induction false} FirstIndex(records: seq<Route>, destination: string, topic: nat, i: nat)
    requires i < |records| && records[i].destination == destination && records[i].destinationTopic == topic
    requires forall j :: 0 <= j < i ==> !(records[j].destination == destination && records[j].destinationTopic == topic)
    ensures DestinationIndex(records, destination, topic) == i
  {
    if i > 0 {
      assert !(records[0].destination == destination && records[0].destinationTopic == topic);
      FirstIndex(records[1..], destination, topic, i - 1);
    }
  }

  /** Progress is recorded on the right destination: for the routes selected from an accepted
      list, the lookup with the trimmed destination of route i answers i. */
  lemma IndexOfSelectedRoute(entries: seq<Option>, topic: nat, i: nat)
    requires Normalized(Objects(entries))
    ensures var selected := Matching(Routes(entries), topic);
            i < |selected| ==>
              DestinationIndex(selected, Trim(selected[i].destination), selected[i].destinationTopic) == i
  {
    MatchingSelects(entries, topic);
    var selected := Matching(Routes(entries), topic);
    if i < |selected| {
      assert selected[i] in Objects(entries);
      FirstIndex(selected, selected[i].destination, selected[i].destinationTopic, i);
    }
  }

  /** Settings without a route list are not trimmed when they are saved: there the lookup
      finds the record exactly when the saved destination has no outer blanks. */
  lemma IndexOfLegacyRoute(whole: Route)
    ensures DestinationIndex(Matching(Legacy(whole), 0), Trim(whole.destination), whole.destinationTopic) == 0
        <==> Trim(whole.destination) == whole.destination
  {
    assert Matching(Legacy(whole), 0) == [whole];
    assert DestinationIndex([whole][1..], Trim(whole.destination), whole.destinationTopic) == -1;
  }
}
