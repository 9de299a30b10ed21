/** Resolving a verb and URL against an ordered list of routes: the first match wins. */
module RouteResolution {
  import opened Results
  import opened Text
  import opened RoutePatterns
  import opened RouteNames
  import opened RouteOverlap

  datatype Verb = GET | POST | PUT | DELETE | PATCH

  /** One entry of the table; `line` is where it stands in appinfo/routes.php. */
  datatype Route = Route(line: nat, id: Id, verb: Verb, url: Template)

  predicate Matches(dotAll: bool, r: Route, verb: Verb, url: string) {
    r.verb == verb && Match(dotAll, r.url, url).Some?
  }

  function FirstMatch(dotAll: bool, routes: seq<Route>, verb: Verb, url: string): (r: Option<Route>)
    ensures r.None? <==> forall x | x in routes :: !Matches(dotAll, x, verb, url)
  {
    if routes == [] then None
    else if Matches(dotAll, routes[0], verb, url) then Some(routes[0])
    else
      assert routes == [routes[0]] + routes[1..];
      FirstMatch(dotAll, routes[1..], verb, url)
  }

  /** The result stands at an index before which nothing matches. */
  lemma {:induction false} FirstMatchAt(dotAll: bool, routes: seq<Route>, verb: Verb, url: string) returns (i: nat)
    requires FirstMatch(dotAll, routes, verb, url).Some?
    ensures i < |routes| && FirstMatch(dotAll, routes, verb, url) == Some(routes[i])
    ensures Matches(dotAll, routes[i], verb, url)
    ensures forall j | 0 <= j < i :: !Matches(dotAll, routes[j], verb, url)
  {
    if Matches(dotAll, routes[0], verb, url) {
      i := 0;
    } else {
      var k := FirstMatchAt(dotAll, routes[1..], verb, url);
      i := k + 1;
      forall j | 0 <= j < i ensures !Matches(dotAll, routes[j], verb, url) {
        assert j > 0 ==> routes[j] == routes[1..][j - 1];
      }
    }
  }

  /** A merged list resolves as its layers in turn. */
  lemma {:induction false} Layers(dotAll: bool, first: seq<Route>, second: seq<Route>, verb: Verb, url: string)
    ensures FirstMatch(dotAll, first + second, verb, url)
      == (if FirstMatch(dotAll, first, verb, url).Some? then FirstMatch(dotAll, first, verb, url)
          else FirstMatch(dotAll, second, verb, url))
  {
    if first == [] {
      assert first + second == second;
    } else {
      assert (first + second)[1..] == first[1..] + second;
      Layers(dotAll, first[1..], second, verb, url);
    }
  }

  // ---- Which reorderings are harmless ----

  predicate Conflict(a: Route, b: Route) {
    a.verb == b.verb && Overlaps(a.url, b.url)
  }

  lemma SharedUrlConflicts(dotAll: bool, a: Route, b: Route, verb: Verb, url: string)
    requires WellFormed(a.url) && WellFormed(b.url) && Matches(dotAll, a, verb, url) && Matches(dotAll, b, verb, url)
    ensures Conflict(a, b) && a.verb == b.verb == verb
  {
    SharedUrlOverlaps(dotAll, a.url, b.url, url);
  }

  /** If positions i < j of one list hold an overlapping pair, k and l of the other do not hold it swapped. */
  predicate NotSwapped(routes: seq<Route>, other: seq<Route>, i: int, j: int, k: int, l: int) {
    0 <= i < j < |routes| && 0 <= k < |other| && 0 <= l < |other|
    && routes[i] == other[k] && routes[j] == other[l] && Conflict(routes[i], routes[j])
    ==> k < l
  }

  /** Both lists hold the same routes, and overlapping same-verb pairs stand in the same order. */
  ghost predicate KeepsConflictOrder(routes: seq<Route>, other: seq<Route>) {
    && (forall r :: r in routes <==> r in other)
    && (forall i, j, k, l :: NotSwapped(routes, other, i, j, k, l))
  }

  /** Reordering without swapping an overlapping same-verb pair never changes what a URL resolves to. */
  lemma {:induction false} ReorderResolvesSame(dotAll: bool, routes: seq<Route>, other: seq<Route>, verb: Verb,
        url: string)
    requires forall r | r in routes :: WellFormed(r.url)
    requires KeepsConflictOrder(routes, other)
    ensures FirstMatch(dotAll, other, verb, url) == FirstMatch(dotAll, routes, verb, url)
  {
    if FirstMatch(dotAll, routes, verb, url).Some? {
      var i := FirstMatchAt(dotAll, routes, verb, url);
      assert routes[i] in other;
      var l := FirstMatchAt(dotAll, other, verb, url);
      assert other[l] in routes;
      var j :| 0 <= j < |routes| && routes[j] == other[l];
      var k :| 0 <= k < |other| && other[k] == routes[i];
      if routes[i] != routes[j] {
        SharedUrlConflicts(dotAll, routes[i], routes[j], verb, url);
        assert NotSwapped(routes, other, i, j, k, l);
      }
    }
  }

  /**
   The other way round: swapping two overlapping neighbours of a table changes
   what a URL resolves to, if nothing before them answers that URL.
   */
  lemma {:induction false} SwapChangesResult(dotAll: bool, before: seq<Route>, a: Route, b: Route, after: seq<Route>)
    requires WellFormed(a.url) && WellFormed(b.url) && a != b && Conflict(a, b)
    requires forall x | x in before :: !Matches(dotAll, x, a.verb, MeetUrl(a.url, b.url))
    ensures var url := MeetUrl(a.url, b.url);
      && FirstMatch(dotAll, before + [a, b] + after, a.verb, url) == Some(a)
      && FirstMatch(dotAll, before + [b, a] + after, a.verb, url) == Some(b)
  {
    var url := MeetUrl(a.url, b.url);
    MeetUrlMatches(dotAll, a.url, b.url);
    assert Matches(dotAll, a, a.verb, url) && Matches(dotAll, b, a.verb, url);
    Layers(dotAll, before + [a, b], after, a.verb, url);
    Layers(dotAll, before, [a, b], a.verb, url);
    Layers(dotAll, before + [b, a], after, a.verb, url);
    Layers(dotAll, before, [b, a], a.verb, url);
    hide Matches;
  }

  /** The first occurrence of one route stands before every occurrence of another. */
  ghost predicate Precedes(routes: seq<Route>, a: Route, b: Route) {
    exists i | 0 <= i < |routes| :: routes[i] == a && b !in routes[..i]
  }

  /** Then a URL that the first matches is not answered by the second. */
  lemma {:induction false} PrecedingWins(dotAll: bool, routes: seq<Route>, a: Route, b: Route, verb: Verb, url: string)
    requires a != b && Precedes(routes, a, b) && Matches(dotAll, a, verb, url)
    ensures FirstMatch(dotAll, routes, verb, url) != Some(b)
  {
    hide Matches;
    var i :| 0 <= i < |routes| && routes[i] == a && b !in routes[..i];
    assert a in routes;
    var k := FirstMatchAt(dotAll, routes, verb, url);
    assert k < i ==> routes[k] in routes[..i];
  }

  /** If not, the second answers every URL that only these two match. */
  lemma {:induction false} FollowingWins(dotAll: bool, routes: seq<Route>, a: Route, b: Route, verb: Verb, url: string)
    requires a in routes && b in routes && !Precedes(routes, a, b) && Matches(dotAll, b, verb, url)
    requires forall x | x in routes && Matches(dotAll, x, verb, url) :: x == a || x == b
    ensures FirstMatch(dotAll, routes, verb, url) == Some(b)
  {
    hide Matches;
    var k := FirstMatchAt(dotAll, routes, verb, url);
    assert b !in routes[..k];
  }

  // ---- Same-named routes replace each other ----

  /** What a route is registered under: its name and postfix. */
  function Key(r: Route): string {
    NameOf(r.id) + PostfixOf(r.id)
  }

  function Without(routes: seq<Route>, key: string): seq<Route> {
    if routes == [] then []
    else (if Key(routes[0]) == key then [] else [routes[0]]) + Without(routes[1..], key)
  }

  /** Adding to a name-keyed ordered collection drops an earlier entry of the same name. */
  function Add(routes: seq<Route>, r: Route): seq<Route> {
    Without(routes, Key(r)) + [r]
  }

  function Collect(routes: seq<Route>): seq<Route> {
    if routes == [] then [] else Add(Collect(routes[..|routes| - 1]), routes[|routes| - 1])
  }

  ghost predicate DistinctKeys(routes: seq<Route>) {
    forall i, j | 0 <= i < j < |routes| :: Key(routes[i]) != Key(routes[j])
  }

  lemma {:induction false} WithoutKeeps(routes: seq<Route>, key: string)
    ensures |Without(routes, key)| <= |routes|
    ensures (forall r | r in routes :: Key(r) != key) ==> Without(routes, key) == routes
    ensures (exists r | r in routes :: Key(r) == key) ==> |Without(routes, key)| < |routes|
    ensures forall r :: r in Without(routes, key) <==> r in routes && Key(r) != key
  {
    if routes != [] {
      WithoutKeeps(routes[1..], key);
      assert routes == [routes[0]] + routes[1..];
    }
  }

  lemma {:induction false} CollectShrinks(routes: seq<Route>)
    ensures |Collect(routes)| <= |routes|
  {
    if routes != [] {
      CollectShrinks(routes[..|routes| - 1]);
      WithoutKeeps(Collect(routes[..|routes| - 1]), Key(routes[|routes| - 1]));
    }
  }

  /** Collecting keeps every route in its place if and only if no two share a name. */
  lemma {:induction false} CollectIff(routes: seq<Route>)
    ensures Collect(routes) == routes <==> DistinctKeys(routes)
  {
    hide Key, Without;
    if routes == [] {
    } else {
      var init, last := routes[..|routes| - 1], routes[|routes| - 1];
      var before := Collect(init);
      CollectIff(init);
      CollectShrinks(init);
      WithoutKeeps(before, Key(last));
      if DistinctKeys(routes) {
        DistinctInit(routes);
        assert init + [last] == routes;
      }
    }
  }

  lemma DistinctInit(routes: seq<Route>)
    requires routes != [] && DistinctKeys(routes)
    ensures DistinctKeys(routes[..|routes| - 1])
    ensures forall r | r in routes[..|routes| - 1] :: Key(r) != Key(routes[|routes| - 1])
  {
  }
}
