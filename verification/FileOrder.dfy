/** Putting entries in the order they stand in appinfo/routes.php. */
module FileOrder {
  import opened Results
  import opened RoutePatterns
  import opened RouteResolution

  /** The shell block is merged first although it is written last. */
  predicate InShell(r: Route) {
    r.line >= 539
  }

  function Only(routes: seq<Route>, shell: bool): seq<Route> {
    if routes == [] then []
    else (if InShell(routes[0]) == shell then [routes[0]] else []) + Only(routes[1..], shell)
  }

  function Insert(r: Route, routes: seq<Route>): seq<Route> {
    if routes == [] || r.line <= routes[0].line then [r] + routes
    else [routes[0]] + Insert(r, routes[1..])
  }

  function ByLine(routes: seq<Route>): seq<Route> {
    if routes == [] then [] else Insert(routes[0], ByLine(routes[1..]))
  }

  ghost predicate InOrder(routes: seq<Route>) {
    forall i, j | 0 <= i < j < |routes| :: routes[i].line <= routes[j].line
  }

  lemma {:induction false} OnlyMembers(routes: seq<Route>, shell: bool)
    ensures forall r :: r in Only(routes, shell) <==> r in routes && InShell(r) == shell
  {
    if routes != [] {
      OnlyMembers(routes[1..], shell);
      assert routes == [routes[0]] + routes[1..];
    }
  }

  lemma {:induction false} InsertKeeps(r: Route, routes: seq<Route>)
    ensures multiset(Insert(r, routes)) == multiset{r} + multiset(routes)
  {
    if routes != [] && r.line > routes[0].line {
      InsertKeeps(r, routes[1..]);
      assert routes == [routes[0]] + routes[1..];
    }
  }

  lemma {:induction false} InsertInOrder(r: Route, routes: seq<Route>)
    requires InOrder(routes)
    ensures InOrder(Insert(r, routes))
    ensures var s := Insert(r, routes); |s| > 0 && (s[0] == r || (routes != [] && s[0] == routes[0]))
  {
    if routes != [] && r.line > routes[0].line {
      InsertInOrder(r, routes[1..]);
      var rest := Insert(r, routes[1..]);
      forall i, j | 0 <= i < j < |rest| + 1 ensures ([routes[0]] + rest)[i].line <= ([routes[0]] + rest)[j].line {
        assert rest[0].line <= rest[j - 1].line;
        assert routes[0].line <= rest[0].line;
      }
    }
  }

  /** Sorting keeps the entries, each as often as before, and puts them in order. */
  lemma {:induction false} ByLineSorts(routes: seq<Route>)
    ensures InOrder(ByLine(routes)) && multiset(ByLine(routes)) == multiset(routes)
  {
    if routes != [] {
      ByLineSorts(routes[1..]);
      InsertInOrder(routes[0], ByLine(routes[1..]));
      InsertKeeps(routes[0], ByLine(routes[1..]));
      assert routes == [routes[0]] + routes[1..];
    }
  }

  lemma {:induction false} ByLineMembers(routes: seq<Route>, r: Route)
    ensures r in ByLine(routes) <==> r in routes
  {
    ByLineSorts(routes);
    assert r in multiset(ByLine(routes)) <==> r in multiset(routes);
  }

  /** In a list in file order the first match stands on the smallest matching line. */
  lemma {:induction false} FirstMatchIsLeast(dotAll: bool, routes: seq<Route>, verb: Verb, url: string, r: Route)
    requires InOrder(routes) && r in routes && Matches(dotAll, r, verb, url)
    ensures FirstMatch(dotAll, routes, verb, url).Some?
    ensures FirstMatch(dotAll, routes, verb, url).value.line <= r.line
  {
    var i := FirstMatchAt(dotAll, routes, verb, url);
    var j :| 0 <= j < |routes| && routes[j] == r;
    assert j >= i;
  }

  // ---- Keys stay apart ----

  lemma DistinctCons(r: Route, routes: seq<Route>)
    ensures DistinctKeys([r] + routes) <==> DistinctKeys(routes) && forall x | x in routes :: Key(x) != Key(r)
  {
    hide Key;
    var all := [r] + routes;
    assert forall k | 0 <= k < |routes| :: all[k + 1] == routes[k];
    if DistinctKeys(all) {
      forall x | x in routes ensures Key(x) != Key(r) {
        var k :| 0 <= k < |routes| && routes[k] == x;
        assert all[0] == r && all[k + 1] == x;
      }
    }
  }

  lemma {:induction false} OnlyDistinct(routes: seq<Route>, shell: bool)
    requires DistinctKeys(routes)
    ensures DistinctKeys(Only(routes, shell))
  {
    hide Key, DistinctKeys;
    if routes != [] {
      assert routes == [routes[0]] + routes[1..];
      DistinctCons(routes[0], routes[1..]);
      OnlyDistinct(routes[1..], shell);
      OnlyMembers(routes[1..], shell);
      DistinctCons(routes[0], Only(routes[1..], shell));
      assert [] + Only(routes[1..], shell) == Only(routes[1..], shell);
    } else {
      assert routes == [];
    }
  }

  lemma {:induction false} InsertDistinct(r: Route, routes: seq<Route>)
    requires DistinctKeys([r] + routes)
    ensures DistinctKeys(Insert(r, routes))
  {
    hide Key, DistinctKeys;
    if routes != [] && r.line > routes[0].line {
      var head, tail := routes[0], routes[1..];
      assert routes == [head] + tail;
      DistinctCons(r, routes);
      DistinctCons(head, tail);
      DistinctCons(r, tail);
      InsertDistinct(r, tail);
      InsertKeeps(r, tail);
      forall x | x in Insert(r, tail) ensures Key(x) != Key(head) {
        assert x in multiset(Insert(r, tail));
      }
      DistinctCons(head, Insert(r, tail));
    }
  }

  lemma {:induction false} ByLineDistinct(routes: seq<Route>)
    requires DistinctKeys(routes)
    ensures DistinctKeys(ByLine(routes))
  {
    hide Key, DistinctKeys;
    if routes != [] {
      assert routes == [routes[0]] + routes[1..];
      DistinctCons(routes[0], routes[1..]);
      ByLineDistinct(routes[1..]);
      forall x | x in ByLine(routes[1..]) ensures Key(x) != Key(routes[0]) {
        ByLineMembers(routes[1..], x);
      }
      DistinctCons(routes[0], ByLine(routes[1..]));
      InsertDistinct(routes[0], ByLine(routes[1..]));
    } else {
      assert routes == [];
    }
  }

  lemma DistinctJoin(a: seq<Route>, b: seq<Route>)
    requires DistinctKeys(a) && DistinctKeys(b) && forall x, y | x in a && y in b :: Key(x) != Key(y)
    ensures DistinctKeys(a + b)
  {
    hide Key;
  }

  lemma DistinctMembers(routes: seq<Route>, x: Route, y: Route)
    requires DistinctKeys(routes) && x in routes && y in routes && x != y
    ensures Key(x) != Key(y)
  {
    hide Key;
  }

  /** Merging the entries by layers, each in the order of the file, keeps their keys apart. */
  lemma {:induction false} MergedDistinct(entries: seq<Route>, last: Route)
    requires DistinctKeys(entries + [last])
    ensures DistinctKeys(ByLine(Only(entries, true)) + ByLine(Only(entries, false)) + [last])
  {
    hide Key, ByLine, Only;
    assert DistinctKeys(entries) && forall x | x in entries :: Key(x) != Key(last) by {
      assert forall k | 0 <= k < |entries| :: entries[k] == (entries + [last])[k];
      assert (entries + [last])[|entries|] == last;
    }
    var shell, extra := ByLine(Only(entries, true)), ByLine(Only(entries, false));
    OnlyDistinct(entries, true);
    OnlyDistinct(entries, false);
    ByLineDistinct(Only(entries, true));
    ByLineDistinct(Only(entries, false));
    OnlyMembers(entries, true);
    OnlyMembers(entries, false);
    forall x ensures (x in shell <==> x in entries && InShell(x)) && (x in extra <==> x in entries && !InShell(x)) {
      ByLineMembers(Only(entries, true), x);
      ByLineMembers(Only(entries, false), x);
    }
    forall x, y | x in shell && y in extra ensures Key(x) != Key(y) {
      DistinctMembers(entries, x, y);
    }
    DistinctJoin(shell, extra);
    DistinctJoin(shell + extra, [last]);
  }
}
