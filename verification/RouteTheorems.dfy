/**
 How the merged table resolves, for every verb and every URL. The reasoning is
 about any table of the right shape; `TableHasShape` shows that the table of the
 file has it, and the theorems about `Table` follow.
 */
module RouteTheorems {
  import opened Results
  import opened Text
  import opened FileOrder
  import opened RoutePatterns
  import opened RouteOverlap
  import opened RouteResolution
  import opened RouteRows
  import opened RouteFacts
  import opened RouteKeys
  import opened RouteTable

  /** A conflict between two rows that is one of the four pairs. */
  ghost predicate OnlySiblings(a: Row, b: Row) {
    a != b && Conflict(ToRoute(a), ToRoute(b)) ==>
      LiteralSibling(ToRoute(a), ToRoute(b)) || LiteralSibling(ToRoute(b), ToRoute(a))
  }

  predicate IsEntry(rows: seq<Row>, r: Route) {
    r in PAGES || r in Routes(rows)
  }

  ghost predicate HasShape(rows: seq<Row>, shell: seq<Route>, extra: seq<Route>) {
    && (forall r :: r in shell <==> IsEntry(rows, r) && InShell(r))
    && (forall r :: r in extra <==> IsEntry(rows, r) && !InShell(r))
    && InOrder(extra)
    && (forall a, b | a in rows && b in rows :: OnlySiblings(a, b))
  }

  function Merge(shell: seq<Route>, extra: seq<Route>): seq<Route> {
    shell + extra + [CATCH_ALL]
  }

  lemma EntryShape(rows: seq<Row>, r: Route)
    requires IsEntry(rows, r) || r == CATCH_ALL
    ensures WellFormed(r.url)
    ensures r !in PAGES && r != CATCH_ALL ==> |r.url.segs| >= 1 && r.url.segs[0] == Lit("api")
  {
    if r in Routes(rows) {
      hide WellFormed;
      var row :| row in rows && ToRoute(row) == r;
      RowWellFormed(row);
    } else {
      hide Routes;
      PageWellFormed(r);
    }
  }

  lemma PageWellFormed(r: Route)
    requires r in PAGES || r == CATCH_ALL
    ensures WellFormed(r.url)
  {
    hide WellFormed;
    if r == SHELL_CATCH_ALL || r == CATCH_ALL {
      TailPagesWellFormed();
    } else {
      OneSegmentPages();
    }
  }

  lemma TailPagesWellFormed()
    ensures WellFormed(SHELL_CATCH_ALL.url) && WellFormed(CATCH_ALL.url)
  {
  }

  lemma OneSegmentPages()
    ensures WellFormed(SHELL_PAGE.url) && WellFormed(HOME_PAGE.url)
    ensures WellFormed(SERVICE_WORKER.url) && WellFormed(WEB_MANIFEST.url)
  {
    hide WellFormed;
    LiteralWellFormed("public");
    LiteralWellFormed("");
    ServiceWorkerWellFormed();
    WebManifestWellFormed();
  }

  lemma ServiceWorkerWellFormed()
    ensures WellFormed(SERVICE_WORKER.url)
  {
    hide WellFormed;
    LiteralWellFormed("serviceworker.js");
  }

  lemma WebManifestWellFormed()
    ensures WellFormed(WEB_MANIFEST.url)
  {
    hide WellFormed;
    LiteralWellFormed("manifest.webmanifest");
  }

  lemma LiteralWellFormed(text: string)
    requires forall k | 0 <= k < |text| :: text[k] != '/' && text[k] != '\n'
    ensures WellFormed(Template([Lit(text)], NoTail))
  {
  }

  lemma {:induction false} EntryConflicts(rows: seq<Row>, a: Route, b: Route)
    requires a in Routes(rows) && b in Routes(rows) && a != b && Conflict(a, b)
    requires forall x, y | x in rows && y in rows :: OnlySiblings(x, y)
    ensures LiteralSibling(a, b) || LiteralSibling(b, a)
  {
    var x :| x in rows && ToRoute(x) == a;
    var y :| y in rows && ToRoute(y) == b;
    assert OnlySiblings(x, y);
  }

  /** Where the first match of three layers may stand. */
  lemma {:induction false} LayerOf(dotAll: bool, shell: seq<Route>, extra: seq<Route>, verb: Verb, url: string)
    requires FirstMatch(dotAll, Merge(shell, extra), verb, url).Some?
    ensures var q := FirstMatch(dotAll, Merge(shell, extra), verb, url).value;
      || (q in shell && FirstMatch(dotAll, shell, verb, url) == Some(q))
      || (q in extra && FirstMatch(dotAll, extra, verb, url) == Some(q))
      || (q == CATCH_ALL && forall x | x in shell + extra :: !Matches(dotAll, x, verb, url))
  {
    Layers(dotAll, shell + extra, [CATCH_ALL], verb, url);
    Layers(dotAll, shell, extra, verb, url);
    if FirstMatch(dotAll, shell, verb, url).Some? {
      var i := FirstMatchAt(dotAll, shell, verb, url);
    } else if FirstMatch(dotAll, extra, verb, url).Some? {
      var i := FirstMatchAt(dotAll, extra, verb, url);
    }
  }

  /** The first match is a member of the table that overlaps any other matching member. */
  lemma First(dotAll: bool, rows: seq<Row>, shell: seq<Route>, extra: seq<Route>, r: Route, verb: Verb, url: string)
      returns (q: Route)
    requires HasShape(rows, shell, extra)
    requires IsEntry(rows, r) && Matches(dotAll, r, verb, url)
    ensures FirstMatch(dotAll, Merge(shell, extra), verb, url) == Some(q)
    ensures IsEntry(rows, q) && Matches(dotAll, q, verb, url) && Conflict(q, r)
    ensures !InShell(q) ==> FirstMatch(dotAll, extra, verb, url) == Some(q)
  {
    var table := Merge(shell, extra);
    assert r in shell + extra;
    assert r in table;
    var i := FirstMatchAt(dotAll, table, verb, url);
    q := table[i];
    LayerOf(dotAll, shell, extra, verb, url);
    EntryShape(rows, q);
    EntryShape(rows, r);
    SharedUrlOverlaps(dotAll, q.url, r.url, url);
  }

  // ---- Under /api/ ----

  /**
   A URL that an entry under /api/ matches resolves to that entry, unless the
   entry is one of the placeholder siblings and the URL also matches its literal
   sibling; then it resolves to the literal.
   */
  lemma ResolveApi(dotAll: bool, rows: seq<Row>, shell: seq<Route>, extra: seq<Route>, r: Route, url: string)
      returns (q: Route)
    requires HasShape(rows, shell, extra)
    requires r in Routes(rows) && Matches(dotAll, r, r.verb, url)
    ensures FirstMatch(dotAll, Merge(shell, extra), r.verb, url) == Some(q)
    ensures Matches(dotAll, q, r.verb, url) && (q == r || LiteralSibling(q, r))
  {
    q := First(dotAll, rows, shell, extra, r, r.verb, url);
    EntryShape(rows, r);
    if q in PAGES {
      PageApart(dotAll, q, r, r.verb, url);
    } else if q != r {
      EntryConflicts(rows, q, r);
      if !LiteralSibling(q, r) {
        FirstMatchIsLeast(dotAll, extra, r.verb, url, r);
      }
    }
  }

  lemma PageApart(dotAll: bool, page: Route, r: Route, verb: Verb, url: string)
    requires page in PAGES && |r.url.segs| >= 1 && r.url.segs[0] == Lit("api")
    ensures !(Matches(dotAll, page, verb, url) && Matches(dotAll, r, verb, url))
  {
    if Matches(dotAll, page, verb, url) {
      assert SegAccepts(page.url.segs[0], Parts(url)[0]);
      assert !SegAccepts(r.url.segs[0], Parts(url)[0]);
    }
  }

  /** A URL that both entries of a sibling pair match ends in the literal. */
  lemma SiblingSeparates(dotAll: bool, a: Route, b: Route, verb: Verb, url: string)
    requires LiteralSibling(a, b) && HasPrefix(url, "/") && |Parts(url)| >= 4 && Parts(url)[3] == "0"
    ensures !Matches(dotAll, a, verb, url)
  {
    assert !SegAccepts(a.url.segs[3], Parts(url)[3]);
  }

  lemma {:induction false} SelfOverlap(p: seq<Seg>, s: Tail)
    ensures OverlapFrom(p, s, p, s)
    ensures |Meet(p, s, p, s)| >= |p| && forall k | 0 <= k < |p| :: Meet(p, s, p, s)[k] == Common(p[k], p[k])
  {
    if p != [] {
      SelfOverlap(p[1..], s);
    }
  }

  /** No entry under /api/ is shadowed: for each there is a URL that resolves to it. */
  lemma {:induction false} ApiReachable(dotAll: bool, rows: seq<Row>, shell: seq<Route>, extra: seq<Route>, r: Route)
    requires HasShape(rows, shell, extra) && r in Routes(rows)
    ensures FirstMatch(dotAll, Merge(shell, extra), r.verb, MeetUrl(r.url, r.url)) == Some(r)
  {
    EntryShape(rows, r);
    SelfOverlap(r.url.segs, r.url.tail);
    MeetUrlMatches(dotAll, r.url, r.url);
    var url := MeetUrl(r.url, r.url);
    var q := ResolveApi(dotAll, rows, shell, extra, r, url);
    if q != r {
      var parts := Meet(r.url.segs, r.url.tail, r.url.segs, r.url.tail);
      MeetAccepted(dotAll, r.url.segs, r.url.tail, r.url.segs, r.url.tail);
      PartsOfJoin(parts);
      assert parts[3] == Common(r.url.segs[3], r.url.segs[3]);
      SiblingSeparates(dotAll, q, r, r.verb, url);
    }
  }

  // ---- Outside /api/ ----

  /** The page that serves a path outside api/, as the comments of the file promise. */
  function PageFor(rest: string): Route {
    if rest == "" then HOME_PAGE
    else if rest == "public" then SHELL_PAGE
    else if HasPrefix(rest, "public/") && rest != "public/" then SHELL_CATCH_ALL
    else if rest == "serviceworker.js" then SERVICE_WORKER
    else if rest == "manifest.webmanifest" then WEB_MANIFEST
    else CATCH_ALL
  }

  lemma {:induction false} PrefixParts(rest: string, word: string)
    requires '/' !in word
    ensures Parts("/" + rest) == Split(rest, '/') && Join(Split(rest, '/'), '/') == rest
    ensures HasPrefix(rest, word + "/") <==> |Parts("/" + rest)| >= 2 && Parts("/" + rest)[0] == word
    ensures Parts("/" + rest) == [word] <==> rest == word
  {
    assert ("/" + rest)[1..] == rest;
    JoinSplit(rest, '/');
    JoinPrefix(Split(rest, '/'), word);
    SplitWhole(word, '/');
  }

  /** The fallback never matches under api/, and matches every other GET. */
  lemma FallbackMatches(dotAll: bool, rest: string, verb: Verb)
    ensures Matches(dotAll, CATCH_ALL, verb, "/" + rest)
      <==> verb == GET && !HasPrefix(rest, "api/") && Dots(dotAll, rest)
  {
    PrefixParts(rest, "api");
    assert Parts("/" + rest)[0..] == Parts("/" + rest);
    assert "api" + "/" == "api/";
  }

  /** A one-segment literal page matches its own path and nothing else. */
  lemma LiteralPage(dotAll: bool, page: Route, verb: Verb, rest: string)
    requires page.verb == GET && |page.url.segs| == 1 && page.url.segs[0].Lit? && page.url.tail.NoTail?
    requires '/' !in page.url.segs[0].text
    ensures Matches(dotAll, page, verb, "/" + rest) <==> verb == GET && rest == page.url.segs[0].text
  {
    PrefixParts(rest, page.url.segs[0].text);
  }

  /** What follows public/ is the tail of the path. */
  lemma {:induction false} PublicParts(rest: string)
    ensures HasPrefix(rest, "public/") <==> |Parts("/" + rest)| >= 2 && Parts("/" + rest)[0] == "public"
    ensures HasPrefix(rest, "public/") ==>
      var tail := Join(Parts("/" + rest)[1..], '/');
      rest == "public/" + tail && ('\n' in rest <==> '\n' in tail)
  {
    hide Split;
    var parts := Parts("/" + rest);
    PrefixParts(rest, "public");
    assert "public" + "/" == "public/";
    if HasPrefix(rest, "public/") {
      assert Join(parts, '/') == "public" + "/" + Join(parts[1..], '/');
      assert '\n' !in "public/";
    }
  }

  /** The anonymous shell's catch-all matches every nonempty path below public/. */
  lemma ShellCatchAllMatches(dotAll: bool, verb: Verb, rest: string)
    requires Dots(dotAll, rest)
    ensures Matches(dotAll, SHELL_CATCH_ALL, verb, "/" + rest)
       <==> verb == GET && HasPrefix(rest, "public/") && rest != "public/"
  {
    PublicParts(rest);
    hide Parts, Join;
  }

  /** Which page a path has, by the page's own template. */
  lemma PageForIff(page: Route, rest: string)
    requires page in PAGES
    ensures page == PageFor(rest) <==>
      if page == SHELL_CATCH_ALL then HasPrefix(rest, "public/") && rest != "public/"
      else page.url.segs == [Lit(rest)]
  {
    if HasPrefix(rest, "public/") {
      assert rest[0] == 'p' && rest[6] == '/';
    }
  }

  lemma LiteralPages(page: Route)
    requires page in PAGES && page != SHELL_CATCH_ALL
    ensures page.verb == GET && page.url.tail.NoTail? && |page.url.segs| == 1 && page.url.segs[0].Lit?
    ensures '/' !in page.url.segs[0].text
  {
    OneSegmentPages();
  }

  lemma PageMatches(dotAll: bool, page: Route, verb: Verb, rest: string)
    requires page in PAGES && Dots(dotAll, rest)
    ensures Matches(dotAll, page, verb, "/" + rest) <==> verb == GET && page == PageFor(rest)
  {
    PageForIff(page, rest);
    if page == SHELL_CATCH_ALL {
      ShellCatchAllMatches(dotAll, verb, rest);
      hide *;
    } else {
      LiteralPages(page);
      hide PageFor, Matches, HasPrefix, Dots;
      LiteralPage(dotAll, page, verb, rest);
      assert page.url.segs == [Lit(rest)] <==> rest == page.url.segs[0].text;
    }
  }

  lemma ApiEntryOutside(dotAll: bool, r: Route, verb: Verb, rest: string)
    requires |r.url.segs| >= 1 && r.url.segs[0] == Lit("api") && !HasPrefix(rest, "api/")
    requires |r.url.segs| >= 2 || !r.url.tail.NoTail?
    ensures !Matches(dotAll, r, verb, "/" + rest)
  {
    PrefixParts(rest, "api");
    assert "api" + "/" == "api/";
    assert |Parts("/" + rest)| >= 2 ==> !SegAccepts(r.url.segs[0], Parts("/" + rest)[0]);
  }

  /** Outside api/ every GET is answered by exactly the page named, and nothing else is answered at all. */
  lemma {:induction false} ResolveOutside(dotAll: bool, rows: seq<Row>, shell: seq<Route>, extra: seq<Route>,
      verb: Verb, rest: string)
    requires HasShape(rows, shell, extra) && !HasPrefix(rest, "api/") && Dots(dotAll, rest)
    requires forall row | row in rows :: !row.path.End?
    ensures FirstMatch(dotAll, Merge(shell, extra), verb, "/" + rest)
         == if verb == GET then Some(PageFor(rest)) else None
  {
    var url, table := "/" + rest, Merge(shell, extra);
    FallbackMatches(dotAll, rest, verb);
    hide Matches;
    forall x | x in shell + extra
      ensures Matches(dotAll, x, verb, url) <==> x in PAGES && verb == GET && x == PageFor(rest)
    {
      LayerMatches(dotAll, rows, x, verb, rest);
    }
    PageForMember(rest);
    hide PageFor;
    if verb == GET {
      assert PageFor(rest) in table;
      var i := FirstMatchAt(dotAll, table, verb, url);
      assert table[i] in shell + extra || table[i] == CATCH_ALL;
      LayerOf(dotAll, shell, extra, verb, url);
    }
  }

  lemma PageForMember(rest: string)
    ensures PageFor(rest) in PAGES || PageFor(rest) == CATCH_ALL
  {
  }

  lemma LayerMatches(dotAll: bool, rows: seq<Row>, x: Route, verb: Verb, rest: string)
    requires IsEntry(rows, x) && !HasPrefix(rest, "api/") && Dots(dotAll, rest)
    requires forall row | row in rows :: !row.path.End?
    ensures Matches(dotAll, x, verb, "/" + rest) <==> x in PAGES && verb == GET && x == PageFor(rest)
  {
    if x in PAGES {
      PageMatches(dotAll, x, verb, rest);
    } else {
      var row :| row in rows && ToRoute(row) == x;
      ApiEntryOutside(dotAll, x, verb, rest);
    }
  }

  /** No page answers under api/. */
  lemma PageOutside(dotAll: bool, page: Route, verb: Verb, rest: string)
    requires (page in PAGES || page == CATCH_ALL) && HasPrefix(rest, "api/")
    ensures !Matches(dotAll, page, verb, "/" + rest)
  {
    if page == CATCH_ALL {
      FallbackMatches(dotAll, rest, verb);
    } else {
      PrefixParts(rest, "api");
      assert "api" + "/" == "api/";
      assert !SegAccepts(page.url.segs[0], Parts("/" + rest)[0]);
    }
  }

  lemma {:induction false} ResolveUnder(dotAll: bool, rows: seq<Row>, shell: seq<Route>, extra: seq<Route>,
        verb: Verb, rest: string)
    requires HasShape(rows, shell, extra) && HasPrefix(rest, "api/")
    ensures match FirstMatch(dotAll, Merge(shell, extra), verb, "/" + rest)
      case None => forall r | r in Routes(rows) :: !Matches(dotAll, r, verb, "/" + rest)
      case Some(q) => q in Routes(rows) && Matches(dotAll, q, verb, "/" + rest)
  {
    var url, table := "/" + rest, Merge(shell, extra);
    assert forall r | r in Routes(rows) :: IsEntry(rows, r) && r in shell + extra && r in table;
    if FirstMatch(dotAll, table, verb, url).Some? {
      var i := FirstMatchAt(dotAll, table, verb, url);
      assert table[i] == CATCH_ALL || IsEntry(rows, table[i]);
      if table[i] in PAGES || table[i] == CATCH_ALL {
        PageOutside(dotAll, table[i], verb, rest);
      }
    }
  }

  // ---- The table of the file ----

  /** For any rows, putting their two blocks in file order gives the right members. */
  lemma {:induction false} Arranged(rows: seq<Row>)
    ensures var entries := PAGES + Routes(rows);
      && (forall r :: r in ByLine(Only(entries, true)) <==> IsEntry(rows, r) && InShell(r))
      && (forall r :: r in ByLine(Only(entries, false)) <==> IsEntry(rows, r) && !InShell(r))
      && InOrder(ByLine(Only(entries, false)))
  {
    var entries := PAGES + Routes(rows);
    OnlyMembers(entries, true);
    OnlyMembers(entries, false);
    ByLineSorts(Only(entries, false));
    forall r ensures r in ByLine(Only(entries, true)) <==> IsEntry(rows, r) && InShell(r) {
      ByLineMembers(Only(entries, true), r);
    }
    forall r ensures r in ByLine(Only(entries, false)) <==> IsEntry(rows, r) && !InShell(r) {
      ByLineMembers(Only(entries, false), r);
    }
  }

  lemma RowsConflict()
    ensures forall a, b | a in Rows() && b in Rows() :: OnlySiblings(a, b)
  {
    hide Conflict, LiteralSibling, ToRoute, Listing, Wildcards;
    forall a, b | a in Rows() && b in Rows() ensures OnlySiblings(a, b) {
      if a != b && Conflict(ToRoute(a), ToRoute(b)) {
        RowConflicts(a, b);
      }
    }
  }

  /** The table is the merge of its layers, which hold exactly the entries, the domain routes in file order. */
  lemma TableHasShape()
    ensures HasShape(Rows(), Shell(), Extra()) && Table() == Merge(Shell(), Extra())
  {
    hide Rows, Routes, ByLine, Only, OnlySiblings;
    Arranged(Rows());
    RowsConflict();
  }

  lemma RowsFit()
    ensures forall row | row in Rows() :: !row.path.End?
  {
    hide Listing, Wildcards;
    ListingFits(false);
    ListingFits(true);
    WildcardsListed();
    forall row | row in Rows() ensures !row.path.End? {
      assert Fitting(row);
    }
  }

  /** Under api/ the only overlapping entries are four pairs of a literal and its placeholder sibling. */
  lemma TableOverlaps(a: Route, b: Route)
    requires a in Routes(Rows()) && b in Routes(Rows()) && a != b && Conflict(a, b)
    ensures LiteralSibling(a, b) || LiteralSibling(b, a)
  {
    hide Rows, Conflict, LiteralSibling;
    RowsConflict();
    EntryConflicts(Rows(), a, b);
  }

  /**
   A URL that an entry under api/ matches resolves to that entry; only where the
   entry is a placeholder whose literal sibling matches too does it resolve to
   the literal.
   */
  lemma TableResolvesApi(dotAll: bool, r: Route, url: string) returns (q: Route)
    requires r in Routes(Rows()) && Matches(dotAll, r, r.verb, url)
    ensures FirstMatch(dotAll, Table(), r.verb, url) == Some(q)
    ensures Matches(dotAll, q, r.verb, url) && (q == r || LiteralSibling(q, r))
  {
    hide Table, Shell, Extra, Rows, FirstMatch, Matches, LiteralSibling;
    TableHasShape();
    q := ResolveApi(dotAll, Rows(), Shell(), Extra(), r, url);
  }

  /** A path outside api/ is answered by exactly the page named for GET, and by nothing for other verbs. */
  lemma {:induction false} TableResolvesOutside(dotAll: bool, verb: Verb, rest: string)
    requires !HasPrefix(rest, "api/") && Dots(dotAll, rest)
    ensures FirstMatch(dotAll, Table(), verb, "/" + rest) == if verb == GET then Some(PageFor(rest)) else None
  {
    hide Table, Shell, Extra, Rows, FirstMatch, Matches, PageFor, HasPrefix;
    TableHasShape();
    RowsFit();
    ResolveOutside(dotAll, Rows(), Shell(), Extra(), verb, rest);
  }

  /** A path under api/ is answered by an entry under api/ if one matches, and by nothing otherwise. */
  lemma {:induction false} TableResolvesUnder(dotAll: bool, verb: Verb, rest: string)
    requires HasPrefix(rest, "api/")
    ensures match FirstMatch(dotAll, Table(), verb, "/" + rest)
      case None => forall r | r in Routes(Rows()) :: !Matches(dotAll, r, verb, "/" + rest)
      case Some(q) => q in Routes(Rows()) && Matches(dotAll, q, verb, "/" + rest)
  {
    hide Table, Shell, Extra, Rows, FirstMatch, Matches, HasPrefix;
    TableHasShape();
    ResolveUnder(dotAll, Rows(), Shell(), Extra(), verb, rest);
  }

  /** Every nonempty path below /public/ reaches the anonymous shell. */
  lemma {:induction false} TablePublic(dotAll: bool, rest: string)
    requires rest != "" && Dots(dotAll, rest)
    ensures FirstMatch(dotAll, Table(), GET, "/public/" + rest) == Some(SHELL_CATCH_ALL)
  {
    hide Table, Shell, Extra, Rows, FirstMatch, Matches, Dots, HasPrefix, PageFor;
    PublicPage(dotAll, rest);
    TableResolvesOutside(dotAll, GET, "public/" + rest);
  }

  /** /public/ itself is not below it: the request falls through to the fallback. */
  lemma {:induction false} PublicItselfFallsThrough(dotAll: bool)
    ensures FirstMatch(dotAll, Table(), GET, "/public/") == Some(CATCH_ALL)
  {
    hide Table, Shell, Extra, Rows, FirstMatch, Matches, PageFor, HasPrefix;
    PublicItself();
    TableResolvesOutside(dotAll, GET, "public/");
  }

  lemma PublicItself()
    ensures PageFor("public/") == CATCH_ALL && !HasPrefix("public/", "api/") && '\n' !in "public/"
    ensures "/" + "public/" == "/public/"
  {
    assert "public/"[0] != 'a';
  }

  lemma PublicPage(dotAll: bool, rest: string)
    requires rest != "" && Dots(dotAll, rest)
    ensures var path := "public/" + rest;
      && PageFor(path) == SHELL_CATCH_ALL && !HasPrefix(path, "api/") && Dots(dotAll, path)
      && "/public/" + rest == "/" + path
  {
    var path := "public/" + rest;
    assert path[..7] == "public/" && path[0] != 'a';
    assert "/public/" + rest == "/" + path;
  }

  /** A path that only the given page answers. */
  function PathOf(page: Route): string {
    if page == HOME_PAGE then "" else if page == SHELL_PAGE then "public"
    else if page == SHELL_CATCH_ALL then "public/0" else if page == SERVICE_WORKER then "serviceworker.js"
    else if page == WEB_MANIFEST then "manifest.webmanifest" else "0"
  }

  lemma PathOfPage(dotAll: bool, page: Route)
    requires page in PAGES || page == CATCH_ALL
    ensures PageFor(PathOf(page)) == page && !HasPrefix(PathOf(page), "api/") && Dots(dotAll, PathOf(page))
  {
    var path := PathOf(page);
    assert path == "" || path[0] != "api/"[0];
    if page == SHELL_CATCH_ALL {
      assert path[..7] == "public/";
    } else {
      assert |path| < 7 || path[6] != "public/"[6];
    }
  }

  /** No entry under api/ is shadowed: the URL built from its own template resolves to it. */
  lemma {:induction false} TableReachesApi(dotAll: bool, r: Route)
    requires r in Routes(Rows())
    ensures FirstMatch(dotAll, Table(), r.verb, MeetUrl(r.url, r.url)) == Some(r)
  {
    hide Table, Shell, Extra, Rows, FirstMatch, Matches;
    TableHasShape();
    ApiReachable(dotAll, Rows(), Shell(), Extra(), r);
  }

  /** Nor is any page, nor the fallback. */
  lemma {:induction false} TableReachesPage(dotAll: bool, r: Route)
    requires r in PAGES || r == CATCH_ALL
    ensures FirstMatch(dotAll, Table(), GET, "/" + PathOf(r)) == Some(r)
  {
    hide Table, Shell, Extra, Rows, FirstMatch, Matches, Dots, HasPrefix, PageFor, PathOf;
    PathOfPage(dotAll, r);
    TableResolvesOutside(dotAll, GET, PathOf(r));
  }

  // ---- Which orders of the table are right ----

  /** A literal and its placeholder sibling, or a page and the fallback, which share URLs. */
  predicate MustPrecede(a: Route, b: Route) {
    (LiteralSibling(a, b) && Conflict(a, b)) || (a in PAGES && b == CATCH_ALL)
  }

  /**
   A list with the members of the table, in whatever order and however often,
   resolves every request as the table does exactly when it keeps each literal
   before its placeholder sibling and each page before the fallback.
   */
  lemma {:induction false} TableOrderIff(dotAll: bool, other: seq<Route>)
    requires forall r :: r in other <==> r in Table()
    ensures
      (forall verb, url :: FirstMatch(dotAll, other, verb, url) == FirstMatch(dotAll, Table(), verb, url))
      <==> forall a, b | a in other && b in other && MustPrecede(a, b) :: Precedes(other, a, b)
  {
    hide Table, FirstMatch, Precedes, MustPrecede;
    if forall a, b | a in other && b in other && MustPrecede(a, b) :: Precedes(other, a, b) {
      forall verb, url ensures FirstMatch(dotAll, other, verb, url) == FirstMatch(dotAll, Table(), verb, url) {
        OrderSuffices(dotAll, other, verb, url);
      }
    } else {
      var a, b :| a in other && b in other && MustPrecede(a, b) && !Precedes(other, a, b);
      var url := OrderNeeded(dotAll, other, a, b);
    }
  }

  lemma {:induction false} TableMembers(r: Route)
    ensures r in Table() <==> r in Routes(Rows()) || r in PAGES || r == CATCH_ALL
  {
    hide Rows, Routes, ByLine, Only, OnlySiblings;
    TableHasShape();
  }

  lemma PageShape(page: Route)
    requires page in PAGES
    ensures page.verb == GET && |page.url.segs| == 1
  {
  }

  /** Where a dot of a requirement matches no newline, nothing outside api/ matches a path with a newline. */
  lemma NewlineUnmatched(dotAll: bool, r: Route, verb: Verb, rest: string)
    requires (r in PAGES || r == CATCH_ALL) && !HasPrefix(rest, "api/") && !Dots(dotAll, rest)
    ensures !Matches(dotAll, r, verb, "/" + rest)
  {
    if r == CATCH_ALL {
      FallbackMatches(dotAll, rest, verb);
    } else if r == SHELL_CATCH_ALL {
      NewlineBelowPublic(dotAll, verb, rest);
    } else {
      LiteralPages(r);
      PageWellFormed(r);
      LiteralPage(dotAll, r, verb, rest);
      hide Matches;
      assert r.url.segs[0] == Lit(r.url.segs[0].text);
    }
  }

  lemma NewlineBelowPublic(dotAll: bool, verb: Verb, rest: string)
    requires !Dots(dotAll, rest)
    ensures !Matches(dotAll, SHELL_CATCH_ALL, verb, "/" + rest)
  {
    PublicParts(rest);
    hide Parts, Join;
  }

  /** Two entries that a URL matches: the one the table prefers must precede the other. */
  lemma {:induction false} PreferredPrecedes(dotAll: bool, q: Route, p: Route, verb: Verb, url: string)
    requires FirstMatch(dotAll, Table(), verb, url) == Some(q)
    requires p in Table() && p != q && Matches(dotAll, p, verb, url)
    ensures q in Table() && MustPrecede(q, p)
  {
    hide *;
    var rest := AfterSlash(dotAll, p, verb, url);
    FirstBelongs(dotAll, q, verb, url);
    if HasPrefix(rest, "api/") {
      PreferredUnder(dotAll, q, p, verb, rest);
    } else {
      PreferredOutside(dotAll, q, p, verb, rest);
    }
  }

  lemma AfterSlash(dotAll: bool, r: Route, verb: Verb, url: string) returns (rest: string)
    requires Matches(dotAll, r, verb, url)
    ensures url == "/" + rest
  {
    rest := url[1..];
  }

  lemma {:induction false} FirstBelongs(dotAll: bool, q: Route, verb: Verb, url: string)
    requires FirstMatch(dotAll, Table(), verb, url) == Some(q)
    ensures q in Table() && Matches(dotAll, q, verb, url)
  {
    hide Table, FirstMatch, Matches;
    var i := FirstMatchAt(dotAll, Table(), verb, url);
  }

  lemma {:induction false} PreferredUnder(dotAll: bool, q: Route, p: Route, verb: Verb, rest: string)
    requires HasPrefix(rest, "api/") && FirstMatch(dotAll, Table(), verb, "/" + rest) == Some(q)
    requires p in Table() && q in Table() && p != q
    requires Matches(dotAll, p, verb, "/" + rest) && Matches(dotAll, q, verb, "/" + rest)
    ensures MustPrecede(q, p)
  {
    hide Table, Rows, Routes, FirstMatch, HasPrefix, LiteralSibling, WellFormed, Matches, Conflict;
    TableMembers(p);
    TableMembers(q);
    EntryShape(Rows(), p);
    EntryShape(Rows(), q);
    SharedUrlConflicts(dotAll, q, p, verb, "/" + rest);
    if p in Routes(Rows()) {
      var first := TableResolvesApi(dotAll, p, "/" + rest);
    } else {
      PageOutside(dotAll, p, verb, rest);
    }
  }

  lemma {:induction false} PreferredOutside(dotAll: bool, q: Route, p: Route, verb: Verb, rest: string)
    requires !HasPrefix(rest, "api/") && FirstMatch(dotAll, Table(), verb, "/" + rest) == Some(q)
    requires p in Table() && q in Table() && p != q
    requires Matches(dotAll, p, verb, "/" + rest) && Matches(dotAll, q, verb, "/" + rest)
    ensures MustPrecede(q, p)
  {
    hide Table, Rows, Routes, FirstMatch, HasPrefix, Matches, PageFor, Dots;
    TableMembers(p);
    TableMembers(q);
    NoApiOutside(dotAll, p, verb, rest);
    NoApiOutside(dotAll, q, verb, rest);
    if Dots(dotAll, rest) {
      TableResolvesOutside(dotAll, verb, rest);
      if p in PAGES {
        PageMatches(dotAll, p, verb, rest);
      }
    } else {
      NewlineUnmatched(dotAll, p, verb, rest);
    }
  }

  lemma {:induction false} NoApiOutside(dotAll: bool, r: Route, verb: Verb, rest: string)
    requires !HasPrefix(rest, "api/")
    ensures r in Routes(Rows()) ==> !Matches(dotAll, r, verb, "/" + rest)
  {
    hide Rows, Matches, HasPrefix;
    if r in Routes(Rows()) {
      RowsFit();
      var row :| row in Rows() && ToRoute(row) == r;
      ApiEntryOutside(dotAll, r, verb, rest);
    }
  }

  lemma {:induction false} OrderSuffices(dotAll: bool, other: seq<Route>, verb: Verb, url: string)
    requires forall r :: r in other <==> r in Table()
    requires forall a, b | a in other && b in other && MustPrecede(a, b) :: Precedes(other, a, b)
    ensures FirstMatch(dotAll, other, verb, url) == FirstMatch(dotAll, Table(), verb, url)
  {
    hide Table, Matches, Precedes, MustPrecede;
    if FirstMatch(dotAll, other, verb, url).Some? {
      var k := FirstMatchAt(dotAll, other, verb, url);
      var p := other[k];
      var i := FirstMatchAt(dotAll, Table(), verb, url);
      var q := Table()[i];
      if p != q {
        PreferredPrecedes(dotAll, q, p, verb, url);
        PrecedingWins(dotAll, other, q, p, verb, url);
      }
    }
  }

  /** A URL on which a list in a wrong order goes wrong. */
  lemma {:induction false} OrderNeeded(dotAll: bool, other: seq<Route>, a: Route, b: Route) returns (url: string)
    requires forall r :: r in other <==> r in Table()
    requires a in other && b in other && MustPrecede(a, b) && !Precedes(other, a, b)
    ensures FirstMatch(dotAll, other, a.verb, url) != FirstMatch(dotAll, Table(), a.verb, url)
  {
    hide Table, Matches, Precedes;
    url := OnlyBoth(dotAll, a, b);
    FollowingWins(dotAll, other, a, b, a.verb, url);
  }

  /** A URL that these two match and no other entry, and that the table gives to the first. */
  lemma {:induction false} OnlyBoth(dotAll: bool, a: Route, b: Route) returns (url: string)
    requires a in Table() && b in Table() && MustPrecede(a, b)
    ensures a != b && FirstMatch(dotAll, Table(), a.verb, url) == Some(a) && Matches(dotAll, b, a.verb, url)
    ensures forall x | x in Table() && Matches(dotAll, x, a.verb, url) :: x == a || x == b
  {
    hide Table, Matches, FirstMatch, LiteralSibling, Conflict;
    if LiteralSibling(a, b) && Conflict(a, b) {
      url := OnlySiblingsMatch(dotAll, a, b);
    } else {
      url := OnlyPage(dotAll, a);
    }
  }

  /** Nothing but the other of the pair relates to one of a sibling pair. */
  lemma SiblingShape(a: Route, b: Route)
    requires LiteralSibling(a, b)
    ensures a != b && a !in PAGES && b !in PAGES && a != CATCH_ALL && b != CATCH_ALL
    ensures forall x :: !LiteralSibling(x, a) && !LiteralSibling(b, x)
  {
    hide Conflict;
  }

  lemma {:induction false} OnlyPage(dotAll: bool, a: Route) returns (url: string)
    requires a in PAGES
    ensures a != CATCH_ALL && FirstMatch(dotAll, Table(), a.verb, url) == Some(a)
    ensures Matches(dotAll, CATCH_ALL, a.verb, url)
    ensures forall x | x in Table() && Matches(dotAll, x, a.verb, url) :: x == a || x == CATCH_ALL
  {
    hide Table, Matches, FirstMatch, Conflict, PathOf;
    url := "/" + PathOf(a);
    PageShape(a);
    TableReachesPage(dotAll, a);
    PathOfPage(dotAll, a);
    FallbackMatches(dotAll, PathOf(a), GET);
    forall x | x in Table() && Matches(dotAll, x, a.verb, url) && x != a ensures x == CATCH_ALL {
      PreferredPrecedes(dotAll, a, x, a.verb, url);
    }
  }

  lemma {:induction false} OnlySiblingsMatch(dotAll: bool, a: Route, b: Route) returns (url: string)
    requires a in Table() && b in Table() && LiteralSibling(a, b) && Conflict(a, b)
    ensures a != b && FirstMatch(dotAll, Table(), a.verb, url) == Some(a) && Matches(dotAll, b, a.verb, url)
    ensures forall x | x in Table() && Matches(dotAll, x, a.verb, url) :: x == a || x == b
  {
    hide Table, Rows, Routes, FirstMatch, WellFormed, Matches, LiteralSibling, Conflict, MeetUrl, MustPrecede;
    SiblingShape(a, b);
    url := MeetUrl(a.url, b.url);
    TableMembers(a);
    TableMembers(b);
    EntryShape(Rows(), a);
    EntryShape(Rows(), b);
    SiblingsMeet(dotAll, a, b);
    var q := TableResolvesApi(dotAll, a, url);
    forall x | x in Table() && Matches(dotAll, x, a.verb, url) && x != a ensures x == b {
      PreferredPrecedes(dotAll, a, x, a.verb, url);
      TableMembers(x);
      EntryShape(Rows(), x);
      SharedUrlConflicts(dotAll, x, b, a.verb, url);
      SiblingsOf(a, b, x);
    }
  }

  lemma SiblingsMeet(dotAll: bool, a: Route, b: Route)
    requires WellFormed(a.url) && WellFormed(b.url) && Conflict(a, b)
    ensures Matches(dotAll, a, a.verb, MeetUrl(a.url, b.url)) && Matches(dotAll, b, a.verb, MeetUrl(a.url, b.url))
  {
    MeetUrlMatches(dotAll, a.url, b.url);
  }

  /** A literal has one placeholder sibling, as two placeholders do not overlap. */
  lemma SiblingsOf(a: Route, b: Route, x: Route)
    requires LiteralSibling(a, b) && b in Table() && x in Table() && MustPrecede(a, x) && Conflict(x, b)
    ensures x == b
  {
    hide Table, Rows, Routes, Conflict, LiteralSibling;
    SiblingShape(a, b);
    SiblingShape(a, x);
    TableMembers(b);
    TableMembers(x);
    if x != b {
      TableOverlaps(x, b);
    }
  }

  /** Every entry is registered under a key of its own, so registering the table keeps all of it in its order. */
  lemma TableKeysDistinct()
    ensures DistinctKeys(Table()) && Collect(Table()) == Table()
  {
    hide Entries, ByLine, Only, Collect, DistinctKeys;
    EntriesDistinct();
    MergedDistinct(Entries(), CATCH_ALL);
    CollectIff(Table());
  }

  /**
   In any table, a GET entry below /public/ that stands after the anonymous
   shell's catch-all is never reached.
   */
  lemma {:induction false} PublicShadows(dotAll: bool, before: seq<Route>, after: seq<Route>, rest: string)
    requires rest != "" && Dots(dotAll, rest)
    ensures FirstMatch(dotAll, before + [SHELL_CATCH_ALL] + after, GET, "/public/" + rest)
         == FirstMatch(dotAll, before + [SHELL_CATCH_ALL], GET, "/public/" + rest)
  {
    var path := "public/" + rest;
    assert "/public/" + rest == "/" + path;
    assert path[..7] == "public/";
    ShellCatchAllMatches(dotAll, GET, path);
    Layers(dotAll, before + [SHELL_CATCH_ALL], after, GET, "/" + path);
    assert SHELL_CATCH_ALL in before + [SHELL_CATCH_ALL];
  }
}
