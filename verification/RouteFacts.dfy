/** What holds of the whole route table, for every verb and every URL. */
module RouteFacts {
  import opened Results
  import opened Text
  import opened RoutePatterns
  import opened RouteOverlap
  import opened RouteResolution
  import opened RouteWords
  import opened RouteRows
  import opened RouteListing
  import opened RouteTable

  // ---- The rows under /api/ ----

  lemma {:induction false} SegsPlain(p: Path)
    ensures Plain(Segs(p))
  {
    if !p.End? {
      SegsPlain(p.more);
      if p.L? {
        assert Code(p.word.text) == p.word.code;
      }
    }
  }

  lemma RowWellFormed(row: Row)
    ensures WellFormed(ToRoute(row).url)
  {
    SegsPlain(row.path);
  }

  lemma ConflictSymmetric(a: Route, b: Route)
    ensures Conflict(a, b) <==> Conflict(b, a)
  {
    OverlapSymmetric(a.url.segs, a.url.tail, b.url.segs, b.url.tail);
  }

  lemma GetsAreShallow(gets: seq<Row>, others: seq<Row>, j: nat)
    requires WellListed(gets, others) && j < |gets + others| && (gets + others)[j].verb == GET
    ensures |Segs((gets + others)[j].path)| <= 5
  {
    var rows, last := gets + others, |gets| - 1;
    assert rows[last] == gets[last] && rows[|gets|] == others[0];
    if j < last {
      ChainBefore(rows, j, last);
      DepthMeans(rows[j].path, rows[last].path);
      if Diverge(rows[j].path, rows[last].path) {
        var k := DivergeMeans(rows[j].path, rows[last].path);
      }
    } else if j > |gets| {
      ChainBefore(rows, |gets|, j);
    }
  }

  lemma ChainDisjoint(gets: seq<Row>, others: seq<Row>, i: nat, j: nat)
    requires WellListed(gets, others) && i < j < |gets + others|
    ensures var rows := gets + others; !Conflict(ToRoute(rows[i]), ToRoute(rows[j]))
  {
    var rows := gets + others;
    var a, b := rows[i], rows[j];
    ChainBefore(rows, i, j);
    assert Fitting(a);
    if a.DeepRow? && b.verb == GET {
      GetsAreShallow(gets, others, j);
    }
    BeforeDisjoint(a, b);
  }

  lemma RowsDisjoint(gets: seq<Row>, others: seq<Row>, a: Row, b: Row)
    requires WellListed(gets, others) && a in gets + others && b in gets + others && a != b
    ensures !Conflict(ToRoute(a), ToRoute(b))
  {
    var rows := gets + others;
    var i :| 0 <= i < |rows| && rows[i] == a;
    var j :| 0 <= j < |rows| && rows[j] == b;
    if i < j {
      ChainDisjoint(gets, others, i, j);
    } else {
      ChainDisjoint(gets, others, j, i);
      ConflictSymmetric(ToRoute(a), ToRoute(b));
    }
  }

  /** No two different rows of one listing overlap. */
  lemma ListingDisjoint(wild: bool, a: Row, b: Row)
    requires a in Listing(wild) && b in Listing(wild) && a != b
    ensures !Conflict(ToRoute(a), ToRoute(b))
  {
    ListingWell(wild);
    hide Gets, Others, ToRoute, Conflict, WellListed;
    RowsDisjoint(Gets(wild), Others(), a, b);
  }

  // ---- Which entries overlap ----

  /** A literal entry and the placeholder entry beside it, with the literal on the earlier line. */
  predicate LiteralSibling(a: Route, b: Route) {
    && (a.line, b.line) in {(128, 137), (306, 309), (307, 309), (353, 367)}
    && |a.url.segs| == 4 == |b.url.segs| && a.url.segs[3].Lit? && b.url.segs[3].Param?
    && a.url.segs[3].text in {"recent", "status", "pending"}
  }

  lemma SiblingRows(a: Row, b: Row)
    requires a in APPLICATION_LITERALS + DEVICE_APPROVAL_LITERALS + SECRET_LITERALS && b in Wildcards()
    requires Conflict(ToRoute(a), ToRoute(b))
    ensures LiteralSibling(ToRoute(a), ToRoute(b))
  {
    var p, q := ToRoute(a).url, ToRoute(b).url;
    OverlapAgrees(p.segs, p.tail, q.segs, q.tail);
    assert Compatible(p.segs[2], q.segs[2]);
  }

  /** Templates of one length that agree on every segment overlap. */
  lemma {:induction false} AgreeingOverlap(p: seq<Seg>, q: seq<Seg>)
    requires |p| == |q| && forall k | 0 <= k < |p| :: Compatible(p[k], q[k])
    ensures OverlapFrom(p, NoTail, q, NoTail)
  {
    if p != [] {
      AgreeingOverlap(p[1..], q[1..]);
    }
  }

  lemma OnlySwapped(a: Row)
    requires a in Listing(false) && a !in Listing(true)
    ensures a in APPLICATION_LITERALS + DEVICE_APPROVAL_LITERALS + SECRET_LITERALS
  {
    hide GetsOne, GetsTwo, GetsThree, GetsFour, Others;
  }

  /** A row of the table, whichever listing it stands in. */
  predicate IsRow(row: Row) {
    row in Listing(false) || row in Wildcards()
  }

  lemma RowConflicts(a: Row, b: Row)
    requires IsRow(a) && IsRow(b) && a != b && Conflict(ToRoute(a), ToRoute(b))
    ensures LiteralSibling(ToRoute(a), ToRoute(b)) || LiteralSibling(ToRoute(b), ToRoute(a))
  {
    hide Conflict, LiteralSibling, ToRoute, Listing;
    WildcardsListed();
    ConflictSymmetric(ToRoute(a), ToRoute(b));
    if a in Listing(false) && b in Listing(false) {
      ListingDisjoint(false, a, b);
    } else if a in Listing(true) && b in Listing(true) {
      ListingDisjoint(true, a, b);
    } else if b in Wildcards() {
      OnlySwapped(a);
      SiblingRows(a, b);
    } else {
      OnlySwapped(b);
      SiblingRows(b, a);
    }
  }

  /** Each of the four pairs is a pair of rows of the table, and does overlap. */
  lemma SiblingsOverlap(literal: Row, placeholder: Row)
    requires (literal, placeholder) in {
        (APPLICATION_LITERALS[0], APPLICATION_BY_ID[0]), (DEVICE_APPROVAL_LITERALS[0], DEVICE_APPROVAL_BY_ID[0]),
        (DEVICE_APPROVAL_LITERALS[1], DEVICE_APPROVAL_BY_ID[0]), (SECRET_LITERALS[0], SECRET_BY_ID[0]) }
    ensures Conflict(ToRoute(literal), ToRoute(placeholder)) && LiteralSibling(ToRoute(literal), ToRoute(placeholder))
    ensures (literal.line, placeholder.line) in {(353, 367), (307, 309), (306, 309), (128, 137)}
  {
    AgreeingOverlap(ToRoute(literal).url.segs, ToRoute(placeholder).url.segs);
  }

  lemma WildcardsListed()
    ensures forall row | row in Wildcards() :: row in Listing(true)
  {
    hide GetsOne, GetsTwo, GetsThree, GetsFour, Others;
  }

  lemma ListingFits(wild: bool)
    ensures forall row | row in Listing(wild) :: Fitting(row)
  {
    ListingSorted(wild);
    hide Gets, Others, Chain, Fitting;
    ChainFits(Gets(wild) + Others());
  }

  lemma ChainFits(rows: seq<Row>)
    requires Chain(rows)
    ensures forall row | row in rows :: Fitting(row)
  {
  }
}
