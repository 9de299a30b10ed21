/**
 A list of templates in which every neighbour pair differs first at two
 different literals is pairwise disjoint. This makes "no two entries overlap" a
 check that is linear in the length of the table.
 */
module RouteRows {
  import opened RoutePatterns
  import opened RouteOverlap
  import opened RouteResolution
  import opened RouteNames
  import opened RouteWords

  /** A template as the table writes it. */
  datatype Path = End | L(word: Word, more: Path) | P(name: string, more: Path)

  /**
   One entry under /api/; `path` is what follows that prefix. In a deep row the
   last placeholder has the requirement `.+`.
   */
  datatype Row =
    | Row(line: nat, verb: Verb, path: Path, id: Id)
    | DeepRow(line: nat, verb: Verb, path: Path, id: Id)

  function Segs(p: Path): seq<Seg> {
    match p
    case End => []
    case L(w, more) => [Lit(w.text)] + Segs(more)
    case P(name, more) => [Param(name)] + Segs(more)
  }

  /** What the path denotes, without the prefix. */
  function Pattern(row: Row): Template {
    var segs := Segs(row.path);
    if row.DeepRow? && segs != [] && segs[|segs| - 1].Param?
    then Template(segs[..|segs| - 1], Rest(segs[|segs| - 1].name))
    else Template(segs, NoTail)
  }

  function ToRoute(row: Row): Route {
    Route(row.line, row.id, row.verb, Template([Lit("api")] + Pattern(row).segs, Pattern(row).tail))
  }

  function Routes(rows: seq<Row>): (routes: seq<Route>)
    ensures forall r :: r in routes <==> exists row :: row in rows && ToRoute(row) == r
  {
    if rows == [] then []
    else
      assert rows == [rows[0]] + rows[1..];
      [ToRoute(rows[0])] + Routes(rows[1..])
  }

  // ---- The order of the listing: verb, then depth, then the words ----

  function Rank(v: Verb): nat {
    match v case GET => 0 case POST => 1 case PUT => 2 case DELETE => 3 case PATCH => 4
  }

  predicate Shorter(p: Path, q: Path) {
    !q.End? && (p.End? || Shorter(p.more, q.more))
  }

  predicate SameDepth(p: Path, q: Path) {
    if p.End? || q.End? then p.End? && q.End? else SameDepth(p.more, q.more)
  }

  /** Equally deep, and the first difference is between two literals, in order. */
  predicate Diverge(p: Path, q: Path) {
    match p
    case End => false
    case L(w, more) =>
      q.L? && (if w.code == q.word.code then Diverge(more, q.more) else w.code < q.word.code && SameDepth(more, q.more))
    case P(_, more) => q.P? && Diverge(more, q.more)
  }

  predicate Before(a: Row, b: Row) {
    if a.verb == b.verb then Shorter(a.path, b.path) || Diverge(a.path, b.path) else Rank(a.verb) < Rank(b.verb)
  }

  lemma {:induction false} DepthMeans(p: Path, q: Path)
    ensures Shorter(p, q) <==> |Segs(p)| < |Segs(q)|
    ensures SameDepth(p, q) <==> |Segs(p)| == |Segs(q)|
  {
    if !p.End? && !q.End? {
      DepthMeans(p.more, q.more);
    }
  }

  /** Diverging paths are equally long and differ at two literals. */
  lemma {:induction false} DivergeMeans(p: Path, q: Path) returns (k: nat)
    requires Diverge(p, q)
    ensures |Segs(p)| == |Segs(q)| && k < |Segs(p)|
    ensures Segs(p)[k].Lit? && Segs(q)[k].Lit? && Segs(p)[k].text != Segs(q)[k].text
  {
    if p.L? && p.word.code != q.word.code {
      DepthMeans(p.more, q.more);
      assert Code(p.word.text) == p.word.code != q.word.code == Code(q.word.text);
      k := 0;
    } else {
      k := DivergeMeans(p.more, q.more);
      k := k + 1;
    }
  }

  lemma {:induction false} DivergeTransitive(p: Path, q: Path, r: Path)
    requires Diverge(p, q) && Diverge(q, r)
    ensures Diverge(p, r)
  {
    if (p.L? && p.word.code == q.word.code == r.word.code) || p.P? {
      DivergeTransitive(p.more, q.more, r.more);
    } else {
      var k := DivergeMeans(p, q);
      var l := DivergeMeans(q, r);
      DepthMeans(p.more, r.more);
    }
  }

  lemma BeforeTransitive(a: Row, b: Row, c: Row)
    requires Before(a, b) && Before(b, c)
    ensures Before(a, c)
  {
    if a.verb == b.verb == c.verb {
      DepthMeans(a.path, b.path);
      DepthMeans(b.path, c.path);
      DepthMeans(a.path, c.path);
      if Diverge(a.path, b.path) {
        var k := DivergeMeans(a.path, b.path);
      }
      if Diverge(b.path, c.path) {
        var k := DivergeMeans(b.path, c.path);
      }
      if Diverge(a.path, b.path) && Diverge(b.path, c.path) {
        DivergeTransitive(a.path, b.path, c.path);
      }
    }
  }

  // ---- Rows in order share no URL ----

  /** Overlapping templates agree on every segment both of them have. */
  lemma {:induction false} OverlapAgrees(p: seq<Seg>, s: Tail, q: seq<Seg>, t: Tail)
    requires OverlapFrom(p, s, q, t)
    ensures forall k | 0 <= k < |p| && k < |q| :: Compatible(p[k], q[k])
    ensures s.NoTail? ==> |q| <= |p| && (!t.NoTail? ==> |q| < |p|)
  {
    if p != [] && q != [] {
      OverlapAgrees(p[1..], s, q[1..], t);
      forall k | 0 <= k < |p| && k < |q| ensures Compatible(p[k], q[k]) {
        assert k > 0 ==> Compatible(p[1..][k - 1], q[1..][k - 1]);
      }
    }
  }

  lemma {:induction false} ApartAt(p: seq<Seg>, s: Tail, q: seq<Seg>, t: Tail, k: nat)
    requires k < |p| && k < |q| && !Compatible(p[k], q[k])
    ensures !OverlapFrom(p, s, q, t)
  {
    if OverlapFrom(p, s, q, t) {
      OverlapAgrees(p, s, q, t);
    }
  }

  lemma DivergeDisjoint(a: Row, b: Row)
    requires Diverge(a.path, b.path)
    ensures var p, q := Pattern(a), Pattern(b); !OverlapFrom(p.segs, p.tail, q.segs, q.tail)
  {
    hide Segs, Diverge;
    var p, q := Pattern(a), Pattern(b);
    var k := DivergeMeans(a.path, b.path);
    assert p.segs[k] == Segs(a.path)[k] && q.segs[k] == Segs(b.path)[k];
    ApartAt(p.segs, p.tail, q.segs, q.tail, k);
  }

  lemma ShorterDisjoint(a: Row, b: Row)
    requires Shorter(a.path, b.path) && (a.Row? || |Segs(b.path)| <= |Segs(a.path)|)
    ensures var p, q := Pattern(a), Pattern(b); !OverlapFrom(p.segs, p.tail, q.segs, q.tail)
  {
    hide Segs, Shorter;
    DepthMeans(a.path, b.path);
    var p, q := Pattern(a), Pattern(b);
    if OverlapFrom(p.segs, p.tail, q.segs, q.tail) {
      OverlapAgrees(p.segs, p.tail, q.segs, q.tail);
    }
  }

  lemma BeforeDisjoint(a: Row, b: Row)
    requires Before(a, b) && (a.Row? || (a.verb == b.verb ==> |Segs(b.path)| <= |Segs(a.path)|))
    ensures !Conflict(ToRoute(a), ToRoute(b))
  {
    hide Segs, Pattern;
    if a.verb == b.verb {
      var x, y := ToRoute(a).url, ToRoute(b).url;
      assert x.segs[1..] == Pattern(a).segs && y.segs[1..] == Pattern(b).segs;
      if Shorter(a.path, b.path) {
        ShorterDisjoint(a, b);
      } else {
        DivergeDisjoint(a, b);
      }
    }
  }

  // ---- Chains ----

  /** Something follows /api/, and a deep tail is used by GET only, on the deepest GET rows. */
  predicate Fitting(row: Row) {
    !row.path.End? && (row.Row? || (row.verb == GET && |Segs(row.path)| == 5))
  }

  /** Every row fits, and stands before the next. */
  ghost predicate Chain(rows: seq<Row>) {
    && (forall k | 0 <= k < |rows| :: Fitting(rows[k]))
    && (forall k | 0 <= k < |rows| - 1 :: Before(rows[k], rows[k + 1]))
  }

  lemma {:induction false} ChainBefore(rows: seq<Row>, i: nat, j: nat)
    requires Chain(rows) && i < j < |rows|
    ensures Before(rows[i], rows[j])
    decreases j
  {
    if i + 1 < j {
      ChainBefore(rows, i, j - 1);
      BeforeTransitive(rows[i], rows[j - 1], rows[j]);
    }
  }

  lemma ChainJoin(a: seq<Row>, b: seq<Row>)
    requires a != [] && b != [] && Chain(a) && Chain(b) && Before(a[|a| - 1], b[0])
    ensures Chain(a + b) && (a + b)[0] == a[0] && (a + b)[|a + b| - 1] == b[|b| - 1]
  {
    var rows := a + b;
    forall k | 0 <= k < |rows| - 1 ensures Before(rows[k], rows[k + 1]) {
      if k + 1 < |a| {
        assert Before(a[k], a[k + 1]);
      } else if k >= |a| {
        assert Before(b[k - |a|], b[k + 1 - |a|]);
      }
    }
  }

  predicate Next(a: Row, b: Row) {
    Fitting(b) && Before(a, b)
  }

  /** `Chain` of a short list, spelled out so that it can be evaluated, in two parts. */
  predicate Linked(rows: seq<Row>) {
    LinkedFirst(rows) && LinkedRest(rows)
  }

  predicate LinkedFirst(rows: seq<Row>) {
    && 0 < |rows| <= 9 && Fitting(rows[0])
    && (|rows| > 1 ==> Next(rows[0], rows[1]))
    && (|rows| > 2 ==> Next(rows[1], rows[2]))
    && (|rows| > 3 ==> Next(rows[2], rows[3]))
    && (|rows| > 4 ==> Next(rows[3], rows[4]))
  }

  predicate LinkedRest(rows: seq<Row>) {
    && (|rows| > 5 ==> Next(rows[4], rows[5]))
    && (|rows| > 6 ==> Next(rows[5], rows[6]))
    && (|rows| > 7 ==> Next(rows[6], rows[7]))
    && (|rows| > 8 ==> Next(rows[7], rows[8]))
  }

  lemma LinkedChain(rows: seq<Row>)
    requires Linked(rows)
    ensures Chain(rows)
  {
  }
}
