/**
 The URL templates of the route table: whole-segment literals and `{name}`
 placeholders, optionally followed by one multi-segment tail.

 The regular expressions behind them are the placeholder default `[^/]+`, the
 requirement `.+`, and `(?!api/).+` with the default value "". `dotAll` says
 whether the router compiles `.` to match a newline too; every result below
 holds for both readings.
 */
module RoutePatterns {
  import opened Results
  import opened Text

  datatype Seg = Lit(text: string) | Param(name: string)

  datatype Tail =
    | NoTail
    | Rest(name: string)                          // {name} with requirement .+
    | RestExcept(name: string, banned: string)    // {name} with (?!banned/).+ and default ""

  datatype Template = Template(segs: seq<Seg>, tail: Tail)

  /** What a match captures: one value per placeholder, in order, and the tail's text. */
  datatype Captures = Captures(values: seq<string>, rest: string)

  predicate WellFormed(t: Template) {
    && (t.segs != [] || !t.tail.NoTail?)
    && (forall seg | seg in t.segs && seg.Lit? :: '/' !in seg.text && '\n' !in seg.text)
    && (t.tail.RestExcept? ==> '/' !in t.tail.banned && '\n' !in t.tail.banned)
  }

  predicate IsValue(v: string) {
    v != "" && '/' !in v
  }

  predicate Dots(dotAll: bool, s: string) {
    dotAll || '\n' !in s
  }

  predicate TailAccepts(dotAll: bool, tail: Tail, rest: string) {
    match tail
    case NoTail => rest == ""
    case Rest(_) => rest != "" && Dots(dotAll, rest)
    case RestExcept(_, banned) => !HasPrefix(rest, banned + "/") && Dots(dotAll, rest)
  }

  // ---- What a template denotes, character by character ----

  function ParamCount(segs: seq<Seg>): nat {
    if segs == [] then 0 else (if segs[0].Param? then 1 else 0) + ParamCount(segs[1..])
  }

  function Fill(segs: seq<Seg>, values: seq<string>): (parts: seq<string>)
    requires |values| == ParamCount(segs)
    ensures |parts| == |segs|
  {
    if segs == [] then []
    else if segs[0].Param? then [values[0]] + Fill(segs[1..], values[1..])
    else [segs[0].text] + Fill(segs[1..], values)
  }

  predicate IsCapture(dotAll: bool, t: Template, c: Captures) {
    && |c.values| == ParamCount(t.segs)
    && (forall v | v in c.values :: IsValue(v))
    && TailAccepts(dotAll, t.tail, c.rest)
  }

  /** The template with the captured values put back. */
  function Instance(t: Template, c: Captures): string
    requires WellFormed(t) && |c.values| == ParamCount(t.segs)
  {
    "/" + Join(Fill(t.segs, c.values) + (if t.tail.NoTail? then [] else [c.rest]), '/')
  }

  /** The URLs the template's regular expression accepts. */
  ghost predicate Denotes(dotAll: bool, t: Template, url: string)
    requires WellFormed(t)
  {
    exists c :: IsCapture(dotAll, t, c) && Instance(t, c) == url
  }

  // ---- The segment-wise matcher ----

  predicate SegAccepts(seg: Seg, part: string) {
    if seg.Param? then part != "" else part == seg.text
  }

  function Capture(segs: seq<Seg>, parts: seq<string>): (r: Option<seq<string>>)
    requires |segs| == |parts|
    ensures r.Some? <==> forall k | 0 <= k < |segs| :: SegAccepts(segs[k], parts[k])
  {
    if segs == [] then Some([])
    else if !SegAccepts(segs[0], parts[0]) then None
    else
      var r := Capture(segs[1..], parts[1..]);
      assert r.None? ==> exists k | 0 <= k < |segs| - 1 ::
        !SegAccepts(segs[1..][k], parts[1..][k]) && !SegAccepts(segs[k + 1], parts[k + 1]);
      if r.None? then None
      else if segs[0].Param? then Some([parts[0]] + r.value) else r
  }

  /** The parts of a URL after its leading slash. */
  function Parts(url: string): (parts: seq<string>)
    requires HasPrefix(url, "/")
    ensures |parts| >= 1 && forall p | p in parts :: '/' !in p
  {
    Split(url[1..], '/')
  }

  /** Whether a template accepts the parts of a URL. */
  predicate Accepts(dotAll: bool, t: Template, parts: seq<string>) {
    var n := |t.segs|;
    && (if t.tail.NoTail? then |parts| == n else |parts| > n)
    && (forall k | 0 <= k < n :: SegAccepts(t.segs[k], parts[k]))
    && (!t.tail.NoTail? ==> TailAccepts(dotAll, t.tail, Join(parts[n..], '/')))
  }

  function Match(dotAll: bool, t: Template, url: string): Option<Captures> {
    if !HasPrefix(url, "/") then None
    else
      var parts := Parts(url);
      var n := |t.segs|;
      if !Accepts(dotAll, t, parts) then None
      else Some(Captures(Capture(t.segs, parts[..n]).value, if t.tail.NoTail? then "" else Join(parts[n..], '/')))
  }

  // ---- The two agree ----

  lemma {:induction false} CaptureFills(segs: seq<Seg>, parts: seq<string>)
    requires |segs| == |parts| && Capture(segs, parts).Some?
    requires forall p | p in parts :: '/' !in p
    ensures var vs := Capture(segs, parts).value;
      && |vs| == ParamCount(segs) && Fill(segs, vs) == parts
      && forall v | v in vs :: IsValue(v)
  {
    if segs != [] {
      CaptureFills(segs[1..], parts[1..]);
      assert [parts[0]] + parts[1..] == parts;
    }
  }

  lemma {:induction false} FillCaptures(segs: seq<Seg>, values: seq<string>)
    requires |values| == ParamCount(segs) && forall v | v in values :: IsValue(v)
    requires forall seg | seg in segs && seg.Lit? :: '/' !in seg.text
    ensures Capture(segs, Fill(segs, values)) == Some(values)
    ensures forall p | p in Fill(segs, values) :: '/' !in p
  {
    if segs == [] {
    } else if segs[0].Param? {
      FillCaptures(segs[1..], values[1..]);
      assert values == [values[0]] + values[1..] && IsValue(values[0]);
      assert Fill(segs, values)[1..] == Fill(segs[1..], values[1..]);
    } else {
      FillCaptures(segs[1..], values);
      assert Fill(segs, values)[1..] == Fill(segs[1..], values);
    }
  }

  lemma {:induction false} JoinTail(parts: seq<string>, n: nat)
    requires n < |parts|
    ensures Join(parts[..n] + [Join(parts[n..], '/')], '/') == Join(parts, '/')
  {
    if n == 0 {
      assert parts[..n] + [Join(parts[n..], '/')] == [Join(parts, '/')];
    } else {
      var whole := parts[..n] + [Join(parts[n..], '/')];
      JoinTail(parts[1..], n - 1);
      assert parts[1..][n - 1..] == parts[n..];
      assert whole[1..] == parts[1..][..n - 1] + [Join(parts[n..], '/')];
    }
  }

  /** A match captures legal values, and putting them back gives the URL again. */
  lemma MatchSound(dotAll: bool, t: Template, url: string)
    requires WellFormed(t) && Match(dotAll, t, url).Some?
    ensures var c := Match(dotAll, t, url).value;
      IsCapture(dotAll, t, c) && Instance(t, c) == url
  {
    var parts := Parts(url);
    var n := |t.segs|;
    CaptureFills(t.segs, parts[..n]);
    JoinSplit(url[1..], '/');
    if t.tail.NoTail? {
      assert parts[..n] + [] == parts;
    } else {
      JoinTail(parts, n);
    }
    assert "/" + url[1..] == url;
  }

  /** The parts of a filled template are its filled segments, then the parts of the rest. */
  lemma InstanceParts(dotAll: bool, t: Template, c: Captures)
    requires WellFormed(t) && IsCapture(dotAll, t, c)
    ensures HasPrefix(Instance(t, c), "/")
    ensures Parts(Instance(t, c)) == Fill(t.segs, c.values) + if t.tail.NoTail? then [] else Split(c.rest, '/')
  {
    hide TailAccepts, Capture, Split;
    var fill := Fill(t.segs, c.values);
    FillCaptures(t.segs, c.values);
    if t.tail.NoTail? {
      var init, last := fill[..|fill| - 1], fill[|fill| - 1];
      assert fill + [] == fill == init + [last];
      SplitJoin(init, last, '/');
      SplitWhole(last, '/');
      assert Instance(t, c)[1..] == Join(fill, '/');
    } else {
      SplitJoin(fill, c.rest, '/');
      assert Instance(t, c)[1..] == Join(fill + [c.rest], '/');
    }
  }

  /** Every legal way to fill a template is matched, with exactly those values. */
  lemma MatchComplete(dotAll: bool, t: Template, c: Captures)
    requires WellFormed(t) && IsCapture(dotAll, t, c)
    ensures Match(dotAll, t, Instance(t, c)) == Some(c)
  {
    InstanceParts(dotAll, t, c);
    FillCaptures(t.segs, c.values);
    JoinSplit(c.rest, '/');
    hide Capture, Fill, Instance, Parts, SegAccepts, TailAccepts, WellFormed;
    var fill, rest := Fill(t.segs, c.values), if t.tail.NoTail? then [] else Split(c.rest, '/');
    var parts := Parts(Instance(t, c));
    assert parts[..|fill|] == fill && parts[|fill|..] == rest;
    assert forall k | 0 <= k < |t.segs| :: SegAccepts(t.segs[k], fill[k]);
    if t.tail.NoTail? {
      NoRest(dotAll, t.tail, c.rest);
    }
  }

  lemma NoRest(dotAll: bool, tail: Tail, rest: string)
    requires tail.NoTail? && TailAccepts(dotAll, tail, rest)
    ensures rest == ""
  {
  }

  /**
   The segment-wise matcher accepts exactly the URLs of the regular expression,
   and the capture it reports is the only one.
   */
  lemma MatchIffDenotes(dotAll: bool, t: Template, url: string)
    requires WellFormed(t)
    ensures Match(dotAll, t, url).Some? <==> Denotes(dotAll, t, url)
    ensures forall c | IsCapture(dotAll, t, c) && Instance(t, c) == url :: Match(dotAll, t, url) == Some(c)
  {
    if Match(dotAll, t, url).Some? {
      MatchSound(dotAll, t, url);
    }
    forall c | IsCapture(dotAll, t, c) && Instance(t, c) == url ensures Match(dotAll, t, url) == Some(c) {
      MatchComplete(dotAll, t, c);
    }
  }
}
