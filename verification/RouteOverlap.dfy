/** Deciding whether two templates share a URL, and building one when they do. */
module RouteOverlap {
  import opened Results
  import opened Text
  import opened RoutePatterns

  /** Whether some part satisfies both segments. */
  predicate Compatible(a: Seg, b: Seg) {
    if a.Param? then b.Param? || b.text != ""
    else if b.Param? then a.text != ""
    else a.text == b.text
  }

  /** A placeholder value that is not the banned word. */
  function Filler(banned: string): (v: string)
    ensures IsValue(v) && v != banned && '\n' !in v
  {
    if banned == "0" then "1" else "0"
  }

  function Common(a: Seg, b: Seg): string {
    if a.Lit? then a.text else if b.Lit? then b.text else "0"
  }

  /** Whether a tail that begins here can cover some instance of the rest of another template. */
  predicate TailCovers(tail: Tail, segs: seq<Seg>, other: Tail)
    requires segs != []
  {
    var single := |segs| == 1 && other.NoTail?;
    match tail
    case NoTail => false
    case Rest(_) => !(single && segs[0] == Lit(""))
    case RestExcept(_, banned) => single || segs[0] != Lit(banned)
  }

  /** The overlap test: walk both templates side by side until one of them ends. */
  predicate OverlapFrom(p: seq<Seg>, s: Tail, q: seq<Seg>, t: Tail) {
    if p != [] && q != [] then Compatible(p[0], q[0]) && OverlapFrom(p[1..], s, q[1..], t)
    else if p != [] then TailCovers(t, p, s)
    else if q != [] then TailCovers(s, q, t)
    else s.NoTail? == t.NoTail?
  }

  predicate Overlaps(a: Template, b: Template) {
    OverlapFrom(a.segs, a.tail, b.segs, b.tail)
  }

  // ---- Sound: the test says yes only if a URL exists, and this builds it ----

  /** Any legal instance of a rest of a template whose first placeholder avoids a word. */
  function Sample(segs: seq<Seg>, tail: Tail, banned: string): seq<string> {
    if segs == [] then (if tail.NoTail? then [] else ["0"])
    else [if segs[0].Lit? then segs[0].text else Filler(banned)] + Sample(segs[1..], tail, banned)
  }

  function Banned(tail: Tail): string {
    if tail.RestExcept? then tail.banned else ""
  }

  /** The parts of a URL both templates accept. */
  function Meet(p: seq<Seg>, s: Tail, q: seq<Seg>, t: Tail): seq<string> {
    if p != [] && q != [] then [Common(p[0], q[0])] + Meet(p[1..], s, q[1..], t)
    else if p != [] then Sample(p, s, Banned(t))
    else Sample(q, t, Banned(s))
  }

  predicate Plain(segs: seq<Seg>) {
    forall seg | seg in segs && seg.Lit? :: '/' !in seg.text && '\n' !in seg.text
  }

  predicate PlainTail(tail: Tail) {
    tail.RestExcept? ==> '/' !in tail.banned && '\n' !in tail.banned
  }

  /** `Accepts` for a rest of a template, which may be empty. */
  predicate AcceptsFrom(dotAll: bool, segs: seq<Seg>, tail: Tail, parts: seq<string>) {
    Accepts(dotAll, Template(segs, tail), parts)
  }

  predicate SlashAndLineFree(parts: seq<string>) {
    forall p | p in parts :: '/' !in p && '\n' !in p
  }

  lemma {:induction false} JoinNoLine(parts: seq<string>)
    requires |parts| >= 1 && SlashAndLineFree(parts)
    ensures '\n' !in Join(parts, '/')
  {
    if |parts| > 1 {
      JoinNoLine(parts[1..]);
    }
  }

  /** A joined rest is empty only when it is one empty part. */
  lemma {:induction false} JoinEmpty(parts: seq<string>)
    requires |parts| >= 1
    ensures Join(parts, '/') == "" <==> parts == [""]
  {
  }

  /** A joined rest begins with `word/` exactly when its first part is that word and more follows. */
  lemma {:induction false} JoinPrefix(parts: seq<string>, word: string)
    requires |parts| >= 1 && '/' !in word
    requires forall p | p in parts :: '/' !in p
    ensures HasPrefix(Join(parts, '/'), word + "/") <==> |parts| >= 2 && parts[0] == word
  {
    var joined := Join(parts, '/');
    assert |parts| == 1 ==> joined == parts[0] && parts[0] in parts;
    assert |parts| >= 2 ==> joined == parts[0] + "/" + Join(parts[1..], '/') && parts[0] in parts;
    if HasPrefix(joined, word + "/") {
      assert joined[|word|] == (word + "/")[|word|] == '/';
      assert joined[..|word|] == (word + "/")[..|word|] == word;
      assert joined[|parts[0]|] == '/' && joined[..|parts[0]|] == parts[0];
    }
  }

  lemma {:induction false} SampleAccepted(segs: seq<Seg>, tail: Tail, banned: string, dotAll: bool)
    requires Plain(segs) && PlainTail(tail)
    ensures var parts := Sample(segs, tail, banned);
      AcceptsFrom(dotAll, segs, tail, parts) && SlashAndLineFree(parts)
  {
    var parts := Sample(segs, tail, banned);
    if segs == [] {
      if !tail.NoTail? {
        assert parts[0..] == ["0"];
        if tail.RestExcept? {
          assert |tail.banned + "/"| >= 1 && (tail.banned + "/")[|tail.banned|] == '/';
        }
      }
    } else {
      SampleAccepted(segs[1..], tail, banned, dotAll);
      ConsAccepts(dotAll, segs, tail, parts);
    }
  }

  /** Accepting a template is accepting its first segment and then the rest. */
  lemma ConsAccepts(dotAll: bool, segs: seq<Seg>, tail: Tail, parts: seq<string>)
    requires segs != []
    ensures AcceptsFrom(dotAll, segs, tail, parts)
       <==> parts != [] && SegAccepts(segs[0], parts[0]) && AcceptsFrom(dotAll, segs[1..], tail, parts[1..])
  {
    if parts != [] {
      var n := |segs|;
      if |parts| >= n {
        assert parts[n..] == parts[1..][n - 1..];
      }
      assert forall k | 0 < k < n :: segs[k] == segs[1..][k - 1];
      assert forall k | 0 < k < |parts| :: parts[k] == parts[1..][k - 1];
      if AcceptsFrom(dotAll, segs[1..], tail, parts[1..]) && SegAccepts(segs[0], parts[0]) {
        forall k | 0 <= k < n ensures SegAccepts(segs[k], parts[k]) {
          if k > 0 {
            assert SegAccepts(segs[1..][k - 1], parts[1..][k - 1]);
          }
        }
      }
      if AcceptsFrom(dotAll, segs, tail, parts) {
        forall k | 0 <= k < n - 1 ensures SegAccepts(segs[1..][k], parts[1..][k]) {
          assert SegAccepts(segs[k + 1], parts[k + 1]);
        }
      }
    }
  }

  /** The one place where a tail meets segments. */
  lemma {:induction false} CoverAccepted(dotAll: bool, tail: Tail, segs: seq<Seg>, other: Tail)
    requires segs != [] && Plain(segs) && PlainTail(tail) && PlainTail(other)
    requires TailCovers(tail, segs, other)
    ensures var parts := Sample(segs, other, Banned(tail));
      && AcceptsFrom(dotAll, [], tail, parts) && AcceptsFrom(dotAll, segs, other, parts)
      && SlashAndLineFree(parts)
  {
    var parts := Sample(segs, other, Banned(tail));
    SampleAccepted(segs, other, Banned(tail), dotAll);
    assert parts[0..] == parts;
    JoinNoLine(parts);
    JoinEmpty(parts);
    if tail.RestExcept? {
      JoinPrefix(parts, tail.banned);
    }
  }

  lemma {:induction false} MeetAccepted(dotAll: bool, p: seq<Seg>, s: Tail, q: seq<Seg>, t: Tail)
    requires Plain(p) && Plain(q) && PlainTail(s) && PlainTail(t) && OverlapFrom(p, s, q, t)
    ensures var parts := Meet(p, s, q, t);
      && AcceptsFrom(dotAll, p, s, parts) && AcceptsFrom(dotAll, q, t, parts) && SlashAndLineFree(parts)
  {
    var parts := Meet(p, s, q, t);
    if p != [] && q != [] {
      MeetAccepted(dotAll, p[1..], s, q[1..], t);
      assert parts[1..] == Meet(p[1..], s, q[1..], t);
      ConsAccepts(dotAll, p, s, parts);
      ConsAccepts(dotAll, q, t, parts);
    } else if p != [] {
      CoverAccepted(dotAll, t, p, s);
    } else if q != [] {
      CoverAccepted(dotAll, s, q, t);
    } else {
      SampleAccepted(q, t, Banned(s), dotAll);
      SampleAccepted(p, s, Banned(s), dotAll);
    }
  }

  /** A URL both templates accept, when they overlap. */
  function MeetUrl(a: Template, b: Template): string {
    var parts := Meet(a.segs, a.tail, b.segs, b.tail);
    if parts == [] then "/" else "/" + Join(parts, '/')
  }

  // ---- Complete: two templates that share a URL pass the test ----

  lemma {:induction false} SharedOverlaps(dotAll: bool, p: seq<Seg>, s: Tail, q: seq<Seg>, t: Tail, parts: seq<string>)
    requires Plain(p) && Plain(q) && PlainTail(s) && PlainTail(t)
    requires forall part | part in parts :: '/' !in part
    requires AcceptsFrom(dotAll, p, s, parts) && AcceptsFrom(dotAll, q, t, parts)
    ensures OverlapFrom(p, s, q, t)
  {
    if p != [] && q != [] {
      ConsAccepts(dotAll, p, s, parts);
      ConsAccepts(dotAll, q, t, parts);
      SharedOverlaps(dotAll, p[1..], s, q[1..], t, parts[1..]);
    } else if p != [] || q != [] {
      var (segs, other, tail) := if p != [] then (p, s, t) else (q, t, s);
      ConsAccepts(dotAll, segs, other, parts);
      assert parts[0..] == parts;
      JoinEmpty(parts);
      if tail.RestExcept? {
        JoinPrefix(parts, tail.banned);
      }
    }
  }

  lemma MeetUrlMatches(dotAll: bool, a: Template, b: Template)
    requires WellFormed(a) && WellFormed(b) && Overlaps(a, b)
    ensures Match(dotAll, a, MeetUrl(a, b)).Some? && Match(dotAll, b, MeetUrl(a, b)).Some?
  {
    var parts := Meet(a.segs, a.tail, b.segs, b.tail);
    MeetAccepted(dotAll, a.segs, a.tail, b.segs, b.tail);
    PartsOfJoin(parts);
    assert MeetUrl(a, b) == "/" + Join(parts, '/');
  }

  /** Parts without slashes come back from the URL they were joined into. */
  lemma {:induction false} PartsOfJoin(parts: seq<string>)
    requires |parts| >= 1 && forall p | p in parts :: '/' !in p
    ensures Parts("/" + Join(parts, '/')) == parts
  {
    var last := parts[|parts| - 1];
    assert ("/" + Join(parts, '/'))[1..] == Join(parts, '/');
    SplitJoin(parts[..|parts| - 1], last, '/');
    SplitWhole(last, '/');
    assert parts[..|parts| - 1] + [last] == parts;
  }

  lemma SharedUrlOverlaps(dotAll: bool, a: Template, b: Template, url: string)
    requires WellFormed(a) && WellFormed(b)
    requires Match(dotAll, a, url).Some? && Match(dotAll, b, url).Some?
    ensures Overlaps(a, b)
  {
    SharedOverlaps(dotAll, a.segs, a.tail, b.segs, b.tail, Parts(url));
  }

  /**
   The overlap test is exact: it holds if and only if some URL matches both
   templates, and `MeetUrl` is such a URL.
   */
  lemma OverlapsIff(dotAll: bool, a: Template, b: Template)
    requires WellFormed(a) && WellFormed(b)
    ensures Overlaps(a, b) ==> Match(dotAll, a, MeetUrl(a, b)).Some? && Match(dotAll, b, MeetUrl(a, b)).Some?
    ensures Overlaps(a, b) <==> exists url :: Match(dotAll, a, url).Some? && Match(dotAll, b, url).Some?
  {
    if Overlaps(a, b) {
      MeetUrlMatches(dotAll, a, b);
    }
    forall url | Match(dotAll, a, url).Some? && Match(dotAll, b, url).Some? ensures Overlaps(a, b) {
      SharedUrlOverlaps(dotAll, a, b, url);
    }
  }

  lemma {:induction false} OverlapSymmetric(p: seq<Seg>, s: Tail, q: seq<Seg>, t: Tail)
    ensures OverlapFrom(p, s, q, t) == OverlapFrom(q, t, p, s)
  {
    if p != [] && q != [] {
      OverlapSymmetric(p[1..], s, q[1..], t);
    }
  }
}
