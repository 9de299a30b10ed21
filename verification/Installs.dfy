/** `copyExecutable`: copying a file over another one by way of a temporary file. */
module Installs {
  import opened Results

  /** Names for files, which have contents and may be executable; several names may share a file. */
  datatype Store = Store(names: map<string, nat>, data: map<nat, string>, executable: set<nat>, next: nat) {
    predicate Valid() {
      (forall p :: p in names ==> names[p] in data) && (forall n :: n in data ==> n < next)
    }

    function Content(path: string): Option<string> {
      if path in names && names[path] in data then Some(data[names[path]]) else None
    }

    predicate SameFile(p: string, q: string) {
      p in names && q in names && names[p] == names[q]
    }
  }

  /** Opening for writing empties the file of that name, or creates an executable one. */
  function Emptied(s: Store, path: string): Store {
    if path in s.names then s.(data := s.data[s.names[path] := ""])
    else s.(names := s.names[path := s.next], data := s.data[s.next := ""], executable := s.executable + {s.next},
            next := s.next + 1)
  }

  function Written(s: Store, file: nat, text: string): Store
    requires file in s.data
  {
    s.(data := s.data[file := s.data[file] + text])
  }

  function Removed(s: Store, path: string): Store {
    s.(names := map p | p in s.names && p != path :: s.names[p])
  }

  /** Two names of one file both stay, as rename(2) has it. */
  function Renamed(s: Store, from: string, to: string): Store
    requires from in s.names
  {
    if s.SameFile(from, to) then s
    else s.(names := map p | p in s.names.Keys + {to} && p != from :: if p == to then s.names[from] else s.names[p])
  }

  datatype Call = Opening | Directory | Creating | Copying | Closing | Renaming

  /** `removed` says whether the temporary file was removed after the failure. */
  datatype Outcome = Installed | Failed(at: Call, removed: bool)

  function Tmp(dst: string): string {
    dst + ".tmp"
  }

  /** The temporary name is no other name of the source or of the destination. */
  predicate Apart(s: Store, src: string, dst: string) {
    !s.SameFile(Tmp(dst), src) && !s.SameFile(Tmp(dst), dst)
  }

  /** What there is to read of the source: nothing if the temporary file is the source itself. */
  function Source(s: Store, src: string, dst: string): string
    requires s.Valid() && src in s.names
  {
    if s.SameFile(Tmp(dst), src) then "" else s.data[s.names[src]]
  }

  /** The temporary file holds this much, and nothing else has changed. */
  function Partial(s: Store, dst: string, text: string): Store {
    var made := Emptied(s, Tmp(dst));
    made.(data := made.data[made.names[Tmp(dst)] := text])
  }

  lemma PartialGrows(s: Store, dst: string, text: string, more: string)
    ensures var made := Emptied(s, Tmp(dst));
      Written(Partial(s, dst, text), made.names[Tmp(dst)], more) == Partial(s, dst, text + more)
    ensures Emptied(s, Tmp(dst)) == Partial(s, dst, "")
    ensures Partial(s, dst, text).names == Emptied(s, Tmp(dst)).names
  {
    var made := Emptied(s, Tmp(dst));
    var file := made.names[Tmp(dst)];
    assert made.data[file := text][file := text + more] == made.data[file := text + more];
    assert made.data[file := ""] == made.data;
  }

  lemma PartialExtends(s: Store, dst: string, source: string, offset: nat, part: string)
    requires offset <= |source| && part <= source[offset..]
    ensures Written(Partial(s, dst, source[..offset]), Emptied(s, Tmp(dst)).names[Tmp(dst)], part)
         == Partial(s, dst, source[..offset + |part|])
  {
    PartialGrows(s, dst, source[..offset], part);
    assert source[..offset] + part == source[..offset + |part|];
  }

  /** A state during the copy: the temporary file holds a beginning of the source. */
  predicate Underway(first: Store, s: Store, src: string, dst: string)
    requires first.Valid() && src in first.names
  {
    exists n: nat :: n <= |Source(first, src, dst)| && s == Partial(first, dst, Source(first, src, dst)[..n])
  }

  /** The temporary file holds at most this much of the source. */
  ghost predicate UpTo(first: Store, s: Store, src: string, dst: string, offset: nat)
    requires first.Valid() && src in first.names && offset <= |Source(first, src, dst)|
  {
    exists n: nat :: n <= offset && s == Partial(first, dst, Source(first, src, dst)[..n])
  }

  /** Two states during the copy, the second with no less of the source in the temporary file. */
  ghost predicate InTurn(first: Store, s: Store, t: Store, src: string, dst: string)
    requires first.Valid() && src in first.names
  {
    exists n: nat :: n <= |Source(first, src, dst)|
      && UpTo(first, s, src, dst, n) && t == Partial(first, dst, Source(first, src, dst)[..n])
  }

  /** Every state holds no less than those before it. */
  ghost predicate Growing(first: Store, states: seq<Store>, src: string, dst: string)
    requires first.Valid() && src in first.names
  {
    forall i, j | 0 <= i <= j < |states| :: InTurn(first, states[i], states[j], src, dst)
  }

  function Cleaned(s: Store, dst: string, removed: bool): Store {
    if removed then Removed(s, Tmp(dst)) else s
  }

  /** The last state, by how the installation went. */
  predicate Ended(first: Store, last: Store, src: string, dst: string, r: Outcome)
    requires first.Valid() && src in first.names
  {
    var source := Source(first, src, dst);
    match r
    case Installed => last == Renamed(Partial(first, dst, source), Tmp(dst), dst)
    case Failed(at, removed) =>
      match at
      case Copying => exists n: nat :: n <= |source| && last == Cleaned(Partial(first, dst, source[..n]), dst, removed)
      case Closing => last == Cleaned(Partial(first, dst, source), dst, removed)
      case Renaming => last == Partial(first, dst, source)
      case _ => false
  }

  /**
   What an installation did: it failed before it touched a file, or the states
   after the first are those of a growing temporary file and then the last.
   */
  ghost predicate Explains(first: Store, last: Store, states: seq<Store>, src: string, dst: string, r: Outcome)
    requires first.Valid()
  {
    if r.Failed? && (r.at.Opening? || r.at.Directory? || r.at.Creating?) then last == first && states == []
    else
      && src in first.names && Ended(first, last, src, dst, r)
      && |states| >= 2 && states[0] == Partial(first, dst, "") && states[|states| - 1] == last
      && Growing(first, states[..|states| - 1], src, dst)
  }

  /** The empty temporary file comes first. */
  lemma StartsGrowing(first: Store, states: seq<Store>, src: string, dst: string)
    requires first.Valid() && src in first.names && Growing(first, states, src, dst)
    ensures Growing(first, [Partial(first, dst, "")] + states, src, dst)
  {
    var start, source := Partial(first, dst, ""), Source(first, src, dst);
    assert source[..0] == "";
    assert forall n: nat | n <= |source| :: UpTo(first, start, src, dst, n);
    assert InTurn(first, start, start, src, dst);
    forall j | 0 <= j < |states| ensures InTurn(first, start, states[j], src, dst) {
      assert InTurn(first, states[j], states[j], src, dst);
    }
    hide Partial, InTurn;
  }

  /** So does a state with more of the source come last. */
  lemma KeepsGrowing(first: Store, states: seq<Store>, src: string, dst: string, offset: nat, n: nat)
    requires first.Valid() && src in first.names && offset <= n <= |Source(first, src, dst)|
    requires Growing(first, states, src, dst)
    requires forall k | 0 <= k < |states| :: UpTo(first, states[k], src, dst, offset)
    ensures var more := states + [Partial(first, dst, Source(first, src, dst)[..n])];
      Growing(first, more, src, dst) && forall k | 0 <= k < |more| :: UpTo(first, more[k], src, dst, n)
  {
    hide Partial, Source;
  }

  lemma CopiedUnderway(first: Store, src: string, dst: string, n: nat)
    requires first.Valid() && src in first.names && n <= |Source(first, src, dst)|
    ensures var s := Partial(first, dst, Source(first, src, dst)[..n]);
      Underway(first, s, src, dst) && Tmp(dst) in s.names
    ensures n == |Source(first, src, dst)| ==> Source(first, src, dst)[..n] == Source(first, src, dst)
  {
  }

  /** What the last call of an installation does, by how it went, explains all of it. */
  lemma Finishes(first: Store, states: seq<Store>, s: Store, last: Store, src: string, dst: string, r: Outcome)
    requires first.Valid() && src in first.names
    requires states != [] && states[0] == Partial(first, dst, "") && Growing(first, states, src, dst)
    requires Underway(first, s, src, dst)
    requires s == Partial(first, dst, Source(first, src, dst)) || (r.Failed? && r.at.Copying?)
    requires match r
      case Installed => Tmp(dst) in s.names && last == Renamed(s, Tmp(dst), dst)
      case Failed(at, removed) =>
        if at.Renaming? then last == s else (at.Copying? || at.Closing?) && last == Cleaned(s, dst, removed)
    ensures Explains(first, last, states + [last], src, dst, r)
  {
    assert (states + [last])[..|states|] == states;
    hide Growing, Partial, Source;
  }

  /**
   Which of the calls work. Copying may break off at a read or a write, after so
   many characters; that has no effect if the source ends before.
   */
  datatype Calls = Calls(
    opens: bool, makes: bool, creates: bool, breaks: Option<nat>, closes: bool, removes: bool, renames: bool)

  /** All of the source can be read and written, the end of it included. */
  predicate CopiesAll(calls: Calls, source: string) {
    calls.breaks.Some? ==> calls.breaks.value > |source|
  }

  /**
   How an installation goes, by which calls work: it fails at the first that does
   not, and after a failed copy or a failed close the temporary file is removed if
   that is possible.
   */
  predicate GoesAs(first: Store, calls: Calls, src: string, dst: string, r: Outcome)
    requires first.Valid()
  {
    var readable := src in first.names && calls.opens;
    var created := readable && calls.makes && calls.creates;
    var copied := created && CopiesAll(calls, Source(first, src, dst));
    && (r == Installed <==> copied && calls.closes && calls.renames)
    && (r == Failed(Opening, false) <==> !readable)
    && (r == Failed(Directory, false) <==> readable && !calls.makes)
    && (r == Failed(Creating, false) <==> readable && calls.makes && !calls.creates)
    && (r == Failed(Copying, calls.removes) <==> created && !copied)
    && (r == Failed(Closing, calls.removes) <==> copied && !calls.closes)
    && (r == Failed(Renaming, false) <==> copied && calls.closes && !calls.renames)
  }

  lemma GoesFirst(first: Store, calls: Calls, src: string, dst: string, r: Outcome)
    requires first.Valid()
    requires
      var readable := src in first.names && calls.opens;
      || (r == Failed(Opening, false) && !readable)
      || (r == Failed(Directory, false) && readable && !calls.makes)
      || (r == Failed(Creating, false) && readable && calls.makes && !calls.creates)
    ensures GoesAs(first, calls, src, dst, r)
  {
  }

  lemma GoesOn(first: Store, calls: Calls, src: string, dst: string, r: Outcome)
    requires first.Valid() && src in first.names && calls.opens && calls.makes && calls.creates
    requires r == if !CopiesAll(calls, Source(first, src, dst)) then Failed(Copying, calls.removes)
      else if !calls.closes then Failed(Closing, calls.removes)
      else if calls.renames then Installed else Failed(Renaming, false)
    ensures GoesAs(first, calls, src, dst, r)
  {
  }

  /** The files on a disk, and for the proof every state they were in. */
  class Disk {
    var store: Store
    ghost var trace: seq<Store>
    const calls: Calls

    method OpenRead(path: string) returns (file: Option<nat>)
      requires store.Valid()
      ensures file == if path in store.names && calls.opens then Some(store.names[path]) else None
    {
      if path !in store.names || !calls.opens {
        return None;
      }
      return Some(store.names[path]);
    }

    method MakeDirectory() returns (ok: bool)
      ensures ok == calls.makes
    {
      ok := calls.makes;
    }

    method OpenEmpty(path: string) returns (file: Option<nat>)
      requires store.Valid()
      modifies this
      ensures store.Valid() && (file.Some? <==> calls.creates)
      ensures file.None? ==> store == old(store) && trace == old(trace)
      ensures file.Some? ==>
        store == Emptied(old(store), path) && file.value == store.names[path] && trace == old(trace) + [store]
    {
      if !calls.creates {
        return None;
      }
      store := Emptied(store, path);
      trace := trace + [store];
      return Some(store.names[path]);
    }

    /**
     The next part of a file, at least one character of it unless it ends there.
     Where copying breaks off it may be the read that fails, and at the end it is.
     */
    method Read(file: nat, offset: nat) returns (chunk: Option<string>)
      requires file in store.data && offset <= |store.data[file]|
      ensures chunk.None? ==> calls.breaks == Some(offset)
      ensures chunk.Some? ==>
        chunk.value <= store.data[file][offset..]
        && (chunk.value == "" ==> offset == |store.data[file]| && calls.breaks != Some(offset))
    {
      var rest := store.data[file][offset..];
      if calls.breaks == Some(offset) {
        var refused: bool := *;
        if rest == "" || refused {
          return None;
        }
      }
      if rest == "" {
        return Some("");
      }
      var n: nat :| 0 < n <= |rest|;
      return Some(rest[..n]);
    }

    /** Adds the text, or where copying breaks off the beginning of it. */
    method Write(file: nat, offset: nat, text: string) returns (ok: bool)
      requires store.Valid() && file in store.data && text != ""
      requires calls.breaks.Some? ==> offset <= calls.breaks.value
      modifies this
      ensures store.Valid() && trace == old(trace) + [store]
      ensures ok <==> calls.breaks.Some? ==> offset + |text| <= calls.breaks.value
      ensures store == Written(old(store), file, if ok then text else text[..calls.breaks.value - offset])
    {
      ok := calls.breaks.None? || offset + |text| <= calls.breaks.value;
      var part := if ok then text else text[..calls.breaks.value - offset];
      store := Written(store, file, part);
      trace := trace + [store];
    }

    method Close() returns (ok: bool)
      ensures ok == calls.closes
    {
      ok := calls.closes;
    }

    method Remove(path: string) returns (ok: bool)
      requires store.Valid()
      modifies this
      ensures store.Valid() && trace == old(trace) + [store] && ok == calls.removes
      ensures store == if ok then Removed(old(store), path) else old(store)
    {
      ok := calls.removes;
      if ok {
        store := Removed(store, path);
      }
      trace := trace + [store];
    }

    method Rename(from: string, to: string) returns (ok: bool)
      requires store.Valid() && from in store.names
      modifies this
      ensures store.Valid() && trace == old(trace) + [store] && ok == calls.renames
      ensures store == if ok then Renamed(old(store), from, to) else old(store)
    {
      ok := calls.renames;
      if ok {
        store := Renamed(store, from, to);
      }
      trace := trace + [store];
    }

    /** io.Copy: part by part until the source ends or a call fails. */
    method CopyAll(file: nat, out: nat, ghost first: Store, ghost src: string, ghost dst: string) returns (ok: bool)
      requires store.Valid() && first.Valid() && src in first.names && file == first.names[src]
      requires store == Emptied(first, Tmp(dst)) && out == store.names[Tmp(dst)]
      modifies this
      ensures store.Valid() && old(trace) <= trace
      ensures ok <==> CopiesAll(calls, Source(first, src, dst))
      ensures !ok ==> calls.breaks.Some? && calls.breaks.value <= |Source(first, src, dst)|
      ensures store == Partial(first, dst,
        if ok then Source(first, src, dst) else Source(first, src, dst)[..calls.breaks.value])
      ensures Growing(first, trace[|old(trace)|..], src, dst)
    {
      assert trace[|old(trace)|..] == [] && Growing(first, [], src, dst);
      hide Growing, UpTo;
      ghost var source := Source(first, src, dst);
      PartialGrows(first, dst, "", "");
      var offset := 0;
      ok := false;
      assert source[..0] == "";
      while !ok
        invariant store.Valid() && old(trace) <= trace && offset <= |source|
        invariant store == Partial(first, dst, source[..offset])
        invariant file in store.data && store.data[file] == source
        invariant Growing(first, trace[|old(trace)|..], src, dst)
        invariant forall k | 0 <= k < |trace| - |old(trace)| :: UpTo(first, trace[|old(trace)|..][k], src, dst, offset)
        invariant calls.breaks.Some? ==> offset <= calls.breaks.value
        invariant ok ==> offset == |source| && calls.breaks != Some(offset)
        decreases |source| - offset, !ok
      {
        var chunk := Read(file, offset);
        if chunk.None? {
          return;
        }
        var text := chunk.value;
        if text == "" {
          ok := true;
        } else {
          ghost var states := trace[|old(trace)|..];
          var written := Write(out, offset, text);
          ghost var part := if written then text else text[..calls.breaks.value - offset];
          PartialExtends(first, dst, source, offset, part);
          KeepsGrowing(first, states, src, dst, offset, offset + |part|);
          assert trace[|old(trace)|..] == states + [store];
          if !written {
            return;
          }
          offset := offset + |text|;
        }
      }
      assert source[..offset] == source;
    }

    /** Copies the source into the temporary file, and puts that in the destination's place. */
    method CopyExecutable(src: string, dst: string) returns (r: Outcome)
      requires store.Valid()
      modifies this
      ensures store.Valid() && old(trace) <= trace
      ensures GoesAs(old(store), calls, src, dst, r)
      ensures Explains(old(store), store, trace[|old(trace)|..], src, dst, r)
      ensures r.Failed? && (r.at.Copying? || r.at.Closing?) && calls.removes ==> Tmp(dst) !in store.names
    {
      hide Growing, Partial, Written, Renamed, Emptied, Source, GoesAs, CopiesAll;
      var file := OpenRead(src);
      if file.None? {
        GoesFirst(store, calls, src, dst, Failed(Opening, false));
        return Failed(Opening, false);
      }
      var made := MakeDirectory();
      if !made {
        GoesFirst(store, calls, src, dst, Failed(Directory, false));
        return Failed(Directory, false);
      }
      var tmp := dst + ".tmp";
      var out := OpenEmpty(tmp);
      if out.None? {
        GoesFirst(store, calls, src, dst, Failed(Creating, false));
        return Failed(Creating, false);
      }
      ghost var source := Source(old(store), src, dst);
      PartialGrows(old(store), dst, "", "");
      ghost var created := trace;
      var copied := CopyAll(file.value, out.value, old(store), src, dst);
      ghost var states, before := trace[|old(trace)|..], store;
      assert states == [created[|old(trace)|]] + trace[|created|..];
      StartsGrowing(old(store), trace[|created|..], src, dst);
      CopiedUnderway(old(store), src, dst, if copied then |source| else calls.breaks.value);
      hide Explains, Underway;
      if !copied {
        var closed := Close();
        var removed := Remove(tmp);
        r := Failed(Copying, removed);
      } else {
        var closed := Close();
        if !closed {
          var removed := Remove(tmp);
          r := Failed(Closing, removed);
        } else {
          var renamed := Rename(tmp, dst);
          r := if renamed then Installed else Failed(Renaming, false);
        }
      }
      assert trace[|old(trace)|..] == states + [store];
      Finishes(old(store), states, before, store, src, dst, r);
      GoesOn(old(store), calls, src, dst, r);
    }
  }

  // ---- What that means for the files ----

  lemma TmpIsOther(dst: string)
    ensures Tmp(dst) != dst
  {
    assert |Tmp(dst)| == |dst| + 4;
  }

  /** During the copy every name but the temporary one, and names of the same file, keeps its content. */
  lemma PartialKeeps(s: Store, dst: string, text: string, path: string)
    requires s.Valid() && path != Tmp(dst) && !s.SameFile(Tmp(dst), path)
    ensures Partial(s, dst, text).Content(path) == s.Content(path)
    ensures path in Partial(s, dst, text).names <==> path in s.names
  {
  }

  lemma PartialTmp(s: Store, dst: string, text: string)
    requires s.Valid()
    ensures Partial(s, dst, text).Content(Tmp(dst)) == Some(text)
    ensures forall path | s.SameFile(Tmp(dst), path) :: Partial(s, dst, text).Content(path) == Some(text)
  {
  }

  /** The rename gives the destination the temporary file. */
  lemma RenamedContent(s: Store, dst: string, text: string)
    requires s.Valid()
    ensures var last := Renamed(Partial(s, dst, text), Tmp(dst), dst);
      last.Content(dst) == Some(text) && (!s.SameFile(Tmp(dst), dst) ==> Tmp(dst) !in last.names)
  {
    TmpIsOther(dst);
    PartialTmp(s, dst, text);
  }

  lemma CleanedKeeps(s: Store, dst: string, text: string, removed: bool, path: string)
    requires s.Valid() && path != Tmp(dst) && !s.SameFile(Tmp(dst), path)
    ensures Cleaned(Partial(s, dst, text), dst, removed).Content(path) == s.Content(path)
  {
    PartialKeeps(s, dst, text, path);
  }

  /** How the destination ends: with the source if and only if the installation succeeded. */
  lemma DestinationEnds(first: Store, last: Store, states: seq<Store>, src: string, dst: string, r: Outcome)
    requires first.Valid() && Explains(first, last, states, src, dst, r) && Apart(first, src, dst)
    ensures r.Installed? ==> src in first.names
    ensures last.Content(dst) == if r.Installed? then first.Content(src) else first.Content(dst)
  {
    TmpIsOther(dst);
    if r.Installed? {
      RenamedContent(first, dst, Source(first, src, dst));
    } else if states != [] {
      var source := Source(first, src, dst);
      var n: nat :| n <= |source|
        && exists removed :: last == Cleaned(Partial(first, dst, source[..n]), dst, removed) by {
        assert source[..|source|] == source;
        assert last == Cleaned(last, dst, false);
      }
      var removed :| last == Cleaned(Partial(first, dst, source[..n]), dst, removed);
      CleanedKeeps(first, dst, source[..n], removed, dst);
    }
  }

  /**
   Crash-safe: when the temporary name is no other name of the source or the
   destination, then after every step, wherever it is cut off, the destination
   holds what it held or the complete source. `CrashSafeIff` has the exact condition.
   */
  lemma AlwaysOldOrComplete(first: Store, last: Store, states: seq<Store>, src: string, dst: string, r: Outcome, k: nat)
    requires first.Valid() && Explains(first, last, states, src, dst, r) && Apart(first, src, dst)
    requires k < |states|
    ensures states[k].Content(dst) == first.Content(dst) || states[k].Content(dst) == first.Content(src)
  {
    TmpIsOther(dst);
    DestinationEnds(first, last, states, src, dst, r);
    if states[k] != last {
      var source := Source(first, src, dst);
      var n: nat :| n <= |source| && states[k] == Partial(first, dst, source[..n]);
      PartialKeeps(first, dst, source[..n], dst);
    }
  }

  /** A temporary file that is the destination empties it first. */
  lemma SharedDestinationEmptied(first: Store, last: Store, states: seq<Store>, src: string, dst: string, r: Outcome)
    requires first.Valid() && Explains(first, last, states, src, dst, r) && first.SameFile(Tmp(dst), dst)
    ensures states != [] ==> states[0].Content(dst) == Some("")
  {
    PartialTmp(first, dst, "");
  }

  /** Success is a full copy exactly when the temporary file is not the source, or there was nothing to copy. */
  lemma FullCopyIff(first: Store, last: Store, states: seq<Store>, src: string, dst: string)
    requires first.Valid() && Explains(first, last, states, src, dst, Installed)
    ensures last.Content(dst) == first.Content(src)
      <==> !first.SameFile(Tmp(dst), src) || first.Content(src) == Some("")
  {
    RenamedContent(first, dst, Source(first, src, dst));
  }

  /** A run that fails never changes the destination, unless that is the temporary file. */
  lemma FailureKeeps(first: Store, last: Store, states: seq<Store>, src: string, dst: string, r: Outcome, k: nat)
    requires first.Valid() && Explains(first, last, states, src, dst, r) && r.Failed? && k < |states|
    requires !first.SameFile(Tmp(dst), dst)
    ensures states[k].Content(dst) == first.Content(dst)
  {
    TmpIsOther(dst);
    var source := Source(first, src, dst);
    assert source[..|source|] == source;
    if k < |states| - 1 {
      assert InTurn(first, states[k], states[k], src, dst);
      var n: nat :| n <= |source| && states[k] == Partial(first, dst, source[..n]);
      PartialKeeps(first, dst, source[..n], dst);
    } else {
      var n: nat :| n <= |source|
        && exists removed :: last == Cleaned(Partial(first, dst, source[..n]), dst, removed) by {
        assert last == Cleaned(last, dst, false);
      }
      var removed :| last == Cleaned(Partial(first, dst, source[..n]), dst, removed);
      CleanedKeeps(first, dst, source[..n], removed, dst);
    }
  }

  /** No temporary file is left, unless its removal fails or the rename does; then it holds the source. */
  lemma TemporaryGone(first: Store, last: Store, states: seq<Store>, src: string, dst: string, r: Outcome)
    requires first.Valid() && Explains(first, last, states, src, dst, r) && Apart(first, src, dst)
    ensures r.Installed? || (r.Failed? && (r.at.Copying? || r.at.Closing?) && r.removed) ==> Tmp(dst) !in last.names
    ensures r.Failed? && r.at.Renaming? ==> last.Content(Tmp(dst)) == first.Content(src)
  {
    TmpIsOther(dst);
    if r.Installed? {
      RenamedContent(first, dst, Source(first, src, dst));
    } else if r.at.Renaming? {
      PartialTmp(first, dst, Source(first, src, dst));
    }
  }

  /** The installed file is executable unless an old temporary file that was not is reused. */
  lemma ExecutableIff(first: Store, last: Store, states: seq<Store>, src: string, dst: string)
    requires first.Valid() && Explains(first, last, states, src, dst, Installed)
    ensures dst in last.names
    ensures last.names[dst] in last.executable
       <==> (Tmp(dst) in first.names ==> first.names[Tmp(dst)] in first.executable)
  {
    TmpIsOther(dst);
  }

  /** Every other name keeps its content throughout. */
  lemma OthersUntouched(first: Store, last: Store, states: seq<Store>, src: string, dst: string, r: Outcome,
        path: string)
    requires first.Valid() && Explains(first, last, states, src, dst, r)
    requires path != dst && path != Tmp(dst) && !first.SameFile(Tmp(dst), path)
    ensures last.Content(path) == first.Content(path)
    ensures forall k | 0 <= k < |states| :: states[k].Content(path) == first.Content(path)
  {
    if states != [] {
      var source := Source(first, src, dst);
      forall n: nat | n <= |source| ensures Partial(first, dst, source[..n]).Content(path) == first.Content(path) {
        PartialKeeps(first, dst, source[..n], path);
      }
      PartialKeeps(first, dst, source, path);
    }
  }

  // ---- When an installation is safe wherever it is cut off ----

  /** In every run, after every step, the destination holds what it held or the complete source. */
  ghost predicate CrashSafe(first: Store, src: string, dst: string)
    requires first.Valid()
  {
    forall last: Store, states: seq<Store>, r: Outcome, k: int
      | Explains(first, last, states, src, dst, r) && 0 <= k < |states| ::
      states[k].Content(dst) == first.Content(dst) || states[k].Content(dst) == first.Content(src)
  }

  /**
   There is nothing to copy, the temporary name is apart, or the destination is
   empty and, if it is the temporary file, gets one character at most.
   */
  predicate CutsHarmless(first: Store, src: string, dst: string)
    requires first.Valid()
  {
    || src !in first.names || first.Content(src) == Some("") || Apart(first, src, dst)
    || (first.Content(dst) == Some("") && (first.SameFile(Tmp(dst), dst) ==> |first.data[first.names[src]]| <= 1))
  }

  /** The destination holds what it held, all that is read of the source, or as the temporary file a part of it. */
  ghost predicate Held(first: Store, s: Store, src: string, dst: string)
    requires first.Valid() && src in first.names
  {
    var source := Source(first, src, dst);
    || s.Content(dst) == first.Content(dst) || s.Content(dst) == Some(source)
    || (first.SameFile(Tmp(dst), dst) && exists n: nat :: n <= |source| && s.Content(dst) == Some(source[..n]))
  }

  lemma PartialHolds(first: Store, src: string, dst: string, n: nat)
    requires first.Valid() && src in first.names && n <= |Source(first, src, dst)|
    ensures Held(first, Partial(first, dst, Source(first, src, dst)[..n]), src, dst)
    ensures Held(first, Removed(Partial(first, dst, Source(first, src, dst)[..n]), Tmp(dst)), src, dst)
  {
    TmpIsOther(dst);
    var text := Source(first, src, dst)[..n];
    if first.SameFile(Tmp(dst), dst) {
      PartialTmp(first, dst, text);
    } else {
      PartialKeeps(first, dst, text, dst);
    }
    hide Partial;
  }

  lemma LastHolds(first: Store, last: Store, states: seq<Store>, src: string, dst: string, r: Outcome)
    requires first.Valid() && Explains(first, last, states, src, dst, r) && states != []
    ensures Held(first, last, src, dst)
  {
    var source := Source(first, src, dst);
    assert source[..|source|] == source;
    if r.Installed? {
      RenamedContent(first, dst, source);
    } else {
      var n: nat :| n <= |source|
        && exists removed :: last == Cleaned(Partial(first, dst, source[..n]), dst, removed) by {
        assert last == Cleaned(last, dst, false);
      }
      PartialHolds(first, src, dst, n);
    }
    hide Partial, Held;
  }

  /** What the destination holds in any state: its old content, or as much of the source as has been read. */
  lemma StateHolds(first: Store, last: Store, states: seq<Store>, src: string, dst: string, r: Outcome, k: nat)
    requires first.Valid() && Explains(first, last, states, src, dst, r) && k < |states|
    ensures src in first.names && Held(first, states[k], src, dst)
  {
    var source := Source(first, src, dst);
    assert source[..|source|] == source;
    if k < |states| - 1 {
      assert InTurn(first, states[k], states[k], src, dst);
      var n: nat :| n <= |source| && states[k] == Partial(first, dst, source[..n]);
      PartialHolds(first, src, dst, n);
    } else {
      LastHolds(first, last, states, src, dst, r);
    }
  }

  /** None of these texts is new where cuts are harmless. */
  lemma TextsHarmless(first: Store, s: Store, src: string, dst: string)
    requires first.Valid() && src in first.names && Held(first, s, src, dst)
    requires CutsHarmless(first, src, dst) && !Apart(first, src, dst)
    ensures s.Content(dst) == first.Content(dst) || s.Content(dst) == first.Content(src)
  {
    var source := Source(first, src, dst);
    assert forall n: nat | n <= |source| <= 1 :: source[..n] == "" || source[..n] == source;
  }

  lemma HarmlessCut(first: Store, last: Store, states: seq<Store>, src: string, dst: string, r: Outcome, k: nat)
    requires first.Valid() && Explains(first, last, states, src, dst, r) && k < |states|
    requires CutsHarmless(first, src, dst)
    ensures states[k].Content(dst) == first.Content(dst) || states[k].Content(dst) == first.Content(src)
  {
    if Apart(first, src, dst) {
      AlwaysOldOrComplete(first, last, states, src, dst, r, k);
    } else {
      StateHolds(first, last, states, src, dst, r, k);
      TextsHarmless(first, states[k], src, dst);
    }
  }

  /** The installation of an emptied source succeeds. */
  lemma HarmfulSuccess(first: Store, src: string, dst: string)
      returns (last: Store, states: seq<Store>, r: Outcome, k: nat)
    requires first.Valid() && first.SameFile(Tmp(dst), src)
    requires first.Content(src) != Some("") && first.Content(dst) != Some("")
    ensures Explains(first, last, states, src, dst, r) && k < |states|
    ensures states[k].Content(dst) != first.Content(dst) && states[k].Content(dst) != first.Content(src)
  {
    var start := Partial(first, dst, "");
    last := Renamed(start, Tmp(dst), dst);
    states, r, k := [start, last], Installed, 1;
    RenamedContent(first, dst, "");
    assert Source(first, src, dst) == "" && ""[..0] == "";
    assert UpTo(first, start, src, dst, 0) && InTurn(first, start, start, src, dst);
    hide Partial, Renamed;
  }

  /** The copy into the destination itself is cut off after n characters. */
  lemma HarmfulCut(first: Store, src: string, dst: string, n: nat)
      returns (last: Store, states: seq<Store>, r: Outcome, k: nat)
    requires first.Valid() && src in first.names && first.SameFile(Tmp(dst), dst) && n <= |Source(first, src, dst)|
    requires var text := Some(Source(first, src, dst)[..n]);
      text != first.Content(dst) && text != first.Content(src)
    ensures Explains(first, last, states, src, dst, r) && k < |states|
    ensures states[k].Content(dst) != first.Content(dst) && states[k].Content(dst) != first.Content(src)
  {
    var source := Source(first, src, dst);
    var start, cut := Partial(first, dst, source[..0]), Partial(first, dst, source[..n]);
    PartialTmp(first, dst, source[..n]);
    last, states, r, k := cut, [start, cut, cut], Failed(Copying, false), 1;
    assert last == Cleaned(cut, dst, false);
    assert UpTo(first, start, src, dst, 0) && UpTo(first, start, src, dst, n) && UpTo(first, cut, src, dst, n);
    assert InTurn(first, start, start, src, dst) && InTurn(first, start, cut, src, dst);
    assert InTurn(first, cut, cut, src, dst);
    hide Partial, UpTo, InTurn;
  }

  /** Otherwise there is a run that shows it. */
  lemma HarmfulRun(first: Store, src: string, dst: string)
      returns (last: Store, states: seq<Store>, r: Outcome, k: nat)
    requires first.Valid() && !CutsHarmless(first, src, dst)
    ensures Explains(first, last, states, src, dst, r) && k < |states|
    ensures states[k].Content(dst) != first.Content(dst) && states[k].Content(dst) != first.Content(src)
  {
    if !first.SameFile(Tmp(dst), dst) {
      last, states, r, k := HarmfulSuccess(first, src, dst);
    } else {
      last, states, r, k := HarmfulCut(first, src, dst, if first.Content(dst) == Some("") then 1 else 0);
    }
  }

  /** An installation is crash-safe exactly then, which can be told before it begins. */
  lemma CrashSafeIff(first: Store, src: string, dst: string)
    requires first.Valid()
    ensures CrashSafe(first, src, dst) <==> CutsHarmless(first, src, dst)
  {
    hide Explains, Apart;
    if CutsHarmless(first, src, dst) {
      forall last: Store, states: seq<Store>, r: Outcome, k: int
        | Explains(first, last, states, src, dst, r) && 0 <= k < |states|
        ensures states[k].Content(dst) == first.Content(dst) || states[k].Content(dst) == first.Content(src)
      {
        HarmlessCut(first, last, states, src, dst, r, k);
      }
    } else {
      var last, states, r, k := HarmfulRun(first, src, dst);
      assert Explains(first, last, states, src, dst, r) && 0 <= k < |states|;
    }
  }

  /** Where neither file is empty, that is: exactly when the temporary name is apart. */
  lemma CrashSafeIffApart(first: Store, src: string, dst: string)
    requires first.Valid() && src in first.names
    requires first.Content(src) != Some("") && first.Content(dst) != Some("")
    ensures CrashSafe(first, src, dst) <==> Apart(first, src, dst)
  {
    hide CrashSafe, Apart;
    CrashSafeIff(first, src, dst);
  }

  /**
   For instance: `dst.tmp` is another name of the source. The installation reports
   success, and the destination is empty.
   */
  lemma SharedSourceInstance() returns (first: Store, last: Store, states: seq<Store>)
    ensures first.Valid() && first.SameFile(Tmp("dst"), "src") && first.Content("src") == Some("x")
    ensures Explains(first, last, states, "src", "dst", Installed) && last.Content("dst") == Some("")
  {
    first := Store(map["src" := 0, "dst.tmp" := 0], map[0 := "x"], {0}, 1);
    assert Tmp("dst") == "dst.tmp";
    assert Source(first, "src", "dst") == "" && ""[..0] == "";
    var start := Partial(first, "dst", "");
    last := Renamed(start, "dst.tmp", "dst");
    states := [start, last];
    RenamedContent(first, "dst", "");
    assert UpTo(first, start, "src", "dst", 0) && InTurn(first, start, start, "src", "dst");
  }

  /** And: `dst.tmp` is another name of the destination. A failed copy leaves the destination empty. */
  lemma SharedDestinationInstance() returns (first: Store, last: Store, states: seq<Store>)
    ensures first.Valid() && first.SameFile(Tmp("dst"), "dst") && first.Content("dst") == Some("old")
    ensures Explains(first, last, states, "src", "dst", Failed(Copying, true)) && last.Content("dst") == Some("")
  {
    first := Store(map["src" := 0, "dst" := 1, "dst.tmp" := 1], map[0 := "x", 1 := "old"], {0, 1}, 2);
    assert Tmp("dst") == "dst.tmp";
    var source := Source(first, "src", "dst");
    assert source[..0] == "";
    var start := Partial(first, "dst", "");
    last := Cleaned(start, "dst", true);
    states := [start, last];
    PartialTmp(first, "dst", "");
    assert UpTo(first, start, "src", "dst", 0) && InTurn(first, start, start, "src", "dst");
  }
}
