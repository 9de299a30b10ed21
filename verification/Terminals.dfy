/** Prompting for a password on standard input with the echo turned off. */
module Terminals {
  import opened Text
  import opened Lines

  /** The text that successive reads deliver until one reports end of file, which is an empty read. */
  function Typed(chunks: seq<string>): string {
    if chunks == [] || chunks[0] == "" then "" else chunks[0] + Typed(chunks[1..])
  }

  datatype LineRead = LineRead(line: string, eof: bool, used: string, rest: seq<string>)

  /** One line: chunks are taken until one holds a newline or reports end of file. */
  function NextLine(chunks: seq<string>): (r: LineRead)
    ensures |r.rest| <= |chunks|
  {
    if chunks == [] then LineRead("", true, "", [])
    else if chunks[0] == "" then LineRead("", true, "", chunks[1..])
    else if '\n' in chunks[0] then LineRead(FirstLine(chunks[0]), false, chunks[0], chunks[1..])
    else
      var more := NextLine(chunks[1..]);
      LineRead(chunks[0] + more.line, more.eof, chunks[0] + more.used, more.rest)
  }

  /** A line of which a part has been read already. */
  function After(line: string, more: LineRead): LineRead {
    LineRead(line + more.line, more.eof, line + more.used, more.rest)
  }

  lemma {:induction false} AfterChunk(line: string, chunks: seq<string>)
    requires chunks != []
    ensures var chunk, more := chunks[0], NextLine(chunks[1..]);
      After(line, NextLine(chunks)) == if chunk == "" then LineRead(line, true, line, chunks[1..])
        else if '\n' in chunk then LineRead(line + FirstLine(chunk), false, line + chunk, chunks[1..])
        else After(line + chunk, more)
  {
    hide FirstLine;
    var chunk, more := chunks[0], NextLine(chunks[1..]);
    assert line + (chunk + more.line) == line + chunk + more.line;
    assert line + (chunk + more.used) == line + chunk + more.used;
    assert line + "" == line;
  }

  lemma AfterNothing(line: string)
    ensures After(line, NextLine([])) == LineRead(line, true, line, [])
  {
    assert line + "" == line;
  }

  lemma {:induction false} AfterAll(chunks: seq<string>)
    ensures After("", NextLine(chunks)) == NextLine(chunks)
  {
    hide NextLine;
    assert "" + NextLine(chunks).line == NextLine(chunks).line && "" + NextLine(chunks).used == NextLine(chunks).used;
  }

  lemma {:induction false} FirstLineAppend(a: string, b: string)
    ensures FirstLine(a + b) == if '\n' in a then FirstLine(a) else a + FirstLine(b)
  {
    if a == "" {
      assert a + b == b;
    } else {
      assert (a + b)[1..] == a[1..] + b;
      assert a == [a[0]] + a[1..];
      FirstLineAppend(a[1..], b);
    }
  }

  /** However the text is cut into chunks, the line is the first line of the text. */
  lemma {:induction false} NextLineIsFirst(chunks: seq<string>)
    ensures var r := NextLine(chunks);
      && r.line == FirstLine(Typed(chunks)) && r.line <= r.used <= Typed(chunks)
      && (r.eof <==> '\n' !in Typed(chunks))
      && (Typed(chunks) == "" ==> r.rest == if chunks == [] then [] else chunks[1..])
  {
    if chunks != [] && chunks[0] != "" {
      FirstLineAppend(chunks[0], Typed(chunks[1..]));
      if '\n' !in chunks[0] {
        NextLineIsFirst(chunks[1..]);
      }
    }
  }

  predicate IsPiece(chunk: string, text: string, from: nat, to: nat) {
    from < to <= |text| && chunk == text[from..to]
  }

  /** The chunks are a text cut at these places, up to the end of file. */
  predicate CutAt(chunks: seq<string>, text: string, cuts: seq<nat>) {
    && 1 <= |cuts| <= |chunks| + 1 && cuts[0] == 0 && cuts[|cuts| - 1] == |text|
    && (forall k, l | 0 <= k < |cuts| - 1 && l == k + 1 :: IsPiece(chunks[k], text, cuts[k], cuts[l]))
    && (|cuts| - 1 == |chunks| || chunks[|cuts| - 1] == "")
  }

  /** However a text is cut into reads, what was typed is the text. */
  lemma {:induction false} TypedIsText(chunks: seq<string>, text: string, cuts: seq<nat>)
    requires CutAt(chunks, text, cuts)
    ensures Typed(chunks) == text
  {
    TypedFrom(chunks, text, cuts, 0);
    assert text[cuts[0]..] == text && chunks[0..] == chunks;
  }

  lemma {:induction false} TypedFrom(chunks: seq<string>, text: string, cuts: seq<nat>, k: nat)
    requires CutAt(chunks, text, cuts) && k < |cuts| && cuts[k] <= |text|
    ensures Typed(chunks[k..]) == text[cuts[k]..]
    decreases |cuts| - k
  {
    if k < |cuts| - 1 {
      assert IsPiece(chunks[k], text, cuts[k], cuts[k + 1]);
      TypedFrom(chunks, text, cuts, k + 1);
      assert chunks[k..][1..] == chunks[k + 1..];
      assert text[cuts[k]..cuts[k + 1]] + text[cuts[k + 1]..] == text[cuts[k]..];
    }
  }

  /** Whether the two `stty` runs are found and succeed. */
  datatype Stty = Stty(found: bool, offWorks: bool, onWorks: bool) {
    predicate Quiets() {
      found && offWorks
    }
  }

  class Terminal {
    var chunks: seq<string>
    var echo: bool
    var screen: string

    /** A fresh buffered reader takes one line; what it read past the newline goes with it. */
    method ReadLine() returns (line: string, eof: bool)
      modifies `chunks, `screen
      ensures line == FirstLine(Typed(old(chunks))) && (eof <==> '\n' !in Typed(old(chunks)))
      ensures chunks == NextLine(old(chunks)).rest
      ensures screen == old(screen) + if echo then NextLine(old(chunks)).used else ""
    {
      NextLineIsFirst(chunks);
      hide FirstLine, Typed, NextLine, After;
      AfterAll(chunks);
      AfterNothing("");
      line, eof := "", false;
      var used := "";
      while !eof && '\n' !in used
        invariant old(screen) == screen && old(echo) == echo
        invariant NextLine(old(chunks))
          == if eof || '\n' in used then LineRead(line, eof, used, chunks) else After(used, NextLine(chunks))
        invariant '\n' !in used ==> line == used
        decreases |chunks|, !eof
      {
        AfterNothing(used);
        if chunks != [] {
          AfterChunk(used, chunks);
        }
        if chunks == [] || chunks[0] == "" {
          eof := true;
          chunks := if chunks == [] then [] else chunks[1..];
        } else {
          line := line + FirstLine(chunks[0]);
          used := used + chunks[0];
          chunks := chunks[1..];
        }
      }
      if echo {
        screen := screen + used;
      }
    }

    /** With the echo off nothing typed is shown, and unless turning it on again fails it ends on. */
    method ReadPasswordNoEcho(stty: Stty) returns (password: string, ok: bool)
      modifies this
      ensures ok <==> stty.Quiets() && Typed(old(chunks)) != ""
      ensures password == if ok then Answer(Typed(old(chunks))) else ""
      ensures screen == old(screen)
      ensures echo == if stty.Quiets() then stty.onWorks else old(echo)
      ensures chunks == if stty.Quiets() then NextLine(old(chunks)).rest else old(chunks)
    {
      if !stty.found {
        return "", false;
      }
      if !stty.offWorks {
        return "", false;
      }
      echo := false;
      var line, eof := ReadLine();
      if eof && line == "" {
        password, ok := "", false;
      } else {
        password, ok := TrimLine(line), true;
      }
      if stty.onWorks {
        echo := true;
      }
    }

    /**
     The answer is read quietly where that works. Otherwise, or where the quiet
     read meets the end of file at once, it is read from what follows, and shown
     while the echo is on.
     */
    method PromptSecret(caption: string, stty: Stty) returns (password: string)
      modifies this
      ensures IsAnswer(password)
      ensures !stty.Quiets() || Typed(old(chunks)) != "" ==> password == Answer(Typed(old(chunks)))
      ensures stty.Quiets() && old(chunks) != [] && Typed(old(chunks)) == "" ==>
        password == Answer(Typed(old(chunks)[1..]))
      ensures stty.Quiets() && old(chunks) == [] ==> password == ""
      ensures echo == if stty.Quiets() then stty.onWorks else old(echo)
      ensures stty.Quiets() && Typed(old(chunks)) != "" ==>
        screen == old(screen) + caption + "\n" && chunks == NextLine(old(chunks)).rest
      ensures !stty.Quiets() || Typed(old(chunks)) == "" ==>
        var left := if stty.Quiets() then NextLine(old(chunks)).rest else old(chunks);
        screen == old(screen) + caption + (if echo then NextLine(left).used else "") && chunks == NextLine(left).rest
    {
      NextLineIsFirst(chunks);
      screen := screen + caption;
      var ok: bool;
      password, ok := ReadPasswordNoEcho(stty);
      if ok {
        AnswerIsAnswer(Typed(old(chunks)));
        screen := screen + "\n";
        return;
      }
      AnswerIsAnswer(Typed(chunks));
      var line, _ := ReadLine();
      password := TrimLine(line);
    }
  }
}
