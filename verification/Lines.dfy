/** Reading a line and trimming it, as bufio and strings.TrimRight(line, "\r\n") do. */
module Lines {
  import opened Text

  /** The text up to and including the first newline, or all of it. */
  function FirstLine(s: string): (line: string)
    ensures line <= s
    ensures '\n' !in s ==> line == s
  {
    if s == "" then ""
    else if s[0] == '\n' then "\n"
    else
      assert s == [s[0]] + s[1..];
      [s[0]] + FirstLine(s[1..])
  }

  predicate EndsLine(c: char) {
    c == '\r' || c == '\n'
  }

  function TrimLine(s: string): (t: string)
    ensures t <= s
  {
    if s != "" && EndsLine(s[|s| - 1]) then TrimLine(s[..|s| - 1]) else s
  }

  /** What a prompt returns for the text it was given. */
  function Answer(typed: string): string {
    TrimLine(FirstLine(typed))
  }

  /** What a prompt can return at all. */
  predicate IsAnswer(s: string) {
    '\n' !in s && (s != "" ==> s[|s| - 1] != '\r')
  }

  lemma {:induction false} FirstLineOfLine(line: string, rest: string)
    requires '\n' !in line
    ensures FirstLine(line + "\n" + rest) == line + "\n"
  {
    var s := line + "\n" + rest;
    if line != "" {
      assert s[0] == line[0] && s[1..] == line[1..] + "\n" + rest;
      FirstLineOfLine(line[1..], rest);
      assert FirstLine(s) == [line[0]] + (line[1..] + "\n");
      assert [line[0]] + (line[1..] + "\n") == line + "\n";
    }
  }

  lemma {:induction false} FirstLineEnds(s: string)
    ensures forall k | 0 <= k < |FirstLine(s)| - 1 :: FirstLine(s)[k] != '\n'
    ensures '\n' in s ==> FirstLine(s) != "" && FirstLine(s)[|FirstLine(s)| - 1] == '\n'
  {
    if s != "" && s[0] != '\n' {
      FirstLineEnds(s[1..]);
      var rest := FirstLine(s[1..]);
      assert FirstLine(s) == [s[0]] + rest;
      assert forall k | 0 < k <= |rest| :: ([s[0]] + rest)[k] == rest[k - 1];
      assert s == [s[0]] + s[1..];
      hide FirstLine;
    }
  }

  lemma {:induction false} TrimLineEnds(s: string)
    ensures TrimLine(s) != "" ==> !EndsLine(TrimLine(s)[|TrimLine(s)| - 1])
    ensures forall k | |TrimLine(s)| <= k < |s| :: EndsLine(s[k])
  {
    if s != "" && EndsLine(s[|s| - 1]) {
      TrimLineEnds(s[..|s| - 1]);
      assert forall k | 0 <= k < |s| - 1 :: s[..|s| - 1][k] == s[k];
    }
  }

  lemma AnswerIsAnswer(typed: string)
    ensures IsAnswer(Answer(typed))
  {
    var line := FirstLine(typed);
    FirstLineEnds(typed);
    TrimLineEnds(line);
    var t := TrimLine(line);
    assert |t| == |line| ==> t == line;
    forall k | 0 <= k < |t| ensures t[k] != '\n' {
      assert t[k] == line[k];
    }
  }

  /**
   Writing an answer with a newline after it, whatever follows, and reading that
   as a line gives the answer back; it does so for nothing else.
   */
  lemma HandoverIff(password: string, rest: string)
    ensures Answer(password + "\n" + rest) == password <==> IsAnswer(password)
  {
    if IsAnswer(password) {
      FirstLineOfLine(password, rest);
      var line := password + "\n";
      assert line[..|line| - 1] == password && line[|line| - 1] == '\n';
      assert TrimLine(line) == TrimLine(password);
      assert password != "" ==> password[|password| - 1] != '\n';
    } else {
      AnswerIsAnswer(password + "\n" + rest);
    }
  }

  /** The line is a beginning of the text, with a newline at its end and nowhere else, or all of a text without one. */
  lemma {:induction false} FirstLineIff(s: string, line: string)
    ensures FirstLine(s) == line <==>
      || (line == s && '\n' !in s)
      || exists front, rest :: '\n' !in front && line == front + "\n" && s == front + "\n" + rest
  {
    if '\n' in s {
      var k := NewlineAt(s);
      var front, rest := s[..k], s[k + 1..];
      assert s == front + "\n" + rest;
      FirstLineOfLine(front, rest);
    }
    forall front, rest | '\n' !in front && s == front + "\n" + rest ensures FirstLine(s) == front + "\n" {
      FirstLineOfLine(front, rest);
      assert s[|front|] == '\n';
    }
    hide FirstLine;
  }

  lemma NewlineAt(s: string) returns (k: nat)
    requires '\n' in s
    ensures k < |s| && s[k] == '\n' && '\n' !in s[..k]
  {
    k := 0;
    while s[k] != '\n'
      invariant k < |s| && '\n' !in s[..k] && '\n' in s[k..]
      decreases |s| - k
    {
      assert s[..k + 1] == s[..k] + [s[k]] && s[k..] == [s[k]] + s[k + 1..];
      k := k + 1;
    }
  }

  predicate OnlyReturns(s: string) {
    forall k | 0 <= k < |s| :: s[k] == '\r'
  }

  /** The text is the answer and some carriage returns, and then nothing or a newline and whatever follows it. */
  predicate Answered(typed: string, answer: string, crs: string, rest: string) {
    OnlyReturns(crs) && (typed == answer + crs || typed == answer + crs + "\n" + rest)
  }

  lemma {:induction false} TrimReturns(answer: string, ends: string)
    requires (answer != "" ==> !EndsLine(answer[|answer| - 1])) && forall k | 0 <= k < |ends| :: EndsLine(ends[k])
    ensures TrimLine(answer + ends) == answer
    decreases |ends|
  {
    if ends == "" {
      assert answer + ends == answer;
    } else {
      var s := answer + ends;
      assert s[..|s| - 1] == answer + ends[..|ends| - 1];
      TrimReturns(answer, ends[..|ends| - 1]);
    }
  }

  /** What a prompt returns: the one possible answer that the text begins with in this way. */
  lemma {:induction false} AnswerIff(typed: string, answer: string)
    ensures Answer(typed) == answer <==> IsAnswer(answer) && exists crs, rest :: Answered(typed, answer, crs, rest)
  {
    if Answer(typed) == answer {
      var crs, rest := AnswerParts(typed);
      AnswerIsAnswer(typed);
    }
    forall crs, rest | IsAnswer(answer) && Answered(typed, answer, crs, rest) ensures Answer(typed) == answer {
      PartsAnswer(typed, answer, crs, rest);
    }
    hide Answer, IsAnswer, Answered;
  }

  lemma {:induction false} PartsAnswer(typed: string, answer: string, crs: string, rest: string)
    requires IsAnswer(answer) && Answered(typed, answer, crs, rest)
    ensures Answer(typed) == answer
  {
    var line := answer + crs;
    assert '\n' !in line;
    if typed == line {
      TrimReturns(answer, crs);
    } else {
      FirstLineOfLine(line, rest);
      assert line + "\n" == answer + (crs + "\n");
      TrimReturns(answer, crs + "\n");
    }
    hide FirstLine, TrimLine;
  }

  lemma {:induction false} TrimmedReturns(line: string)
    requires '\n' !in line
    ensures TrimLine(line + "\n") == TrimLine(line) && OnlyReturns(line[|TrimLine(line)|..])
    ensures line == TrimLine(line) + line[|TrimLine(line)|..]
  {
    var whole := line + "\n";
    assert whole[..|whole| - 1] == line;
    TrimLineEnds(line);
    var ends := line[|TrimLine(line)|..];
    forall i | 0 <= i < |ends| ensures ends[i] == '\r' {
      assert ends[i] == line[|TrimLine(line)| + i];
    }
  }

  lemma {:induction false} AnswerParts(typed: string) returns (crs: string, rest: string)
    ensures Answered(typed, Answer(typed), crs, rest)
  {
    var line := typed;
    rest := "";
    if '\n' in typed {
      var k := NewlineAt(typed);
      line, rest := typed[..k], typed[k + 1..];
      assert typed == line + "\n" + rest;
      FirstLineOfLine(line, rest);
    }
    hide FirstLine, TrimLine, OnlyReturns;
    TrimmedReturns(line);
    crs := line[|TrimLine(line)|..];
  }
}
