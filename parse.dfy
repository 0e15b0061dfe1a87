/**
 * Removing a Markdown code fence from an LLM reply (src/tools/parse.rs):
 * the reply is trimmed; if it then starts with three backticks, its first
 * and last lines are dropped and the rest is joined with newlines.
 * The source slices its line list from the second to the next-to-last
 * line, which panics when a fenced reply has a single line; the model
 * returns `None` for that case.
 */
module Parse {
  import opened Wrappers

  // ---------------------------------------------------------------------
  // Trimming
  // ---------------------------------------------------------------------

  /** The Unicode `White_Space` property, which `str::trim` removes. */
  predicate IsWhitespace(c: char)
  {
    var n := c as int;
    (9 <= n <= 13) || n == 0x20 || n == 0x85 || n == 0xA0 || n == 0x1680
    || (0x2000 <= n <= 0x200A) || n == 0x2028 || n == 0x2029 || n == 0x202F
    || n == 0x205F || n == 0x3000
  }

  /** `r` is `s` less a whitespace prefix, and does not start with whitespace. */
  predicate LeadingDropped(s: string, r: string)
  {
    && |r| <= |s| && r == s[|s| - |r|..]
    && (forall i :: 0 <= i < |s| - |r| ==> IsWhitespace(s[i]))
    && (r == [] || !IsWhitespace(r[0]))
  }

  /** `r` is `s` less a whitespace suffix, and does not end with whitespace. */
  predicate TrailingDropped(s: string, r: string)
  {
    && |r| <= |s| && r == s[..|r|]
    && (forall i :: |r| <= i < |s| ==> IsWhitespace(s[i]))
    && (r == [] || !IsWhitespace(r[|r| - 1]))
  }

  /** `trim_start`: drops the leading whitespace and nothing else. */
  function TrimStart(s: string): (r: string)
    ensures LeadingDropped(s, r)
  {
    if |s| > 0 && IsWhitespace(s[0]) then TrimStart(s[1..]) else s
  }

  /** `trim_end`: drops the trailing whitespace and nothing else. */
  function TrimEnd(s: string): (r: string)
    ensures TrailingDropped(s, r)
    decreases |s|
  {
    if |s| > 0 && IsWhitespace(s[|s| - 1]) then TrimEnd(s[..|s| - 1]) else s
  }

  /** `r` is `s` less the whitespace before position `i` and from position `j` on. */
  predicate WhitespaceEnds(s: string, r: string, i: nat, j: nat)
  {
    && i <= j <= |s| && r == s[i..j]
    && (forall k :: 0 <= k < i ==> IsWhitespace(s[k]))
    && (forall k :: j <= k < |s| ==> IsWhitespace(s[k]))
  }

  /**
   * `trim`: the input less a whitespace prefix and a whitespace suffix,
   * and neither end of the result is whitespace, so both removed parts are
   * as long as they can be.
   */
  function Trim(s: string): (r: string)
    ensures exists i: nat, j: nat :: WhitespaceEnds(s, r, i, j)
    ensures r == [] || (!IsWhitespace(r[0]) && !IsWhitespace(r[|r| - 1]))
  {
    var t := TrimStart(s);
    var r := TrimEnd(t);
    WhitespaceEndsOf(s, t, r);
    r
  }

  /** Removing a whitespace prefix and then a whitespace suffix removes both ends at once. */
  lemma WhitespaceEndsOf(s: string, t: string, r: string)
    requires LeadingDropped(s, t) && TrailingDropped(t, r)
    ensures exists i: nat, j: nat :: WhitespaceEnds(s, r, i, j)
    ensures r == [] || (!IsWhitespace(r[0]) && !IsWhitespace(r[|r| - 1]))
  {
    var i := |s| - |t|;
    assert r == s[i..i + |r|];
    forall k | i + |r| <= k < |s|
      ensures IsWhitespace(s[k])
    {
      assert s[k] == t[k - i];
    }
    assert WhitespaceEnds(s, r, i, i + |r|);
  }

  /** The empty result means the whole input was whitespace. */
  lemma TrimEmpty(s: string)
    requires Trim(s) == []
    ensures forall k :: 0 <= k < |s| ==> IsWhitespace(s[k])
  {
    var i: nat, j: nat :| WhitespaceEnds(s, Trim(s), i, j);
  }

  /** A string whose ends are not whitespace is its own trim. */
  lemma TrimOfTrimmed(s: string)
    requires s == [] || (!IsWhitespace(s[0]) && !IsWhitespace(s[|s| - 1]))
    ensures Trim(s) == s
  {
  }

  lemma TrimIdempotent(s: string)
    ensures Trim(Trim(s)) == Trim(s)
  {
    TrimOfTrimmed(Trim(s));
  }

  /** Trimming one letter padded unevenly gives the letter. */
  lemma TrimExample()
    ensures Trim(" " + "x" + "  ") == "x"
  {
    var s := " " + "x" + "  ";
    var i: nat, j: nat :| WhitespaceEnds(s, Trim(s), i, j);
    assert !IsWhitespace(s[1]);
  }

  // ---------------------------------------------------------------------
  // Lines
  // ---------------------------------------------------------------------

  /** The position of the first newline, if there is one. */
  function IndexOfNewline(s: string): (r: Option<nat>)
    ensures r.None? <==> '\n' !in s
    ensures r.Some? ==> r.value < |s| && s[r.value] == '\n' && '\n' !in s[..r.value]
  {
    if s == [] then None
    else if s[0] == '\n' then Some(0)
    else match IndexOfNewline(s[1..])
      case None => None
      case Some(i) => assert s[1..][..i] == s[1..i + 1]; Some(i + 1)
  }

  /** A line ended by "\r\n" loses its carriage return. */
  function DropCarriageReturn(l: string): string
  {
    if |l| > 0 && l[|l| - 1] == '\r' then l[..|l| - 1] else l
  }

  /**
   * `str::lines`: the pieces between newlines, each without a carriage
   * return before its newline; a final newline ends the last line rather
   * than starting an empty one, and the empty string has no lines.
   */
  function Lines(s: string): (r: seq<string>)
    ensures s != [] ==> |r| >= 1
    ensures s != [] && '\n' !in s ==> r == [s]
    ensures forall k :: 0 <= k < |r| ==> '\n' !in r[k]
    decreases |s|
  {
    if s == [] then []
    else match IndexOfNewline(s)
      case None => [s]
      case Some(i) => [DropCarriageReturn(s[..i])] + Lines(s[i + 1..])
  }

  /** A non-empty text that does not end in a newline has one more line than it has newlines. */
  lemma {:induction false} OneLineIffNoNewline(s: string)
    requires s != [] && s[|s| - 1] != '\n'
    ensures |Lines(s)| == 1 <==> '\n' !in s
    decreases |s|
  {
    match IndexOfNewline(s)
    case None =>
    case Some(i) =>
      var rest := s[i + 1..];
      assert rest != [] && rest[|rest| - 1] == s[|s| - 1];
      assert |Lines(rest)| >= 1;
  }

  /** `join("\n")`. */
  function JoinLines(ls: seq<string>): (r: string)
    ensures |ls| <= 1 ==> r == (if ls == [] then [] else ls[0])
  {
    if ls == [] then []
    else if |ls| == 1 then ls[0]
    else ls[0] + "\n" + JoinLines(ls[1..])
  }

  /** Joining a first line to at least one more puts a newline after it. */
  lemma JoinCons(l: string, ls: seq<string>)
    requires ls != []
    ensures JoinLines([l] + ls) == l + "\n" + JoinLines(ls)
  {
    assert ([l] + ls)[1..] == ls;
  }

  /**
   * Splitting into lines and joining them again gives back a text without
   * carriage returns that does not end in a newline.
   */
  lemma {:induction false} JoinOfLines(s: string)
    requires '\r' !in s && (s == [] || s[|s| - 1] != '\n')
    ensures JoinLines(Lines(s)) == s
    decreases |s|
  {
    var n := IndexOfNewline(s);
    if n.Some? {
      var l, rest := s[..n.value], s[n.value + 1..];
      assert s == l + "\n" + rest by {
        assert s == s[..n.value] + [s[n.value]] + s[n.value + 1..];
      }
      assert rest != [] && rest[|rest| - 1] == s[|s| - 1];
      assert '\r' !in rest by {
        forall k | 0 <= k < |rest|
          ensures rest[k] != '\r'
        {
          assert rest[k] == s[n.value + 1 + k];
        }
      }
      assert DropCarriageReturn(l) == l by {
        if l != [] { assert l[|l| - 1] == s[n.value - 1]; }
      }
      LinesAfterLine(l, rest);
      JoinOfLines(rest);
      JoinCons(l, Lines(rest));
    }
  }

  /**
   * Joining plain lines and splitting the text again gives back the lines,
   * unless the last one is empty (the final newline it leaves is dropped).
   */
  lemma {:induction false} LinesOfJoin(ls: seq<string>)
    requires forall k :: 0 <= k < |ls| ==> PlainLine(ls[k])
    requires ls != [] ==> ls[|ls| - 1] != []
    ensures Lines(JoinLines(ls)) == ls
    decreases |ls|
  {
    if |ls| >= 2 {
      var rest := ls[1..];
      assert PlainLine(ls[0]);
      LinesOfJoin(rest);
      LinesAfterLine(ls[0], JoinLines(rest));
      assert [ls[0]] + rest == ls;
    } else if |ls| == 1 {
      assert PlainLine(ls[0]);
    }
  }

  // ---------------------------------------------------------------------
  // Fences
  // ---------------------------------------------------------------------

  const Fence := "```"

  predicate StartsWith(s: string, prefix: string)
  {
    |prefix| <= |s| && s[..|prefix|] == prefix
  }

  /**
   * `strip_code_fences`: a trimmed reply that opens with a fence loses its
   * first and last lines; any other reply is only trimmed. `None` stands
   * for the panic on a fenced reply of a single line.
   */
  function StripCodeFences(response: string): (r: Option<string>)
    ensures r.None? <==> StartsWith(Trim(response), Fence) && '\n' !in Trim(response)
  {
    var trimmed := Trim(response);
    assert trimmed == [] || trimmed[|trimmed| - 1] != '\n' by { assert IsWhitespace('\n'); }
    StripTrimmed(trimmed)
  }

  /** The work after trimming, on a text that does not end in a newline. */
  function StripTrimmed(trimmed: string): (r: Option<string>)
    requires trimmed == [] || trimmed[|trimmed| - 1] != '\n'
    ensures r.None? <==> StartsWith(trimmed, Fence) && '\n' !in trimmed
  {
    if StartsWith(trimmed, Fence) then
      var lines := Lines(trimmed);
      OneLineIffNoNewline(trimmed);
      if |lines| < 2 then None
      else Some(JoinLines(lines[1..|lines| - 1]))
    else Some(trimmed)
  }

  /** A reply without a fence comes back trimmed, and stripping it again changes nothing. */
  lemma StripUnfencedIdempotent(response: string)
    requires !StartsWith(Trim(response), Fence)
    ensures StripCodeFences(response) == Some(Trim(response))
    ensures StripCodeFences(Trim(response)) == StripCodeFences(response)
  {
    TrimIdempotent(response);
  }

  /** A lone fence is a fenced reply of one line: the source panics on it. */
  lemma StripLoneFencePanics()
    ensures StripCodeFences(Fence) == None
  {
    assert Fence == [] + (Fence + []) + [];
    StripOpeningFencePanics([], [], []);
  }

  /**
   * So is an opening fence with an info string and nothing after it,
   * whatever whitespace precedes and follows it.
   */
  lemma StripOpeningFencePanics(lang: string, padL: string, padR: string)
    requires PlainInfo(lang) && (lang == [] || !IsWhitespace(lang[|lang| - 1]))
    requires Blank(padL) && Blank(padR)
    ensures StripCodeFences(padL + (Fence + lang) + padR) == None
  {
    var head := Fence + lang;
    assert head[0] == '`';
    assert !IsWhitespace(head[|head| - 1]) by {
      if lang == [] { assert head[|head| - 1] == '`'; } else { assert head[|head| - 1] == lang[|lang| - 1]; }
    }
    PaddedTrim(padL, head, padR);
    assert head[..3] == Fence;
    assert '\n' !in Fence;
    assert '\n' !in head;
  }

  /** Each line ended by a newline, as a fenced block writes its body. */
  function Terminated(body: seq<string>): string
  {
    if body == [] then [] else body[0] + "\n" + Terminated(body[1..])
  }

  /** A line that `Lines` gives back unchanged: no newline, no final carriage return. */
  predicate PlainLine(l: string)
  {
    '\n' !in l && (l == [] || l[|l| - 1] != '\r')
  }

  lemma {:induction false} FirstNewline(l: string, rest: string)
    requires '\n' !in l
    ensures IndexOfNewline(l + "\n" + rest) == Some(|l|)
    decreases |l|
  {
    var s := l + "\n" + rest;
    if l != [] {
      assert s[0] == l[0];
      assert s[1..] == l[1..] + "\n" + rest;
      FirstNewline(l[1..], rest);
    }
  }

  /** A line ended by a newline is the first line, less a carriage return before the newline; the text after it supplies the rest. */
  lemma LinesAfterLine(l: string, rest: string)
    requires '\n' !in l
    ensures Lines(l + "\n" + rest) == [DropCarriageReturn(l)] + Lines(rest)
  {
    var s := l + "\n" + rest;
    FirstNewline(l, rest);
    assert s[..|l|] == l && s[|l| + 1..] == rest;
  }

  /** Each line less a carriage return at its end, as `lines` reads a line ended by "\r\n". */
  function DropCarriageReturns(body: seq<string>): (r: seq<string>)
    ensures |r| == |body|
    ensures forall k :: 0 <= k < |body| ==> r[k] == DropCarriageReturn(body[k])
  {
    if body == [] then [] else [DropCarriageReturn(body[0])] + DropCarriageReturns(body[1..])
  }

  /** Lines with no final carriage return are read back unchanged. */
  lemma PlainLinesKept(body: seq<string>)
    requires forall k :: 0 <= k < |body| ==> PlainLine(body[k])
    ensures DropCarriageReturns(body) == body
  {
  }

  /**
   * Splitting newline-terminated lines followed by a non-empty tail gives
   * the lines, each less a carriage return before its newline, then the
   * tail's lines.
   */
  lemma {:induction false} LinesOfTerminated(body: seq<string>, tail: string)
    requires forall k :: 0 <= k < |body| ==> '\n' !in body[k]
    requires tail != []
    ensures Lines(Terminated(body) + tail) == DropCarriageReturns(body) + Lines(tail)
    decreases |body|
  {
    if body != [] {
      var l := body[0];
      var rest := Terminated(body[1..]) + tail;
      assert Terminated(body) + tail == l + "\n" + rest;
      LinesAfterLine(l, rest);
      LinesOfTerminated(body[1..], tail);
      ConsAssoc(DropCarriageReturn(l), DropCarriageReturns(body[1..]), Lines(tail));
    } else {
      assert Terminated(body) + tail == tail;
    }
  }

  /** Putting an element in front of a concatenation. */
  lemma ConsAssoc<T>(x: T, a: seq<T>, b: seq<T>)
    ensures [x] + (a + b) == ([x] + a) + b
  {
  }

  /** The info string after the opening fence: a single line with no ending whitespace. */
  predicate PlainInfo(lang: string)
  {
    '\n' !in lang
  }

  /**
   * A fenced block: the fence and info string, the body's lines each ended
   * by a newline, then a last line, which is meant to be the closing fence
   * but can be any non-empty line.
   */
  function FencedBlock(lang: string, body: seq<string>, last: string): string
  {
    Fence + lang + "\n" + Terminated(body) + last
  }

  /** Text made only of whitespace. */
  predicate Blank(pad: string)
  {
    forall k :: 0 <= k < |pad| ==> IsWhitespace(pad[k])
  }

  /** A last line that survives trimming: one line, not empty, not ending in whitespace. */
  predicate LastLine(last: string)
  {
    '\n' !in last && last != [] && !IsWhitespace(last[|last| - 1])
  }

  /**
   * Stripping any fenced reply: whatever the info string, the whitespace
   * around the block and the last line, the result is the body's lines,
   * each less a carriage return before its newline, joined with newlines.
   * The last line is dropped whether it is a closing fence or not.
   */
  lemma StripFencedBlock(lang: string, body: seq<string>, last: string, padL: string, padR: string)
    requires PlainInfo(lang) && forall k :: 0 <= k < |body| ==> '\n' !in body[k]
    requires LastLine(last)
    requires Blank(padL) && Blank(padR)
    ensures StripCodeFences(padL + FencedBlock(lang, body, last) + padR) == Some(JoinLines(DropCarriageReturns(body)))
  {
    var block := FencedBlock(lang, body, last);
    TrimFencedBlock(lang, body, last, padL, padR);
    StripBlock(lang, body, last);
    StripOfTrim(padL + block + padR, block);
  }

  /** Trimming a padded fenced block leaves the block. */
  lemma TrimFencedBlock(lang: string, body: seq<string>, last: string, padL: string, padR: string)
    requires LastLine(last) && Blank(padL) && Blank(padR)
    ensures Trim(padL + FencedBlock(lang, body, last) + padR) == FencedBlock(lang, body, last)
  {
    FencedBlockEnds(lang, body, last);
    PaddedTrim(padL, FencedBlock(lang, body, last), padR);
  }

  /** A fenced block starts with a backtick and ends where its last line does. */
  lemma FencedBlockEnds(lang: string, body: seq<string>, last: string)
    requires last != []
    ensures var block := FencedBlock(lang, body, last);
      block != [] && block[0] == '`' && block[|block| - 1] == last[|last| - 1]
  {
  }

  /** A well-formed fenced block of plain lines strips to exactly its body joined with newlines. */
  lemma StripClosedBlock(lang: string, body: seq<string>, padL: string, padR: string)
    requires PlainInfo(lang) && forall k :: 0 <= k < |body| ==> PlainLine(body[k])
    requires Blank(padL) && Blank(padR)
    ensures StripCodeFences(padL + FencedBlock(lang, body, Fence) + padR) == Some(JoinLines(body))
  {
    assert StripCodeFences(padL + FencedBlock(lang, body, Fence) + padR) == Some(JoinLines(DropCarriageReturns(body))) by {
      FenceIsLastLine();
      StripFencedBlock(lang, body, Fence, padL, padR);
    }
    assert DropCarriageReturns(body) == body by {
      PlainLinesKept(body);
    }
  }

  lemma FenceIsLastLine()
    ensures LastLine(Fence)
  {
    assert Fence[2] == '`';
  }

  /** A fence over one line with no closing fence strips to the empty text: that line is taken for the closing one. */
  lemma StripDropsUnclosedLine()
    ensures StripCodeFences("```\ncode") == Some("")
  {
    assert "```\ncode" == [] + FencedBlock("", [], "code") + [];
    assert LastLine("code") by { assert "code"[3] == 'e'; }
    StripFencedBlock("", [], "code", [], []);
  }

  /** Stripping works on the trimmed text. */
  lemma StripOfTrim(s: string, t: string)
    requires Trim(s) == t
    ensures t == [] || t[|t| - 1] != '\n'
    ensures StripCodeFences(s) == StripTrimmed(t)
  {
    assert IsWhitespace('\n');
  }

  /** The same, on the block itself. */
  lemma StripBlock(lang: string, body: seq<string>, last: string)
    requires PlainInfo(lang) && forall k :: 0 <= k < |body| ==> '\n' !in body[k]
    requires LastLine(last)
    ensures StripTrimmed(FencedBlock(lang, body, last)) == Some(JoinLines(DropCarriageReturns(body)))
  {
    var block := FencedBlock(lang, body, last);
    assert block[|block| - 1] == last[|last| - 1];
    assert StartsWith(block, Fence) by {
      assert forall k :: 0 <= k < 3 ==> block[k] == Fence[k];
    }
    LinesOfFencedBlock(lang, body, last);
    StripOfLines(block, DropCarriageReturn(Fence + lang), DropCarriageReturns(body), last);
  }

  /** A fenced text whose lines are a first line, the middle ones and a last line strips to the middle ones joined. */
  lemma StripOfLines(t: string, first: string, mid: seq<string>, last: string)
    requires StartsWith(t, Fence) && t[|t| - 1] != '\n'
    requires Lines(t) == [first] + (mid + [last])
    ensures StripTrimmed(t) == Some(JoinLines(mid))
  {
    Middle(first, mid, last);
  }

  /** The lines of a fenced block: the opening line, the body's lines less their carriage returns, the last line. */
  lemma LinesOfFencedBlock(lang: string, body: seq<string>, last: string)
    requires PlainInfo(lang) && forall k :: 0 <= k < |body| ==> '\n' !in body[k]
    requires '\n' !in last && last != []
    ensures Lines(FencedBlock(lang, body, last)) == [DropCarriageReturn(Fence + lang)] + (DropCarriageReturns(body) + [last])
  {
    var head := Fence + lang;
    assert '\n' !in head by {
      assert '\n' !in Fence;
    }
    assert FencedBlock(lang, body, last) == head + "\n" + (Terminated(body) + last) by {
      Assoc(head + "\n", Terminated(body), last);
    }
    LinesAfterLine(head, Terminated(body) + last);
    LinesOfTerminated(body, last);
  }

  /** The lines strictly between the first and the last. */
  lemma Middle<T>(first: T, mid: seq<T>, last: T)
    ensures var ls := [first] + (mid + [last]); ls[1..|ls| - 1] == mid
  {
  }

  /** Whitespace on either side is exactly what trimming removes from a block with non-blank ends. */
  lemma PaddedTrim(padL: string, block: string, padR: string)
    requires Blank(padL) && Blank(padR)
    requires block != [] && !IsWhitespace(block[0]) && !IsWhitespace(block[|block| - 1])
    ensures Trim(padL + block + padR) == block
  {
    assert (block + padR)[0] == block[0];
    TrimStartPadded(padL, block + padR);
    Assoc(padL, block, padR);
    TrimEndPadded(block, padR);
  }

  lemma Assoc<T>(a: seq<T>, b: seq<T>, c: seq<T>)
    ensures a + b + c == a + (b + c)
  {
  }

  lemma {:induction false} TrimStartPadded(pad: string, s: string)
    requires Blank(pad)
    requires s != [] && !IsWhitespace(s[0])
    ensures TrimStart(pad + s) == s
    decreases |pad|
  {
    if pad != [] {
      assert (pad + s)[1..] == pad[1..] + s;
      TrimStartPadded(pad[1..], s);
    } else {
      assert pad + s == s;
    }
  }

  lemma {:induction false} TrimEndPadded(s: string, pad: string)
    requires Blank(pad)
    requires s != [] && !IsWhitespace(s[|s| - 1])
    ensures TrimEnd(s + pad) == s
    decreases |pad|
  {
    if pad != [] {
      var t := s + pad;
      assert t[..|t| - 1] == s + pad[..|pad| - 1];
      TrimEndPadded(s, pad[..|pad| - 1]);
    } else {
      assert s + pad == s;
    }
  }
}
