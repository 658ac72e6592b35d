/** The scanner as it runs: one pass over the text that overwrites a copy of it. */
module JsStrip {
  import opened Wrappers
  import opened JsScanner

  /** What is written so far, then the mask of what is left, is the whole mask. */
  ghost predicate OnTrack(goal: string, src: string, out: string, i: nat, rest: string) {
    && |out| == |src| && i <= |src|
    && out[i..] == src[i..]
    && goal == out[..i] + rest
  }

  /** Fills `out` over from `a` to `b`, newlines apart. */
  method BlankRange(out: array<char>, a: nat, b: nat)
    requires a <= b <= out.Length
    modifies out
    ensures out[..] == old(out[..a]) + Blank(old(out[a..b])) + old(out[b..])
  {
    for k := a to b
      invariant forall j :: 0 <= j < out.Length ==>
                  out[j] == if a <= j < k then BlankChar(old(out[j])) else old(out[j])
    {
      if out[k] != '\n' {
        out[k] := FILL;
      }
    }
    assert out[a..b] == Blank(old(out[a..b]));
    assert out[..] == out[..a] + out[a..b] + out[b..];
  }

  lemma BlankStep(goal: string, src: string, before: string, out: string, i: nat, j: nat, rest: string)
    requires i <= j <= |src| && OnTrack(goal, src, before, i, Blank(src[i..j]) + rest)
    requires out == before[..i] + Blank(before[i..j]) + before[j..]
    ensures OnTrack(goal, src, out, j, rest)
  {
    assert before[i..j] == before[i..][..j - i] == src[i..j];
    assert before[j..] == before[i..][j - i..] == src[j..];
    assert out[..j] == before[..i] + Blank(src[i..j]);
  }

  lemma WriteStep(goal: string, src: string, before: string, c: char, i: nat, rest: string)
    requires i < |src| && OnTrack(goal, src, before, i, [c] + rest)
    ensures OnTrack(goal, src, before[i := c], i + 1, rest)
  {
    assert before[i..][1..] == src[i..][1..];
    assert before[i := c][..i + 1] == before[..i] + [c];
  }

  // ---- one step of a template's literal text, at index `i` ----

  lemma EscapeStep(src: string, i: nat, j: nat, depth: int, templates: seq<int>)
    requires i < |src| && src[i] == '\\' && j == Min(i + 2, |src|)
    ensures Literal(src[i..], depth, templates) == Blank(src[i..j]) + Literal(src[j..], depth, templates)
  {
    hide Scan, Blank;
    assert src[i..][..j - i] == src[i..j] && src[i..][j - i..] == src[j..];
  }

  lemma CloseStep(src: string, i: nat, depth: int, templates: seq<int>)
    requires i < |src| && src[i] == '`'
    ensures Literal(src[i..], depth, templates) == [FILL] + Scan(src[i + 1..], Some('x'), depth, templates)
  {
    hide Scan, Blank;
    assert src[i..][1..] == src[i + 1..];
  }

  predicate OpensHole(src: string, i: nat) { i + 1 < |src| && src[i] == '$' && src[i + 1] == '{' }

  lemma HoleStep(src: string, i: nat, depth: int, templates: seq<int>)
    requires OpensHole(src, i)
    ensures Literal(src[i..], depth, templates) ==
            Blank(src[i..i + 2]) + Scan(src[i + 2..], Some('x'), depth, templates + [depth])
  {
    hide Scan, Blank;
    assert src[i..][..2] == src[i..i + 2] && src[i..][2..] == src[i + 2..];
  }

  lemma LetterStep(src: string, i: nat, depth: int, templates: seq<int>)
    requires i < |src| && src[i] != '\\' && src[i] != '`' && !OpensHole(src, i)
    ensures Literal(src[i..], depth, templates) == [BlankChar(src[i])] + Literal(src[i + 1..], depth, templates)
  {
    hide Scan, Blank;
    assert src[i..][1..] == src[i + 1..];
  }

  lemma LiteralEnds(src: string, depth: int, templates: seq<int>)
    ensures Literal(src[|src|..], depth, templates) == Scan(src[|src|..], Some('x'), depth, templates)
  {
    assert src[|src|..] == [];
  }

  /** From inside a template literal: returns where code begins again, after its
      closing backtick or in a hole, with all before it masked. */
  method TemplateBody(ghost goal: string, src: string, out: array<char>, start: nat, templates: seq<int>, depth: int)
    returns (i: nat, templates': seq<int>)
    requires start <= |src| && OnTrack(goal, src, out[..], start, Literal(src[start..], depth, templates))
    modifies out
    ensures start <= i <= |src|
    ensures OnTrack(goal, src, out[..], i, Scan(src[i..], Some('x'), depth, templates'))
  {
    hide Scan, Literal, OnTrack, Blank;
    i := start;
    templates' := templates;
    while i < |src|
      invariant start <= i <= |src|
      invariant OnTrack(goal, src, out[..], i, Literal(src[i..], depth, templates))
    {
      ghost var before := out[..];
      InStep(goal, src, out[..], i, Literal(src[i..], depth, templates));
      if src[i] == '\\' {
        var j := Min(i + 2, |src|);
        EscapeStep(src, i, j, depth, templates);
        BlankRange(out, i, j);
        BlankStep(goal, src, before, out[..], i, j, Literal(src[j..], depth, templates));
        i := j;
        continue;
      }
      if src[i] == '`' {
        CloseStep(src, i, depth, templates);
        out[i] := FILL;
        WriteStep(goal, src, before, FILL, i, Scan(src[i + 1..], Some('x'), depth, templates));
        i := i + 1;
        return;
      }
      if OpensHole(src, i) {
        HoleStep(src, i, depth, templates);
        BlankRange(out, i, i + 2);
        BlankStep(goal, src, before, out[..], i, i + 2, Scan(src[i + 2..], Some('x'), depth, templates + [depth]));
        templates' := templates + [depth];
        i := i + 2;
        return;
      }
      LetterStep(src, i, depth, templates);
      WriteStep(goal, src, before, BlankChar(src[i]), i, Literal(src[i + 1..], depth, templates));
      if out[i] != '\n' {
        out[i] := FILL;
      }
      assert out[..] == before[i := BlankChar(src[i])];
      i := i + 1;
    }
    LiteralEnds(src, depth, templates);
  }

  /** Where the string that opens at `i` closes, or at or past the end. */
  method SkipString(src: string, i: nat) returns (j: nat)
    requires i < |src|
    ensures i < j && j == i + StringEnd(src[i..], src[i], 1)
  {
    ghost var s := src[i..];
    j := i + 1;
    while j < |src| && src[j] != src[i]
      invariant i < j
      invariant StringEnd(s, src[i], 1) == StringEnd(s, src[i], j - i)
      decreases |src| - j
    {
      assert s[j - i] == src[j];
      j := j + if src[j] == '\\' then 2 else 1;
    }
    assert j < |src| ==> s[j - i] == src[j];
  }

  /** Where the regular expression that opens at `i` closes, if it does. */
  method SkipRegex(src: string, i: nat) returns (j: nat)
    requires i < |src|
    ensures i < j && j == i + RegexEnd(src[i..], 1, false)
  {
    ghost var s := src[i..];
    j := i + 1;
    var inClass := false;
    while j < |src|
      invariant i < j
      invariant RegexEnd(s, 1, false) == RegexEnd(s, j - i, inClass)
      decreases |src| - j
    {
      assert s[j - i] == src[j];
      if src[j] == '\\' {
        j := j + 2;
        continue;
      }
      if src[j] == '[' {
        inClass := true;
      } else if src[j] == ']' {
        inClass := false;
      } else if src[j] == '/' && !inClass {
        break;
      } else if src[j] == '\n' {
        break;
      }
      j := j + 1;
    }
  }

  // ---- one step of the mask, at index `i` of the text ----

  lemma CommentStep(src: string, i: nat, j: nat, prev: Previous, depth: int, templates: seq<int>)
    requires i + 1 < |src| && src[i] == '/'
    requires
      || (src[i + 1] == '/' && j == i + LineEnd(src[i..], 0))
      || (src[i + 1] == '*' && j == i + CommentEnd(src[i..], 2))
    ensures i < j <= |src|
    ensures Scan(src[i..], prev, depth, templates) == Blank(src[i..j]) + Scan(src[j..], prev, depth, templates)
  {
    var s := src[i..];
    assert LineEnd(s, 0) == LineEnd(s, 1);
    assert s[..j - i] == src[i..j] && s[j - i..] == src[j..];
  }

  lemma StringStep(src: string, i: nat, k: nat, prev: Previous, depth: int, templates: seq<int>)
    requires i < k <= |src| && (src[i] == '"' || src[i] == '\'')
    requires k == Min(i + StringEnd(src[i..], src[i], 1) + 1, |src|)
    ensures Scan(src[i..], prev, depth, templates) == Blank(src[i..k]) + Scan(src[k..], Some('x'), depth, templates)
  {
    hide Literal, Blank, LineEnd, CommentEnd, RegexEnd;
    var s := src[i..];
    assert s[..k - i] == src[i..k] && s[k - i..] == src[k..];
  }

  lemma EnterStep(src: string, i: nat, prev: Previous, depth: int, templates: seq<int>)
    requires i < |src|
    ensures src[i] == '`' ==>
              Scan(src[i..], prev, depth, templates) == [FILL] + Literal(src[i + 1..], depth, templates)
    ensures src[i] == '}' && ClosesHole(templates, depth) ==>
              Scan(src[i..], prev, depth, templates) ==
              [FILL] + Literal(src[i + 1..], depth, templates[..|templates| - 1])
  {
    assert src[i..][1..] == src[i + 1..];
  }

  lemma RegexStep(src: string, i: nat, j: nat, prev: Previous, depth: int, templates: seq<int>)
    requires i < |src| && src[i] == '/' && MayStartRegex(prev)
    requires !(i + 1 < |src| && (src[i + 1] == '/' || src[i + 1] == '*'))
    requires i < j < |src| && j == i + RegexEnd(src[i..], 1, false) && src[j] == '/'
    ensures Scan(src[i..], prev, depth, templates) ==
            Blank(src[i..j + 1]) + Scan(src[j + 1..], Some('x'), depth, templates)
  {
    var s := src[i..];
    assert s[j - i] == src[j];
    assert s[..j + 1 - i] == src[i..j + 1] && s[j + 1 - i..] == src[j + 1..];
  }

  predicate OpensComment(src: string, i: nat) {
    i + 1 < |src| && src[i] == '/' && (src[i + 1] == '/' || src[i + 1] == '*')
  }

  lemma NoRegex(src: string, i: nat, j: nat, prev: Previous)
    requires i < |src|
    requires src[i] != '/' || !MayStartRegex(prev) ||
             (i < j == i + RegexEnd(src[i..], 1, false) && !(j < |src| && src[j] == '/'))
    ensures !IsRegex(src[i..], prev)
  {
    hide RegexEnd;
    assert i < j < |src| ==> src[i..][j - i] == src[j];
  }

  /** Whether a regular expression opens and closes here. */
  predicate IsRegex(s: string, prev: Previous)
    requires s != []
  {
    s[0] == '/' && MayStartRegex(prev) && var j := RegexEnd(s, 1, false); j < |s| && s[j] == '/'
  }

  lemma KeepStep(src: string, i: nat, prev: Previous, depth: int, templates: seq<int>)
    requires i < |src| && !OpensComment(src, i)
    requires src[i] != '"' && src[i] != '\'' && src[i] != '`' && !IsRegex(src[i..], prev)
    requires !(src[i] == '}' && ClosesHole(templates, depth))
    ensures Scan(src[i..], prev, depth, templates) ==
            [src[i]] + Scan(src[i + 1..], After(prev, src[i]),
                            depth + (if src[i] == '{' then 1 else if src[i] == '}' then -1 else 0), templates)
  {
    assert src[i..][1..] == src[i + 1..];
  }

  /** The whole scanner: a new array that holds the mask of the text. */
  method Run(src: string) returns (out: array<char>)
    ensures fresh(out) && out[..] == Strip(src)
  {
    hide Scan, Literal, IsSpace, Blank, OnTrack, RegexEnd, StringEnd, CommentEnd, LineEnd, IsRegex, MayStartRegex;
    out := new char[|src|](i requires 0 <= i < |src| => src[i]);
    ghost var goal := Strip(src);
    Begin(src, out[..]);
    var i: nat, prev: Previous, depth: int, templates: seq<int> := 0, None, 0, [];
    while i < |src|
      invariant i <= |src|
      invariant OnTrack(goal, src, out[..], i, Scan(src[i..], prev, depth, templates))
    {
      ghost var before := out[..];
      var c := src[i];
      InStep(goal, src, out[..], i, Scan(src[i..], prev, depth, templates));
      if OpensComment(src, i) {
        var j := i + if src[i + 1] == '/' then LineEnd(src[i..], 0) else CommentEnd(src[i..], 2);
        CommentStep(src, i, j, prev, depth, templates);
        BlankRange(out, i, j);
        BlankStep(goal, src, before, out[..], i, j, Scan(src[j..], prev, depth, templates));
        i := j;
        continue;
      }
      if c == '"' || c == '\'' {
        var j := SkipString(src, i);
        var k := Min(j + 1, |src|);
        StringStep(src, i, k, prev, depth, templates);
        BlankRange(out, i, k);
        BlankStep(goal, src, before, out[..], i, k, Scan(src[k..], Some('x'), depth, templates));
        i, prev := k, Some('x');
        continue;
      }
      EnterStep(src, i, prev, depth, templates);
      if c == '`' || (c == '}' && ClosesHole(templates, depth)) {
        if c == '}' {
          templates := templates[..|templates| - 1];
        }
        out[i] := FILL;
        WriteStep(goal, src, before, FILL, i, Literal(src[i + 1..], depth, templates));
        i, templates := TemplateBody(goal, src, out, i + 1, templates, depth);
        prev := Some('x');
        continue;
      }
      ghost var end: nat := 0;
      if c == '/' && MayStartRegex(prev) {
        var j := SkipRegex(src, i);
        end := j;
        if j < |src| && src[j] == '/' {
          RegexStep(src, i, j, prev, depth, templates);
          BlankRange(out, i, j + 1);
          BlankStep(goal, src, before, out[..], i, j + 1, Scan(src[j + 1..], Some('x'), depth, templates));
          i, prev := j + 1, Some('x');
          continue;
        }
      }
      NoRegex(src, i, end, prev);
      KeepStep(src, i, prev, depth, templates);
      if c == '{' {
        depth := depth + 1;
      } else if c == '}' {
        depth := depth - 1;
      }
      if !IsSpace(c) {
        prev := Some(c);
      }
      WriteStep(goal, src, before, c, i, Scan(src[i + 1..], prev, depth, templates));
      assert before[i := c] == before;
      i := i + 1;
    }
    Finished(goal, src, out[..], prev, depth, templates);
  }

  lemma Begin(src: string, out: string)
    requires out == src
    ensures OnTrack(Strip(src), src, out, 0, Scan(src[0..], None, 0, []))
  {
    assert src[0..] == src && out[..0] == [];
  }

  /** What is not yet read is not yet overwritten. */
  lemma InStep(goal: string, src: string, out: string, i: nat, rest: string)
    requires OnTrack(goal, src, out, i, rest)
    ensures |out| == |src|
    ensures i < |src| ==> out[i] == src[i]
  {
    if i < |src| { assert out[i] == out[i..][0] == src[i..][0]; }
  }

  lemma Finished(goal: string, src: string, out: string, prev: Previous, depth: int, templates: seq<int>)
    requires OnTrack(goal, src, out, |src|, Scan(src[|src|..], prev, depth, templates))
    ensures out == goal
  {
    assert src[|src|..] == [] && out[..|src|] == out;
  }
}
