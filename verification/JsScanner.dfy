/** The JavaScript scanner that blanks comments, strings, regular expressions and
    template text while keeping every offset (scripts/audit-example-pairs.py). */
module JsScanner {
  import opened Wrappers

  const FILL := '~'

  /** `str.isspace` on one character. */
  predicate IsSpace(c: char) {
    || '\t' <= c <= '\r'
    || '\U{1c}' <= c <= ' '
    || c == '\U{85}' || c == '\U{a0}' || c == '\U{1680}'
    || '\U{2000}' <= c <= '\U{200a}'
    || c == '\U{2028}' || c == '\U{2029}' || c == '\U{202f}' || c == '\U{205f}' || c == '\U{3000}'
  }

  function BlankChar(c: char): char { if c == '\n' then c else FILL }

  function Blank(s: string): string { seq(|s|, i requires 0 <= i < |s| => BlankChar(s[i])) }

  function Min(a: nat, b: nat): nat { if a < b then a else b }

  // ---- the ends the scanner looks for, from index `j` on ----

  /** The first newline, or the end. */
  function LineEnd(s: string, j: nat): (k: nat)
    requires j <= |s|
    ensures j <= k <= |s|
    decreases |s| - j
  {
    if j == |s| || s[j] == '\n' then j else LineEnd(s, j + 1)
  }

  /** Just past the first star-slash, or the end. */
  function CommentEnd(s: string, j: nat): (k: nat)
    requires j <= |s|
    ensures j <= k <= |s|
    decreases |s| - j
  {
    if j + 1 >= |s| then |s|
    else if s[j] == '*' && s[j + 1] == '/' then j + 2
    else CommentEnd(s, j + 1)
  }

  /** Where a string's closing quote is, or at or past the end. */
  function StringEnd(s: string, quote: char, j: nat): (k: nat)
    ensures j <= k
    ensures k < |s| ==> s[k] == quote
    decreases |s| - j
  {
    if j >= |s| || s[j] == quote then j else StringEnd(s, quote, j + if s[j] == '\\' then 2 else 1)
  }

  /** Where a regular expression's closing slash is, or a newline or the end. */
  function RegexEnd(s: string, j: nat, inClass: bool): (k: nat)
    ensures j <= k
    decreases |s| - j
  {
    if j >= |s| then j
    else if s[j] == '\\' then RegexEnd(s, j + 2, inClass)
    else if s[j] == '[' then RegexEnd(s, j + 1, true)
    else if s[j] == ']' then RegexEnd(s, j + 1, false)
    else if s[j] == '/' && !inClass then j
    else if s[j] == '\n' then j
    else RegexEnd(s, j + 1, inClass)
  }

  const BEFORE_REGEX := "(,=:[!&|?{};+-*%~^<>"

  /** The last code character seen, if any: what tells a division from a regex. */
  type Previous = Option<char>

  predicate MayStartRegex(prev: Previous) { prev.None? || prev.value in BEFORE_REGEX }

  function After(prev: Previous, c: char): Previous { if IsSpace(c) then prev else Some(c) }

  predicate ClosesHole(templates: seq<int>, depth: int) {
    templates != [] && templates[|templates| - 1] == depth
  }

  predicate StartsWith(s: string, a: char, b: char) { |s| > 1 && s[0] == a && s[1] == b }

  /** The mask of the text from here on, in code: `templates` holds, for each
      template literal whose hole we are in, the brace depth its hole closes at. */
  function Scan(s: string, prev: Previous, depth: int, templates: seq<int>): string
    decreases |s|
  {
    if s == [] then []
    else
      var c := s[0];
      if StartsWith(s, '/', '/') then
        var j := LineEnd(s, 0);
        assert LineEnd(s, 0) == LineEnd(s, 1);
        Blank(s[..j]) + Scan(s[j..], prev, depth, templates)
      else if StartsWith(s, '/', '*') then
        var j := CommentEnd(s, 2);
        Blank(s[..j]) + Scan(s[j..], prev, depth, templates)
      else if c == '"' || c == '\'' then
        var j := Min(StringEnd(s, c, 1) + 1, |s|);
        Blank(s[..j]) + Scan(s[j..], Some('x'), depth, templates)
      else if c == '`' then [FILL] + Literal(s[1..], depth, templates)
      else if c == '{' then [c] + Scan(s[1..], Some(c), depth + 1, templates)
      else if c == '}' then
        if ClosesHole(templates, depth) then [FILL] + Literal(s[1..], depth, templates[..|templates| - 1])
        else [c] + Scan(s[1..], Some(c), depth - 1, templates)
      else if c == '/' && MayStartRegex(prev) then
        var j := RegexEnd(s, 1, false);
        if j < |s| && s[j] == '/' then Blank(s[..j + 1]) + Scan(s[j + 1..], Some('x'), depth, templates)
        else [c] + Scan(s[1..], Some(c), depth, templates)
      else [c] + Scan(s[1..], After(prev, c), depth, templates)
  }

  /** The mask of the text from here on, in a template literal's own text. */
  function Literal(s: string, depth: int, templates: seq<int>): string
    decreases |s|
  {
    if s == [] then []
    else if s[0] == '\\' then
      var j := Min(2, |s|);
      Blank(s[..j]) + Literal(s[j..], depth, templates)
    else if s[0] == '`' then [FILL] + Scan(s[1..], Some('x'), depth, templates)
    else if StartsWith(s, '$', '{') then
      Blank(s[..2]) + Scan(s[2..], Some('x'), depth, templates + [depth])
    else [BlankChar(s[0])] + Literal(s[1..], depth, templates)
  }

  function Strip(src: string): string { Scan(src, None, 0, []) }

  // ---- every text keeps its offsets ----

  /** `m` is `s` with some characters other than newlines filled over. */
  ghost predicate Masks(m: string, s: string) {
    |m| == |s| && forall k :: 0 <= k < |s| ==> m[k] == s[k] || (s[k] != '\n' && m[k] == FILL)
  }

  lemma MasksJoin(m: string, s: string, j: nat, n: string)
    requires j <= |s| && Masks(m, s[..j]) && Masks(n, s[j..])
    ensures Masks(m + n, s)
  {
    forall k | 0 <= k < |s| ensures (m + n)[k] == s[k] || (s[k] != '\n' && (m + n)[k] == FILL) {
      if k < j {
        assert s[..j][k] == s[k];
      } else {
        assert s[j..][k - j] == s[k];
      }
    }
  }

  lemma {:induction false} ScanMasks(s: string, prev: Previous, depth: int, templates: seq<int>)
    ensures Masks(Scan(s, prev, depth, templates), s)
    decreases |s|
  {
    hide IsSpace, Masks;
    if s == [] {
      EmptyMasks();
    } else {
      var c := s[0];
      OneMasks(s);
      if StartsWith(s, '/', '/') {
        var j := LineEnd(s, 0);
        assert LineEnd(s, 0) == LineEnd(s, 1);
        BlankMasks(s[..j]);
        ScanMasks(s[j..], prev, depth, templates);
        MasksJoin(Blank(s[..j]), s, j, Scan(s[j..], prev, depth, templates));
      } else if StartsWith(s, '/', '*') {
        var j := CommentEnd(s, 2);
        BlankMasks(s[..j]);
        ScanMasks(s[j..], prev, depth, templates);
        MasksJoin(Blank(s[..j]), s, j, Scan(s[j..], prev, depth, templates));
      } else if c == '"' || c == '\'' {
        var j := Min(StringEnd(s, c, 1) + 1, |s|);
        BlankMasks(s[..j]);
        ScanMasks(s[j..], Some('x'), depth, templates);
        MasksJoin(Blank(s[..j]), s, j, Scan(s[j..], Some('x'), depth, templates));
      } else if c == '`' {
        LiteralMasks(s[1..], depth, templates);
        MasksJoin([FILL], s, 1, Literal(s[1..], depth, templates));
      } else if c == '{' {
        ScanMasks(s[1..], Some(c), depth + 1, templates);
        MasksJoin([c], s, 1, Scan(s[1..], Some(c), depth + 1, templates));
      } else if c == '}' {
        if ClosesHole(templates, depth) {
          var outer := templates[..|templates| - 1];
          LiteralMasks(s[1..], depth, outer);
          MasksJoin([FILL], s, 1, Literal(s[1..], depth, outer));
        } else {
          ScanMasks(s[1..], Some(c), depth - 1, templates);
          MasksJoin([c], s, 1, Scan(s[1..], Some(c), depth - 1, templates));
        }
      } else if c == '/' && MayStartRegex(prev) {
        var j := RegexEnd(s, 1, false);
        if j < |s| && s[j] == '/' {
          BlankMasks(s[..j + 1]);
          ScanMasks(s[j + 1..], Some('x'), depth, templates);
          MasksJoin(Blank(s[..j + 1]), s, j + 1, Scan(s[j + 1..], Some('x'), depth, templates));
        } else {
          ScanMasks(s[1..], Some(c), depth, templates);
          MasksJoin([c], s, 1, Scan(s[1..], Some(c), depth, templates));
        }
      } else {
        ScanMasks(s[1..], After(prev, c), depth, templates);
        MasksJoin([c], s, 1, Scan(s[1..], After(prev, c), depth, templates));
      }
    }
  }

  lemma {:induction false} LiteralMasks(s: string, depth: int, templates: seq<int>)
    ensures Masks(Literal(s, depth, templates), s)
    decreases |s|
  {
    hide Masks;
    if s == [] {
      EmptyMasks();
    } else {
      OneMasks(s);
      if s[0] == '\\' {
        var j := Min(2, |s|);
        BlankMasks(s[..j]);
        LiteralMasks(s[j..], depth, templates);
        MasksJoin(Blank(s[..j]), s, j, Literal(s[j..], depth, templates));
      } else if s[0] == '`' {
        ScanMasks(s[1..], Some('x'), depth, templates);
        MasksJoin([FILL], s, 1, Scan(s[1..], Some('x'), depth, templates));
      } else if StartsWith(s, '$', '{') {
        BlankMasks(s[..2]);
        ScanMasks(s[2..], Some('x'), depth, templates + [depth]);
        MasksJoin(Blank(s[..2]), s, 2, Scan(s[2..], Some('x'), depth, templates + [depth]));
      } else {
        LiteralMasks(s[1..], depth, templates);
        MasksJoin([BlankChar(s[0])], s, 1, Literal(s[1..], depth, templates));
      }
    }
  }

  lemma EmptyMasks()
    ensures Masks([], [])
  {
  }

  lemma BlankMasks(s: string)
    ensures Masks(Blank(s), s)
  {
  }

  lemma OneMasks(s: string)
    requires s != []
    ensures Masks([s[0]], s[..1])
    ensures Masks([BlankChar(s[0])], s[..1])
    ensures s[0] != '\n' ==> Masks([FILL], s[..1])
  {
  }

  /** For every text, whatever it is: the length is kept, newlines stay exactly
      where they are, and every other character is kept or filled over. */
  lemma OffsetsKept(src: string)
    ensures |Strip(src)| == |src|
    ensures forall k :: 0 <= k < |src| ==> (Strip(src)[k] == '\n' <==> src[k] == '\n')
    ensures forall k :: 0 <= k < |src| ==> Strip(src)[k] == src[k] || Strip(src)[k] == FILL
  {
    ScanMasks(src, None, 0, []);
  }
}
