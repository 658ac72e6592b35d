/** The scanner agrees with a grammar of scripts: stripping the printed text of
    any tree gives the tree's mask. */
module JsGrammar {
  import opened Wrappers
  import opened JsScanner

  /** Code: characters, balanced braces, strings, comments, template literals,
      regular expressions and divisions. */
  datatype Code = Done | More(first: Piece, rest: Code)

  datatype Piece =
    | Char(c: char)
    | Group(body: Code)
    | Quoted(quote: char, atoms: seq<Atom>)
    | LineComment(text: string)
    | BlockComment(text: string)
    | Template(content: Text)
    | Regex(items: seq<Item>)
    | Divide

  /** One character of a string, or a backslash and the character it escapes. */
  datatype Atom = Plain(c: char) | Escaped(c: char)

  /** One character of a regular expression, or a class in brackets. */
  datatype Item = One(atom: Atom) | Class(atoms: seq<Atom>)

  /** A template literal's text up to its closing backtick, with holes of code. */
  datatype Text =
    | Close
    | Letter(c: char, rest: Text)
    | Escape(c: char, rest: Text)
    | Hole(body: Code, rest: Text)

  ghost predicate NoCommentEnd(text: string) {
    forall k :: 0 <= k < |text| - 1 ==> !(text[k] == '*' && text[k + 1] == '/')
  }

  /** The characters after which a slash starts a regular expression: the opening
      brackets, the separators, the closing brace and the operators but `/`. */
  ghost predicate OpensRegex(prev: Previous) {
    match prev
    case None => true
    case Some(c) =>
      || c == '(' || c == '[' || c == '{' || c == '}'
      || c == ',' || c == ';' || c == ':' || c == '?'
      || c == '=' || c == '!' || c == '&' || c == '|' || c == '^' || c == '~'
      || c == '+' || c == '-' || c == '*' || c == '%' || c == '<' || c == '>'
  }

  /** White space in the Unicode sense, one line a block. */
  predicate Whitespace(c: char) {
    || c == '\t' || c == '\n' || c == '\U{b}' || c == '\U{c}' || c == '\r' || c == ' '
    || c == '\U{1c}' || c == '\U{1d}' || c == '\U{1e}' || c == '\U{1f}'
    || c == '\U{85}' || c == '\U{a0}'
    || c == '\U{1680}' || c == '\U{3000}'
    || c == '\U{2000}' || c == '\U{2001}' || c == '\U{2002}' || c == '\U{2003}' || c == '\U{2004}'
    || c == '\U{2005}' || c == '\U{2006}' || c == '\U{2007}' || c == '\U{2008}' || c == '\U{2009}' || c == '\U{200a}'
    || c == '\U{2028}' || c == '\U{2029}' || c == '\U{202f}' || c == '\U{205f}'
  }

  /** Code that may follow `prev`, the last code character before it. */
  ghost predicate CodeOk(code: Code, prev: Previous) {
    match code
    case Done => true
    case More(first, rest) =>
      PieceOk(first, prev) && (first.Divide? ==> Divided(rest)) && CodeOk(rest, Next(first, prev))
  }

  /** What a division is followed by: something that does not make its slash the
      start of a comment. */
  ghost predicate Divided(rest: Code) {
    && rest.More?
    && !rest.first.LineComment? && !rest.first.BlockComment? && !rest.first.Divide?
    && rest.first != Char('*')
  }

  ghost predicate AtomsOk(atoms: seq<Atom>, barred: string) {
    forall i :: 0 <= i < |atoms| && atoms[i].Plain? ==> atoms[i].c != '\\' && atoms[i].c !in barred
  }

  ghost predicate ItemOk(item: Item) {
    match item
    case One(atom) => AtomsOk([atom], "/[\n")
    case Class(atoms) => AtomsOk(atoms, "]\n")
  }

  /** At least one item, and no star first: that would start a comment. */
  ghost predicate RegexOk(items: seq<Item>) {
    && items != [] && items[0] != One(Plain('*'))
    && forall i :: 0 <= i < |items| ==> ItemOk(items[i])
  }

  ghost predicate PieceOk(p: Piece, prev: Previous) {
    match p
    case Char(c) => c !in "/\"'`{}"
    case Group(body) => CodeOk(body, Some('{'))
    case Quoted(quote, atoms) =>
      (quote == '"' || quote == '\'') && AtomsOk(atoms, [quote])
    case LineComment(text) => '\n' !in text
    case BlockComment(text) => NoCommentEnd(text)
    case Template(text) => TextOk(text)
    case Regex(items) => OpensRegex(prev) && RegexOk(items)
    case Divide => !OpensRegex(prev)
  }

  /** A dollar sign is a letter unless a brace follows it. */
  ghost predicate TextOk(t: Text) {
    match t
    case Close => true
    case Letter(c, rest) => c !in "\\`" && !(c == '$' && rest.Letter? && rest.c == '{') && TextOk(rest)
    case Escape(_, rest) => TextOk(rest)
    case Hole(body, rest) => CodeOk(body, Some('x')) && TextOk(rest)
  }

  function PrintAtoms(atoms: seq<Atom>): string {
    if atoms == [] then []
    else (if atoms[0].Plain? then [atoms[0].c] else ['\\', atoms[0].c]) + PrintAtoms(atoms[1..])
  }

  function PrintItems(items: seq<Item>): string {
    if items == [] then []
    else
      (match items[0]
       case One(atom) => PrintAtoms([atom])
       case Class(atoms) => "[" + PrintAtoms(atoms) + "]") + PrintItems(items[1..])
  }

  function Print(code: Code): string {
    match code
    case Done => []
    case More(first, rest) => PrintPiece(first) + Print(rest)
  }

  function PrintPiece(p: Piece): string {
    match p
    case Char(c) => [c]
    case Group(body) => "{" + Print(body) + "}"
    case Quoted(quote, atoms) => [quote] + PrintAtoms(atoms) + [quote]
    case LineComment(text) => "//" + text + "\n"
    case BlockComment(text) => "/*" + text + "*/"
    case Template(text) => "`" + PrintText(text)
    case Regex(items) => "/" + PrintItems(items) + "/"
    case Divide => "/"
  }

  function PrintText(t: Text): string {
    match t
    case Close => "`"
    case Letter(c, rest) => [c] + PrintText(rest)
    case Escape(c, rest) => ['\\', c] + PrintText(rest)
    case Hole(body, rest) => "${" + Print(body) + "}" + PrintText(rest)
  }

  /** Text filled over: a tilde for every character but a newline. */
  function Filled(s: string): string {
    seq(|s|, i requires 0 <= i < |s| => if s[i] == '\n' then '\n' else '~')
  }

  lemma FilledIs(s: string)
    ensures Blank(s) == Filled(s)
  {
  }

  /** What the tree keeps: code characters, the braces of groups and the code in
      holes; everything else is filled over, newlines apart. */
  function Mask(code: Code): string {
    match code
    case Done => []
    case More(first, rest) => MaskPiece(first) + Mask(rest)
  }

  function MaskPiece(p: Piece): string {
    match p
    case Char(c) => [c]
    case Group(body) => "{" + Mask(body) + "}"
    case Quoted(_, _) => Filled(PrintPiece(p))
    case LineComment(_) => Filled(PrintPiece(p))
    case BlockComment(_) => Filled(PrintPiece(p))
    case Template(text) => "~" + MaskText(text)
    case Regex(_) => Filled(PrintPiece(p))
    case Divide => "/"
  }

  function MaskText(t: Text): string {
    match t
    case Close => "~"
    case Letter(c, rest) => Filled([c]) + MaskText(rest)
    case Escape(c, rest) => "~" + Filled([c]) + MaskText(rest)
    case Hole(body, rest) => "~~" + Mask(body) + "~" + MaskText(rest)
  }

  /** What a piece leaves as the last code character: white space and comments
      leave the one before, and a literal counts as a name. */
  function Next(p: Piece, prev: Previous): Previous {
    match p
    case Char(c) => if Whitespace(c) then prev else Some(c)
    case Group(_) => Some('}')
    case Quoted(_, _) => Some('x')
    case Template(_) => Some('x')
    case Regex(_) => Some('x')
    case Divide => Some('/')
    case _ => prev
  }

  /** The last code character the scanner has seen once past the tree. */
  function Last(code: Code, prev: Previous): Previous {
    match code
    case Done => prev
    case More(first, rest) => Last(rest, Next(first, prev))
  }

  /** No hole we are in closes deeper than where we are. */
  ghost predicate Outside(templates: seq<int>, depth: int) {
    templates == [] || templates[|templates| - 1] <= depth
  }

  // ---- one piece at a time ----

  lemma {:induction false} StringEndAt(atoms: seq<Atom>, quote: char, before: string, rest: string)
    requires quote != '\\' && AtomsOk(atoms, [quote])
    ensures StringEnd(before + PrintAtoms(atoms) + [quote] + rest, quote, |before|) == |before| + |PrintAtoms(atoms)|
    decreases |atoms|
  {
    var s := before + PrintAtoms(atoms) + [quote] + rest;
    if atoms == [] {
      assert s[|before|] == quote;
    } else {
      var head := PrintAtoms([atoms[0]]);
      AtomsSplit(atoms);
      assert s == (before + head) + PrintAtoms(atoms[1..]) + [quote] + rest;
      assert s[|before|] == head[0];
      StringEndAt(atoms[1..], quote, before + head, rest);
    }
  }

  lemma {:induction false} LineEndAt(s: string, j: nat, k: nat)
    requires j <= k < |s| && s[k] == '\n' && forall i :: j <= i < k ==> s[i] != '\n'
    ensures LineEnd(s, j) == k
    decreases k - j
  {
    if j < k { LineEndAt(s, j + 1, k); }
  }

  lemma {:induction false} CommentEndAt(s: string, j: nat, k: nat)
    requires j <= k && k + 1 < |s| && s[k] == '*' && s[k + 1] == '/'
    requires forall i :: j <= i < k ==> !(s[i] == '*' && s[i + 1] == '/')
    ensures CommentEnd(s, j) == k + 2
    decreases k - j
  {
    if j < k { CommentEndAt(s, j + 1, k); }
  }

  lemma QuotedScan(p: Piece, rest: string, prev: Previous, depth: int, templates: seq<int>)
    requires p.Quoted? && PieceOk(p, prev)
    ensures Scan(PrintPiece(p) + rest, prev, depth, templates) ==
            MaskPiece(p) + Scan(rest, Some('x'), depth, templates)
  {
    var s := PrintPiece(p) + rest;
    StringEndAt(p.atoms, p.quote, [p.quote], rest);
    assert s == [p.quote] + PrintAtoms(p.atoms) + [p.quote] + rest;
    var j := |PrintPiece(p)|;
    assert s[..j] == PrintPiece(p) && s[j..] == rest;
    FilledIs(PrintPiece(p));
  }

  lemma LineStep(s: string, j: nat, prev: Previous, depth: int, templates: seq<int>)
    requires StartsWith(s, '/', '/') && j <= |s| && LineEnd(s, 0) == j
    ensures Scan(s, prev, depth, templates) == Blank(s[..j]) + Scan(s[j..], prev, depth, templates)
  {
    hide Literal, LineEnd, StringEnd, CommentEnd, RegexEnd;
  }

  lemma NewlineStep(rest: string, prev: Previous, depth: int, templates: seq<int>)
    ensures Scan("\n" + rest, prev, depth, templates) == "\n" + Scan(rest, prev, depth, templates)
  {
    hide Literal, LineEnd, StringEnd, CommentEnd, RegexEnd;
    var s := "\n" + rest;
    assert s[0] == '\n' && s[1..] == rest;
  }

  lemma LineCommentScan(text: string, rest: string, prev: Previous, depth: int, templates: seq<int>)
    requires '\n' !in text
    ensures var p := LineComment(text);
            Scan(PrintPiece(p) + rest, prev, depth, templates) == MaskPiece(p) + Scan(rest, prev, depth, templates)
  {
    hide Scan, LineEnd;
    var s := PrintPiece(LineComment(text)) + rest;
    var j := 2 + |text|;
    assert s == "//" + text + "\n" + rest;
    assert forall i :: 2 <= i < j ==> s[i] == text[i - 2];
    LineEndAt(s, 0, j);
    assert s[..j] == "//" + text && s[j..] == "\n" + rest;
    LineStep(s, j, prev, depth, templates);
    NewlineStep(rest, prev, depth, templates);
    FilledIs("//" + text);
    assert MaskPiece(LineComment(text)) == Filled("//" + text) + "\n";
  }

  lemma BlockCommentScan(text: string, rest: string, prev: Previous, depth: int, templates: seq<int>)
    requires NoCommentEnd(text)
    ensures var p := BlockComment(text);
            Scan(PrintPiece(p) + rest, prev, depth, templates) == MaskPiece(p) + Scan(rest, prev, depth, templates)
  {
    var p := BlockComment(text);
    var s := PrintPiece(p) + rest;
    var k := 2 + |text|;
    assert s == "/*" + text + "*/" + rest;
    forall i | 2 <= i < k ensures !(s[i] == '*' && s[i + 1] == '/') {
      assert s[i] == text[i - 2];
      if i + 1 < k {
        assert s[i + 1] == text[i - 1];
      } else {
        assert s[i + 1] == '*';
      }
    }
    CommentEndAt(s, 2, k);
    assert s[..k + 2] == PrintPiece(p) && s[k + 2..] == rest;
    FilledIs(PrintPiece(p));
  }

  lemma CharScan(c: char, rest: string, prev: Previous, depth: int, templates: seq<int>)
    requires PieceOk(Char(c), prev)
    ensures Scan([c] + rest, prev, depth, templates) == [c] + Scan(rest, Next(Char(c), prev), depth, templates)
  {
    hide Literal, LineEnd, StringEnd, CommentEnd, RegexEnd, Whitespace, IsSpace;
    SpacesAgree(c);
    assert ([c] + rest)[1..] == rest;
  }

  lemma SpacesAgree(c: char)
    ensures IsSpace(c) <==> Whitespace(c)
  {
  }

  // ---- regular expressions ----

  lemma {:induction false} ClassEndAt(atoms: seq<Atom>, before: string, rest: string)
    requires AtomsOk(atoms, "]\n")
    ensures RegexEnd(before + PrintAtoms(atoms) + rest, |before|, true) ==
            RegexEnd(before + PrintAtoms(atoms) + rest, |before| + |PrintAtoms(atoms)|, true)
    decreases |atoms|
  {
    var s := before + PrintAtoms(atoms) + rest;
    if atoms != [] {
      var head := PrintAtoms([atoms[0]]);
      AtomsSplit(atoms);
      assert s == (before + head) + PrintAtoms(atoms[1..]) + rest;
      assert s[|before|] == head[0];
      ClassEndAt(atoms[1..], before + head, rest);
    }
  }

  lemma AtomsSplit(atoms: seq<Atom>)
    requires atoms != []
    ensures PrintAtoms(atoms) == PrintAtoms([atoms[0]]) + PrintAtoms(atoms[1..])
    ensures PrintAtoms([atoms[0]]) == if atoms[0].Plain? then [atoms[0].c] else ['\\', atoms[0].c]
  {
    assert [atoms[0]][1..] == [];
  }

  /** The scanner passes one item of a regular expression. */
  lemma ItemEndAt(item: Item, before: string, rest: string)
    requires ItemOk(item)
    ensures var s := before + PrintItems([item]) + rest;
            RegexEnd(s, |before|, false) == RegexEnd(s, |before| + |PrintItems([item])|, false)
  {
    hide PrintAtoms, PrintItems, AtomsOk, RegexEnd;
    match item
    case One(atom) => AtomEndAt(atom, before, rest);
    case Class(atoms) =>
      ClassPrints(atoms);
      var text := PrintAtoms(atoms);
      assert before + ("[" + text + "]") + rest == before + "[" + text + "]" + rest;
      BracketEndAt(atoms, before, rest);
  }

  lemma ClassPrints(atoms: seq<Atom>)
    ensures PrintItems([Class(atoms)]) == "[" + PrintAtoms(atoms) + "]"
  {
    assert [Class(atoms)][1..] == [];
  }

  lemma AtomEndAt(atom: Atom, before: string, rest: string)
    requires AtomsOk([atom], "/[\n")
    ensures PrintItems([One(atom)]) == PrintAtoms([atom])
    ensures var s := before + PrintAtoms([atom]) + rest;
            RegexEnd(s, |before|, false) == RegexEnd(s, |before| + |PrintAtoms([atom])|, false)
  {
    hide PrintAtoms;
    AtomsSplit([atom]);
    assert [One(atom)][1..] == [];
    var s := before + PrintAtoms([atom]) + rest;
    assert [atom][0] == atom;
    assert s[|before|] == PrintAtoms([atom])[0];
  }

  lemma BracketEndAt(atoms: seq<Atom>, before: string, rest: string)
    requires AtomsOk(atoms, "]\n")
    ensures var s := before + "[" + PrintAtoms(atoms) + "]" + rest;
            RegexEnd(s, |before|, false) == RegexEnd(s, |before| + |PrintAtoms(atoms)| + 2, false)
  {
    hide PrintAtoms, AtomsOk, RegexEnd;
    var text := PrintAtoms(atoms);
    var s := before + "[" + text + "]" + rest;
    assert s == (before + "[") + text + ("]" + rest);
    ClassEndAt(atoms, before + "[", "]" + rest);
    BracketStep(s, |before|, false);
    BracketStep(s, |before| + 1 + |text|, true);
  }

  lemma BracketStep(s: string, j: nat, inClass: bool)
    requires j < |s| && s[j] == if inClass then ']' else '['
    ensures RegexEnd(s, j, inClass) == RegexEnd(s, j + 1, !inClass)
  {
  }

  lemma ItemsSplit(items: seq<Item>)
    requires items != []
    ensures PrintItems(items) == PrintItems([items[0]]) + PrintItems(items[1..])
  {
    hide PrintAtoms;
    assert [items[0]][1..] == [];
  }

  lemma {:induction false} RegexEndAt(items: seq<Item>, before: string, rest: string)
    requires forall i :: 0 <= i < |items| ==> ItemOk(items[i])
    ensures RegexEnd(before + PrintItems(items) + "/" + rest, |before|, false) == |before| + |PrintItems(items)|
    decreases |items|
  {
    hide ItemOk, PrintAtoms;
    var s := before + PrintItems(items) + "/" + rest;
    if items == [] {
      assert s[|before|] == '/';
    } else {
      var head := PrintItems([items[0]]);
      ItemsSplit(items);
      assert s == before + head + (PrintItems(items[1..]) + "/" + rest);
      ItemEndAt(items[0], before, PrintItems(items[1..]) + "/" + rest);
      assert s == (before + head) + PrintItems(items[1..]) + "/" + rest;
      RegexEndAt(items[1..], before + head, rest);
    }
  }

  lemma RegexStep(s: string, j: nat, prev: Previous, depth: int, templates: seq<int>)
    requires s != [] && s[0] == '/' && !StartsWith(s, '/', '/') && !StartsWith(s, '/', '*')
    requires MayStartRegex(prev) && RegexEnd(s, 1, false) == j < |s| && s[j] == '/'
    ensures Scan(s, prev, depth, templates) == Blank(s[..j + 1]) + Scan(s[j + 1..], Some('x'), depth, templates)
  {
    hide Literal, LineEnd, StringEnd, CommentEnd, RegexEnd, MayStartRegex;
  }

  lemma SlashStep(s: string, prev: Previous, depth: int, templates: seq<int>)
    requires s != [] && s[0] == '/' && !StartsWith(s, '/', '/') && !StartsWith(s, '/', '*')
    requires MayStartRegex(prev) ==> RegexEnd(s, 1, false) >= |s| || s[RegexEnd(s, 1, false)] != '/'
    ensures Scan(s, prev, depth, templates) == "/" + Scan(s[1..], Some('/'), depth, templates)
  {
    hide Literal, LineEnd, StringEnd, CommentEnd, RegexEnd, MayStartRegex;
  }

  lemma OpensExactly(prev: Previous)
    ensures MayStartRegex(prev) <==> OpensRegex(prev)
  {
    if prev.Some? {
      var c := prev.value;
      assert c in BEFORE_REGEX <==>
             exists k :: 0 <= k < |BEFORE_REGEX| && BEFORE_REGEX[k] == c;
    }
  }

  lemma RegexScan(items: seq<Item>, rest: string, prev: Previous, depth: int, templates: seq<int>)
    requires PieceOk(Regex(items), prev)
    ensures var p := Regex(items);
            Scan(PrintPiece(p) + rest, prev, depth, templates) == MaskPiece(p) + Scan(rest, Some('x'), depth, templates)
  {
    hide Scan, OpensRegex, MayStartRegex, ItemOk;
    var printed := PrintPiece(Regex(items));
    var s := printed + rest;
    OpensExactly(prev);
    RegexEndAt(items, "/", rest);
    assert s == "/" + PrintItems(items) + "/" + rest;
    ItemStarts(items);
    assert s[1] == PrintItems(items)[0];
    var j := |printed| - 1;
    assert s[..j + 1] == printed && s[j + 1..] == rest;
    FilledIs(printed);
    RegexStep(s, j, prev, depth, templates);
  }

  lemma ItemStarts(items: seq<Item>)
    requires RegexOk(items)
    ensures PrintItems(items) != [] && PrintItems(items)[0] != '/' && PrintItems(items)[0] != '*'
  {
    assert ItemOk(items[0]);
    match items[0]
    case One(atom) =>
      AtomsSplit([atom]);
      assert [atom][0] == atom;
    case Class(atoms) =>
  }

  /** What follows a division prints something that is no slash and no star. */
  lemma DividedStarts(rest: Code, prev: Previous)
    requires Divided(rest) && CodeOk(rest, prev) && !OpensRegex(prev)
    ensures Print(rest) != [] && Print(rest)[0] != '/' && Print(rest)[0] != '*'
  {
    var p := rest.first;
    assert PieceOk(p, prev);
    assert PrintPiece(p) != [] && PrintPiece(p)[0] != '/' && PrintPiece(p)[0] != '*';
  }

  lemma DivideScan(more: Code, rest: string, prev: Previous, depth: int, templates: seq<int>)
    requires !OpensRegex(prev) && Divided(more) && CodeOk(more, Some('/'))
    ensures var tail := Print(more) + rest;
            Scan("/" + tail, prev, depth, templates) == "/" + Scan(tail, Some('/'), depth, templates)
  {
    hide Scan, MayStartRegex;
    var tail := Print(more) + rest;
    var s := "/" + tail;
    OpensExactly(prev);
    DividedStarts(more, Some('/'));
    assert s[1] == Print(more)[0] && s[1..] == tail;
    SlashStep(s, prev, depth, templates);
  }

  /** A slash that no other slash follows on its line is kept, wherever it stands. */
  lemma LoneSlash(line: string, rest: string, prev: Previous, depth: int, templates: seq<int>)
    requires forall k :: 0 <= k < |line| ==> line[k] != '/' && line[k] != '\\' && line[k] != '\n'
    requires line != [] ==> line[0] != '*'
    requires rest == [] || rest[0] == '\n'
    ensures Scan("/" + line + rest, prev, depth, templates) == "/" + Scan(line + rest, Some('/'), depth, templates)
  {
    hide Scan, MayStartRegex;
    var s := "/" + line + rest;
    assert forall k :: 1 <= k < 1 + |line| ==> s[k] == line[k - 1];
    NoSlash(s, 1, 1 + |line|, false);
    assert s[1..] == line + rest;
    SlashStep(s, prev, depth, templates);
  }

  lemma {:induction false} NoSlash(s: string, j: nat, k: nat, inClass: bool)
    requires j <= k <= |s| && (k < |s| ==> s[k] == '\n')
    requires forall i :: j <= i < k ==> s[i] != '/' && s[i] != '\\' && s[i] != '\n'
    ensures RegexEnd(s, j, inClass) == k
    decreases k - j
  {
    if j < k {
      NoSlash(s, j + 1, k, if s[j] == '[' then true else if s[j] == ']' then false else inClass);
    }
  }

  // ---- the tree ----

  lemma {:induction false} ScanCode(code: Code, rest: string, prev: Previous, depth: int, templates: seq<int>)
    requires CodeOk(code, prev) && Outside(templates, depth)
    ensures Scan(Print(code) + rest, prev, depth, templates) ==
            Mask(code) + Scan(rest, Last(code, prev), depth, templates)
    decreases code, 0
  {
    hide Scan, PieceOk, PrintPiece, MaskPiece, Next, Divided;
    match code
    case Done =>
      assert Print(code) + rest == rest;
    case More(first, more) =>
      ScanPiece(first, more, rest, prev, depth, templates);
      ScanCode(more, rest, Next(first, prev), depth, templates);
      var last := Scan(rest, Last(code, prev), depth, templates);
      assert Print(code) + rest == PrintPiece(first) + (Print(more) + rest);
      assert Mask(code) + last == MaskPiece(first) + (Mask(more) + last);
  }

  lemma {:induction false} ScanPiece(first: Piece, more: Code, rest: string, prev: Previous, depth: int,
                                     templates: seq<int>)
    requires PieceOk(first, prev) && Outside(templates, depth)
    requires first.Divide? ==> Divided(more) && CodeOk(more, Next(first, prev))
    ensures Scan(PrintPiece(first) + (Print(more) + rest), prev, depth, templates) ==
            MaskPiece(first) + Scan(Print(more) + rest, Next(first, prev), depth, templates)
    decreases first, 1
  {
    hide Scan, Literal, Whitespace, OpensRegex, RegexOk, AtomsOk, NoCommentEnd, Divided, Filled, Blank, Last;
    var tail := Print(more) + rest;
    match first
    case Char(c) => CharScan(c, tail, prev, depth, templates);
    case Group(body) =>
      GroupScan(body, tail, prev, depth, templates);
      ScanCode(body, "}" + tail, Some('{'), depth + 1, templates);
    case Quoted(_, _) => QuotedScan(first, tail, prev, depth, templates);
    case LineComment(text) => LineCommentScan(text, tail, prev, depth, templates);
    case BlockComment(text) => BlockCommentScan(text, tail, prev, depth, templates);
    case Template(text) =>
      TemplateScan(text, tail, prev, depth, templates);
      ScanText(text, tail, depth, templates);
    case Regex(items) => RegexScan(items, tail, prev, depth, templates);
    case Divide => DivideScan(more, rest, prev, depth, templates);
  }

  lemma OpenStep(tail: string, prev: Previous, depth: int, templates: seq<int>)
    ensures Scan("{" + tail, prev, depth, templates) == "{" + Scan(tail, Some('{'), depth + 1, templates)
  {
    hide Literal, LineEnd, StringEnd, CommentEnd, RegexEnd;
    var s := "{" + tail;
    assert s[0] == '{' && s[1..] == tail;
  }

  lemma CloseStep(tail: string, prev: Previous, depth: int, templates: seq<int>)
    requires !ClosesHole(templates, depth)
    ensures Scan("}" + tail, prev, depth, templates) == "}" + Scan(tail, Some('}'), depth - 1, templates)
  {
    hide Literal, LineEnd, StringEnd, CommentEnd, RegexEnd, ClosesHole;
    var s := "}" + tail;
    assert s[0] == '}' && s[1..] == tail;
  }

  lemma GroupScan(body: Code, tail: string, prev: Previous, depth: int, templates: seq<int>)
    requires Outside(templates, depth)
    ensures Scan(PrintPiece(Group(body)) + tail, prev, depth, templates) ==
            "{" + Scan(Print(body) + ("}" + tail), Some('{'), depth + 1, templates)
    ensures forall p: Previous {:trigger Scan("}" + tail, p, depth + 1, templates)} ::
              Scan("}" + tail, p, depth + 1, templates) == "}" + Scan(tail, Some('}'), depth, templates)
  {
    hide Scan;
    assert PrintPiece(Group(body)) + tail == "{" + (Print(body) + ("}" + tail));
    OpenStep(Print(body) + ("}" + tail), prev, depth, templates);
    assert !ClosesHole(templates, depth + 1);
    var closing, deeper := "}" + tail, depth + 1;
    forall p: Previous ensures Scan(closing, p, deeper, templates) == "}" + Scan(tail, Some('}'), depth, templates) {
      CloseStep(tail, p, depth + 1, templates);
    }
  }

  lemma TemplateScan(text: Text, tail: string, prev: Previous, depth: int, templates: seq<int>)
    ensures Scan(PrintPiece(Template(text)) + tail, prev, depth, templates) ==
            [FILL] + Literal(PrintText(text) + tail, depth, templates)
  {
    var s := PrintPiece(Template(text)) + tail;
    assert s[0] == '`' && s[1..] == PrintText(text) + tail;
  }

  lemma {:induction false} ScanText(t: Text, rest: string, depth: int, templates: seq<int>)
    requires TextOk(t) && Outside(templates, depth)
    ensures Literal(PrintText(t) + rest, depth, templates) == MaskText(t) + Scan(rest, Some('x'), depth, templates)
    decreases t, 1
  {
    hide Scan, Literal, Last, Filled;
    match t
    case Close => CloseScan(rest, depth, templates);
    case Letter(c, more) =>
      LetterScan(c, more, rest, depth, templates);
      ScanText(more, rest, depth, templates);
    case Escape(c, more) =>
      EscapeScan(c, PrintText(more) + rest, depth, templates);
      assert PrintText(t) + rest == ['\\', c] + (PrintText(more) + rest);
      ScanText(more, rest, depth, templates);
    case Hole(body, more) => ScanHole(body, more, rest, depth, templates);
  }

  lemma HolePrints(body: Code, more: Text, rest: string, after: string)
    ensures PrintText(Hole(body, more)) + rest == "${" + (Print(body) + ("}" + (PrintText(more) + rest)))
    ensures MaskText(Hole(body, more)) + after == [FILL, FILL] + (Mask(body) + ([FILL] + (MaskText(more) + after)))
  {
    hide Print, Mask;
  }

  lemma {:induction false} ScanHole(body: Code, more: Text, rest: string, depth: int, templates: seq<int>)
    requires CodeOk(body, Some('x')) && TextOk(more) && Outside(templates, depth)
    ensures Literal(PrintText(Hole(body, more)) + rest, depth, templates) ==
            MaskText(Hole(body, more)) + Scan(rest, Some('x'), depth, templates)
    decreases Hole(body, more), 0
  {
    hide Scan, Literal, Last, CodeOk, TextOk, Print, PrintText, Mask, MaskText;
    var tail := PrintText(more) + rest;
    HolePrints(body, more, rest, Scan(rest, Some('x'), depth, templates));
    HoleScan(Print(body) + ("}" + tail), tail, Last(body, Some('x')), depth, templates);
    ScanCode(body, "}" + tail, Some('x'), depth, templates + [depth]);
    ScanText(more, rest, depth, templates);
  }

  lemma CloseScan(rest: string, depth: int, templates: seq<int>)
    ensures Literal("`" + rest, depth, templates) == [FILL] + Scan(rest, Some('x'), depth, templates)
  {
    assert ("`" + rest)[0] == '`' && ("`" + rest)[1..] == rest;
  }

  lemma LetterScan(c: char, more: Text, rest: string, depth: int, templates: seq<int>)
    requires TextOk(Letter(c, more))
    ensures Literal(PrintText(Letter(c, more)) + rest, depth, templates) ==
            Filled([c]) + Literal(PrintText(more) + rest, depth, templates)
  {
    var s := PrintText(Letter(c, more)) + rest;
    assert s[0] == c && s[1..] == PrintText(more) + rest;
    assert s[1] == PrintText(more)[0];
  }

  lemma EscapeScan(c: char, tail: string, depth: int, templates: seq<int>)
    ensures Literal(['\\', c] + tail, depth, templates) == "~" + Filled([c]) + Literal(tail, depth, templates)
  {
    var s := ['\\', c] + tail;
    assert s[..2] == ['\\', c] && s[2..] == tail;
    assert Blank(['\\', c]) == "~" + Filled([c]);
  }

  lemma HoleScan(inner: string, tail: string, prev: Previous, depth: int, templates: seq<int>)
    ensures Literal("${" + inner, depth, templates) ==
            "~~" + Scan(inner, Some('x'), depth, templates + [depth])
    ensures Scan("}" + tail, prev, depth, templates + [depth]) == "~" + Literal(tail, depth, templates)
  {
    var s := "${" + inner;
    assert s[..2] == "${" && s[2..] == inner;
    assert Blank("${") == "~~";
    assert ("}" + tail)[0] == '}' && ("}" + tail)[1..] == tail;
    assert (templates + [depth])[..|templates|] == templates;
  }

  /** For every tree of code characters, balanced braces, strings, comments,
      regular expressions, divisions and template literals with holes nested to
      any depth, stripping what it prints gives exactly its mask. */
  lemma StripAgrees(code: Code)
    requires CodeOk(code, None)
    ensures Strip(Print(code)) == Mask(code)
  {
    ScanCode(code, [], None, 0, []);
    assert Print(code) + [] == Print(code) && Mask(code) + [] == Mask(code);
  }

  /** The same with a last line comment that no newline ends. */
  lemma StripAgreesToTheEnd(code: Code, comment: string)
    requires CodeOk(code, None) && '\n' !in comment
    ensures Strip(Print(code) + "//" + comment) == Mask(code) + Filled("//" + comment)
  {
    var last := "//" + comment;
    ScanCode(code, last, None, 0, []);
    assert Print(code) + "//" + comment == Print(code) + last;
    NoLineEnd(last, 0);
    assert last[..|last|] == last && last[|last|..] == [];
    FilledIs(last);
    assert Filled(last) + [] == Filled(last);
  }

  lemma {:induction false} NoLineEnd(s: string, j: nat)
    requires j <= |s| && '\n' !in s
    ensures LineEnd(s, j) == |s|
    decreases |s| - j
  {
    if j < |s| {
      assert s[j] in s;
      NoLineEnd(s, j + 1);
    }
  }
}
