/** Rewriting the packaged values file line by line (hack/set-release-image.py). */
module Release {
  import opened Basics
  import Hostnames

  // ---- lines ----

  /** Characters that end a line of a text. */
  predicate IsBreak(c: char) {
    || '\n' <= c <= '\r' || '\U{1c}' <= c <= '\U{1e}' || c == '\U{85}' || c == '\U{2028}' || c == '\U{2029}'
  }

  /** Length of the first line with its end; a carriage return and line feed end one line together. */
  function FirstLine(s: string): (n: nat)
    ensures n <= |s| && (s != "" ==> n > 0)
  {
    if s == "" then 0
    else if IsBreak(s[0]) then (if s[0] == '\r' && |s| > 1 && s[1] == '\n' then 2 else 1)
    else 1 + FirstLine(s[1..])
  }

  /** `splitlines(keepends=True)`. */
  function Lines(s: string): seq<string>
    decreases |s|
  {
    if s == "" then [] else [s[..FirstLine(s)]] + Lines(s[FirstLine(s)..])
  }

  function Concat(lines: seq<string>): string { if lines == [] then "" else lines[0] + Concat(lines[1..]) }

  /** What `Lines` can return. */
  predicate AreLines(lines: seq<string>) {
    lines == [] || (lines[0] != "" && FirstLine(Concat(lines)) == |lines[0]| && AreLines(lines[1..]))
  }

  lemma {:induction false} LinesSplit(s: string)
    ensures Concat(Lines(s)) == s && AreLines(Lines(s))
    decreases |s|
  {
    if s != "" {
      var n := FirstLine(s);
      LinesSplit(s[n..]);
      assert s == s[..n] + s[n..];
      assert Lines(s)[1..] == Lines(s[n..]);
    }
  }

  lemma {:induction false} ConcatSplits(lines: seq<string>)
    requires AreLines(lines)
    ensures Lines(Concat(lines)) == lines
  {
    if lines != [] {
      ConcatSplits(lines[1..]);
      var s := Concat(lines);
      assert s[..|lines[0]|] == lines[0] && s[|lines[0]|..] == Concat(lines[1..]);
    }
  }

  predicate NoBreaks(s: string) { forall i :: 0 <= i < |s| ==> !IsBreak(s[i]) }

  /** The two texts are both empty or start alike. */
  predicate StartAlike(s: string, t: string) { (s == "" <==> t == "") && (s != "" ==> s[0] == t[0]) }

  lemma {:induction false} FirstLineBefore(x: string, s: string, t: string)
    requires StartAlike(s, t) && x != "" && FirstLine(x + s) == |x|
    ensures FirstLine(x + t) == |x|
  {
    if !IsBreak(x[0]) {
      assert (x + s)[1..] == x[1..] + s && (x + t)[1..] == x[1..] + t;
      if x[1..] == "" {
        assert FirstLine(s) == 0;
      } else {
        FirstLineBefore(x[1..], s, t);
      }
    } else if |x| == 2 {
      assert (x + s)[1] == x[1] == (x + t)[1];
    }
  }

  lemma {:induction false} FirstLineAfter(p: string, rest: string)
    requires NoBreaks(p)
    ensures FirstLine(p + rest) == |p| + FirstLine(rest)
  {
    if p == "" {
      assert p + rest == rest;
    } else {
      assert (p + rest)[1..] == p[1..] + rest;
      FirstLineAfter(p[1..], rest);
    }
  }

  /** Another beginning without line ends, with the same first character, leaves the lines as they are. */
  lemma {:induction false} ReplacedLine(lines: seq<string>, i: nat, p: string, q: string, rest: string)
    requires AreLines(lines) && i < |lines| && lines[i] == p + rest
    requires NoBreaks(p) && NoBreaks(q) && p != "" && q != "" && p[0] == q[0]
    ensures AreLines(lines[i := q + rest]) && StartAlike(Concat(lines), Concat(lines[i := q + rest]))
  {
    var new_ := lines[i := q + rest];
    if i == 0 {
      assert new_[1..] == lines[1..];
      var tail := Concat(lines[1..]);
      FirstLineAfter(p, rest + tail);
      FirstLineAfter(q, rest + tail);
      assert Concat(lines) == p + (rest + tail) && Concat(new_) == q + (rest + tail);
    } else {
      assert new_[1..] == lines[1..][i - 1 := q + rest];
      ReplacedLine(lines[1..], i - 1, p, q, rest);
      FirstLineBefore(lines[0], Concat(lines[1..]), Concat(new_[1..]));
    }
  }

  // ---- patterns ----

  predicate IsSpace(c: char) { Hostnames.IsSpace(c) || '\U{1c}' <= c <= '\U{1f}' }

  function SkipSpaces(s: string): string { if s != "" && IsSpace(s[0]) then SkipSpaces(s[1..]) else s }

  predicate StartsWith(s: string, prefix: string) { prefix <= s }

  /** `name`, then white space, then a colon. */
  predicate NamesKey(s: string, name: string) {
    StartsWith(s, name) && StartsWith(SkipSpaces(s[|name|..]), ":")
  }

  /** The key in plain or quoted form. */
  predicate IsKey(line: string, name: string) {
    NamesKey(line, name) || NamesKey(line, "'" + name + "'") || NamesKey(line, "\"" + name + "\"")
  }

  /** How many spaces come first. */
  function Spaces(s: string): (n: nat)
    ensures n <= |s| && (n < |s| ==> s[n] != ' ')
    ensures forall i :: 0 <= i < n ==> s[i] == ' '
  {
    if s == "" || s[0] != ' ' then 0 else 1 + Spaces(s[1..])
  }

  predicate IsEnd(s: string) { s == "" || s == "\n" || s == "\r\n" }

  /** A comment up to the end of its line. */
  predicate IsComment(s: string) { s != "" && s[0] == '#' && '\n' !in s[..|s| - 1] }

  /** The section's own line: nothing but a comment may follow the colon. */
  predicate IsHeader(line: string, name: string) {
    StartsWith(line, name + ":") &&
    var rest := line[|name| + 1..];
    var r := rest[Spaces(rest)..];
    IsEnd(r) || IsComment(r)
  }

  /** What may follow a value: spaces, a comment after at least one of them, and the end of the line. */
  predicate IsTrailer(rest: string) {
    var n := Spaces(rest);
    IsEnd(rest[n..]) || (n > 0 && IsComment(rest[n..]))
  }

  function WithoutEnd(s: string): string {
    if s != "" && s[|s| - 1] == '\n' then
      (if |s| > 1 && s[|s| - 2] == '\r' then s[..|s| - 2] else s[..|s| - 1])
    else s
  }

  /** A space and something more on the same line. */
  predicate HasValue(s: string) {
    var core := WithoutEnd(s);
    |core| > 1 && core[0] == ' ' && '\r' !in core && '\n' !in core
  }

  predicate IsChild(line: string, name: string) {
    StartsWith(line, Prefix(name)) && HasValue(line[|Prefix(name)|..])
  }

  /** Which of the names the line sets. */
  function Child(line: string, names: seq<string>): Option<string> {
    if names == [] then None
    else if IsChild(line, names[0]) then Some(names[0])
    else Child(line, names[1..])
  }

  function Strip(s: string): string
    decreases |s|
  {
    if s == "" then "" else if IsSpace(s[0]) then Strip(s[1..]) else if IsSpace(s[|s| - 1]) then Strip(s[..|s| - 1]) else s
  }

  /** Blank lines and comments are passed over. */
  predicate Ignored(line: string) { SkipSpaces(line) == "" || SkipSpaces(line)[0] == '#' }

  predicate Indented(line: string) { line != "" && (line[0] == ' ' || line[0] == '\t') }

  predicate EndsBlock(line: string) { !Ignored(line) && !Indented(line) }

  // ---- scalars ----

  datatype Scalar = Scalar(value: string, rest: string)

  /** Position of the next character `c`, or the length. */
  function Find(s: string, c: char): (n: nat)
    ensures n <= |s| && (n < |s| ==> s[n] == c) && forall i :: 0 <= i < n ==> s[i] != c
  {
    if s == "" || s[0] == c then 0 else 1 + Find(s[1..], c)
  }

  /** Length of the longest plain word. */
  function Word(s: string): (n: nat)
    ensures n <= |s|
  {
    if s == "" || IsSpace(s[0]) || s[0] == '#' then 0 else 1 + Word(s[1..])
  }

  /** A value in quotes `c`, when a trailer follows the closing quote. */
  function Quoted(s: string, c: char, least: nat): Option<Scalar> {
    if s == "" || s[0] != c then None
    else
      var n := Find(s[1..], c);
      if n < least || n == |s| - 1 || !IsTrailer(s[n + 2..]) then None else Some(Scalar(s[1..n + 1], s[n + 2..]))
  }

  function Bare(s: string): Option<Scalar> {
    if Word(s) == 0 || !IsTrailer(s[Word(s)..]) then None else Some(Scalar(s[..Word(s)], s[Word(s)..]))
  }

  /** At least one space, then a value in either kind of quotes or a plain word. */
  function ScalarIn(s: string, least: nat): Option<Scalar> {
    var v := s[Spaces(s)..];
    if Spaces(s) == 0 then None
    else if Quoted(v, '\'', least).Some? then Quoted(v, '\'', least)
    else if Quoted(v, '"', least).Some? then Quoted(v, '"', least)
    else Bare(v)
  }

  function Prefix(name: string): string { "  " + name + ":" }

  /** The scalar that a line assigns to `name`, with everything that follows it. */
  function ScalarOf(line: string, name: string, least: nat): Option<Scalar> {
    if StartsWith(line, Prefix(name)) then ScalarIn(line[|Prefix(name)|..], least) else None
  }

  function InQuotes(value: string, rest: string): string { ['"'] + value + ['"'] + rest }

  function Assign(name: string, value: string, rest: string): string { Prefix(name) + ([' '] + InQuotes(value, rest)) }

  /** A value that can stand between double quotes on one line. */
  predicate Plain(s: string) { s != "" && '"' !in s && NoBreaks(s) }

  lemma {:induction false} FindAfter(s: string, c: char, rest: string)
    requires c !in s
    ensures Find(s + [c] + rest, c) == |s|
  {
    if s == "" {
      assert s + [c] + rest == [c] + rest;
    } else {
      assert (s + [c] + rest)[1..] == s[1..] + [c] + rest;
      FindAfter(s[1..], c, rest);
    }
  }

  lemma QuotedIsRead(value: string, rest: string, least: nat)
    requires Plain(value) && IsTrailer(rest) && least <= 1
    ensures Quoted(InQuotes(value, rest), '"', least) == Some(Scalar(value, rest))
    ensures Quoted(InQuotes(value, rest), '\'', least).None? && InQuotes(value, rest) != "" && InQuotes(value, rest)[0] == '"'
  {
    hide IsTrailer;
    var v := InQuotes(value, rest);
    FindAfter(value, '"', rest);
    assert v[1..] == value + ['"'] + rest;
    assert v[1..|value| + 1] == value && v[|value| + 2..] == rest;
  }

  lemma SpaceThen(v: string)
    requires v != "" && v[0] != ' '
    ensures Spaces([' '] + v) == 1 && ([' '] + v)[1..] == v
  {}

  lemma AfterPrefix(p: string, s: string)
    ensures StartsWith(p + s, p) && (p + s)[|p|..] == s
  {}

  /** What was written is read back, with the same trailer. */
  lemma AssignedIsRead(name: string, value: string, rest: string, least: nat)
    requires Plain(value) && IsTrailer(rest) && least <= 1
    ensures ScalarOf(Assign(name, value, rest), name, least) == Some(Scalar(value, rest))
  {
    hide Quoted, Bare, IsTrailer, Prefix, StartsWith, InQuotes, Spaces;
    QuotedIsRead(value, rest, least);
    SpaceThen(InQuotes(value, rest));
    AfterPrefix(Prefix(name), [' '] + InQuotes(value, rest));
  }

  // ---- the block of a section ----

  /** The last line that names the section, when exactly one does. */
  function Roots(lines: seq<string>, section: string): seq<nat> {
    if lines == [] then []
    else
      var n := |lines| - 1;
      Roots(lines[..n], section) + (if IsKey(lines[n], section) then [n] else [])
  }

  function BlockEnd(lines: seq<string>, i: nat): (n: nat)
    requires i <= |lines|
    ensures i <= n <= |lines|
    decreases |lines| - i
  {
    if i == |lines| || EndsBlock(lines[i]) then i else BlockEnd(lines, i + 1)
  }

  /** The lines of the block by the name each sets; none for an unknown or a repeated name. */
  function Fields(lines: seq<string>, start: nat, end: nat, names: seq<string>): Option<map<string, nat>>
    requires start <= end <= |lines|
    decreases end
  {
    if start == end then Some(map[])
    else
      var before := Fields(lines, start, end - 1, names);
      if before.None? || Ignored(lines[end - 1]) then before
      else
        var child := Child(lines[end - 1], names);
        if child.None? || child.value in before.value then None else Some(before.value[child.value := end - 1])
  }

  function Located(lines: seq<string>, section: string, names: seq<string>): Option<map<string, nat>> {
    var roots := Roots(lines, section);
    if |roots| != 1 || roots[0] >= |lines| || !IsHeader(lines[roots[0]], section) then None
    else Fields(lines, roots[0] + 1, BlockEnd(lines, roots[0] + 1), names)
  }

  /** Two lines that the search treats alike. */
  predicate Alike(a: string, b: string, section: string, names: seq<string>) {
    && (IsKey(a, section) <==> IsKey(b, section)) && (IsHeader(a, section) <==> IsHeader(b, section))
    && (EndsBlock(a) <==> EndsBlock(b)) && (Ignored(a) <==> Ignored(b)) && Child(a, names) == Child(b, names)
  }

  predicate AllAlike(a: seq<string>, b: seq<string>, section: string, names: seq<string>) {
    |a| == |b| && forall i :: 0 <= i < |a| ==> Alike(a[i], b[i], section, names)
  }

  lemma {:induction false} SameRoots(a: seq<string>, b: seq<string>, section: string, names: seq<string>)
    requires AllAlike(a, b, section, names)
    ensures Roots(a, section) == Roots(b, section)
  {
    hide IsKey, IsHeader, EndsBlock, Ignored, Child;
    if a != [] {
      var n := |a| - 1;
      assert Alike(a[n], b[n], section, names);
      SameRoots(a[..n], b[..n], section, names);
    }
  }

  lemma {:induction false} SameEnd(a: seq<string>, b: seq<string>, i: nat, section: string, names: seq<string>)
    requires AllAlike(a, b, section, names) && i <= |a|
    ensures BlockEnd(a, i) == BlockEnd(b, i)
    decreases |a| - i
  {
    hide IsKey, IsHeader, EndsBlock, Ignored, Child;
    if i < |a| {
      assert Alike(a[i], b[i], section, names);
      SameEnd(a, b, i + 1, section, names);
    }
  }

  lemma {:induction false} SameFields(a: seq<string>, b: seq<string>, start: nat, end: nat, section: string, names: seq<string>)
    requires AllAlike(a, b, section, names) && start <= end <= |a|
    ensures Fields(a, start, end, names) == Fields(b, start, end, names)
    decreases end
  {
    hide IsKey, IsHeader, EndsBlock, Ignored, Child;
    if start < end {
      assert Alike(a[end - 1], b[end - 1], section, names);
      SameFields(a, b, start, end - 1, section, names);
    }
  }

  lemma SameBlock(a: seq<string>, b: seq<string>, section: string, names: seq<string>)
    requires AllAlike(a, b, section, names)
    ensures Located(a, section, names) == Located(b, section, names)
  {
    hide IsKey, IsHeader, EndsBlock, Ignored, Child, Fields, Roots, BlockEnd;
    SameRoots(a, b, section, names);
    var roots := Roots(a, section);
    if |roots| == 1 && roots[0] < |a| {
      assert Alike(a[roots[0]], b[roots[0]], section, names);
      SameEnd(a, b, roots[0] + 1, section, names);
      SameFields(a, b, roots[0] + 1, BlockEnd(a, roots[0] + 1), section, names);
    }
  }

  /** A located name is set by a line of that name, within the text. */
  lemma {:induction false} FieldsAreChildren(lines: seq<string>, start: nat, end: nat, names: seq<string>, name: string)
    requires start <= end <= |lines| && Fields(lines, start, end, names).Some? && name in Fields(lines, start, end, names).value
    ensures var i := Fields(lines, start, end, names).value[name]; i < end && Child(lines[i], names) == Some(name) && !Ignored(lines[i])
    decreases end
  {
    hide Child, Ignored;
    if start < end && name in Fields(lines, start, end - 1, names).value {
      FieldsAreChildren(lines, start, end - 1, names, name);
    }
  }

  lemma {:induction false} FieldsDiffer(lines: seq<string>, start: nat, end: nat, names: seq<string>, a: string, b: string)
    requires start <= end <= |lines| && Fields(lines, start, end, names).Some?
    requires a in Fields(lines, start, end, names).value && b in Fields(lines, start, end, names).value && a != b
    ensures Fields(lines, start, end, names).value[a] != Fields(lines, start, end, names).value[b]
  {
    hide Child, Ignored;
    FieldsAreChildren(lines, start, end, names, a);
    FieldsAreChildren(lines, start, end, names, b);
  }

  lemma LocatedAreChildren(lines: seq<string>, section: string, names: seq<string>, name: string)
    requires Located(lines, section, names).Some? && name in Located(lines, section, names).value
    ensures var i := Located(lines, section, names).value[name];
      i < |lines| && Child(lines[i], names) == Some(name) && !Ignored(lines[i])
    ensures forall other :: other in Located(lines, section, names).value && other != name ==>
      Located(lines, section, names).value[other] != Located(lines, section, names).value[name]
  {
    hide Child, Ignored, IsHeader, Fields, Roots, BlockEnd;
    var start := Roots(lines, section)[0] + 1;
    FieldsAreChildren(lines, start, BlockEnd(lines, start), names, name);
    forall other | other in Located(lines, section, names).value && other != name
      ensures Located(lines, section, names).value[other] != Located(lines, section, names).value[name]
    {
      FieldsDiffer(lines, start, BlockEnd(lines, start), names, other, name);
    }
  }

  // ---- one rewritten line is treated like the old one ----

  /** Names of keys: words without a colon. */
  predicate AreNames(names: seq<string>) {
    forall n :: n in names ==> n != "" && ':' !in n && !IsSpace(n[0]) && n[0] != '#'
  }

  /** The text before a scalar's trailer ends in a visible character. */
  lemma {:induction false} WordVisible(s: string)
    ensures forall i :: 0 <= i < Word(s) ==> !IsSpace(s[i])
  {
    if s != "" && !IsSpace(s[0]) && s[0] != '#' {
      WordVisible(s[1..]);
      assert forall i :: 0 < i < Word(s) ==> s[i] == s[1..][i - 1];
    }
  }

  function Head(s: string, rest: string): string
    requires |rest| <= |s|
  {
    s[..|s| - |rest|]
  }

  /** `rest` ends `s`, after a visible character. */
  predicate EndsVisibly(s: string, rest: string) {
    |rest| < |s| && s[|s| - |rest|..] == rest && !IsBreak(s[|s| - |rest| - 1])
  }

  lemma QuotedParts(v: string, c: char, least: nat)
    requires Quoted(v, c, least).Some? && !IsBreak(c)
    ensures EndsVisibly(v, Quoted(v, c, least).value.rest) && IsTrailer(Quoted(v, c, least).value.rest)
  {
    hide IsTrailer;
    var n := Find(v[1..], c);
    assert v[1..][n] == v[n + 1] == c;
  }

  lemma BareParts(v: string)
    requires Bare(v).Some?
    ensures EndsVisibly(v, Bare(v).value.rest) && IsTrailer(Bare(v).value.rest)
  {
    hide IsTrailer;
    WordVisible(v);
    assert !IsSpace(v[Word(v) - 1]);
  }

  lemma ScalarParts(s: string, least: nat)
    requires ScalarIn(s, least).Some?
    ensures EndsVisibly(s, ScalarIn(s, least).value.rest) && IsTrailer(ScalarIn(s, least).value.rest)
  {
    hide IsTrailer, Quoted, Bare, Spaces;
    var v := s[Spaces(s)..];
    if Quoted(v, '\'', least).Some? {
      QuotedParts(v, '\'', least);
    } else if Quoted(v, '"', least).Some? {
      QuotedParts(v, '"', least);
    } else {
      BareParts(v);
    }
  }

  lemma EndSplit(head: string, rest: string)
    requires head != "" && head[|head| - 1] != '\n' && head[|head| - 1] != '\r'
    ensures WithoutEnd(head + rest) == head + WithoutEnd(rest)
  {
    var s := head + rest;
    if rest != "" {
      assert s[|s| - 1] == rest[|rest| - 1];
      assert |rest| > 1 ==> s[|s| - 2] == rest[|rest| - 2];
    }
  }

  lemma AssignedHasValue(s: string, text: string, least: nat)
    requires HasValue(s) && ScalarIn(s, least).Some? && Plain(text)
    ensures HasValue([' '] + InQuotes(text, ScalarIn(s, least).value.rest))
  {
    hide ScalarIn, IsTrailer;
    ScalarParts(s, least);
    var r := ScalarIn(s, least).value.rest;
    assert s == Head(s, r) + r;
    EndSplit(Head(s, r), r);
    var q := [' '] + ['"'] + text + ['"'];
    EndSplit(q, r);
    assert [' '] + InQuotes(text, r) == q + r;
    var core := WithoutEnd(s);
    assert core == Head(s, r) + WithoutEnd(r);
    assert forall c :: c in WithoutEnd(r) ==> c in core;
    assert forall c :: c in q ==> c == ' ' || c == '"' || c in text;
  }

  lemma PrefixesDiffer(line: string, m: string, n: string)
    requires StartsWith(line, Prefix(m)) && StartsWith(line, Prefix(n)) && ':' !in m && ':' !in n
    ensures m == n
  {
    assert line[|m| + 2] == ':' && line[|n| + 2] == ':';
    assert forall i :: 0 <= i < |m| ==> line[i + 2] == m[i] != ':';
    assert forall i :: 0 <= i < |n| ==> line[i + 2] == n[i] != ':';
    assert |m| == |n|;
  }

  lemma {:induction false} SameChild(a: string, b: string, names: seq<string>, name: string)
    requires AreNames(names) && Child(a, names) == Some(name)
    requires StartsWith(b, Prefix(name)) && HasValue(b[|Prefix(name)|..])
    ensures Child(b, names) == Some(name) && name in names && IsChild(a, name)
  {
    hide HasValue, Prefix;
    if !IsChild(a, names[0]) {
      assert forall n :: n in names[1..] ==> n in names;
      SameChild(a, b, names[1..], name);
      if StartsWith(b, Prefix(names[0])) {
        PrefixesDiffer(b, names[0], name);
      }
    }
  }

  lemma NotAKey(line: string, section: string)
    requires StartsWith(line, "  ") && section != "" && section[0] != ' '
    ensures !IsKey(line, section) && !IsHeader(line, section)
  {}

  lemma NamedNotIgnored(line: string, name: string)
    requires StartsWith(line, Prefix(name)) && name != "" && !IsSpace(name[0]) && name[0] != '#'
    ensures !Ignored(line) && !EndsBlock(line) && StartsWith(line, "  ")
  {
    assert line[0] == ' ' && line[1] == ' ' && line[2] == name[0];
    assert SkipSpaces(line) == SkipSpaces(line[1..]) == SkipSpaces(line[1..][1..]);
    assert line[1..][1..] == line[2..];
  }

  /** Writing a value changes nothing that the search looks at. */
  lemma AssignedIsAlike(line: string, name: string, text: string, least: nat, section: string, names: seq<string>)
    requires AreNames(names) && Child(line, names) == Some(name) && Plain(text)
    requires section != "" && section[0] != ' ' && ScalarOf(line, name, least).Some?
    ensures Alike(line, Assign(name, text, ScalarOf(line, name, least).value.rest), section, names)
  {
    hide IsKey, IsHeader, Ignored, EndsBlock, Child, HasValue, Prefix, InQuotes, ScalarIn, StartsWith;
    var rest := ScalarOf(line, name, least).value.rest;
    var b := Assign(name, text, rest);
    AfterPrefix(Prefix(name), [' '] + InQuotes(text, rest));
    ChildHasValue(line, names, name);
    AssignedHasValue(line[|Prefix(name)|..], text, least);
    SameChild(line, b, names, name);
    NamedNotIgnored(line, name);
    NamedNotIgnored(b, name);
    NotAKey(line, section);
    NotAKey(b, section);
  }

  lemma {:induction false} ChildHasValue(line: string, names: seq<string>, name: string)
    requires Child(line, names) == Some(name)
    ensures name in names && StartsWith(line, Prefix(name)) && |Prefix(name)| <= |line| && HasValue(line[|Prefix(name)|..])
  {
    hide HasValue, Prefix;
    if !IsChild(line, names[0]) {
      ChildHasValue(line, names[1..], name);
    }
  }

  // ---- validation ----

  function SplitOn(s: string, c: char): (parts: seq<string>)
    ensures parts != []
  {
    if s == "" then [""]
    else
      var rest := SplitOn(s[1..], c);
      if s[0] == c then [""] + rest else [[s[0]] + rest[0]] + rest[1..]
  }

  predicate Digit(c: char) { '0' <= c <= '9' }

  predicate LowerOrDigit(c: char) { 'a' <= c <= 'z' || Digit(c) }

  predicate IdentifierChar(c: char) { LowerOrDigit(c) || 'A' <= c <= 'Z' || c == '-' }

  predicate AllOf(s: string, p: char -> bool) { forall i :: 0 <= i < |s| ==> p(s[i]) }

  /** A number without leading zeros. */
  predicate IsNumber(s: string) { s != "" && AllOf(s, Digit) && (|s| > 1 ==> s[0] != '0') }

  predicate IsIdentifier(s: string) { s != "" && AllOf(s, IdentifierChar) && (AllOf(s, Digit) ==> IsNumber(s)) }

  predicate ThreeNumbers(s: string) {
    |SplitOn(s, '.')| == 3 && forall i :: 0 <= i < 3 ==> IsNumber(SplitOn(s, '.')[i])
  }

  predicate Identifiers(s: string) { forall p :: p in SplitOn(s, '.') ==> IsIdentifier(p) }

  /** Semantic version without build metadata. */
  predicate ValidVersion(v: string) {
    var n := Find(v, '-');
    && |v| <= 128 && ThreeNumbers(v[..n]) && (n < |v| ==> Identifiers(v[n + 1..]))
  }

  const REGISTRY := "ghcr.io/"
  const CONTROLLER := "/chat-ui-controller"
  const OCM := "/ocm"

  predicate OwnerChar(c: char) { LowerOrDigit(c) || c == '-' }

  predicate ValidOwner(s: string) {
    1 <= |s| <= 39 && AllOf(s, OwnerChar) && LowerOrDigit(s[0]) && LowerOrDigit(s[|s| - 1])
  }

  predicate ValidPath(r: string, tail: string) {
    && |r| >= |REGISTRY| + |tail| && StartsWith(r, REGISTRY) && r[|r| - |tail|..] == tail
    && ValidOwner(r[|REGISTRY|..|r| - |tail|])
  }

  predicate ValidRepository(r: string) { ValidPath(r, CONTROLLER) }

  predicate ValidOcm(r: string) { ValidPath(r, OCM) }

  predicate Harmless(c: char) { IdentifierChar(c) || c == '.' || c == '/' }

  lemma {:induction false} SplitHarmless(s: string)
    requires forall p :: p in SplitOn(s, '.') ==> AllOf(p, IdentifierChar)
    ensures AllOf(s, Harmless)
  {
    if s != "" {
      var rest := SplitOn(s[1..], '.');
      if s[0] == '.' {
        assert SplitOn(s, '.') == [""] + rest;
        assert forall p :: p in rest ==> p in SplitOn(s, '.');
      } else {
        var first := [s[0]] + rest[0];
        assert SplitOn(s, '.') == [first] + rest[1..];
        assert first in SplitOn(s, '.') && first[0] == s[0];
        forall p | p in rest ensures AllOf(p, IdentifierChar) {
          if p == rest[0] {
            assert forall i :: 0 <= i < |p| ==> p[i] == first[i + 1];
          } else {
            assert p in SplitOn(s, '.');
          }
        }
      }
      SplitHarmless(s[1..]);
      assert s == [s[0]] + s[1..];
    }
  }

  lemma HarmlessPlain(s: string)
    requires s != "" && AllOf(s, Harmless)
    ensures Plain(s)
  {}

  /** Accepted values can be written between double quotes. */
  lemma VersionsArePlain(v: string)
    requires ValidVersion(v)
    ensures Plain(v)
  {
    var n := Find(v, '-');
    assert forall p :: p in SplitOn(v[..n], '.') ==> AllOf(p, IdentifierChar);
    SplitHarmless(v[..n]);
    if n < |v| {
      SplitHarmless(v[n + 1..]);
      assert v == v[..n] + ['-'] + v[n + 1..];
    } else {
      assert v == v[..n];
    }
    HarmlessPlain(v);
  }

  lemma PathsArePlain(r: string, tail: string)
    requires ValidPath(r, tail) && AllOf(tail, Harmless)
    ensures Plain(r)
  {
    var m := |r| - |tail|;
    assert r == r[..|REGISTRY|] + r[|REGISTRY|..m] + r[m..];
    assert AllOf(REGISTRY, Harmless);
    HarmlessPlain(r);
  }

  lemma RepositoriesArePlain(r: string)
    ensures ValidRepository(r) || ValidOcm(r) ==> Plain(r)
  {
    assert AllOf(CONTROLLER, Harmless) && AllOf(OCM, Harmless);
    if ValidRepository(r) {
      PathsArePlain(r, CONTROLLER);
    } else if ValidOcm(r) {
      PathsArePlain(r, OCM);
    }
  }

  // ---- rewriting ----

  /** Replace the value of line `i`, provided that the old one is valid too. */
  function Rewrite(lines: seq<string>, i: nat, name: string, text: string, valid: string -> bool, least: nat): Option<seq<string>> {
    if i >= |lines| then None
    else
      var old_ := ScalarOf(lines[i], name, least);
      if old_.None? || !valid(old_.value.value) then None
      else Some(lines[i := Assign(name, text, old_.value.rest)])
  }

  /** Line `i` of `b` is line `i` of `a` with another value: same key, same trailer. */
  predicate OnlyValue(a: seq<string>, b: seq<string>, i: nat, name: string, text: string) {
    && |b| == |a| && i < |a| && ScalarOf(a[i], name, 1).Some? && b == a[i := Assign(name, text, ScalarOf(a[i], name, 1).value.rest)]
    && ScalarOf(b[i], name, 1) == Some(Scalar(text, ScalarOf(a[i], name, 1).value.rest))
  }

  lemma {:induction false} HeadHasNoBreaks(p: string, rest: string, tail: string)
    requires p != "" && !IsBreak(p[|p| - 1]) && FirstLine(p + rest + tail) == |p + rest|
    ensures NoBreaks(p)
  {
    var s := p + rest + tail;
    assert s[0] == p[0] && (|p| > 1 ==> s[1] == p[1]);
    if !IsBreak(p[0]) && |p| > 1 {
      assert s[1..] == p[1..] + rest + tail;
      HeadHasNoBreaks(p[1..], rest, tail);
      assert forall i :: 0 < i < |p| ==> p[i] == p[1..][i - 1];
    }
  }

  lemma {:induction false} LineOf(lines: seq<string>, i: nat) returns (tail: string)
    requires AreLines(lines) && i < |lines|
    ensures lines[i] != "" && FirstLine(lines[i] + tail) == |lines[i]|
  {
    if i == 0 {
      tail := Concat(lines[1..]);
    } else {
      tail := LineOf(lines[1..], i - 1);
    }
  }

  lemma AssignSplits(name: string, text: string, rest: string)
    ensures Assign(name, text, rest) == (Prefix(name) + [' '] + ['"'] + text + ['"']) + rest
  {
    assert Assign(name, text, rest) == Prefix(name) + ([' '] + (['"'] + text + ['"'] + rest));
  }

  lemma NameHasNoBreaks(line: string, name: string, head: string)
    requires StartsWith(line, Prefix(name)) && Prefix(name) <= head && NoBreaks(head)
    ensures NoBreaks(Prefix(name)) && Prefix(name) != "" && Prefix(name)[0] == ' ' && head != "" && head[0] == ' '
  {
    assert forall k :: 0 <= k < |Prefix(name)| ==> Prefix(name)[k] == head[k];
  }

  /** A line is its visible beginning, key included, and the trailer. */
  lemma LineParts(line: string, name: string, least: nat) returns (head: string, rest: string)
    requires ScalarOf(line, name, least).Some?
    ensures rest == ScalarOf(line, name, least).value.rest && line == head + rest
    ensures Prefix(name) <= head && head != "" && !IsBreak(head[|head| - 1])
  {
    hide ScalarIn, IsBreak, Prefix, IsTrailer;
    var s := line[|Prefix(name)|..];
    rest := ScalarOf(line, name, least).value.rest;
    ScalarParts(s, least);
    head := line[..|line| - |rest|];
    assert rest == line[|line| - |rest|..];
  }

  /** A rewritten text still splits into the same lines. */
  lemma RewriteKeepsLines(lines: seq<string>, i: nat, name: string, text: string, valid: string -> bool, least: nat)
    requires AreLines(lines) && Rewrite(lines, i, name, text, valid, least).Some? && Plain(text)
    ensures AreLines(Rewrite(lines, i, name, text, valid, least).value)
  {
    hide ScalarOf, FirstLine, IsBreak, Assign, Prefix, AreLines, Plain, NoBreaks;
    var head, rest := LineParts(lines[i], name, least);
    var tail := LineOf(lines, i);
    HeadHasNoBreaks(head, rest, tail);
    ScalarStarts(lines[i], name, least);
    NameHasNoBreaks(lines[i], name, head);
    AssignSplits(name, text, rest);
    QuotesNoBreaks(Prefix(name), text);
    ReplacedLine(lines, i, head, Prefix(name) + [' '] + ['"'] + text + ['"'], rest);
  }

  lemma QuotesNoBreaks(p: string, text: string)
    requires NoBreaks(p) && p != "" && p[0] == ' ' && Plain(text)
    ensures var q := p + [' '] + ['"'] + text + ['"']; NoBreaks(q) && q != "" && q[0] == ' '
  {}

  /** One rewrite: the section is found again, and only the value has changed. */
  lemma RewriteStep(lines: seq<string>, section: string, names: seq<string>, name: string, text: string, valid: string -> bool)
    requires AreLines(lines) && AreNames(names) && section != "" && section[0] != ' ' && Plain(text)
    requires Located(lines, section, names).Some? && name in Located(lines, section, names).value
    requires Rewrite(lines, Located(lines, section, names).value[name], name, text, valid, 1).Some?
    ensures var i := Located(lines, section, names).value[name];
      var a := Rewrite(lines, i, name, text, valid, 1).value;
      && AreLines(a) && Located(a, section, names) == Located(lines, section, names) && OnlyValue(lines, a, i, name, text)
  {
    hide Located, ScalarOf, Alike, Child, Assign, AreLines;
    var i := Located(lines, section, names).value[name];
    var a := Rewrite(lines, i, name, text, valid, 1).value;
    LocatedAreChildren(lines, section, names, name);
    RewriteKeepsLines(lines, i, name, text, valid, 1);
    AssignedIsAlike(lines[i], name, text, 1, section, names);
    TrailerOf(lines[i], name);
    AssignedIsRead(name, text, ScalarOf(lines[i], name, 1).value.rest, 1);
    forall k | 0 <= k < |lines| ensures Alike(lines[k], a[k], section, names) {
      if k != i {
        AlikeItself(lines[k], section, names);
      }
    }
    SameBlock(lines, a, section, names);
  }

  lemma AlikeItself(line: string, section: string, names: seq<string>)
    ensures Alike(line, line, section, names)
  {}

  lemma TrailerOf(line: string, name: string)
    requires ScalarOf(line, name, 1).Some?
    ensures IsTrailer(ScalarOf(line, name, 1).value.rest)
  {
    hide ScalarIn;
    ScalarParts(line[|Prefix(name)|..], 1);
  }

  // ---- the operator's image ----

  const IMAGE := "image"
  const REPOSITORY := "repository"
  const TAG := "tag"
  const PULL_POLICY := "pullPolicy"
  const PULL_SECRETS := "imagePullSecrets"
  const IMAGE_NAMES := [REPOSITORY, TAG, PULL_POLICY, PULL_SECRETS]
  const NO_SECRETS := "imagePullSecrets: []"

  /** The located fields of the image block, when all four are there and no pull secret is set. */
  function ImageBlock(lines: seq<string>): Option<map<string, nat>> {
    var loc := Located(lines, IMAGE, IMAGE_NAMES);
    if loc.None? || !(forall n :: n in IMAGE_NAMES ==> n in loc.value) then None
    else if loc.value[PULL_SECRETS] >= |lines| || Strip(lines[loc.value[PULL_SECRETS]]) != NO_SECRETS then None
    else loc
  }

  function ReleaseLines(lines: seq<string>, version: string, repository: string): Option<seq<string>> {
    if !ValidVersion(version) || !ValidRepository(repository) || ImageBlock(lines).None? then None
    else
      var loc := ImageBlock(lines).value;
      var a := Rewrite(lines, loc[REPOSITORY], REPOSITORY, repository, ValidRepository, 1);
      if a.None? then None else Rewrite(a.value, loc[TAG], TAG, version, ValidVersion, 1)
  }

  function ReleaseText(text: string, version: string, repository: string): Option<string> {
    var r := ReleaseLines(Lines(text), version, repository);
    if r.None? then None else Some(Concat(r.value))
  }

  lemma ImageNames()
    ensures AreNames(IMAGE_NAMES) && IMAGE != "" && IMAGE[0] != ' '
    ensures REPOSITORY in IMAGE_NAMES && TAG in IMAGE_NAMES && PULL_SECRETS in IMAGE_NAMES
    ensures |{REPOSITORY, TAG, PULL_SECRETS}| == 3
  {
    assert |REPOSITORY| == 10 && |TAG| == 3 && |PULL_POLICY| == 10 && |PULL_SECRETS| == 16;
  }

  /** The block is found, and its repository, tag and secrets are on three different lines. */
  lemma ImageFields(lines: seq<string>)
    requires ImageBlock(lines).Some?
    ensures Located(lines, IMAGE, IMAGE_NAMES) == ImageBlock(lines)
    ensures var loc := ImageBlock(lines).value;
      && REPOSITORY in loc && TAG in loc && PULL_SECRETS in loc
      && loc[REPOSITORY] < |lines| && loc[TAG] < |lines| && loc[PULL_SECRETS] < |lines|
      && loc[REPOSITORY] != loc[TAG] && loc[REPOSITORY] != loc[PULL_SECRETS] && loc[TAG] != loc[PULL_SECRETS]
  {
    hide Located, Strip;
    ImageNames();
    LocatedAreChildren(lines, IMAGE, IMAGE_NAMES, REPOSITORY);
    LocatedAreChildren(lines, IMAGE, IMAGE_NAMES, TAG);
  }

  /** Rewriting another line of the block leaves it a proper block. */
  lemma SameImageBlock(lines: seq<string>, a: seq<string>, i: nat)
    requires ImageBlock(lines).Some? && |a| == |lines| && Located(a, IMAGE, IMAGE_NAMES) == Located(lines, IMAGE, IMAGE_NAMES)
    requires forall k :: 0 <= k < |a| && k != i ==> a[k] == lines[k]
    requires i != ImageBlock(lines).value[PULL_SECRETS]
    ensures ImageBlock(a) == ImageBlock(lines)
  {
    hide Located, Strip;
    ImageFields(lines);
  }

  /** A successful rewrite changes exactly two values: the line of the repository and the line of
      the tag keep their key, trailing comment and line end, and all other lines are as they were. */
  lemma ReleaseFrame(lines: seq<string>, version: string, repository: string)
    requires AreLines(lines) && ReleaseLines(lines, version, repository).Some?
    ensures var b, loc := ReleaseLines(lines, version, repository).value, ImageBlock(lines).value;
      && AreLines(b) && ImageBlock(b) == ImageBlock(lines) && |b| == |lines|
      && loc[REPOSITORY] < |lines| && loc[TAG] < |lines| && loc[REPOSITORY] != loc[TAG]
      && (forall k :: 0 <= k < |lines| && k != loc[REPOSITORY] && k != loc[TAG] ==> b[k] == lines[k])
      && Revalued(lines[loc[REPOSITORY]], b[loc[REPOSITORY]], REPOSITORY, repository)
      && Revalued(lines[loc[TAG]], b[loc[TAG]], TAG, version)
      && ValidRepository(ScalarOf(lines[loc[REPOSITORY]], REPOSITORY, 1).value.value)
      && ValidVersion(ScalarOf(lines[loc[TAG]], TAG, 1).value.value)
  {
    hide Located, ScalarOf, AreLines, ImageBlock, Assign, ValidVersion, ValidPath, Plain;
    ImageNames();
    ImageFields(lines);
    RepositoriesArePlain(repository);
    VersionsArePlain(version);
    var loc := ImageBlock(lines).value;
    var a := Rewrite(lines, loc[REPOSITORY], REPOSITORY, repository, ValidRepository, 1).value;
    RewriteStep(lines, IMAGE, IMAGE_NAMES, REPOSITORY, repository, ValidRepository);
    SameImageBlock(lines, a, loc[REPOSITORY]);
    ImageFields(a);
    RewriteStep(a, IMAGE, IMAGE_NAMES, TAG, version, ValidVersion);
    SameImageBlock(a, Rewrite(a, loc[TAG], TAG, version, ValidVersion, 1).value, loc[TAG]);
  }

  /** The same line with another value. */
  predicate Revalued(a: string, b: string, name: string, text: string) {
    && ScalarOf(a, name, 1).Some? && b == Assign(name, text, ScalarOf(a, name, 1).value.rest)
    && ScalarOf(b, name, 1) == Some(Scalar(text, ScalarOf(a, name, 1).value.rest))
  }

  /** On lines: rewriting twice is rewriting once with the last values, and never fails the second time. */
  lemma LastWriterWinsOnLines(lines: seq<string>, v1: string, r1: string, v2: string, r2: string)
    requires AreLines(lines) && ReleaseLines(lines, v1, r1).Some? && ValidVersion(v2) && ValidRepository(r2)
    ensures ReleaseLines(lines, v2, r2).Some?
    ensures ReleaseLines(ReleaseLines(lines, v1, r1).value, v2, r2) == ReleaseLines(lines, v2, r2)
  {
    hide Located, ScalarOf, AreLines, ImageBlock, Assign, ValidVersion, ValidPath, Plain;
    ReleaseFrame(lines, v1, r1);
    var b, loc := ReleaseLines(lines, v1, r1).value, ImageBlock(lines).value;
    ImageFields(lines);
    var i, j := loc[REPOSITORY], loc[TAG];
    var x := Assign(REPOSITORY, r2, ScalarOf(lines[i], REPOSITORY, 1).value.rest);
    var y := Assign(TAG, v2, ScalarOf(lines[j], TAG, 1).value.rest);
    assert Rewrite(lines, i, REPOSITORY, r2, ValidRepository, 1) == Some(lines[i := x]);
    assert Rewrite(lines[i := x], j, TAG, v2, ValidVersion, 1) == Some(lines[i := x][j := y]);
    assert Rewrite(b, i, REPOSITORY, r2, ValidRepository, 1) == Some(b[i := x]);
    assert Rewrite(b[i := x], j, TAG, v2, ValidVersion, 1) == Some(b[i := x][j := y]);
    assert b[i := x][j := y] == lines[i := x][j := y];
  }

  /** Last writer wins: on every accepted text, rewriting with one version and repository and then
      with another equals rewriting once with the other. */
  lemma LastWriterWins(text: string, v1: string, r1: string, v2: string, r2: string)
    requires ReleaseText(text, v1, r1).Some? && ValidVersion(v2) && ValidRepository(r2)
    ensures ReleaseText(text, v2, r2).Some?
    ensures ReleaseText(ReleaseText(text, v1, r1).value, v2, r2) == ReleaseText(text, v2, r2)
  {
    hide ReleaseLines, AreLines, Concat, ImageBlock, ScalarOf, Assign, ValidVersion, ValidPath;
    LinesSplit(text);
    LastWriterWinsOnLines(Lines(text), v1, r1, v2, r2);
    ReleaseFrame(Lines(text), v1, r1);
    ConcatSplits(ReleaseLines(Lines(text), v1, r1).value);
  }

  // ---- the search as the script does it ----

  lemma {:induction false} FieldsFail(lines: seq<string>, start: nat, i: nat, end: nat, names: seq<string>)
    requires start <= i <= end <= |lines| && Fields(lines, start, i, names).None?
    ensures Fields(lines, start, end, names).None?
    decreases end - i
  {
    if i < end {
      FieldsFail(lines, start, i + 1, end, names);
    }
  }

  /** The one line that names the section, and where its block ends. */
  function Bounds(lines: seq<string>, section: string): Option<(nat, nat)> {
    var roots := Roots(lines, section);
    if |roots| != 1 || roots[0] >= |lines| || !IsHeader(lines[roots[0]], section) then None
    else Some((roots[0] + 1, BlockEnd(lines, roots[0] + 1)))
  }

  lemma {:induction false} RootsAreLines(lines: seq<string>, section: string)
    ensures forall r :: r in Roots(lines, section) ==> r < |lines|
  {
    if lines != [] {
      RootsAreLines(lines[..|lines| - 1], section);
    }
  }

  method FindBounds(lines: seq<string>, section: string) returns (r: Option<(nat, nat)>)
    ensures r == Bounds(lines, section)
    ensures r.Some? ==> r.value.0 <= r.value.1 <= |lines|
  {
    hide IsKey, IsHeader, EndsBlock;
    var roots := [];
    for i := 0 to |lines|
      invariant roots == Roots(lines[..i], section)
    {
      assert lines[..i + 1][..i] == lines[..i];
      if IsKey(lines[i], section) {
        roots := roots + [i];
      }
    }
    assert lines[..|lines|] == lines;
    RootsAreLines(lines, section);
    assert |roots| == 1 ==> roots[0] in Roots(lines, section);
    if |roots| != 1 || !IsHeader(lines[roots[0]], section) {
      return None;
    }
    var start, end := roots[0] + 1, |lines|;
    for i := start to |lines|
      invariant BlockEnd(lines, start) == BlockEnd(lines, i)
      invariant end == |lines|
    {
      if EndsBlock(lines[i]) {
        end := i;
        break;
      }
    }
    return Some((start, end));
  }

  method FindFields(lines: seq<string>, section: string, names: seq<string>) returns (r: Option<map<string, nat>>)
    ensures r == Located(lines, section, names)
  {
    hide IsKey, IsHeader, EndsBlock, Ignored, Child;
    var bounds := FindBounds(lines, section);
    if bounds.None? {
      return None;
    }
    var (start, end) := bounds.value;
    var fields: map<string, nat> := map[];
    for i := start to end
      invariant Fields(lines, start, i, names) == Some(fields)
    {
      if Ignored(lines[i]) {
        continue;
      }
      var child := Child(lines[i], names);
      if child.None? || child.value in fields {
        FieldsFail(lines, start, i + 1, end, names);
        return None;
      }
      fields := fields[child.value := i];
    }
    r := Some(fields);
  }

  /** `release_values`: the list of lines is edited in place. */
  method ReleaseValues(text: string, version: string, repository: string) returns (r: Option<string>)
    ensures r == ReleaseText(text, version, repository)
  {
    hide Located, ScalarOf, ValidVersion, ValidPath, Strip, Lines, Assign, Concat;
    if !ValidVersion(version) || !ValidRepository(repository) {
      return None;
    }
    var lines := Lines(text);
    ghost var before := lines;
    var fields := FindFields(lines, IMAGE, IMAGE_NAMES);
    if fields.None? || !(forall n :: n in IMAGE_NAMES ==> n in fields.value) {
      return None;
    }
    LocatedInside(lines);
    if Strip(lines[fields.value[PULL_SECRETS]]) != NO_SECRETS {
      return None;
    }
    var index := fields.value[REPOSITORY];
    var scalar := ScalarOf(lines[index], REPOSITORY, 1);
    if scalar.None? || !ValidRepository(scalar.value.value) {
      return None;
    }
    lines := lines[index := Assign(REPOSITORY, repository, scalar.value.rest)];
    index := fields.value[TAG];
    scalar := ScalarOf(lines[index], TAG, 1);
    if scalar.None? || !ValidVersion(scalar.value.value) {
      return None;
    }
    lines := lines[index := Assign(TAG, version, scalar.value.rest)];
    r := Some(Concat(lines));
  }

  lemma LocatedInside(lines: seq<string>)
    requires Located(lines, IMAGE, IMAGE_NAMES).Some?
    ensures forall n :: n in Located(lines, IMAGE, IMAGE_NAMES).value ==> Located(lines, IMAGE, IMAGE_NAMES).value[n] < |lines|
    ensures forall n :: n in IMAGE_NAMES <==> n == REPOSITORY || n == TAG || n == PULL_POLICY || n == PULL_SECRETS
  {
    hide Located;
    forall n | n in Located(lines, IMAGE, IMAGE_NAMES).value
      ensures Located(lines, IMAGE, IMAGE_NAMES).value[n] < |lines|
    {
      LocatedAreChildren(lines, IMAGE, IMAGE_NAMES, n);
    }
  }

  // ---- the component and the installer ----

  const COMPONENT := "component"
  const URL := "repositoryUrl"
  const COMPONENT_NAMES := ["name", "namespace", "componentName", URL, "secretRefName", "semver", "interval", "chartResourceName"]

  function ComponentLines(lines: seq<string>, repository: string): Option<seq<string>> {
    var loc := Located(lines, COMPONENT, COMPONENT_NAMES);
    if !ValidOcm(repository) || loc.None? || URL !in loc.value then None
    else Rewrite(lines, loc.value[URL], URL, repository, ValidOcm, 1)
  }

  function ComponentText(text: string, repository: string): Option<string> {
    var r := ComponentLines(Lines(text), repository);
    if r.None? then None else Some(Concat(r.value))
  }

  /** `component_repository_values`. */
  method ComponentRepositoryValues(text: string, repository: string) returns (r: Option<string>)
    ensures r == ComponentText(text, repository)
  {
    hide Located, ScalarOf, ValidPath, Lines, Assign, Concat;
    if !ValidOcm(repository) {
      return None;
    }
    var lines := Lines(text);
    var fields := FindFields(lines, COMPONENT, COMPONENT_NAMES);
    if fields.None? || URL !in fields.value {
      return None;
    }
    LocatedAreChildren(lines, COMPONENT, COMPONENT_NAMES, URL);
    var index := fields.value[URL];
    var scalar := ScalarOf(lines[index], URL, 1);
    if scalar.None? || !ValidOcm(scalar.value.value) {
      return None;
    }
    lines := lines[index := Assign(URL, repository, scalar.value.rest)];
    r := Some(Concat(lines));
  }

  const OPERATOR := "operator"
  const IMAGE_REPOSITORY := "imageRepository"
  const IMAGE_TAG := "imageTag"
  const OCI := "oci://"

  predicate IsEntry(line: string, field: string) { StartsWith(line, "  ") && IsKey(line[2..], field) }

  function Entries(lines: seq<string>, start: nat, end: nat, field: string): seq<nat>
    requires start <= end <= |lines|
    decreases end
  {
    if start == end then []
    else Entries(lines, start, end - 1, field) + (if IsEntry(lines[end - 1], field) then [end - 1] else [])
  }

  /** The one line of the operator block that names the field. */
  function EntryOf(lines: seq<string>, field: string): Option<nat> {
    var b := Bounds(lines, OPERATOR);
    if b.None? || |Entries(lines, b.value.0, b.value.1, field)| != 1 then None
    else Some(Entries(lines, b.value.0, b.value.1, field)[0])
  }

  /** A tag may be empty before it is set. */
  predicate ValidTag(v: string) { v == "" || ValidVersion(v) }

  function WithoutScheme(r: string): string { if StartsWith(r, OCI) then r[|OCI|..] else r }

  predicate InputsValid(version: string, repository: string, ocm: string) {
    ValidVersion(version) && ValidRepository(repository) && ValidOcm(WithoutScheme(ocm))
  }

  function SetEntry(lines: seq<string>, field: string, text: string, valid: string -> bool): Option<seq<string>> {
    var i := EntryOf(lines, field);
    if i.None? then None else Rewrite(lines, i.value, field, text, valid, 0)
  }

  function OcmText(text: string, version: string, repository: string, ocm: string): Option<string> {
    if !InputsValid(version, repository, ocm) then None
    else
      var a := SetEntry(Lines(text), IMAGE_REPOSITORY, repository, ValidRepository);
      if a.None? then None
      else
        var b := SetEntry(a.value, IMAGE_TAG, version, ValidTag);
        if b.None? then None else ComponentText(Concat(b.value), WithoutScheme(ocm))
  }

  // ---- installer lines that are treated alike ----

  predicate AlikeHere(a: string, b: string) {
    && Alike(a, b, OPERATOR, []) && Alike(a, b, COMPONENT, COMPONENT_NAMES)
    && (IsEntry(a, IMAGE_REPOSITORY) <==> IsEntry(b, IMAGE_REPOSITORY)) && (IsEntry(a, IMAGE_TAG) <==> IsEntry(b, IMAGE_TAG))
  }

  predicate AllAlikeHere(a: seq<string>, b: seq<string>) {
    |a| == |b| && forall i :: 0 <= i < |a| ==> AlikeHere(a[i], b[i])
  }

  lemma {:induction false} SameEntries(a: seq<string>, b: seq<string>, start: nat, end: nat, field: string)
    requires AllAlikeHere(a, b) && start <= end <= |a| && (field == IMAGE_REPOSITORY || field == IMAGE_TAG)
    ensures Entries(a, start, end, field) == Entries(b, start, end, field)
    decreases end
  {
    hide IsEntry, Alike;
    if start < end {
      assert AlikeHere(a[end - 1], b[end - 1]);
      SameEntries(a, b, start, end - 1, field);
    }
  }

  lemma SameInstaller(a: seq<string>, b: seq<string>)
    requires AllAlikeHere(a, b)
    ensures EntryOf(a, IMAGE_REPOSITORY) == EntryOf(b, IMAGE_REPOSITORY) && EntryOf(a, IMAGE_TAG) == EntryOf(b, IMAGE_TAG)
    ensures Bounds(a, OPERATOR) == Bounds(b, OPERATOR)
    ensures Located(a, COMPONENT, COMPONENT_NAMES) == Located(b, COMPONENT, COMPONENT_NAMES)
  {
    hide IsEntry, Alike, Entries, Roots, BlockEnd, IsHeader, Fields;
    forall i | 0 <= i < |a| ensures Alike(a[i], b[i], OPERATOR, []) && Alike(a[i], b[i], COMPONENT, COMPONENT_NAMES) {
      assert AlikeHere(a[i], b[i]);
    }
    SameBlock(a, b, COMPONENT, COMPONENT_NAMES);
    SameBounds(a, b);
    var bounds := Bounds(a, OPERATOR);
    if bounds.Some? {
      SameEntries(a, b, bounds.value.0, bounds.value.1, IMAGE_REPOSITORY);
      SameEntries(a, b, bounds.value.0, bounds.value.1, IMAGE_TAG);
    }
  }

  lemma SameBounds(a: seq<string>, b: seq<string>)
    requires AllAlike(a, b, OPERATOR, [])
    ensures Bounds(a, OPERATOR) == Bounds(b, OPERATOR)
  {
    hide IsKey, IsHeader, EndsBlock, Ignored, Child, Roots, BlockEnd;
    SameRoots(a, b, OPERATOR, []);
    var roots := Roots(a, OPERATOR);
    if |roots| == 1 && roots[0] < |a| {
      assert Alike(a[roots[0]], b[roots[0]], OPERATOR, []);
      SameEnd(a, b, roots[0] + 1, OPERATOR, []);
    }
  }

  predicate IsName(n: string) { n != "" && ':' !in n && 'a' <= n[0] <= 'z' }

  lemma ComponentNameWords()
    ensures IsName("name") && IsName("namespace") && IsName("componentName") && IsName(URL)
  {}

  lemma MoreComponentNameWords()
    ensures IsName("secretRefName") && IsName("semver") && IsName("interval") && IsName("chartResourceName")
  {}

  lemma InstallerNameWords()
    ensures IsName(IMAGE_REPOSITORY) && IsName(IMAGE_TAG) && IsName(OPERATOR) && IsName(COMPONENT)
  {}

  lemma LettersAreNoSpaces(c: char)
    ensures 'a' <= c <= 'z' ==> !IsSpace(c)
  {}

  lemma NamesAreNames(names: seq<string>)
    requires forall n :: n in names ==> IsName(n)
    ensures AreNames(names)
  {
    hide IsSpace;
    forall n | n in names ensures !IsSpace(n[0]) {
      LettersAreNoSpaces(n[0]);
    }
  }

  lemma InstallerNames()
    ensures AreNames(COMPONENT_NAMES) && URL in COMPONENT_NAMES
    ensures AreNames([IMAGE_REPOSITORY, IMAGE_TAG])
    ensures COMPONENT != "" && COMPONENT[0] != ' ' && OPERATOR != "" && OPERATOR[0] != ' '
  {
    hide IsSpace, IsName;
    ComponentNameWords();
    MoreComponentNameWords();
    InstallerNameWords();
    NamesAreNames(COMPONENT_NAMES);
    NamesAreNames([IMAGE_REPOSITORY, IMAGE_TAG]);
  }

  lemma EntriesAreNoComponentNames(n: string)
    requires n in COMPONENT_NAMES
    ensures n != IMAGE_REPOSITORY && n != IMAGE_TAG && IMAGE_REPOSITORY != IMAGE_TAG
  {
    assert |IMAGE_REPOSITORY| == 15 && |IMAGE_TAG| == 8;
    assert "interval"[1] == 'n' && IMAGE_TAG[1] == 'm';
    assert |"chartResourceName"| == 17 && |"componentName"| == 13 && |"secretRefName"| == 13 && |URL| == 13;
  }

  lemma {:induction false} NoChild(line: string, names: seq<string>, field: string)
    requires AreNames(names) && field !in names && ':' !in field && StartsWith(line, Prefix(field))
    ensures Child(line, names).None?
  {
    hide HasValue, Prefix;
    if names != [] {
      assert forall n :: n in names[1..] ==> n in names;
      NoChild(line, names[1..], field);
      if StartsWith(line, Prefix(names[0])) {
        PrefixesDiffer(line, names[0], field);
      }
    }
  }

  /** What follows the two spaces names the field itself. */
  lemma FieldText(line: string, field: string)
    requires StartsWith(line, Prefix(field)) && IsName(field)
    ensures StartsWith(line, "  ") && StartsWith(line[2..], field) && line[2..] != "" && 'a' <= line[2..][0] <= 'z'
    ensures NamesKey(line[2..], field)
  {
    var s := line[2..];
    assert line[|field| + 2] == ':' && forall k :: 0 <= k < |field| ==> line[k + 2] == field[k];
    assert s[..|field|] == field && s[|field|..][0] == ':';
  }

  predicate Unlike(a: string, b: string) { !StartsWith(a, b) && !StartsWith(b, a) }

  lemma BothPrefixes(s: string, a: string, b: string)
    ensures StartsWith(s, a) && StartsWith(s, b) ==> StartsWith(a, b) || StartsWith(b, a)
  {
    if StartsWith(s, a) && StartsWith(s, b) {
      assert a == s[..|a|] && b == s[..|b|];
      assert |a| <= |b| ==> a == b[..|a|];
      assert |b| <= |a| ==> b == a[..|b|];
    }
  }

  lemma OtherKey(s: string, field: string, other: string)
    requires StartsWith(s, field) && s != "" && 'a' <= s[0] <= 'z' && Unlike(field, other)
    ensures !IsKey(s, other)
  {
    BothPrefixes(s, field, other);
  }

  /** A line of the form `  field: ...` names that field and no other. */
  lemma FieldLine(line: string, field: string, other: string)
    requires StartsWith(line, Prefix(field)) && IsName(field) && (other == field || Unlike(field, other))
    ensures StartsWith(line, "  ") && (IsEntry(line, other) <==> other == field)
  {
    hide NamesKey, Prefix;
    FieldText(line, field);
    if other != field {
      OtherKey(line[2..], field, other);
      assert field != other;
    }
  }

  lemma FieldsUnlike()
    ensures Unlike(IMAGE_REPOSITORY, IMAGE_TAG) && Unlike(IMAGE_TAG, IMAGE_REPOSITORY)
    ensures Unlike(URL, IMAGE_REPOSITORY) && Unlike(URL, IMAGE_TAG)
  {
    assert IMAGE_REPOSITORY[5] == 'R' && IMAGE_TAG[5] == 'T' && URL[0] == 'r';
  }

  /** Two lines that set the same field of the installer are treated alike. */
  lemma FieldLinesAlike(a: string, b: string, field: string)
    requires StartsWith(a, Prefix(field)) && StartsWith(b, Prefix(field)) && (field == IMAGE_REPOSITORY || field == IMAGE_TAG)
    ensures AlikeHere(a, b)
  {
    hide IsKey, IsHeader, Ignored, EndsBlock, Prefix, IsName, IsEntry, Unlike, IsSpace, AreNames;
    InstallerNames();
    InstallerNameWords();
    FieldsUnlike();
    NotAComponentName(field);
    forall line | line == a || line == b
      ensures Child(line, COMPONENT_NAMES).None? && !IsKey(line, OPERATOR) && !IsHeader(line, OPERATOR) && !Ignored(line)
      ensures !IsKey(line, COMPONENT) && !IsHeader(line, COMPONENT) && !EndsBlock(line)
      ensures IsEntry(line, IMAGE_REPOSITORY) <==> field == IMAGE_REPOSITORY
      ensures IsEntry(line, IMAGE_TAG) <==> field == IMAGE_TAG
    {
      FieldKinds(line, field);
    }
  }

  lemma NotAComponentName(field: string)
    requires field == IMAGE_REPOSITORY || field == IMAGE_TAG
    ensures field !in COMPONENT_NAMES
  {
    if field in COMPONENT_NAMES {
      EntriesAreNoComponentNames(field);
    }
  }

  lemma FieldKinds(line: string, field: string)
    requires StartsWith(line, Prefix(field)) && (field == IMAGE_REPOSITORY || field == IMAGE_TAG)
    ensures Child(line, COMPONENT_NAMES).None? && !IsKey(line, OPERATOR) && !IsHeader(line, OPERATOR) && !Ignored(line)
    ensures !IsKey(line, COMPONENT) && !IsHeader(line, COMPONENT) && !EndsBlock(line)
    ensures IsEntry(line, IMAGE_REPOSITORY) <==> field == IMAGE_REPOSITORY
    ensures IsEntry(line, IMAGE_TAG) <==> field == IMAGE_TAG
  {
    hide IsKey, IsHeader, Ignored, EndsBlock, Prefix, IsEntry, Unlike, IsSpace, AreNames, Child;
    InstallerNames();
    InstallerNameWords();
    FieldsUnlike();
    NotAComponentName(field);
    NoChild(line, COMPONENT_NAMES, field);
    NamedIgnored(line, field);
    NotAKey(line, OPERATOR);
    NotAKey(line, COMPONENT);
    FieldLine(line, field, IMAGE_REPOSITORY);
    FieldLine(line, field, IMAGE_TAG);
  }

  lemma NamedIgnored(line: string, field: string)
    requires StartsWith(line, Prefix(field)) && IsName(field)
    ensures !Ignored(line) && !EndsBlock(line) && StartsWith(line, "  ")
  {
    hide IsSpace;
    LettersAreNoSpaces(field[0]);
    NamedNotIgnored(line, field);
  }

  lemma UrlKinds(line: string)
    requires StartsWith(line, Prefix(URL))
    ensures !IsKey(line, OPERATOR) && !IsHeader(line, OPERATOR) && !Ignored(line) && !EndsBlock(line)
    ensures !IsEntry(line, IMAGE_REPOSITORY) && !IsEntry(line, IMAGE_TAG)
  {
    hide IsKey, IsHeader, Ignored, EndsBlock, Prefix, IsEntry, Unlike, IsSpace;
    InstallerNames();
    ComponentNameWords();
    FieldsUnlike();
    NamedIgnored(line, URL);
    NotAKey(line, OPERATOR);
    FieldLine(line, URL, IMAGE_REPOSITORY);
    FieldLine(line, URL, IMAGE_TAG);
  }

  // ---- rewriting the installer's values ----

  lemma {:induction false} EntriesAreEntries(lines: seq<string>, start: nat, end: nat, field: string)
    requires start <= end <= |lines|
    ensures forall i :: i in Entries(lines, start, end, field) ==> i < end && IsEntry(lines[i], field)
    decreases end
  {
    hide IsEntry;
    if start < end {
      EntriesAreEntries(lines, start, end - 1, field);
    }
  }

  lemma EntryIsLine(lines: seq<string>, field: string)
    requires EntryOf(lines, field).Some?
    ensures EntryOf(lines, field).value < |lines| && IsEntry(lines[EntryOf(lines, field).value], field)
  {
    hide IsEntry, Bounds, Entries;
    var b := Bounds(lines, OPERATOR).value;
    BoundsInside(lines);
    EntriesAreEntries(lines, b.0, b.1, field);
    assert EntryOf(lines, field).value in Entries(lines, b.0, b.1, field);
  }

  lemma BoundsInside(lines: seq<string>)
    requires Bounds(lines, OPERATOR).Some?
    ensures Bounds(lines, OPERATOR).value.0 <= Bounds(lines, OPERATOR).value.1 <= |lines|
  {}

  lemma AlikeHereItself(line: string)
    ensures AlikeHere(line, line)
  {}

  lemma ScalarStarts(line: string, name: string, least: nat)
    requires ScalarOf(line, name, least).Some?
    ensures StartsWith(line, Prefix(name)) && IsTrailer(ScalarOf(line, name, least).value.rest)
  {
    hide ScalarIn;
    ScalarParts(line[|Prefix(name)|..], least);
  }

  /** One rewritten installer field: everything is found again, and only the value has changed. */
  lemma EntryStep(lines: seq<string>, field: string, text: string, valid: string -> bool)
    requires AreLines(lines) && Plain(text) && (field == IMAGE_REPOSITORY || field == IMAGE_TAG)
    requires SetEntry(lines, field, text, valid).Some?
    ensures var i, a := EntryOf(lines, field).value, SetEntry(lines, field, text, valid).value;
      && AreLines(a) && |a| == |lines| && i < |lines| && AllAlikeHere(lines, a)
      && StartsWith(lines[i], Prefix(field)) && Set(lines, a, i, field, text, 0)
  {
    hide EntryOf, ScalarOf, AlikeHere, Assign, AreLines, Prefix, StartsWith;
    var i, a := EntryOf(lines, field).value, SetEntry(lines, field, text, valid).value;
    var rest := ScalarOf(lines[i], field, 0).value.rest;
    RewriteKeepsLines(lines, i, field, text, valid, 0);
    ScalarStarts(lines[i], field, 0);
    AssignedIsRead(field, text, rest, 0);
    ScalarStarts(a[i], field, 0);
    FieldLinesAlike(lines[i], a[i], field);
    forall k | 0 <= k < |lines| ensures AlikeHere(lines[k], a[k]) {
      if k != i {
        AlikeHereItself(lines[k]);
      }
    }
  }

  /** Line `i` has a new value and nothing else has changed. */
  predicate Set(a: seq<string>, b: seq<string>, i: nat, name: string, text: string, least: nat) {
    && i < |a| && ScalarOf(a[i], name, least).Some? && b == a[i := Assign(name, text, ScalarOf(a[i], name, least).value.rest)]
    && ScalarOf(b[i], name, least) == Some(Scalar(text, ScalarOf(a[i], name, least).value.rest))
  }

  lemma UrlStep(lines: seq<string>, ocm: string)
    requires AreLines(lines) && ComponentLines(lines, ocm).Some?
    ensures var i, a := Located(lines, COMPONENT, COMPONENT_NAMES).value[URL], ComponentLines(lines, ocm).value;
      && AreLines(a) && |a| == |lines| && i < |lines| && AllAlikeHere(lines, a)
      && StartsWith(lines[i], Prefix(URL)) && Set(lines, a, i, URL, ocm, 1)
  {
    hide Located, ScalarOf, Alike, IsEntry, Assign, AreLines, Prefix, StartsWith, ValidPath, Plain;
    InstallerNames();
    RepositoriesArePlain(ocm);
    var i, a := Located(lines, COMPONENT, COMPONENT_NAMES).value[URL], ComponentLines(lines, ocm).value;
    RewriteStep(lines, COMPONENT, COMPONENT_NAMES, URL, ocm, ValidOcm);
    LocatedAreChildren(lines, COMPONENT, COMPONENT_NAMES, URL);
    ScalarStarts(lines[i], URL, 1);
    ScalarStarts(a[i], URL, 1);
    AssignedIsAlike(lines[i], URL, ocm, 1, COMPONENT, COMPONENT_NAMES);
    UrlAlike(lines[i], a[i]);
    forall k | 0 <= k < |lines| ensures AlikeHere(lines[k], a[k]) {
      if k != i {
        AlikeHereItself(lines[k]);
      }
    }
  }

  lemma UrlAlike(a: string, b: string)
    requires StartsWith(a, Prefix(URL)) && StartsWith(b, Prefix(URL)) && Alike(a, b, COMPONENT, COMPONENT_NAMES)
    ensures AlikeHere(a, b)
  {
    hide IsKey, IsHeader, Ignored, EndsBlock, Prefix, IsEntry, StartsWith;
    UrlKinds(a);
    UrlKinds(b);
  }

  /** Component rewriting: last writer wins, and only the repository's value changes. */
  lemma ComponentLastWriterWins(text: string, o1: string, o2: string)
    requires ComponentText(text, o1).Some? && ValidOcm(o2)
    ensures ComponentText(text, o2).Some?
    ensures ComponentText(ComponentText(text, o1).value, o2) == ComponentText(text, o2)
    ensures var lines, b := Lines(text), Lines(ComponentText(text, o1).value);
      var loc := Located(lines, COMPONENT, COMPONENT_NAMES).value;
      URL in loc && Set(lines, b, loc[URL], URL, o1, 1)
  {
    hide Located, ScalarOf, Assign, AreLines, Prefix, StartsWith, ValidPath, AllAlikeHere, Lines, Concat;
    var lines := Lines(text);
    LinesSplit(text);
    UrlStep(lines, o1);
    var b := ComponentLines(lines, o1).value;
    SameInstaller(lines, b);
    ConcatSplits(b);
    var i := Located(lines, COMPONENT, COMPONENT_NAMES).value[URL];
    var x := Assign(URL, o2, ScalarOf(lines[i], URL, 1).value.rest);
    assert b[i := x] == lines[i := x];
  }

  function OcmLines(lines: seq<string>, version: string, repository: string, ocm: string): Option<seq<string>> {
    var a := SetEntry(lines, IMAGE_REPOSITORY, repository, ValidRepository);
    if a.None? then None
    else
      var b := SetEntry(a.value, IMAGE_TAG, version, ValidTag);
      if b.None? then None else ComponentLines(b.value, ocm)
  }

  /** Everything that the installer rewrite looks for: three different lines with acceptable values. */
  predicate Planned(lines: seq<string>, i: nat, j: nat, k: nat) {
    && EntryOf(lines, IMAGE_REPOSITORY) == Some(i) && EntryOf(lines, IMAGE_TAG) == Some(j)
    && Located(lines, COMPONENT, COMPONENT_NAMES).Some? && URL in Located(lines, COMPONENT, COMPONENT_NAMES).value
    && Located(lines, COMPONENT, COMPONENT_NAMES).value[URL] == k
    && i < |lines| && j < |lines| && k < |lines| && i != j && j != k && i != k
    && ScalarOf(lines[i], IMAGE_REPOSITORY, 0).Some? && ValidRepository(ScalarOf(lines[i], IMAGE_REPOSITORY, 0).value.value)
    && ScalarOf(lines[j], IMAGE_TAG, 0).Some? && ValidTag(ScalarOf(lines[j], IMAGE_TAG, 0).value.value)
    && ScalarOf(lines[k], URL, 1).Some? && ValidOcm(ScalarOf(lines[k], URL, 1).value.value)
  }

  /** The three values replaced, with their trailers. */
  function Final(lines: seq<string>, i: nat, j: nat, k: nat, version: string, repository: string, ocm: string): seq<string>
    requires Planned(lines, i, j, k)
  {
    lines[i := Assign(IMAGE_REPOSITORY, repository, ScalarOf(lines[i], IMAGE_REPOSITORY, 0).value.rest)]
         [j := Assign(IMAGE_TAG, version, ScalarOf(lines[j], IMAGE_TAG, 0).value.rest)]
         [k := Assign(URL, ocm, ScalarOf(lines[k], URL, 1).value.rest)]
  }

  lemma EntriesDiffer(lines: seq<string>, i: nat, field: string, other: string)
    requires i < |lines| && StartsWith(lines[i], Prefix(field)) && field != other
    requires (field == IMAGE_REPOSITORY || field == IMAGE_TAG) && (other == IMAGE_REPOSITORY || other == IMAGE_TAG)
    ensures EntryOf(lines, other).Some? ==> EntryOf(lines, other).value != i
    ensures Located(lines, COMPONENT, COMPONENT_NAMES).Some? && URL in Located(lines, COMPONENT, COMPONENT_NAMES).value ==>
      Located(lines, COMPONENT, COMPONENT_NAMES).value[URL] != i
  {
    hide EntryOf, Located, IsEntry, Child, Prefix, StartsWith, IsKey, IsHeader, Ignored, EndsBlock;
    FieldKinds(lines[i], field);
    if EntryOf(lines, other).Some? {
      EntryIsLine(lines, other);
    }
    if Located(lines, COMPONENT, COMPONENT_NAMES).Some? && URL in Located(lines, COMPONENT, COMPONENT_NAMES).value {
      LocatedAreChildren(lines, COMPONENT, COMPONENT_NAMES, URL);
    }
  }

  lemma PlainInputs(version: string, repository: string, ocm: string)
    requires ValidVersion(version) && ValidRepository(repository) && ValidOcm(ocm)
    ensures Plain(version) && Plain(repository) && Plain(ocm)
  {
    hide ValidVersion, ValidPath, Plain;
    VersionsArePlain(version);
    RepositoriesArePlain(repository);
    RepositoriesArePlain(ocm);
  }

  /** What a successful installer rewrite found and did; everything can be found again afterwards. */
  lemma OcmPlan(lines: seq<string>, version: string, repository: string, ocm: string) returns (i: nat, j: nat, k: nat)
    requires AreLines(lines) && ValidVersion(version) && ValidRepository(repository) && ValidOcm(ocm)
    requires OcmLines(lines, version, repository, ocm).Some?
    ensures Planned(lines, i, j, k)
    ensures var c := OcmLines(lines, version, repository, ocm).value;
      && c == Final(lines, i, j, k, version, repository, ocm) && AreLines(c) && Planned(c, i, j, k)
      && ScalarOf(c[i], IMAGE_REPOSITORY, 0).value.rest == ScalarOf(lines[i], IMAGE_REPOSITORY, 0).value.rest
      && ScalarOf(c[j], IMAGE_TAG, 0).value.rest == ScalarOf(lines[j], IMAGE_TAG, 0).value.rest
      && ScalarOf(c[k], URL, 1).value.rest == ScalarOf(lines[k], URL, 1).value.rest
  {
    hide Located, ScalarOf, Assign, AreLines, Prefix, StartsWith, ValidPath, ValidVersion, EntryOf, AllAlikeHere, Plain;
    PlainInputs(version, repository, ocm);
    var a := SetEntry(lines, IMAGE_REPOSITORY, repository, ValidRepository).value;
    EntryStep(lines, IMAGE_REPOSITORY, repository, ValidRepository);
    SameInstaller(lines, a);
    i := EntryOf(lines, IMAGE_REPOSITORY).value;
    EntriesDiffer(lines, i, IMAGE_REPOSITORY, IMAGE_TAG);
    var b := SetEntry(a, IMAGE_TAG, version, ValidTag).value;
    EntryStep(a, IMAGE_TAG, version, ValidTag);
    SameInstaller(a, b);
    j := EntryOf(lines, IMAGE_TAG).value;
    EntriesDiffer(a, j, IMAGE_TAG, IMAGE_REPOSITORY);
    UrlStep(b, ocm);
    SameInstaller(b, ComponentLines(b, ocm).value);
    k := Located(lines, COMPONENT, COMPONENT_NAMES).value[URL];
  }

  lemma OcmFromPlan(lines: seq<string>, i: nat, j: nat, k: nat, version: string, repository: string, ocm: string)
    requires AreLines(lines) && ValidVersion(version) && ValidRepository(repository) && ValidOcm(ocm) && Planned(lines, i, j, k)
    ensures OcmLines(lines, version, repository, ocm) == Some(Final(lines, i, j, k, version, repository, ocm))
  {
    hide Located, ScalarOf, Assign, AreLines, Prefix, StartsWith, ValidPath, ValidVersion, EntryOf, AllAlikeHere, Plain;
    PlainInputs(version, repository, ocm);
    var a := SetEntry(lines, IMAGE_REPOSITORY, repository, ValidRepository).value;
    EntryStep(lines, IMAGE_REPOSITORY, repository, ValidRepository);
    SameInstaller(lines, a);
    var b := SetEntry(a, IMAGE_TAG, version, ValidTag).value;
    EntryStep(a, IMAGE_TAG, version, ValidTag);
    SameInstaller(a, b);
  }

  lemma OcmTextIsLines(text: string, version: string, repository: string, ocm: string)
    ensures OcmText(text, version, repository, ocm)
         == if !InputsValid(version, repository, ocm) || OcmLines(Lines(text), version, repository, WithoutScheme(ocm)).None? then None
            else Some(Concat(OcmLines(Lines(text), version, repository, WithoutScheme(ocm)).value))
  {
    hide Located, ScalarOf, Assign, AreLines, Prefix, StartsWith, ValidPath, ValidVersion, EntryOf, AllAlikeHere, Plain, Lines, Concat,
      WithoutScheme, ComponentLines, Rewrite;
    if InputsValid(version, repository, ocm) {
      PlainInputs(version, repository, WithoutScheme(ocm));
      LinesSplit(text);
      var a := SetEntry(Lines(text), IMAGE_REPOSITORY, repository, ValidRepository);
      if a.Some? {
        EntryStep(Lines(text), IMAGE_REPOSITORY, repository, ValidRepository);
        var b := SetEntry(a.value, IMAGE_TAG, version, ValidTag);
        if b.Some? {
          EntryStep(a.value, IMAGE_TAG, version, ValidTag);
          ConcatSplits(b.value);
        }
      }
    }
  }

  /** Installer values: last writer wins, on every accepted text. */
  lemma OcmLastWriterWins(text: string, v1: string, r1: string, o1: string, v2: string, r2: string, o2: string)
    requires OcmText(text, v1, r1, o1).Some? && InputsValid(v2, r2, o2)
    ensures OcmText(text, v2, r2, o2).Some?
    ensures OcmText(OcmText(text, v1, r1, o1).value, v2, r2, o2) == OcmText(text, v2, r2, o2)
  {
    hide OcmText, OcmLines, Planned, ScalarOf, Assign, AreLines, ValidPath, ValidVersion, Lines, Concat, WithoutScheme;
    var lines, x1, x2 := Lines(text), WithoutScheme(o1), WithoutScheme(o2);
    LinesSplit(text);
    OcmTextIsLines(text, v1, r1, o1);
    OcmTextIsLines(text, v2, r2, o2);
    var i, j, k := OcmPlan(lines, v1, r1, x1);
    var c := OcmLines(lines, v1, r1, x1).value;
    ConcatSplits(c);
    OcmTextIsLines(Concat(c), v2, r2, o2);
    OcmFromPlan(lines, i, j, k, v2, r2, x2);
    OcmFromPlan(c, i, j, k, v2, r2, x2);
    PlannedInside(lines, i, j, k);
    assert Final(c, i, j, k, v2, r2, x2) == Final(lines, i, j, k, v2, r2, x2);
  }

  lemma PlannedInside(lines: seq<string>, i: nat, j: nat, k: nat)
    requires Planned(lines, i, j, k)
    ensures i < |lines| && j < |lines| && k < |lines| && i != j && j != k && i != k
  {}

  method FindEntries(lines: seq<string>, start: nat, end: nat, field: string) returns (found: seq<nat>)
    requires start <= end <= |lines|
    ensures found == Entries(lines, start, end, field)
  {
    hide IsEntry;
    found := [];
    for i := start to end
      invariant found == Entries(lines, start, i, field)
    {
      if IsEntry(lines[i], field) {
        found := found + [i];
      }
    }
  }

  /** One field of the operator block, whose bounds are known. */
  method EditEntry(lines: seq<string>, bounds: (nat, nat), field: string, text: string, valid: string -> bool)
    returns (r: Option<seq<string>>)
    requires Bounds(lines, OPERATOR) == Some(bounds) && bounds.0 <= bounds.1 <= |lines|
    ensures r == SetEntry(lines, field, text, valid)
  {
    hide Bounds, ScalarOf, Entries, Assign;
    var candidates := FindEntries(lines, bounds.0, bounds.1, field);
    if |candidates| != 1 {
      return None;
    }
    EntryIsLine(lines, field);
    var scalar := ScalarOf(lines[candidates[0]], field, 0);
    if scalar.None? || !valid(scalar.value.value) {
      return None;
    }
    r := Some(lines[candidates[0] := Assign(field, text, scalar.value.rest)]);
  }

  /** `ocm_release_values`: the bounds of the operator block are found once, before the edits. */
  method OcmReleaseValues(text: string, version: string, repository: string, ocm: string) returns (r: Option<string>)
    ensures r == OcmText(text, version, repository, ocm)
  {
    hide Bounds, Located, ScalarOf, Assign, AreLines, ValidPath, ValidVersion, AllAlikeHere, Lines, Concat, SetEntry, Plain, ComponentText;
    if !InputsValid(version, repository, ocm) {
      return None;
    }
    PlainInputs(version, repository, WithoutScheme(ocm));
    LinesSplit(text);
    var lines := Lines(text);
    var bounds := FindBounds(lines, OPERATOR);
    if bounds.None? {
      NoBounds(lines, repository);
      return None;
    }
    var edited := EditEntry(lines, bounds.value, IMAGE_REPOSITORY, repository, ValidRepository);
    if edited.None? {
      return None;
    }
    EntryStep(lines, IMAGE_REPOSITORY, repository, ValidRepository);
    SameInstaller(lines, edited.value);
    lines := edited.value;
    edited := EditEntry(lines, bounds.value, IMAGE_TAG, version, ValidTag);
    if edited.None? {
      return None;
    }
    r := ComponentRepositoryValues(Concat(edited.value), WithoutScheme(ocm));
  }

  lemma NoBounds(lines: seq<string>, repository: string)
    requires Bounds(lines, OPERATOR).None?
    ensures SetEntry(lines, IMAGE_REPOSITORY, repository, ValidRepository).None?
  {}
}
