/**
 The few string operations the knowledge service relies on, over ASCII letters and white space,
 and the markdown chunking that turns a document into snippets.
 */
module Text {

  predicate IsSpace(c: char) {
    c == ' ' || c == '\t' || c == '\n' || c == '\r' || c as int == 11 || c as int == 12
  }

  function TrimLeft(s: string): string {
    if s != [] && IsSpace(s[0]) then TrimLeft(s[1..]) else s
  }

  function TrimRight(s: string): string {
    if s != [] && IsSpace(s[|s| - 1]) then TrimRight(s[..|s| - 1]) else s
  }

  function TrimSpace(s: string): string {
    TrimRight(TrimLeft(s))
  }

  function LowerChar(c: char): char {
    if 'A' <= c <= 'Z' then (c as int + 32) as char else c
  }

  function ToLower(s: string): string {
    seq(|s|, i requires 0 <= i < |s| => LowerChar(s[i]))
  }

  predicate Contains(s: string, t: string) {
    t <= s || (s != "" && Contains(s[1..], t))
  }

  lemma ContainsNext(s: string, t: string, before: string, after: string)
    requires s == before + t + after && before != ""
    ensures s != "" && s[1..] == before[1..] + t + after
  {
    assert s == [before[0]] + (before[1..] + t + after);
  }

  lemma {:induction false} Holds(before: string, t: string, after: string)
    ensures Contains(before + t + after, t)
  {
    if before == "" {
      assert before + t + after == t + after;
      assert t <= t + after;
    } else {
      Holds(before[1..], t, after);
      ContainsNext(before + t + after, t, before, after);
    }
  }

  lemma {:induction false} Found(s: string, t: string) returns (before: string, after: string)
    requires Contains(s, t)
    ensures s == before + t + after
  {
    if t <= s {
      before, after := "", s[|t|..];
    } else {
      before, after := Found(s[1..], t);
      before := [s[0]] + before;
      assert s == [s[0]] + s[1..];
    }
  }

  /** Containing is standing somewhere in between. */
  lemma ContainsIs(s: string, t: string)
    ensures Contains(s, t) <==> exists before, after :: s == before + t + after
  {
    hide Contains;
    if Contains(s, t) {
      var before, after := Found(s, t);
    }
    if before, after :| s == before + t + after { Holds(before, t, after); }
  }

  function Hashes(s: string): nat {
    if s != [] && s[0] == '#' then 1 + Hashes(s[1..]) else 0
  }

  lemma HashesBound(s: string)
    ensures Hashes(s) <= |s|
  {
  }

  /** A line that opens a section: `## ` with a non-blank title. */
  predicate OpensSection(line: string) {
    var s := TrimSpace(line);
    HashesBound(s);
    Hashes(s) == 2 && TrimSpace(s[2..]) != ""
  }

  /** The lines of a text, without their line breaks. */
  function Lines(s: string, current: string): seq<string> {
    if s == [] then [current]
    else if s[0] == '\n' then [current] + Lines(s[1..], "")
    else Lines(s[1..], current + [s[0]])
  }

  function Joined(lines: seq<string>): string {
    if lines == [] then ""
    else if |lines| == 1 then lines[0]
    else lines[0] + "\n" + Joined(lines[1..])
  }

  function Flushed(section: seq<string>): seq<string> {
    var snippet := TrimSpace(Joined(section));
    if snippet == "" then [] else [snippet]
  }

  /** Every second-level heading starts a section; each non-blank section is one snippet. */
  function Sections(lines: seq<string>, section: seq<string>): seq<string> {
    if lines == [] then Flushed(section)
    else if OpensSection(lines[0]) then Flushed(section) + Sections(lines[1..], [lines[0]])
    else Sections(lines[1..], section + [lines[0]])
  }

  function Snippets(markdown: string): seq<string> {
    Sections(Lines(markdown, ""), [])
  }

  lemma {:induction false} LinesBound(s: string, current: string)
    ensures |Lines(s, current)| <= |s| + 1
    decreases |s|
  {
    if s != [] { LinesBound(s[1..], if s[0] == '\n' then "" else current + [s[0]]); }
  }

  lemma {:induction false} SectionsBound(lines: seq<string>, section: seq<string>)
    ensures |Sections(lines, section)| <= |lines| + 1
    decreases |lines|
  {
    if lines != [] { SectionsBound(lines[1..], if OpensSection(lines[0]) then [lines[0]] else section + [lines[0]]); }
  }

  /** There are no more snippets than line breaks, but for two. */
  lemma SnippetsBound(markdown: string)
    ensures |Snippets(markdown)| <= |markdown| + 2
  {
    LinesBound(markdown, "");
    SectionsBound(Lines(markdown, ""), []);
  }

  // ------------------------------------------------- no text is lost altogether

  predicate Ink(s: string) {
    s != [] && (!IsSpace(s[0]) || Ink(s[1..]))
  }

  lemma {:induction false} InkOfSum(a: string, b: string)
    ensures Ink(a + b) <==> Ink(a) || Ink(b)
  {
    if a == [] {
      assert a + b == b;
    } else {
      InkOfSum(a[1..], b);
      assert (a + b)[1..] == a[1..] + b;
    }
  }

  lemma {:induction false} TrimLeftInk(s: string)
    ensures Ink(TrimLeft(s)) <==> Ink(s)
  {
    if s != [] { TrimLeftInk(s[1..]); }
  }

  lemma {:induction false} TrimRightInk(s: string)
    ensures TrimRight(s) != "" <==> Ink(s)
  {
    if s != [] {
      var init, last := s[..|s| - 1], s[|s| - 1];
      assert s == init + [last];
      InkOfSum(init, [last]);
      TrimRightInk(init);
    }
  }

  lemma TrimSpaceInk(s: string)
    ensures TrimSpace(s) != "" <==> Ink(s)
  {
    TrimLeftInk(s);
    TrimRightInk(TrimLeft(s));
  }

  predicate AnyInk(lines: seq<string>) {
    lines != [] && (Ink(lines[0]) || AnyInk(lines[1..]))
  }

  lemma {:induction false} AnyInkOfSum(a: seq<string>, b: seq<string>)
    ensures AnyInk(a + b) <==> AnyInk(a) || AnyInk(b)
  {
    if a == [] {
      assert a + b == b;
    } else {
      AnyInkOfSum(a[1..], b);
      assert (a + b)[1..] == a[1..] + b;
    }
  }

  lemma {:induction false} LinesInk(s: string, current: string)
    ensures AnyInk(Lines(s, current)) <==> Ink(current) || Ink(s)
  {
    if s != [] {
      LinesInk(s[1..], if s[0] == '\n' then "" else current + [s[0]]);
      InkOfSum(current, [s[0]]);
      AnyInkOfSum([current], Lines(s[1..], ""));
    }
  }

  lemma {:induction false} JoinedInk(lines: seq<string>)
    ensures Ink(Joined(lines)) <==> AnyInk(lines)
  {
    if |lines| > 1 {
      JoinedInk(lines[1..]);
      InkOfSum(lines[0] + "\n", Joined(lines[1..]));
      InkOfSum(lines[0], "\n");
    }
  }

  lemma {:induction false} SectionsInk(lines: seq<string>, section: seq<string>)
    ensures Sections(lines, section) != [] <==> AnyInk(section) || AnyInk(lines)
    decreases |lines|
  {
    hide OpensSection, TrimSpace, Joined;
    JoinedInk(section);
    TrimSpaceInk(Joined(section));
    if lines != [] {
      SectionsInk(lines[1..], if OpensSection(lines[0]) then [lines[0]] else section + [lines[0]]);
      AnyInkOfSum(section, [lines[0]]);
    }
  }

  /** Exactly the non-blank documents have snippets, so a fallback chunk is never needed. */
  lemma SnippetsExist(markdown: string)
    ensures Snippets(markdown) != [] <==> TrimSpace(markdown) != ""
  {
    TrimSpaceInk(markdown);
    LinesInk(markdown, "");
    SectionsInk(Lines(markdown, ""), []);
  }

  // ----------------------------------------------- what the lines and sections are

  /** Putting the line breaks back gives the text, and no line has one. */
  lemma {:induction false} LinesJoin(s: string, current: string)
    requires '\n' !in current
    ensures Joined(Lines(s, current)) == current + s
    ensures forall i | 0 <= i < |Lines(s, current)| :: '\n' !in Lines(s, current)[i]
    decreases |s|
  {
    if s == [] {
      assert current + s == current;
    } else if s[0] == '\n' {
      LinesJoin(s[1..], "");
      assert |Lines(s[1..], "")| > 0;
      assert Lines(s, current)[1..] == Lines(s[1..], "");
      assert current + "\n" + ("" + s[1..]) == current + s;
    } else {
      LinesJoin(s[1..], current + [s[0]]);
      assert current + [s[0]] + s[1..] == current + s;
    }
  }

  lemma TwoHashes(s: string)
    ensures Hashes(s) == 2 <==> |s| >= 2 && s[0] == '#' && s[1] == '#' && (|s| > 2 ==> s[2] != '#')
  {
    if |s| >= 2 {
      assert s[1..][0] == s[1] && s[1..][1..] == s[2..];
      assert |s| > 2 ==> s[2..][0] == s[2];
      assert Hashes(s[1..]) == if s[1] == '#' then 1 + Hashes(s[2..]) else 0;
    }
  }

  /** A section opens with `##`, not followed by a third mark, before a title. */
  lemma OpensSectionIs(line: string)
    ensures OpensSection(line) <==>
            var s := TrimSpace(line);
            |s| >= 3 && s[0] == '#' && s[1] == '#' && s[2] != '#' && exists i | 2 <= i < |s| :: !IsSpace(s[i])
  {
    var s := TrimSpace(line);
    hide TrimSpace, Hashes, Ink;
    HashesBound(s);
    TwoHashes(s);
    if |s| >= 2 {
      TrimSpaceInk(s[2..]);
      InkIs(s[2..]);
      assert forall i | 2 <= i < |s| :: s[2..][i - 2] == s[i];
      assert forall i | 0 <= i < |s[2..]| :: s[2..][i] == s[i + 2];
    }
  }

  lemma {:induction false} InkIs(s: string)
    ensures Ink(s) <==> exists i | 0 <= i < |s| :: !IsSpace(s[i])
  {
    if s != [] {
      InkIs(s[1..]);
      if i :| 0 <= i < |s[1..]| && !IsSpace(s[1..][i]) { assert !IsSpace(s[i + 1]); }
      if i :| 0 <= i < |s| && !IsSpace(s[i]) {
        if i > 0 { assert s[1..][i - 1] == s[i]; }
      }
    }
  }

  ghost function Concat(blocks: seq<seq<string>>): seq<string> {
    if blocks == [] then [] else blocks[0] + Concat(blocks[1..])
  }

  /** The trimmed texts of the blocks, without the blank ones. */
  ghost function Trimmed(blocks: seq<seq<string>>): seq<string> {
    if blocks == [] then []
    else (if TrimSpace(Joined(blocks[0])) == "" then [] else [TrimSpace(Joined(blocks[0]))]) + Trimmed(blocks[1..])
  }

  lemma {:induction false} SectionsCut(lines: seq<string>, section: seq<string>) returns (blocks: seq<seq<string>>)
    requires forall i | 1 <= i < |section| :: !OpensSection(section[i])
    ensures Concat(blocks) == section + lines && Sections(lines, section) == Trimmed(blocks)
    ensures blocks != [] && section <= blocks[0] && (section == [] && blocks[0] != [] ==> !OpensSection(blocks[0][0]))
    ensures forall b | 1 <= b < |blocks| :: blocks[b] != [] && OpensSection(blocks[b][0])
    ensures forall b, i | 0 <= b < |blocks| && 1 <= i < |blocks[b]| :: !OpensSection(blocks[b][i])
    decreases |lines|
  {
    hide OpensSection, TrimSpace, Joined;
    if lines == [] {
      blocks := [section];
      assert blocks[1..] == [];
      assert section + lines == section;
    } else {
      assert lines == [lines[0]] + lines[1..];
      if OpensSection(lines[0]) {
        var rest := SectionsCut(lines[1..], [lines[0]]);
        blocks := [section] + rest;
        assert blocks[1..] == rest;
      } else {
        blocks := SectionsCut(lines[1..], section + [lines[0]]);
        assert section + [lines[0]] + lines[1..] == section + lines;
      }
    }
  }

  /**
   The snippets of a document are the trimmed texts of its blocks, blank ones left out: the lines, in order and each
   once, cut before every line that opens a section and nowhere else.
   */
  lemma SnippetsAreSections(markdown: string) returns (blocks: seq<seq<string>>)
    ensures Joined(Concat(blocks)) == markdown && (forall i | 0 <= i < |Concat(blocks)| :: '\n' !in Concat(blocks)[i])
    ensures Snippets(markdown) == Trimmed(blocks)
    ensures forall b, i | 0 <= b < |blocks| && 0 <= i < |blocks[b]| :: OpensSection(blocks[b][i]) <==> b > 0 && i == 0
  {
    hide OpensSection, TrimSpace, Joined, Sections, Lines;
    LinesJoin(markdown, "");
    blocks := SectionsCut(Lines(markdown, ""), []);
    assert [] + Lines(markdown, "") == Lines(markdown, "");
    assert "" + markdown == markdown;
  }
}
