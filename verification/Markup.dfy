// Reading the sanitizer's rendered output back, by a reader of markup defined on its own: text with
// character references, and tags with double-quoted attributes.

module Markup {
  import opened Common
  import opened PythonText
  import opened Sanitizer
  import opened SanitizerTheorems
  import opened SanitizerOutput
  import MimeWalk

  // ---------- Character references ----------

  predicate Begins(s: string, t: string) {
    |t| <= |s| && s[..|t|] == t
  }

  // The character at the front, and how much of the string it takes.
  function Front(s: string): (r: (char, nat))
    requires s != ""
    ensures 0 < r.1 <= |s|
  {
    if Begins(s, "&amp;") then ('&', 5)
    else if Begins(s, "&lt;") then ('<', 4)
    else if Begins(s, "&gt;") then ('>', 4)
    else if Begins(s, "&quot;") then ('"', 6)
    else if Begins(s, "&#x27;") then ('\'', 6)
    else (s[0], 1)
  }

  function Unescape(s: string): string {
    if s == "" then "" else [Front(s).0] + Unescape(s[Front(s).1..])
  }

  lemma FrontOfEscaped(c: char, quote: bool, rest: string)
    ensures var e := EscapeChar(c, quote);
            Front(e + rest) == (c, |e|) && (e + rest)[|e|..] == rest
  {
    var s := EscapeChar(c, quote) + rest;
    if c == '&' {
      assert s[..5] == "&amp;";
    } else if c == '<' {
      assert s[..4] == "&lt;" && s[1] == 'l';
    } else if c == '>' {
      assert s[..4] == "&gt;" && s[1] == 'g';
    } else if quote && c == '"' {
      assert s[..6] == "&quot;" && s[1] == 'q';
    } else if quote && c == '\'' {
      assert s[..6] == "&#x27;" && s[1] == '#';
    } else {
      assert s[0] == c;
    }
  }

  // Escaping loses nothing.
  lemma {:induction false} UnescapeUndoesEscape(s: string, quote: bool)
    ensures Unescape(Escape(s, quote)) == s
  {
    if s != "" {
      FrontOfEscaped(s[0], quote, Escape(s[1..], quote));
      UnescapeUndoesEscape(s[1..], quote);
    }
  }

  lemma OneIsInert(c: char, quote: bool)
    ensures var e := EscapeChar(c, quote);
            '<' !in e && '>' !in e && (quote ==> '"' !in e && '\'' !in e)
  {
  }

  // No character of the text opens or closes a tag, and in an attribute none ends the value.
  lemma {:induction false} EscapedIsInert(s: string, quote: bool)
    ensures '<' !in Escape(s, quote) && '>' !in Escape(s, quote)
    ensures quote ==> '"' !in Escape(s, quote) && '\'' !in Escape(s, quote)
  {
    if s != "" {
      OneIsInert(s[0], quote);
      EscapedIsInert(s[1..], quote);
      hide EscapeChar;
      var e, rest := EscapeChar(s[0], quote), Escape(s[1..], quote);
      assert forall c :: c in e + rest ==> c in e || c in rest;
    }
  }

  // ---------- A reader of markup ----------

  // Stray is a `<` with which no tag begins.
  datatype Piece = Start(name: string, attrs: seq<Attribute>) | End(name: string) | Character(c: char) | Stray

  function IndexOf(s: string, c: char): (i: nat)
    ensures i <= |s|
  {
    if s == "" || s[0] == c then 0 else 1 + IndexOf(s[1..], c)
  }

  predicate EndsName(c: char) {
    c == ' ' || c == '>'
  }

  function NameLength(s: string): (i: nat)
    ensures i <= |s|
  {
    if s == "" || EndsName(s[0]) then 0 else 1 + NameLength(s[1..])
  }

  // The attributes up to the end of the tag, and what follows the tag.
  function ReadAttrs(s: string): (r: Option<(seq<Attribute>, string)>)
    ensures r.Some? ==> |r.value.1| < |s|
    decreases |s|
  {
    if s == "" then None
    else if s[0] == '>' then Some(([], s[1..]))
    else if s[0] != ' ' then None
    else
      var n := IndexOf(s, '=');
      if |s| < n + 2 || s[n + 1] != '"' then None
      else
        var quoted := s[n + 2..];
        var v := IndexOf(quoted, '"');
        if v == |quoted| then None
        else
          var more := ReadAttrs(quoted[v + 1..]);
          if more.None? then None
          else Some(([Attribute(s[1..n], Some(Unescape(quoted[..v])))] + more.value.0, more.value.1))
  }

  // The tag that begins after a `<`, and what follows it.
  function ReadTag(s: string): (r: Option<(Piece, string)>)
    ensures r.Some? ==> |r.value.1| < |s|
  {
    if s == "" then None
    else if s[0] == '/' then
      var n := IndexOf(s, '>');
      if n == |s| then None else Some((End(s[1..n]), s[n + 1..]))
    else
      var n := NameLength(s);
      var read := ReadAttrs(s[n..]);
      if read.None? then None else Some((Start(s[..n], read.value.0), read.value.1))
  }

  function ReadMarkup(s: string): seq<Piece>
    decreases |s|
  {
    if s == "" then []
    else if s[0] != '<' then [Character(Front(s).0)] + ReadMarkup(s[Front(s).1..])
    else
      var tag := ReadTag(s[1..]);
      if tag.None? then [Stray] + ReadMarkup(s[1..]) else [tag.value.0] + ReadMarkup(tag.value.1)
  }

  // ---------- Reading rendered output ----------

  function AttributesRead(href: Option<string>): seq<Attribute> {
    if href.None? then [] else [Attribute("href", href), Attribute("rel", Some(REL_VALUE))]
  }

  function PieceOf(a: Atom): Piece {
    match a
    case OpenAtom(tag, href) => Start(TagName(tag), AttributesRead(href))
    case CloseAtom(tag) => End(TagName(tag))
    case CharAtom(c) => Character(c)
  }

  function Pieces(atoms: seq<Atom>): seq<Piece> {
    seq(|atoms|, i requires 0 <= i < |atoms| => PieceOf(atoms[i]))
  }

  lemma {:induction false} IndexIs(before: string, c: char, rest: string)
    requires c !in before
    ensures IndexOf(before + [c] + rest, c) == |before|
  {
    if before == "" {
      assert (before + [c] + rest)[0] == c;
    } else {
      IndexIs(before[1..], c, rest);
      assert (before + [c] + rest)[1..] == before[1..] + [c] + rest;
    }
  }

  lemma {:induction false} NameLengthIs(name: string, rest: string)
    requires rest != "" && EndsName(rest[0]) && forall i :: 0 <= i < |name| ==> !EndsName(name[i])
    ensures NameLength(name + rest) == |name|
  {
    if name == "" {
      assert name + rest == rest;
    } else {
      NameLengthIs(name[1..], rest);
      assert (name + rest)[1..] == name[1..] + rest;
    }
  }

  // Tag names are plain: nothing in them ends a name or makes an end tag of a start tag.
  lemma NamesArePlain(tag: AllowedTag)
    ensures var name := TagName(tag);
            && name != "" && name[0] != '/' && forall i :: 0 <= i < |name| ==> !EndsName(name[i])
  {
  }

  lemma AttributeIsRead(opening: string, name: string, value: string, rest: string)
    requires opening == " " + name + "=\"" && '=' !in name && ReadAttrs(rest).Some?
    ensures var read := ReadAttrs(opening + Escape(value, true) + "\"" + rest);
            && read.Some? && read.value.1 == ReadAttrs(rest).value.1
            && read.value.0 == [Attribute(name, Some(value))] + ReadAttrs(rest).value.0
  {
    var e := Escape(value, true);
    var s := opening + e + "\"" + rest;
    EscapedIsInert(value, true);
    UnescapeUndoesEscape(value, true);
    hide Escape, Unescape, EscapeChar;
    assert s == (" " + name) + ['='] + ("\"" + e + "\"" + rest);
    IndexIs(" " + name, '=', "\"" + e + "\"" + rest);
    var quoted := s[|name| + 3..];
    assert quoted == e + ['"'] + rest;
    IndexIs(e, '"', rest);
    assert quoted[|e| + 1..] == rest && quoted[..|e|] == e && s[1..|name| + 1] == name;
  }

  lemma TagIsRead(s: string, piece: Piece, rest: string)
    requires ReadTag(s) == Some((piece, rest))
    ensures ReadMarkup("<" + s) == [piece] + ReadMarkup(rest)
  {
    hide ReadTag;
    assert ("<" + s)[1..] == s;
  }

  lemma StartIsRead(name: string, attrs: string)
    requires name != "" && name[0] != '/' && forall i :: 0 <= i < |name| ==> !EndsName(name[i])
    requires attrs != "" && EndsName(attrs[0]) && ReadAttrs(attrs).Some?
    ensures var read := ReadAttrs(attrs).value;
            ReadTag(name + attrs) == Some((Start(name, read.0), read.1))
  {
    hide ReadAttrs;
    NameLengthIs(name, attrs);
    assert (name + attrs)[|name|..] == attrs && (name + attrs)[..|name|] == name;
    assert (name + attrs)[0] == name[0];
  }

  lemma EndIsRead(name: string, rest: string)
    requires forall i :: 0 <= i < |name| ==> !EndsName(name[i])
    ensures ReadTag("/" + name + ">" + rest) == Some((End(name), rest))
  {
    hide ReadAttrs;
    var s := "/" + name + ">" + rest;
    assert s == ("/" + name) + ['>'] + rest;
    IndexIs("/" + name, '>', rest);
    assert s[1..|name| + 1] == name && s[|name| + 2..] == rest;
  }

  lemma AtomIsRead(a: Atom, rest: string)
    ensures ReadMarkup(RenderAtom(a) + rest) == [PieceOf(a)] + ReadMarkup(rest)
  {
    hide ReadAttrs, ReadMarkup, ReadTag, TagName, Escape;
    match a
    case OpenAtom(tag, href) => OpenIsRead(tag, href, rest);
    case CloseAtom(tag) =>
      NamesArePlain(tag);
      EndIsRead(TagName(tag), rest);
      TagIsRead("/" + TagName(tag) + ">" + rest, End(TagName(tag)), rest);
      assert RenderAtom(a) + rest == "<" + ("/" + TagName(tag) + ">" + rest);
    case CharAtom(c) => CharIsRead(c, rest);
  }

  lemma CharIsRead(c: char, rest: string)
    ensures ReadMarkup(EscapeChar(c, false) + rest) == [Character(c)] + ReadMarkup(rest)
  {
    FrontOfEscaped(c, false, rest);
    assert (EscapeChar(c, false) + rest)[0] != '<';
    hide Front, ReadTag, EscapeChar;
  }

  const HREF := " href=\""
  const REL := " rel=\""
  const REL_VALUE := "noopener noreferrer"
  const AFTER_HREF := "\" rel=\"noopener noreferrer\">"

  // What is rendered between the name and the rest of the document.
  function Attributes(href: Option<string>): string {
    if href.None? then ">" else HREF + Escape(href.value, true) + AFTER_HREF
  }

  lemma Openings()
    ensures HREF == " " + "href" + "=\"" && REL == " " + "rel" + "=\""
  {
  }

  lemma AfterHref()
    ensures AFTER_HREF == "\"" + (REL + REL_VALUE + "\"" + ">")
  {
  }

  lemma RelIsPlain()
    ensures Escape(REL_VALUE, true) == REL_VALUE
  {
    hide Escape;
    PlainIsUnescaped(REL_VALUE);
  }

  lemma OpenRenders(tag: AllowedTag, href: Option<string>, rest: string)
    ensures RenderAtom(OpenAtom(tag, href)) + rest == "<" + (TagName(tag) + (Attributes(href) + rest))
  {
    hide TagName, Escape;
    var name := TagName(tag);
    if href.Some? {
      var e := Escape(href.value, true);
      Regroup("<", name, HREF, e, AFTER_HREF, rest);
    } else {
      Regroup("<", name, ">", "", "", rest);
    }
  }

  lemma Regroup(a: string, b: string, c: string, d: string, e: string, f: string)
    ensures a + b + c + d + e + f == a + (b + (c + d + e + f))
    ensures a + b + c + "" + "" + f == a + b + c + f
  {
  }

  lemma OpenIsRead(tag: AllowedTag, href: Option<string>, rest: string)
    ensures ReadMarkup(RenderAtom(OpenAtom(tag, href)) + rest) == [PieceOf(OpenAtom(tag, href))] + ReadMarkup(rest)
  {
    NamesArePlain(tag);
    AttributesAreRead(href, rest);
    OpenRenders(tag, href, rest);
    hide ReadAttrs, ReadMarkup, ReadTag, TagName, Escape, RenderAtom, Attributes;
    var name, attrs := TagName(tag), Attributes(href) + rest;
    StartIsRead(name, attrs);
    TagIsRead(name + attrs, Start(name, AttributesRead(href)), rest);
  }

  lemma AttributesAreRead(href: Option<string>, rest: string)
    ensures var attrs := Attributes(href) + rest;
            attrs != "" && EndsName(attrs[0]) && ReadAttrs(attrs) == Some((AttributesRead(href), rest))
  {
    var end := ">" + rest;
    assert end[1..] == rest && ReadAttrs(end) == Some(([], rest));
    if href.Some? {
      LinkAttributesAreRead(href.value, rest, end);
    }
  }

  lemma LinkAttributesAreRead(href: string, rest: string, end: string)
    requires end == ">" + rest && ReadAttrs(end) == Some(([], rest))
    ensures var attrs := Attributes(Some(href)) + rest;
            attrs != "" && EndsName(attrs[0]) && ReadAttrs(attrs) == Some((AttributesRead(Some(href)), rest))
  {
    hide ReadAttrs, Escape;
    Openings();
    AfterHref();
    RelIsPlain();
    hide REL_VALUE, AFTER_HREF, REL, HREF;
    var rel, e := REL + REL_VALUE + "\"" + end, Escape(href, true);
    AttributeIsRead(REL, "rel", REL_VALUE, end);
    AttributeIsRead(HREF, "href", href, rel);
    Quoted(HREF, e, "\"", REL, REL_VALUE, ">", rest);
    var read := ReadAttrs(Attributes(Some(href)) + rest);
    assert read.Some? && read.value.1 == rest;
    assert read.value.0 == [Attribute("href", Some(href))] + ([Attribute("rel", Some(REL_VALUE))] + []);
    assert read.value.0 == AttributesRead(Some(href));
  }

  lemma Quoted(h: string, e: string, q: string, r: string, v: string, gt: string, rest: string)
    ensures h + e + q + (r + v + q + (gt + rest)) == h + e + (q + (r + v + q + gt)) + rest
  {
  }

  lemma {:induction false} PlainIsUnescaped(s: string)
    requires forall i :: 0 <= i < |s| ==> s[i] == ' ' || 'a' <= s[i] <= 'z'
    ensures Escape(s, true) == s
  {
    if s != "" {
      PlainIsUnescaped(s[1..]);
    }
  }

  lemma {:induction false} AtomsAreRead(atoms: seq<Atom>)
    ensures ReadMarkup(RenderAtoms(atoms)) == Pieces(atoms)
  {
    hide RenderAtom, ReadMarkup, PieceOf;
    if atoms == [] {
      NothingIsRead();
    } else {
      var first, rest := atoms[0], atoms[1..];
      AtomsAreRead(rest);
      AtomIsRead(first, RenderAtoms(rest));
      assert Pieces(atoms) == [PieceOf(first)] + Pieces(rest);
    }
  }

  lemma NothingIsRead()
    ensures ReadMarkup("") == []
  {
  }

  // Main result: the reader gets back from the rendered string exactly the tags and characters that
  // were put in, so that no text and no link target is ever read as markup.
  lemma RenderedIsReadBack(tokens: seq<Token>)
    ensures ReadMarkup(Render(tokens)) == Pieces(Atoms(tokens))
  {
    RenderingIsOfAtoms(tokens);
    AtomsAreRead(Atoms(tokens));
  }

  // ---------- What a browser is shown ----------

  // An allowlisted tag, with no attribute but a safe link of an `a` element.
  ghost predicate Harmless(safe: string -> bool, piece: Piece) {
    match piece
    case Start(name, attrs) =>
      exists tag: AllowedTag ::
        && name == TagName(tag)
        && (attrs == [] || (tag.A? && exists href: string ::
                              href != "" && safe(href) && attrs == AttributesRead(Some(href))))
    case End(name) => exists tag: AllowedTag :: name == TagName(tag)
    case Character(_) => true
    case Stray => false
  }

  function TextRead(pieces: seq<Piece>): string {
    if pieces == [] then ""
    else
      var last := pieces[|pieces| - 1];
      TextRead(pieces[..|pieces| - 1]) + (if last.Character? then [last.c] else "")
  }

  lemma {:induction false} TextOfLetters(pieces: seq<Piece>, s: string)
    ensures TextRead(pieces + Pieces(Letters(s))) == TextRead(pieces) + s
  {
    if s == "" {
      assert pieces + Pieces(Letters(s)) == pieces;
    } else {
      var n := |s| - 1;
      TextOfLetters(pieces, s[..n]);
      var all := pieces + Pieces(Letters(s));
      assert all[..|all| - 1] == pieces + Pieces(Letters(s[..n]));
    }
  }

  lemma TextOfToken(pieces: seq<Piece>, t: Token)
    ensures TextRead(pieces + Pieces(AtomsOf(t))) == TextRead(pieces) + (if t.Chars? then t.data else "")
  {
    if t.Chars? {
      TextOfLetters(pieces, t.data);
    } else {
      assert (pieces + Pieces(AtomsOf(t)))[..|pieces|] == pieces;
    }
  }

  lemma PiecesAppend(a: seq<Atom>, b: seq<Atom>)
    ensures Pieces(a + b) == Pieces(a) + Pieces(b)
  {
  }

  lemma {:induction false} TextOfPieces(tokens: seq<Token>)
    ensures TextRead(Pieces(Atoms(tokens))) == TextOf(tokens)
  {
    if tokens != [] {
      hide TextRead, AtomsOf, PieceOf, Pieces, Atoms, TextOf;
      var init, last := tokens[..|tokens| - 1], tokens[|tokens| - 1];
      assert tokens == init + [last];
      TextOfPieces(init);
      AtomsAppend(init, last);
      TextOfAppend(init, last);
      PiecesAppend(Atoms(init), AtomsOf(last));
      TextOfToken(Pieces(Atoms(init)), last);
    }
  }

  lemma HarmlessAtom(safe: string -> bool, a: Atom)
    requires a.OpenAtom? && a.href.Some? ==> a.tag.A? && a.href.value != "" && safe(a.href.value)
    ensures Harmless(safe, PieceOf(a))
  {
  }

  // Main result, on strings: whatever the mail, all that is read from the HTML it is rendered to is
  // allowlisted tags without attributes, safe links, and the text outside the dropped elements.
  lemma RenderedIsHarmless(safe: string -> bool, events: seq<Event>)
    ensures var pieces := ReadMarkup(Render(Sanitize(safe, events)));
            && (forall piece <- pieces :: Harmless(safe, piece))
            && TextRead(pieces) == VisibleText(events)
  {
    var word := Sanitize(safe, events);
    RenderedIsReadBack(word);
    SanitizedLinks(safe, events);
    SafeAtomsOf(safe, word);
    OutputTextIsVisible(safe, events);
    TextOfPieces(word);
    var atoms := Atoms(word);
    hide Harmless, PieceOf;
    forall i | 0 <= i < |atoms| ensures Harmless(safe, Pieces(atoms)[i]) {
      assert atoms[i] in atoms;
      HarmlessAtom(safe, atoms[i]);
    }
  }

  // ---------- Sanitizing the rendered string again ----------

  // Length, first and last character tell the tag names apart.
  function Shape(tag: AllowedTag): (int, char, char) {
    match tag
    case A => (1, 'a', 'a') case B => (1, 'b', 'b') case Blockquote => (10, 'b', 'e') case Br => (2, 'b', 'r')
    case Code => (4, 'c', 'e') case Div => (3, 'd', 'v') case Em => (2, 'e', 'm') case H1 => (2, 'h', '1')
    case H2 => (2, 'h', '2') case H3 => (2, 'h', '3') case H4 => (2, 'h', '4') case H5 => (2, 'h', '5')
    case H6 => (2, 'h', '6') case I => (1, 'i', 'i') case Li => (2, 'l', 'i') case Ol => (2, 'o', 'l')
    case P => (1, 'p', 'p') case Pre => (3, 'p', 'e') case Span => (4, 's', 'n') case Strong => (6, 's', 'g')
    case Table => (5, 't', 'e') case Tbody => (5, 't', 'y') case Td => (2, 't', 'd') case Th => (2, 't', 'h')
    case Thead => (5, 't', 'd') case Tr => (2, 't', 'r') case Ul => (2, 'u', 'l')
  }

  lemma ShapeOfName(tag: AllowedTag)
    ensures var name := TagName(tag);
            name != "" && Shape(tag) == (|name|, name[0], name[|name| - 1])
  {
  }

  lemma ShapesDiffer(a: AllowedTag, b: AllowedTag)
    ensures Shape(a) == Shape(b) ==> a == b
  {
  }

  lemma NamesDiffer(a: AllowedTag, b: AllowedTag)
    ensures TagName(a) == TagName(b) ==> a == b
  {
    hide TagName, Shape;
    ShapeOfName(a);
    ShapeOfName(b);
    ShapesDiffer(a, b);
  }

  const DROPPED := {"form", "iframe", "math", "object", "script", "style", "svg", "template"}

  // The list a name is on.
  ghost function TagNamed(name: string): Tag {
    if tag: AllowedTag :| TagName(tag) == name then Allowed(tag)
    else if name in DROPPED then Dropped(name) else Unknown(name)
  }

  lemma TagOfName(tag: AllowedTag)
    ensures TagNamed(TagName(tag)) == Allowed(tag)
  {
    forall other: AllowedTag | TagName(other) == TagName(tag) ensures other == tag {
      NamesDiffer(other, tag);
    }
    hide TagName;
  }

  ghost function EventOf(piece: Piece): Event {
    match piece
    case Start(name, attrs) => StartTag(TagNamed(name), attrs)
    case End(name) => EndTag(TagNamed(name))
    case Character(c) => Data([c])
    case Stray => Data("<")
  }

  // The parser events of a string.
  ghost function Parse(html: string): seq<Event> {
    var pieces := ReadMarkup(html);
    seq(|pieces|, i requires 0 <= i < |pieces| => EventOf(pieces[i]))
  }

  function Single(a: Atom): Token {
    match a
    case OpenAtom(tag, href) => Open(tag, href)
    case CloseAtom(tag) => Close(tag)
    case CharAtom(c) => Chars([c])
  }

  function Singles(atoms: seq<Atom>): seq<Token> {
    seq(|atoms|, i requires 0 <= i < |atoms| => Single(atoms[i]))
  }

  lemma {:induction false} AtomsOfSingles(atoms: seq<Atom>)
    ensures Atoms(Singles(atoms)) == atoms
  {
    if atoms != [] {
      var n := |atoms| - 1;
      AtomsOfSingles(atoms[..n]);
      assert Singles(atoms)[..n] == Singles(atoms[..n]);
      assert AtomsOf(Single(atoms[n])) == [atoms[n]];
    }
  }

  lemma EventOfAtom(a: Atom)
    ensures EventOf(PieceOf(a)) == ReadBack(Single(a))
  {
    if !a.CharAtom? {
      TagOfName(a.tag);
    }
  }

  lemma ParsedTokens(tokens: seq<Token>)
    ensures Parse(Render(tokens)) == ReadAll(Singles(Atoms(tokens)))
  {
    RenderedIsReadBack(tokens);
    var atoms := Atoms(tokens);
    hide ReadMarkup, Render, Atoms, EventOf, PieceOf, ReadBack, Single;
    forall i | 0 <= i < |atoms| ensures EventOf(PieceOf(atoms[i])) == ReadBack(Single(atoms[i])) {
      EventOfAtom(atoms[i]);
    }
  }

  // Sanitizing the rendered string again gives the same string.
  lemma RenderedIsAFixedPoint(safe: string -> bool, events: seq<Event>)
    ensures var html := Render(Sanitize(safe, events));
            Render(Sanitize(safe, Parse(html))) == html
  {
    var word := Sanitize(safe, events);
    ParsedTokens(word);
    AtomsOfSingles(Atoms(word));
    hide Render, Atoms, Parse, ReadAll, Singles, Sanitize;
    SanitizeIsIdempotent(safe, events, Singles(Atoms(word)));
  }

  // ---------- The mail as the client gets it ----------

  predicate NoEmptyText(tokens: seq<Token>) {
    forall t <- tokens :: t.Chars? ==> t.data != ""
  }

  lemma {:induction false} ContentKeepsText(tokens: seq<Token>)
    ensures NoEmptyText(Content(tokens)) <==> NoEmptyText(tokens)
    ensures tokens != [] && Content(tokens) == [] ==> tokens[0].Close?
  {
    if tokens != [] {
      var init, last := tokens[..|tokens| - 1], tokens[|tokens| - 1];
      ContentKeepsText(init);
      assert tokens == init + [last];
    }
  }

  lemma {:induction false} VisibleTextIsNotEmpty(safe: string -> bool, events: seq<Event>)
    ensures NoEmptyText(VisibleContent(safe, events))
  {
    if events != [] {
      VisibleTextIsNotEmpty(safe, events[..|events| - 1]);
    }
  }

  // A well-nested word does not begin with an end tag.
  lemma {:induction false} NothingToClose(tokens: seq<Token>)
    requires tokens != [] && Nesting(tokens).Some?
    ensures !tokens[0].Close?
  {
    var init := tokens[..|tokens| - 1];
    if init != [] {
      NothingToClose(init);
    }
  }

  lemma TokensShow(t: Token)
    requires t.Chars? ==> t.data != ""
    ensures RenderToken(t) != ""
  {
    if t.Chars? {
      assert EscapeChar(t.data[0], false) != "";
    }
  }

  // Nothing is rendered exactly if nothing is visible.
  lemma RenderedIsEmptyIff(safe: string -> bool, events: seq<Event>)
    ensures Render(Sanitize(safe, events)) == "" <==> VisibleContent(safe, events) == []
  {
    var word := Sanitize(safe, events);
    OutputIsVisibleContent(safe, events);
    OutputIsWellNested(safe, events);
    VisibleTextIsNotEmpty(safe, events);
    ContentKeepsText(word);
    hide Sanitize, RenderToken, VisibleContent, Nesting;
    if word != [] {
      NothingToClose(word);
      TokensShow(word[0]);
    }
  }

  // Main result, for a mail with an HTML body alone: the client gets HTML exactly if something of it
  // is visible, reads nothing but harmless markup and the visible text from it, and gets the plain
  // text without the white space at its ends.
  lemma SanitizedMail(parse: string -> seq<Event>, safe: string -> bool, html: string)
    ensures var content, events := MimeWalk.Sanitized(parse, safe, html), parse(html);
            && content.body == Strip(PlainText(safe, events))
            && (content.html.None? <==> VisibleContent(safe, events) == [])
            && (content.html.Some? ==>
                  var pieces := ReadMarkup(content.html.value);
                  && pieces == Pieces(Atoms(Sanitize(safe, events)))
                  && (forall piece <- pieces :: Harmless(safe, piece)) && TextRead(pieces) == VisibleText(events))
  {
    var events := parse(html);
    TextIs(safe, events);
    RenderedIsEmptyIff(safe, events);
    RenderedIsHarmless(safe, events);
    RenderedIsReadBack(Sanitize(safe, events));
    hide Harmless, ReadMarkup, Render, Sanitize, Run, Strip;
  }
}
