// What the sanitizer's output is, for every sequence of parser events.

module SanitizerTheorems {
  import opened Common
  import opened PythonText
  import opened Sanitizer

  // ---------- Well-nested words ----------

  // The elements left open after a word, or None where an end tag does not close the innermost one.
  function Nesting(tokens: seq<Token>): Option<seq<AllowedTag>> {
    if tokens == [] then Some([])
    else
      var before := Nesting(tokens[..|tokens| - 1]);
      if before.None? then None else After(before.value, tokens[|tokens| - 1])
  }

  function After(openTags: seq<AllowedTag>, t: Token): Option<seq<AllowedTag>> {
    match t
    case Open(tag, _) => if IsVoid(tag) then Some(openTags) else Some(openTags + [tag])
    case Close(tag) =>
      if openTags != [] && openTags[|openTags| - 1] == tag then Some(openTags[..|openTags| - 1]) else None
    case Chars(_) => Some(openTags)
  }

  predicate WellNested(tokens: seq<Token>) {
    Nesting(tokens) == Some([])
  }

  lemma NestingStep(tokens: seq<Token>, t: Token)
    ensures Nesting(tokens + [t]) == if Nesting(tokens).None? then None else After(Nesting(tokens).value, t)
  {
    assert (tokens + [t])[..|tokens|] == tokens;
  }

  lemma {:induction false} ClosingNests(output: seq<Token>, openTags: seq<AllowedTag>, tag: AllowedTag)
    requires Nesting(output) == Some(openTags) && tag in openTags
    ensures var (closes, rest) := Closing(openTags, tag);
            Nesting(output + closes) == Some(rest)
    decreases |openTags|
  {
    var top, below := openTags[|openTags| - 1], openTags[..|openTags| - 1];
    NestingStep(output, Close(top));
    if top != tag {
      assert openTags == below + [top];
      ClosingNests(output + [Close(top)], below, tag);
      var closes := Closing(below, tag).0;
      assert output + ([Close(top)] + closes) == output + [Close(top)] + closes;
    }
  }

  lemma {:induction false} ClosingAllNests(output: seq<Token>, openTags: seq<AllowedTag>)
    requires Nesting(output) == Some(openTags)
    ensures WellNested(output + ClosingAll(openTags))
    decreases |openTags|
  {
    if openTags == [] {
      assert output + [] == output;
    } else {
      var top, below := openTags[|openTags| - 1], openTags[..|openTags| - 1];
      NestingStep(output, Close(top));
      ClosingAllNests(output + [Close(top)], below);
      assert output + ([Close(top)] + ClosingAll(below)) == output + [Close(top)] + ClosingAll(below);
    }
  }

  lemma StartsNest(safe: string -> bool, s: State, tag: Tag, attrs: seq<Attribute>)
    requires Nesting(s.output) == Some(s.openTags)
    ensures Nesting(Starts(safe, s, tag, attrs).output) == Some(Starts(safe, s, tag, attrs).openTags)
  {
    if s.dropDepth == 0 && tag.Allowed? {
      NestingStep(s.output, Open(tag.tag, SafeHref(safe, tag.tag, attrs)));
    }
  }

  lemma EndsNest(s: State, tag: Tag)
    requires Nesting(s.output) == Some(s.openTags)
    ensures Nesting(Ends(s, tag).output) == Some(Ends(s, tag).openTags)
  {
    if s.dropDepth == 0 && tag.Allowed? && !IsVoid(tag.tag) && tag.tag in s.openTags {
      ClosingNests(s.output, s.openTags, tag.tag);
    }
  }

  lemma {:induction false} RunNests(safe: string -> bool, events: seq<Event>)
    ensures Nesting(Run(safe, events).output) == Some(Run(safe, events).openTags)
  {
    if events != [] {
      var s := Run(safe, events[..|events| - 1]);
      RunNests(safe, events[..|events| - 1]);
      match events[|events| - 1]
      case StartTag(tag, attrs) => StartsNest(safe, s, tag, attrs);
      case StartEndTag(tag, attrs) =>
        StartsNest(safe, s, tag, attrs);
        EndsNest(Starts(safe, s, tag, attrs), tag);
      case EndTag(tag) => EndsNest(s, tag);
      case Data(data) => NestingStep(s.output, Chars(data));
    }
  }

  // Main result: for every event sequence, however malformed, the output is a well-nested word
  // over the allowlisted tags.
  lemma OutputIsWellNested(safe: string -> bool, events: seq<Event>)
    ensures WellNested(Sanitize(safe, events))
  {
    RunNests(safe, events);
    ClosingAllNests(Run(safe, events).output, Run(safe, events).openTags);
  }

  // ---------- Text ----------

  // How many dropped elements are open after the events.
  function Dropping(events: seq<Event>): nat {
    if events == [] then 0
    else
      var depth := Dropping(events[..|events| - 1]);
      match events[|events| - 1]
      case StartTag(Dropped(_), _) => depth + 1
      case EndTag(Dropped(_)) => if depth > 0 then depth - 1 else 0
      case _ => depth
  }

  // The text outside dropped elements, in order.
  function VisibleText(events: seq<Event>): string {
    if events == [] then ""
    else
      var earlier := VisibleText(events[..|events| - 1]);
      var last := events[|events| - 1];
      if last.Data? && Dropping(events[..|events| - 1]) == 0 then earlier + last.data else earlier
  }

  function TextOf(tokens: seq<Token>): string {
    if tokens == [] then ""
    else
      var last := tokens[|tokens| - 1];
      TextOf(tokens[..|tokens| - 1]) + (if last.Chars? then last.data else "")
  }

  lemma {:induction false} TextOfConcat(a: seq<Token>, b: seq<Token>)
    ensures TextOf(a + b) == TextOf(a) + TextOf(b)
  {
    if b == [] {
      assert a + b == a;
    } else {
      var init, last := b[..|b| - 1], b[|b| - 1];
      TextOfConcat(a, init);
      assert a + b == (a + init) + [last] && b == init + [last];
      TextOfAppend(a + init, last);
      TextOfAppend(init, last);
      hide TextOf;
      Associative(TextOf(a), TextOf(init), if last.Chars? then last.data else "");
    }
  }

  lemma Associative(a: string, b: string, c: string)
    ensures a + (b + c) == a + b + c
  {
  }

  lemma TextOfAppend(tokens: seq<Token>, t: Token)
    ensures TextOf(tokens + [t]) == TextOf(tokens) + (if t.Chars? then t.data else "")
  {
    assert (tokens + [t])[..|tokens|] == tokens;
  }

  lemma {:induction false} ClosesHaveNoText(closes: seq<Token>)
    requires forall t <- closes :: t.Close?
    ensures TextOf(closes) == ""
  {
    if closes != [] {
      assert closes[|closes| - 1] in closes;
      ClosesHaveNoText(closes[..|closes| - 1]);
    }
  }

  lemma {:induction false} ClosingCloses(openTags: seq<AllowedTag>, tag: AllowedTag)
    ensures forall t <- Closing(openTags, tag).0 :: t.Close?
    ensures forall t <- ClosingAll(openTags) :: t.Close?
    decreases |openTags|
  {
    if openTags != [] {
      ClosingCloses(openTags[..|openTags| - 1], tag);
    }
  }

  lemma StartsText(safe: string -> bool, s: State, tag: Tag, attrs: seq<Attribute>)
    ensures TextOf(Starts(safe, s, tag, attrs).output) == TextOf(s.output)
    ensures Starts(safe, s, tag, attrs).dropDepth == s.dropDepth + (if tag.Dropped? then 1 else 0)
  {
    if s.dropDepth == 0 && tag.Allowed? {
      TextOfConcat(s.output, [Open(tag.tag, SafeHref(safe, tag.tag, attrs))]);
    }
  }

  lemma EndsText(s: State, tag: Tag)
    ensures TextOf(Ends(s, tag).output) == TextOf(s.output)
    ensures Ends(s, tag).dropDepth == if tag.Dropped? && s.dropDepth > 0 then s.dropDepth - 1 else s.dropDepth
  {
    if s.dropDepth == 0 && tag.Allowed? && !IsVoid(tag.tag) && tag.tag in s.openTags {
      ClosingCloses(s.openTags, tag.tag);
      var closes := Closing(s.openTags, tag.tag).0;
      ClosesHaveNoText(closes);
      TextOfConcat(s.output, closes);
    }
  }

  lemma {:induction false} RunText(safe: string -> bool, events: seq<Event>)
    ensures TextOf(Run(safe, events).output) == VisibleText(events)
    ensures Run(safe, events).dropDepth == Dropping(events)
  {
    if events != [] {
      var s := Run(safe, events[..|events| - 1]);
      RunText(safe, events[..|events| - 1]);
      match events[|events| - 1]
      case StartTag(tag, attrs) => StartsText(safe, s, tag, attrs);
      case StartEndTag(tag, attrs) =>
        StartsText(safe, s, tag, attrs);
        EndsText(Starts(safe, s, tag, attrs), tag);
      case EndTag(tag) => EndsText(s, tag);
      case Data(data) => TextOfConcat(s.output, [Chars(data)]);
    }
  }

  // Main result: the text of the output is exactly the text outside dropped elements.
  lemma OutputTextIsVisible(safe: string -> bool, events: seq<Event>)
    ensures TextOf(Sanitize(safe, events)) == VisibleText(events)
  {
    var s := Run(safe, events);
    RunText(safe, events);
    ClosingCloses(s.openTags, Br);
    ClosesHaveNoText(ClosingAll(s.openTags));
    TextOfConcat(s.output, ClosingAll(s.openTags));
  }

  // ---------- Links ----------

  predicate SafeLinks(safe: string -> bool, tokens: seq<Token>) {
    forall t <- tokens :: t.Open? && t.href.Some? ==> t.tag.A? && t.href.value != "" && safe(t.href.value)
  }

  lemma {:induction false} FirstHrefIsNotEmpty(attrs: seq<Attribute>)
    ensures FirstHref(attrs).Some? ==> FirstHref(attrs).value != ""
  {
    if attrs != [] {
      FirstHrefIsNotEmpty(attrs[1..]);
    }
  }

  lemma {:induction false} LinksAreSafe(safe: string -> bool, events: seq<Event>)
    ensures SafeLinks(safe, Run(safe, events).output)
  {
    if events != [] {
      var e := events[|events| - 1];
      var s := Run(safe, events[..|events| - 1]);
      LinksAreSafe(safe, events[..|events| - 1]);
      if (e.StartTag? || e.StartEndTag?) && e.tag.Allowed? {
        FirstHrefIsNotEmpty(e.attrs);
      }
      if e.StartEndTag? && e.tag.Allowed? {
        ClosingCloses(Starts(safe, s, e.tag, e.attrs).openTags, e.tag.tag);
      } else if e.EndTag? && e.tag.Allowed? {
        ClosingCloses(s.openTags, e.tag.tag);
      }
    }
  }

  // ---------- Idempotence ----------

  // The smallest pieces of a document: tags and single characters.  The parser reports text in
  // pieces of any size.
  datatype Atom = OpenAtom(tag: AllowedTag, href: Option<string>) | CloseAtom(tag: AllowedTag) | CharAtom(c: char)

  function Letters(s: string): seq<Atom> {
    seq(|s|, i requires 0 <= i < |s| => CharAtom(s[i]))
  }

  function AtomsOf(t: Token): seq<Atom> {
    match t
    case Open(tag, href) => [OpenAtom(tag, href)]
    case Close(tag) => [CloseAtom(tag)]
    case Chars(data) => Letters(data)
  }

  function Atoms(tokens: seq<Token>): seq<Atom> {
    if tokens == [] then [] else Atoms(tokens[..|tokens| - 1]) + AtomsOf(tokens[|tokens| - 1])
  }

  lemma {:induction false} AtomsConcat(a: seq<Token>, b: seq<Token>)
    ensures Atoms(a + b) == Atoms(a) + Atoms(b)
  {
    hide AtomsOf;
    if b == [] {
      assert a + b == a;
    } else {
      var init, last := b[..|b| - 1], b[|b| - 1];
      AtomsConcat(a, init);
      assert a + b == (a + init) + [last] && b == init + [last];
      AtomsAppend(a + init, last);
      AtomsAppend(init, last);
      hide Atoms;
      assert Atoms(a) + (Atoms(init) + AtomsOf(last)) == (Atoms(a) + Atoms(init)) + AtomsOf(last);
    }
  }

  lemma AtomsAppend(tokens: seq<Token>, t: Token)
    ensures Atoms(tokens + [t]) == Atoms(tokens) + AtomsOf(t)
  {
    assert (tokens + [t])[..|tokens|] == tokens;
  }

  // The event that a rendered piece is read back as (Markup.Parse reads it from the string).
  function ReadBack(t: Token): Event {
    match t
    case Open(tag, href) =>
      StartTag(Allowed(tag), if href.None? then []
                             else [Attribute("href", href), Attribute("rel", Some("noopener noreferrer"))])
    case Close(tag) => EndTag(Allowed(tag))
    case Chars(data) => Data(data)
  }

  function ReadAll(tokens: seq<Token>): seq<Event> {
    seq(|tokens|, i requires 0 <= i < |tokens| => ReadBack(tokens[i]))
  }

  // Nesting only depends on the tags.
  function NestAtoms(atoms: seq<Atom>): Option<seq<AllowedTag>> {
    if atoms == [] then Some([])
    else
      var before := NestAtoms(atoms[..|atoms| - 1]);
      if before.None? then None
      else
        match atoms[|atoms| - 1]
        case OpenAtom(tag, href) => After(before.value, Open(tag, href))
        case CloseAtom(tag) => After(before.value, Close(tag))
        case CharAtom(_) => before
  }

  lemma {:induction false} NestLetters(atoms: seq<Atom>, s: string)
    ensures NestAtoms(atoms + Letters(s)) == NestAtoms(atoms)
  {
    if s == "" {
      assert atoms + Letters(s) == atoms;
    } else {
      var init := s[..|s| - 1];
      NestLetters(atoms, init);
      var all := atoms + Letters(s);
      assert all[..|all| - 1] == atoms + Letters(init);
    }
  }

  lemma NestAtomStep(atoms: seq<Atom>, a: Atom)
    ensures NestAtoms(atoms + [a]) ==
            if NestAtoms(atoms).None? then None
            else
              match a
              case OpenAtom(tag, href) => After(NestAtoms(atoms).value, Open(tag, href))
              case CloseAtom(tag) => After(NestAtoms(atoms).value, Close(tag))
              case CharAtom(_) => NestAtoms(atoms)
  {
    assert (atoms + [a])[..|atoms|] == atoms;
  }

  lemma {:induction false} NestingOfAtoms(tokens: seq<Token>)
    ensures NestAtoms(Atoms(tokens)) == Nesting(tokens)
  {
    if tokens != [] {
      var init, last := tokens[..|tokens| - 1], tokens[|tokens| - 1];
      NestingOfAtoms(init);
      assert tokens == init + [last];
      AtomsAppend(init, last);
      NestingStep(init, last);
      hide NestAtoms, Nesting, Atoms, After;
      match last
      case Open(tag, href) => NestAtomStep(Atoms(init), OpenAtom(tag, href));
      case Close(tag) => NestAtomStep(Atoms(init), CloseAtom(tag));
      case Chars(data) =>
        NestLetters(Atoms(init), data);
        TextDoesNotNest(Nesting(init), data);
    }
  }

  lemma TextDoesNotNest(open: Option<seq<AllowedTag>>, data: string)
    ensures open.Some? ==> After(open.value, Chars(data)) == open
  {
  }

  // Void elements are never open.
  lemma {:induction false} NoVoidIsOpen(tokens: seq<Token>)
    requires Nesting(tokens).Some?
    ensures forall t <- Nesting(tokens).value :: !IsVoid(t)
  {
    if tokens != [] {
      NoVoidIsOpen(tokens[..|tokens| - 1]);
    }
  }

  predicate SafeAtoms(safe: string -> bool, atoms: seq<Atom>) {
    forall a <- atoms :: a.OpenAtom? && a.href.Some? ==> a.tag.A? && a.href.value != "" && safe(a.href.value)
  }

  // Re-reading a well-nested word with safe links: nothing is dropped, nothing is added.
  lemma {:induction false} Rereads(safe: string -> bool, tokens: seq<Token>)
    requires Nesting(tokens).Some? && SafeLinks(safe, tokens)
    ensures var s := Run(safe, ReadAll(tokens));
            Atoms(s.output) == Atoms(tokens) && Some(s.openTags) == Nesting(tokens) && s.dropDepth == 0
  {
    if tokens != [] {
      var init, last := tokens[..|tokens| - 1], tokens[|tokens| - 1];
      assert last in tokens;
      Rereads(safe, init);
      var events := ReadAll(tokens);
      assert events[..|events| - 1] == ReadAll(init);
      var s := Run(safe, ReadAll(init));
      NoVoidIsOpen(init);
      RereadsOne(safe, s, init, last);
    }
  }

  lemma RereadsOne(safe: string -> bool, s: State, init: seq<Token>, last: Token)
    requires s.dropDepth == 0 && Atoms(s.output) == Atoms(init) && Nesting(init) == Some(s.openTags)
    requires After(s.openTags, last).Some? && forall t <- s.openTags :: !IsVoid(t)
    requires last.Open? && last.href.Some? ==> last.tag.A? && last.href.value != "" && safe(last.href.value)
    ensures var s' := Handle(safe, s, ReadBack(last));
            && Atoms(s'.output) == Atoms(init) + AtomsOf(last)
            && Some(s'.openTags) == After(s.openTags, last) && s'.dropDepth == 0
  {
    hide Atoms;
    match last
    case Open(tag, href) =>
      if href.Some? {
        HrefIsReadBack(href.value);
      } else {
        NoAttributes();
      }
      AtomsAppend(s.output, last);
    case Close(tag) =>
      ClosesTop(s.openTags, tag);
      AtomsAppend(s.output, last);
    case Chars(data) =>
      AtomsAppend(s.output, last);
      assert data == "" ==> Atoms(init) + Letters(data) == Atoms(init);
  }

  lemma ClosesTop(openTags: seq<AllowedTag>, tag: AllowedTag)
    requires openTags != [] && openTags[|openTags| - 1] == tag
    ensures tag in openTags && Closing(openTags, tag) == ([Close(tag)], openTags[..|openTags| - 1])
  {
  }

  lemma OneAtom(t: Token)
    ensures Atoms([t]) == AtomsOf(t)
  {
    assert [t][..0] == [];
    assert Atoms([t]) == Atoms([]) + AtomsOf(t);
  }

  lemma NoAttributes()
    ensures FirstHref([]) == None
  {
  }

  lemma HrefIsReadBack(href: string)
    requires href != ""
    ensures FirstHref([Attribute("href", Some(href)), Attribute("rel", Some("noopener noreferrer"))]) == Some(href)
  {
    assert Lower("href") == "href";
  }

  lemma {:induction false} SafeAtomsOf(safe: string -> bool, tokens: seq<Token>)
    ensures SafeAtoms(safe, Atoms(tokens)) <==> SafeLinks(safe, tokens)
  {
    if tokens != [] {
      var init, last := tokens[..|tokens| - 1], tokens[|tokens| - 1];
      SafeAtomsOf(safe, init);
      assert tokens == init + [last];
      SafeAppend(safe, Atoms(init), AtomsOf(last));
      assert SafeAtoms(safe, AtomsOf(last)) <==> SafeLinks(safe, [last]) by {
        SafeOne(safe, last);
      }
    }
  }

  lemma SafeOne(safe: string -> bool, t: Token)
    ensures SafeAtoms(safe, AtomsOf(t)) <==> SafeLinks(safe, [t])
  {
    assert t in [t];
    if t.Open? {
      assert AtomsOf(t)[0] in AtomsOf(t);
    }
  }

  lemma SafeAppend(safe: string -> bool, a: seq<Atom>, b: seq<Atom>)
    ensures SafeAtoms(safe, a + b) <==> SafeAtoms(safe, a) && SafeAtoms(safe, b)
  {
    assert forall x :: x in a + b <==> x in a || x in b;
  }

  lemma SanitizesToItself(safe: string -> bool, word: seq<Token>)
    requires WellNested(word) && SafeLinks(safe, word)
    ensures Atoms(Sanitize(safe, ReadAll(word))) == Atoms(word)
  {
    Rereads(safe, word);
    var s := Run(safe, ReadAll(word));
    hide Nesting, SafeLinks, Run, Atoms;
    assert s.output + ClosingAll([]) == s.output;
  }

  // Main result: sanitizing the output again, in whatever pieces the parser reports its text, gives
  // the same document.
  lemma SanitizeIsIdempotent(safe: string -> bool, events: seq<Event>, pieces: seq<Token>)
    requires Atoms(pieces) == Atoms(Sanitize(safe, events))
    ensures Atoms(Sanitize(safe, ReadAll(pieces))) == Atoms(Sanitize(safe, events))
    ensures Render(Sanitize(safe, ReadAll(pieces))) == Render(Sanitize(safe, events))
  {
    hide Nesting, SafeLinks, NestAtoms, SafeAtoms, Sanitize, Atoms, Render, RenderAtoms;
    var word := Sanitize(safe, events);
    OutputIsWellNested(safe, events);
    SanitizedLinks(safe, events);
    NestingOfAtoms(word);
    NestingOfAtoms(pieces);
    SafeAtomsOf(safe, word);
    SafeAtomsOf(safe, pieces);
    SanitizesToItself(safe, pieces);
    RenderingIsOfAtoms(Sanitize(safe, ReadAll(pieces)));
    RenderingIsOfAtoms(word);
  }

  lemma SanitizedLinks(safe: string -> bool, events: seq<Event>)
    ensures SafeLinks(safe, Sanitize(safe, events))
  {
    LinksAreSafe(safe, events);
    ClosingCloses(Run(safe, events).openTags, Br);
  }

  // ---------- Rendering depends only on the atoms ----------

  function RenderAtom(a: Atom): string {
    match a
    case OpenAtom(tag, href) => RenderToken(Open(tag, href))
    case CloseAtom(tag) => RenderToken(Close(tag))
    case CharAtom(c) => EscapeChar(c, false)
  }

  function RenderAtoms(atoms: seq<Atom>): string {
    if atoms == [] then "" else RenderAtom(atoms[0]) + RenderAtoms(atoms[1..])
  }

  lemma {:induction false} RenderAtomsConcat(a: seq<Atom>, b: seq<Atom>)
    ensures RenderAtoms(a + b) == RenderAtoms(a) + RenderAtoms(b)
  {
    hide RenderAtom;
    if a == [] {
      assert a + b == b;
    } else {
      assert (a + b)[1..] == a[1..] + b;
      RenderAtomsConcat(a[1..], b);
    }
  }

  lemma {:induction false} LettersRender(s: string)
    ensures RenderAtoms(Letters(s)) == Escape(s, false)
  {
    hide EscapeChar;
    if s != "" {
      LettersRender(s[1..]);
      assert Letters(s)[1..] == Letters(s[1..]);
    }
  }

  lemma {:induction false} RenderingIsOfAtoms(tokens: seq<Token>)
    ensures Render(tokens) == RenderAtoms(Atoms(tokens))
  {
    if tokens != [] {
      var first, rest := tokens[0], tokens[1..];
      RenderingIsOfAtoms(rest);
      assert tokens == [first] + rest;
      AtomsConcat([first], rest);
      OneAtom(first);
      RenderAtomsConcat(AtomsOf(first), Atoms(rest));
      TokenRenders(first);
    }
  }

  lemma TokenRenders(t: Token)
    ensures RenderAtoms(AtomsOf(t)) == RenderToken(t)
  {
    match t
    case Open(tag, href) => OneRenders(OpenAtom(tag, href));
    case Close(tag) => OneRenders(CloseAtom(tag));
    case Chars(data) => LettersRender(data);
  }

  lemma OneRenders(a: Atom)
    ensures RenderAtoms([a]) == RenderAtom(a)
  {
    assert [a][1..] == [];
  }
}
