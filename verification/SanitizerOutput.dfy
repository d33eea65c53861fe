// What the sanitizer keeps, event by event: its tags, links and text, where elements are closed, and
// the plain text (server/mail/mime.py:88-157).

module SanitizerOutput {
  import opened Common
  import opened PythonText
  import opened Sanitizer
  import opened SanitizerTheorems

  // ---------- Links ----------

  predicate NamesTarget(a: Attribute) {
    Lower(a.name) == "href" && a.value.Some? && a.value.value != ""
  }

  // The first attribute that names a target names this one.
  ghost predicate Targets(attrs: seq<Attribute>, href: string) {
    exists k :: 0 <= k < |attrs| && NamesTarget(attrs[k]) && attrs[k].value == Some(href)
                && forall j :: 0 <= j < k ==> !NamesTarget(attrs[j])
  }

  lemma {:induction false} FirstHrefIs(attrs: seq<Attribute>, href: string)
    ensures FirstHref(attrs) == Some(href) <==> Targets(attrs, href)
  {
    if attrs != [] {
      var first, rest := attrs[0], attrs[1..];
      FirstHrefIs(rest, href);
      if Targets(attrs, href) && !NamesTarget(first) {
        var k :| 0 <= k < |attrs| && NamesTarget(attrs[k]) && attrs[k].value == Some(href)
                 && forall j :: 0 <= j < k ==> !NamesTarget(attrs[j]);
        assert rest[k - 1] == attrs[k] && forall j :: 0 <= j < k - 1 ==> rest[j] == attrs[j + 1];
        assert Targets(rest, href);
      }
      if Targets(rest, href) && !NamesTarget(first) {
        var k :| 0 <= k < |rest| && NamesTarget(rest[k]) && rest[k].value == Some(href)
                 && forall j :: 0 <= j < k ==> !NamesTarget(rest[j]);
        assert attrs[k + 1] == rest[k] && forall j :: 0 < j < k + 1 ==> attrs[j] == rest[j - 1];
        assert Targets(attrs, href);
      }
      if NamesTarget(first) && first.value == Some(href) {
        assert Targets(attrs, href);
      }
    }
  }

  // A link is kept on `a` alone, if the first target named is safe.
  lemma LinkIs(safe: string -> bool, tag: AllowedTag, attrs: seq<Attribute>, href: string)
    ensures SafeHref(safe, tag, attrs) == Some(href) <==> tag.A? && Targets(attrs, href) && safe(href)
  {
    FirstHrefIs(attrs, href);
  }

  // ---------- Tags and text, in order ----------

  function Content(tokens: seq<Token>): seq<Token> {
    if tokens == [] then []
    else
      var last := tokens[|tokens| - 1];
      Content(tokens[..|tokens| - 1]) + (if last.Close? then [] else [last])
  }

  // The allowlisted start tags and the text outside dropped elements.
  function Kept(safe: string -> bool, e: Event): seq<Token> {
    match e
    case StartTag(Allowed(tag), attrs) => [Open(tag, SafeHref(safe, tag, attrs))]
    case StartEndTag(Allowed(tag), attrs) => [Open(tag, SafeHref(safe, tag, attrs))]
    case Data(data) => if data == "" then [] else [Chars(data)]
    case _ => []
  }

  function VisibleContent(safe: string -> bool, events: seq<Event>): seq<Token> {
    if events == [] then []
    else
      var before := events[..|events| - 1];
      VisibleContent(safe, before) + (if Dropping(before) > 0 then [] else Kept(safe, events[|events| - 1]))
  }

  lemma ContentAppend(tokens: seq<Token>, t: Token)
    ensures Content(tokens + [t]) == Content(tokens) + (if t.Close? then [] else [t])
  {
    assert (tokens + [t])[..|tokens|] == tokens;
  }

  lemma {:induction false} ClosesAddNothing(tokens: seq<Token>, closes: seq<Token>)
    requires forall t <- closes :: t.Close?
    ensures Content(tokens + closes) == Content(tokens)
  {
    if closes == [] {
      assert tokens + closes == tokens;
    } else {
      var init, last := closes[..|closes| - 1], closes[|closes| - 1];
      ClosesAddNothing(tokens, init);
      assert last in closes;
      assert tokens + closes == tokens + init + [last];
      ContentAppend(tokens + init, last);
    }
  }

  lemma EndsAddNothing(s: State, tag: Tag)
    ensures Content(Ends(s, tag).output) == Content(s.output)
  {
    if s.dropDepth == 0 && tag.Allowed? && !IsVoid(tag.tag) && tag.tag in s.openTags {
      ClosingCloses(s.openTags, tag.tag);
      ClosesAddNothing(s.output, Closing(s.openTags, tag.tag).0);
    }
  }

  lemma StepKeeps(safe: string -> bool, s: State, e: Event)
    ensures Content(Handle(safe, s, e).output) == Content(s.output) + (if s.dropDepth > 0 then [] else Kept(safe, e))
  {
    hide Content;
    match e
    case StartTag(tag, attrs) => StartKeeps(safe, s, tag, attrs);
    case StartEndTag(tag, attrs) =>
      StartKeeps(safe, s, tag, attrs);
      EndsAddNothing(Starts(safe, s, tag, attrs), tag);
    case EndTag(tag) => EndsAddNothing(s, tag);
    case Data(data) => ContentAppend(s.output, Chars(data));
  }

  lemma StartKeeps(safe: string -> bool, s: State, tag: Tag, attrs: seq<Attribute>)
    ensures Content(Starts(safe, s, tag, attrs).output) ==
            Content(s.output) + (if s.dropDepth > 0 then [] else Kept(safe, StartTag(tag, attrs)))
  {
    if tag.Allowed? {
      ContentAppend(s.output, Open(tag.tag, SafeHref(safe, tag.tag, attrs)));
    }
  }

  lemma {:induction false} RunKeeps(safe: string -> bool, events: seq<Event>)
    ensures Content(Run(safe, events).output) == VisibleContent(safe, events)
  {
    if events != [] {
      var before := events[..|events| - 1];
      RunKeeps(safe, before);
      RunText(safe, before);
      StepKeeps(safe, Run(safe, before), events[|events| - 1]);
    }
  }

  // Main result: the start tags and the text of the output are those outside dropped elements, in
  // their order; nothing else is opened and nothing of them is lost.
  lemma OutputIsVisibleContent(safe: string -> bool, events: seq<Event>)
    ensures Content(Sanitize(safe, events)) == VisibleContent(safe, events)
  {
    RunKeeps(safe, events);
    var s := Run(safe, events);
    ClosingCloses(s.openTags, Br);
    ClosesAddNothing(s.output, ClosingAll(s.openTags));
  }

  // ---------- Where elements are closed ----------

  // The elements the output so far has left open.
  ghost function OpenElements(safe: string -> bool, events: seq<Event>): seq<AllowedTag> {
    Nesting(Run(safe, events).output).GetOr([])
  }

  // The innermost open `tag` and everything inside it is closed.
  ghost predicate ClosesInnermost(before: seq<AllowedTag>, tag: AllowedTag, after: seq<AllowedTag>) {
    exists k :: 0 <= k < |before| && before[k] == tag && after == before[..k]
                && forall j :: k < j < |before| ==> before[j] != tag
  }

  lemma InnermostBelow(below: seq<AllowedTag>, top: AllowedTag, tag: AllowedTag, after: seq<AllowedTag>)
    requires ClosesInnermost(below, tag, after) && top != tag
    ensures ClosesInnermost(below + [top], tag, after)
  {
    var k :| 0 <= k < |below| && below[k] == tag && after == below[..k]
             && forall j :: k < j < |below| ==> below[j] != tag;
    assert (below + [top])[..k] == after;
  }

  lemma InnermostIsTop(below: seq<AllowedTag>, tag: AllowedTag)
    ensures ClosesInnermost(below + [tag], tag, below)
  {
    assert (below + [tag])[|below|] == tag && (below + [tag])[..|below|] == below;
  }

  lemma {:induction false} ClosingIs(openTags: seq<AllowedTag>, tag: AllowedTag)
    requires tag in openTags
    ensures ClosesInnermost(openTags, tag, Closing(openTags, tag).1)
    decreases |openTags|
  {
    hide ClosesInnermost;
    var top, below := openTags[|openTags| - 1], openTags[..|openTags| - 1];
    assert openTags == below + [top];
    if top == tag {
      InnermostIsTop(below, tag);
    } else {
      ClosingIs(below, tag);
      InnermostBelow(below, top, tag, Closing(below, tag).1);
    }
  }

  // What an event outside dropped elements does to the open elements: a start tag opens its element,
  // unless it is void, and an end tag closes the innermost open element of its name, if there is one.
  ghost predicate Nests(before: seq<AllowedTag>, e: Event, after: seq<AllowedTag>) {
    match e
    case StartTag(Allowed(tag), _) => after == if tag.Br? then before else before + [tag]
    case EndTag(Allowed(tag)) => if tag in before then ClosesInnermost(before, tag, after) else after == before
    case _ => after == before
  }

  lemma NestsStep(safe: string -> bool, s: State, e: Event)
    requires s.dropDepth == 0 && forall t <- s.openTags :: !IsVoid(t)
    ensures Nests(s.openTags, e, Handle(safe, s, e).openTags)
  {
    hide ClosesInnermost;
    if e.EndTag? && e.tag.Allowed? && e.tag.tag in s.openTags {
      ClosingIs(s.openTags, e.tag.tag);
    }
    if e.StartEndTag? && e.tag.Allowed? && !e.tag.tag.Br? {
      ClosesTop(s.openTags + [e.tag.tag], e.tag.tag);
    }
  }

  // Nothing else opens or closes anything, and events in dropped elements do nothing.
  lemma ElementsAfter(safe: string -> bool, events: seq<Event>, e: Event)
    ensures Nesting(Run(safe, events + [e]).output).Some?
    ensures var before, after := OpenElements(safe, events), OpenElements(safe, events + [e]);
            if Dropping(events) > 0 then after == before else Nests(before, e, after)
  {
    RunNests(safe, events);
    RunNests(safe, events + [e]);
    RunText(safe, events);
    assert (events + [e])[..|events|] == events;
    NoVoidIsOpen(Run(safe, events).output);
    hide Nesting, Dropping, Nests, Handle;
    if Run(safe, events).dropDepth == 0 {
      NestsStep(safe, Run(safe, events), e);
    } else {
      HiddenStep(safe, Run(safe, events), e);
    }
  }

  // ---------- The plain text ----------

  function BreakOf(tag: AllowedTag): string {
    match tag
    case Br => "\n" case Div => "\n" case Li => "\n" case P => "\n" case Tr => "\n"
    case _ => ""
  }

  // What an event outside dropped elements adds to the plain text.
  function Spoken(before: seq<AllowedTag>, e: Event): string {
    match e
    case StartTag(Allowed(tag), _) => BreakOf(tag)
    case EndTag(Allowed(tag)) => if tag in before then BreakOf(tag) else ""
    case StartEndTag(Allowed(tag), _) => if tag.Br? then BreakOf(tag) else BreakOf(tag) + BreakOf(tag)
    case Data(data) => data
    case _ => ""
  }

  ghost function PlainText(safe: string -> bool, events: seq<Event>): string {
    if events == [] then ""
    else
      var before := events[..|events| - 1];
      PlainText(safe, before)
      + (if Dropping(before) > 0 then "" else Spoken(OpenElements(safe, before), events[|events| - 1]))
  }

  lemma SpokenStep(safe: string -> bool, s: State, e: Event)
    requires s.dropDepth == 0 && forall t <- s.openTags :: !IsVoid(t)
    ensures Handle(safe, s, e).text == s.text + Spoken(s.openTags, e)
  {
    if e.StartEndTag? && e.tag.Allowed? && !e.tag.tag.Br? {
      assert e.tag.tag in s.openTags + [e.tag.tag];
    }
  }

  // The text is the visible text, with a line break at each start and each effective end of a
  // breaking element.
  lemma {:induction false} TextIs(safe: string -> bool, events: seq<Event>)
    ensures Run(safe, events).text == PlainText(safe, events)
  {
    if events != [] {
      var before, last := events[..|events| - 1], events[|events| - 1];
      TextIs(safe, before);
      RunText(safe, before);
      RunNests(safe, before);
      NoVoidIsOpen(Run(safe, before).output);
      if Dropping(before) == 0 {
        SpokenStep(safe, Run(safe, before), last);
      } else {
        HiddenStep(safe, Run(safe, before), last);
      }
    }
  }

  lemma HiddenStep(safe: string -> bool, s: State, e: Event)
    requires s.dropDepth > 0
    ensures Handle(safe, s, e).text == s.text && Handle(safe, s, e).openTags == s.openTags
  {
  }
}
