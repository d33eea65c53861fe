// The strict HTML sanitizer (server/mail/mime.py:28-157) as a transducer of parser events.

module Sanitizer {
  import opened Common
  import opened PythonText

  datatype AllowedTag =
    | A | B | Blockquote | Br | Code | Div | Em | H1 | H2 | H3 | H4 | H5 | H6 | I | Li | Ol | P | Pre | Span | Strong
    | Table | Tbody | Td | Th | Thead | Tr | Ul

  // A tag name, lower-cased, by the list it is on; the dropped ones are form, iframe, math, object,
  // script, style, svg and template.
  datatype Tag = Allowed(tag: AllowedTag) | Dropped(name: string) | Unknown(name: string)

  predicate IsVoid(tag: AllowedTag) { tag.Br? }

  predicate BreaksText(tag: AllowedTag) { tag.Br? || tag.Div? || tag.Li? || tag.P? || tag.Tr? }

  datatype Attribute = Attribute(name: string, value: Option<string>)

  // What HTMLParser reports; comments and declarations are ignored.
  datatype Event =
    | StartTag(tag: Tag, attrs: seq<Attribute>)
    | StartEndTag(tag: Tag, attrs: seq<Attribute>)
    | EndTag(tag: Tag)
    | Data(data: string)

  datatype Token = Open(tag: AllowedTag, href: Option<string>) | Close(tag: AllowedTag) | Chars(data: string)

  datatype State = State(output: seq<Token>, text: string, openTags: seq<AllowedTag>, dropDepth: nat)

  const EMPTY := State([], "", [], 0)

  // ---------- One event ----------

  // The first nonempty href; `safe` decides as `_safe_href` does (https with a host, or mailto).
  function FirstHref(attrs: seq<Attribute>): Option<string> {
    if attrs == [] then None
    else if Lower(attrs[0].name) == "href" && attrs[0].value.Some? && attrs[0].value.value != "" then attrs[0].value
    else FirstHref(attrs[1..])
  }

  function SafeHref(safe: string -> bool, tag: AllowedTag, attrs: seq<Attribute>): Option<string> {
    var href := FirstHref(attrs);
    if tag.A? && href.Some? && safe(href.value) then href else None
  }

  function Starts(safe: string -> bool, s: State, tag: Tag, attrs: seq<Attribute>): State {
    if s.dropDepth > 0 then if tag.Dropped? then s.(dropDepth := s.dropDepth + 1) else s
    else
      match tag
      case Dropped(_) => s.(dropDepth := 1)
      case Unknown(_) => s
      case Allowed(t) =>
        s.(output := s.output + [Open(t, SafeHref(safe, t, attrs))],
           openTags := if IsVoid(t) then s.openTags else s.openTags + [t],
           text := if BreaksText(t) then s.text + "\n" else s.text)
  }

  // Close the innermost elements up to and including the last open `tag`.
  function Closing(openTags: seq<AllowedTag>, tag: AllowedTag): (seq<Token>, seq<AllowedTag>) {
    if openTags == [] then ([], [])
    else
      var top, below := openTags[|openTags| - 1], openTags[..|openTags| - 1];
      if top == tag then ([Close(top)], below)
      else
        var (closes, rest) := Closing(below, tag);
        ([Close(top)] + closes, rest)
  }

  function Ends(s: State, tag: Tag): State {
    if s.dropDepth > 0 then if tag.Dropped? then s.(dropDepth := s.dropDepth - 1) else s
    else
      match tag
      case Dropped(_) => s
      case Unknown(_) => s
      case Allowed(t) =>
        if IsVoid(t) || t !in s.openTags then s
        else
          var (closes, rest) := Closing(s.openTags, t);
          s.(output := s.output + closes, openTags := rest, text := if BreaksText(t) then s.text + "\n" else s.text)
  }

  function Handle(safe: string -> bool, s: State, e: Event): State {
    match e
    case StartTag(tag, attrs) => Starts(safe, s, tag, attrs)
    case StartEndTag(tag, attrs) =>
      var started := Starts(safe, s, tag, attrs);
      if tag.Allowed? && IsVoid(tag.tag) then started else Ends(started, tag)
    case EndTag(tag) => Ends(s, tag)
    case Data(data) =>
      if s.dropDepth > 0 || data == "" then s else s.(output := s.output + [Chars(data)], text := s.text + data)
  }

  function Run(safe: string -> bool, events: seq<Event>): State {
    if events == [] then EMPTY else Handle(safe, Run(safe, events[..|events| - 1]), events[|events| - 1])
  }

  // `rendered_html` closes what is still open, innermost first.
  function ClosingAll(openTags: seq<AllowedTag>): seq<Token> {
    if openTags == [] then [] else [Close(openTags[|openTags| - 1])] + ClosingAll(openTags[..|openTags| - 1])
  }

  function Sanitize(safe: string -> bool, events: seq<Event>): seq<Token> {
    var s := Run(safe, events);
    s.output + ClosingAll(s.openTags)
  }

  // ---------- Rendering ----------

  function TagName(tag: AllowedTag): string {
    match tag
    case A => "a" case B => "b" case Blockquote => "blockquote" case Br => "br" case Code => "code" case Div => "div"
    case Em => "em" case H1 => "h1" case H2 => "h2" case H3 => "h3" case H4 => "h4" case H5 => "h5" case H6 => "h6"
    case I => "i" case Li => "li" case Ol => "ol" case P => "p" case Pre => "pre" case Span => "span"
    case Strong => "strong" case Table => "table" case Tbody => "tbody" case Td => "td" case Th => "th"
    case Thead => "thead" case Tr => "tr" case Ul => "ul"
  }

  function EscapeChar(c: char, quote: bool): string {
    if c == '&' then "&amp;"
    else if c == '<' then "&lt;"
    else if c == '>' then "&gt;"
    else if quote && c == '"' then "&quot;"
    else if quote && c == '\'' then "&#x27;"
    else [c]
  }

  // html.escape
  function Escape(s: string, quote: bool): string {
    if s == "" then "" else EscapeChar(s[0], quote) + Escape(s[1..], quote)
  }

  function RenderToken(t: Token): string {
    match t
    case Open(tag, None) => "<" + TagName(tag) + ">"
    case Open(tag, Some(href)) =>
      "<" + TagName(tag) + " href=\"" + Escape(href, true) + "\" rel=\"noopener noreferrer\">"
    case Close(tag) => "</" + TagName(tag) + ">"
    case Chars(data) => Escape(data, false)
  }

  function Render(tokens: seq<Token>): string {
    if tokens == [] then "" else RenderToken(tokens[0]) + Render(tokens[1..])
  }

  // ---------- The sanitizer as it updates its state ----------

  class StrictHtmlSanitizer {
    const safe: string -> bool
    var output: seq<Token>
    var text: string
    var openTags: seq<AllowedTag>
    var dropDepth: nat

    constructor (safe: string -> bool)
      ensures Contents() == EMPTY && this.safe == safe
    {
      this.safe := safe;
      output, text, openTags, dropDepth := [], "", [], 0;
    }

    function Contents(): State
      reads this
    {
      State(output, text, openTags, dropDepth)
    }

    method HandleStartTag(tag: Tag, attrs: seq<Attribute>)
      modifies this
      ensures Contents() == Starts(safe, old(Contents()), tag, attrs)
    {
      if dropDepth > 0 {
        if tag.Dropped? {
          dropDepth := dropDepth + 1;
        }
        return;
      }
      if tag.Dropped? {
        dropDepth := 1;
        return;
      }
      if !tag.Allowed? {
        return;
      }
      var renderedHref: Option<string> := None;
      if tag.tag.A? {
        var href := FirstHref(attrs);
        if href.Some? && safe(href.value) {
          renderedHref := href;
        }
      }
      output := output + [Open(tag.tag, renderedHref)];
      if !IsVoid(tag.tag) {
        openTags := openTags + [tag.tag];
      }
      if BreaksText(tag.tag) {
        text := text + "\n";
      }
    }

    method HandleEndTag(tag: Tag)
      modifies this
      ensures Contents() == Ends(old(Contents()), tag)
    {
      if dropDepth > 0 {
        if tag.Dropped? {
          dropDepth := dropDepth - 1;
        }
        return;
      }
      if !tag.Allowed? || IsVoid(tag.tag) || tag.tag !in openTags {
        return;
      }
      ghost var all := Closing(openTags, tag.tag);
      ghost var before := output;
      while openTags != []
        invariant text == old(text) && dropDepth == old(dropDepth)
        invariant output + Closing(openTags, tag.tag).0 == before + all.0
        invariant Closing(openTags, tag.tag).1 == all.1
        invariant tag.tag in openTags
        decreases |openTags|
      {
        var current := openTags[|openTags| - 1];
        openTags := openTags[..|openTags| - 1];
        output := output + [Close(current)];
        if current == tag.tag {
          break;
        }
      }
      if BreaksText(tag.tag) {
        text := text + "\n";
      }
    }

    method HandleStartEndTag(tag: Tag, attrs: seq<Attribute>)
      modifies this
      ensures Contents() == Handle(safe, old(Contents()), StartEndTag(tag, attrs))
    {
      HandleStartTag(tag, attrs);
      if !(tag.Allowed? && IsVoid(tag.tag)) {
        HandleEndTag(tag);
      }
    }

    method HandleData(data: string)
      modifies this
      ensures Contents() == Handle(safe, old(Contents()), Data(data))
    {
      if dropDepth > 0 || data == "" {
        return;
      }
      output := output + [Chars(data)];
      text := text + data;
    }

    method Feed(events: seq<Event>)
      requires Contents() == EMPTY
      modifies this
      ensures Contents() == Run(safe, events)
    {
      var i := 0;
      while i < |events|
        invariant 0 <= i <= |events| && Contents() == Run(safe, events[..i])
      {
        match events[i] {
          case StartTag(tag, attrs) => HandleStartTag(tag, attrs);
          case StartEndTag(tag, attrs) => HandleStartEndTag(tag, attrs);
          case EndTag(tag) => HandleEndTag(tag);
          case Data(data) => HandleData(data);
        }
        assert events[..i + 1][..i] == events[..i];
        i := i + 1;
      }
      assert events[..i] == events;
    }

    method RenderedHtml() returns (html: string)
      modifies this
      ensures html == Render(old(output) + ClosingAll(old(openTags)))
      ensures openTags == [] && output == old(output) + ClosingAll(old(openTags)) && text == old(text)
    {
      while openTags != []
        invariant text == old(text)
        invariant output + ClosingAll(openTags) == old(output) + ClosingAll(old(openTags))
        decreases |openTags|
      {
        output := output + [Close(openTags[|openTags| - 1])];
        openTags := openTags[..|openTags| - 1];
      }
      assert output + ClosingAll([]) == output;
      html := Render(output);
    }

    method RenderedText() returns (rendered: string)
      ensures rendered == Strip(text)
    {
      rendered := Strip(text);
    }
  }
}
