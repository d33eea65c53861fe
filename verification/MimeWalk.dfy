// The bounded walks over untrusted MIME trees: `_walk_parts` and `extract_mail_content`
// (server/mail/mime.py:179-236), `get_email_body` (server/mail/inbound.py:96-149).

module MimeWalk {
  import opened Base64Url
  import opened Common
  import opened PythonText
  import Sanitizer

  // A decoded JSON value, as far as the walks look at it.
  datatype Part = NotAnObject | Object(mimeType: Option<string>, body: Body, children: Children)
  datatype Children = Absent | NotAList | Items(parts: seq<Part>)
  datatype Body = NoBody | NotABody | BodyData(data: Data)
  datatype Data = NoData | NotText | Encoded(text: string)

  const MAX_DEPTH := 32
  const MAX_PARTS := 512
  const MAX_BODY_BYTES := 256 * 1024

  // ---------- The recursive reading ----------

  // Depth-first preorder of a list of siblings, without what lies deeper than the limit.
  function Preorder(siblings: seq<Part>, depth: nat): seq<Part> {
    if siblings == [] then []
    else [siblings[0]] + Below(siblings[0], depth) + Preorder(siblings[1..], depth)
  }

  function Below(part: Part, depth: nat): seq<Part> {
    if depth < MAX_DEPTH && part.Object? && part.children.Items? then Preorder(part.children.parts, depth + 1) else []
  }

  function Bounded(payload: Part): seq<Part> {
    var all := Preorder([payload], 0);
    if |all| <= MAX_PARTS then all else all[..MAX_PARTS]
  }

  function Objects(parts: seq<Part>): seq<Part> {
    if parts == [] then []
    else
      var last := parts[|parts| - 1];
      Objects(parts[..|parts| - 1]) + (if last.Object? then [last] else [])
  }

  // ---------- The explicit stack ----------

  // One frame: the siblings not yet visited, and their depth.
  datatype Frame = Frame(siblings: seq<Part>, depth: nat)

  // What is still to be visited, top frame first.
  function Pending(stack: seq<Frame>): seq<Part> {
    if stack == [] then []
    else
      var top := stack[|stack| - 1];
      Preorder(top.siblings, top.depth) + Pending(stack[..|stack| - 1])
  }

  lemma PopIsFree(stack: seq<Frame>)
    requires stack != [] && stack[|stack| - 1].siblings == []
    ensures Pending(stack[..|stack| - 1]) == Pending(stack)
  {
    hide Below;
    assert Preorder([], stack[|stack| - 1].depth) == [];
  }

  // Taking the next sibling, and pushing its children if it has any to visit.
  lemma VisitsNext(stack: seq<Frame>, push: bool)
    requires stack != [] && stack[|stack| - 1].siblings != []
    requires var top := stack[|stack| - 1];
             var part := top.siblings[0];
             if push then part.Object? && part.children.Items? && top.depth < MAX_DEPTH else Below(part, top.depth) == []
    ensures var top := stack[|stack| - 1];
            var part := top.siblings[0];
            var rest := stack[|stack| - 1 := Frame(top.siblings[1..], top.depth)];
            if push then Pending(stack) == [part] + Pending(rest + [Frame(part.children.parts, top.depth + 1)])
            else Pending(stack) == [part] + Pending(rest)
  {
    hide Preorder, Below, Pending;
    var top := stack[|stack| - 1];
    var part := top.siblings[0];
    var below := stack[..|stack| - 1];
    var next := Frame(top.siblings[1..], top.depth);
    var siblings, deeper := Preorder(next.siblings, top.depth), Below(part, top.depth);
    var rest := stack[|stack| - 1 := next];
    assert stack == below + [top] && rest == below + [next];
    PreorderStep(top.siblings, top.depth);
    PendingTop(below, top);
    PendingTop(below, next);
    assert Pending(stack) == [part] + (deeper + (siblings + Pending(below)));
    if push {
      BelowOf(part, top.depth);
      PendingTop(rest, Frame(part.children.parts, top.depth + 1));
    } else {
      assert deeper + (siblings + Pending(below)) == siblings + Pending(below);
    }
  }

  lemma PendingTop(below: seq<Frame>, top: Frame)
    ensures Pending(below + [top]) == Preorder(top.siblings, top.depth) + Pending(below)
  {
    assert (below + [top])[..|below|] == below;
  }

  lemma PreorderStep(siblings: seq<Part>, depth: nat)
    requires siblings != []
    ensures Preorder(siblings, depth) == [siblings[0]] + Below(siblings[0], depth) + Preorder(siblings[1..], depth)
  {
  }

  lemma BelowOf(part: Part, depth: nat)
    requires depth < MAX_DEPTH && part.Object? && part.children.Items?
    ensures Below(part, depth) == Preorder(part.children.parts, depth + 1)
  {
  }

  lemma BelowIs(part: Part, depth: nat)
    ensures Below(part, depth) ==
            if depth < MAX_DEPTH && part.Object? && part.children.Items? && part.children.parts != []
            then Preorder(part.children.parts, depth + 1) else []
  {
  }

  lemma StartsPending(payload: Part)
    ensures Pending([Frame([payload], 0)]) == Preorder([payload], 0)
  {
    var stack := [Frame([payload], 0)];
    assert stack[..0] == [];
  }

  lemma OneMoreObject(parts: seq<Part>, part: Part)
    ensures Objects(parts + [part]) == Objects(parts) + (if part.Object? then [part] else [])
  {
    assert (parts + [part])[..|parts|] == parts;
  }

  lemma CutShort(payload: Part, visited: seq<Part>, pending: seq<Part>)
    requires |visited| == MAX_PARTS && pending != [] && visited + pending == Preorder([payload], 0)
    ensures visited == Bounded(payload)
  {
    hide Preorder;
  }

  lemma CompleteWalk(payload: Part, visited: seq<Part>, stack: seq<Frame>)
    requires stack == [] && |visited| <= MAX_PARTS && visited + Pending(stack) == Preorder([payload], 0)
    ensures visited == Bounded(payload)
  {
    hide Preorder;
  }

  // `_walk_parts` yields exactly the objects among the first 512 nodes of the bounded preorder.
  method WalkParts(payload: Part) returns (parts: seq<Part>)
    ensures parts == if payload.Object? then Objects(Bounded(payload)) else []
  {
    hide Preorder, Below, Pending, Bounded;
    parts := [];
    if !payload.Object? {
      return;
    }
    var stack := [Frame([payload], 0)];
    var visitedParts := 0;
    ghost var visited: seq<Part> := [];
    StartsPending(payload);
    while stack != []
      invariant |visited| == visitedParts <= MAX_PARTS
      invariant visited + Pending(stack) == Preorder([payload], 0)
      invariant parts == Objects(visited)
      decreases |Pending(stack)|, |stack|
    {
      var top := stack[|stack| - 1];
      if top.siblings == [] {
        PopIsFree(stack);
        stack := stack[..|stack| - 1];
        continue;
      }
      var part := top.siblings[0];
      visitedParts := visitedParts + 1;
      ghost var push := part.Object? && part.children.Items? && top.depth < MAX_DEPTH;
      BelowIs(part, top.depth);
      VisitsNext(stack, push);
      if visitedParts > MAX_PARTS {
        CutShort(payload, visited, Pending(stack));
        return;
      }
      OneMoreObject(visited, part);
      visited := visited + [part];
      stack := stack[|stack| - 1 := Frame(top.siblings[1..], top.depth)];
      if !part.Object? {
        continue;
      }
      parts := parts + [part];
      if top.depth < MAX_DEPTH && part.children.Items? {
        stack := stack + [Frame(part.children.parts, top.depth + 1)];
      }
    }
    CompleteWalk(payload, visited, stack);
  }

  // ---------- extract_mail_content ----------

  datatype MailContent = MailContent(body: string, html: Option<string>)

  function DecodedBody(utf8: seq<Byte> -> string, part: Part): Option<string>
    requires part.Object?
  {
    if part.body.BodyData? && part.body.data.Encoded? then DecodeText(utf8, part.body.data.text, MAX_BODY_BYTES) else None
  }

  predicate HasType(part: Part, mimeType: string)
    requires part.Object?
  {
    part.mimeType.Some? && Lower(part.mimeType.value) == mimeType
  }

  // The first part of that type whose body decodes.
  function FirstBody(utf8: seq<Byte> -> string, parts: seq<Part>, mimeType: string): Option<string>
    requires forall p <- parts :: p.Object?
  {
    if parts == [] then None
    else
      var earlier := FirstBody(utf8, parts[..|parts| - 1], mimeType);
      var last := parts[|parts| - 1];
      if earlier.Some? || !HasType(last, mimeType) then earlier else DecodedBody(utf8, last)
  }

  // A part of that type with a body that decodes to this text.
  predicate Offers(utf8: seq<Byte> -> string, part: Part, mimeType: string, text: string) {
    && part.Object? && HasType(part, mimeType)
    && part.body.BodyData? && part.body.data.Encoded?
    && DecodeText(utf8, part.body.data.text, MAX_BODY_BYTES) == Some(text)
  }

  ghost predicate OffersNothing(utf8: seq<Byte> -> string, part: Part, mimeType: string) {
    forall text :: !Offers(utf8, part, mimeType, text)
  }

  ghost predicate NoOffer(utf8: seq<Byte> -> string, parts: seq<Part>, mimeType: string) {
    forall k :: 0 <= k < |parts| ==> OffersNothing(utf8, parts[k], mimeType)
  }

  ghost predicate FirstOffer(utf8: seq<Byte> -> string, parts: seq<Part>, mimeType: string, text: string) {
    exists k :: 0 <= k < |parts| && Offers(utf8, parts[k], mimeType, text) && NoOffer(utf8, parts[..k], mimeType)
  }

  lemma OneMorePart(utf8: seq<Byte> -> string, init: seq<Part>, last: Part, mimeType: string, text: string)
    ensures FirstOffer(utf8, init + [last], mimeType, text) <==>
            || FirstOffer(utf8, init, mimeType, text)
            || (NoOffer(utf8, init, mimeType) && Offers(utf8, last, mimeType, text))
    ensures NoOffer(utf8, init + [last], mimeType) <==>
            NoOffer(utf8, init, mimeType) && OffersNothing(utf8, last, mimeType)
  {
    hide Offers, OffersNothing;
    var parts, n := init + [last], |init|;
    assert parts[n] == last && parts[..n] == init;
    forall k | 0 <= k < n ensures parts[k] == init[k] && parts[..k] == init[..k] {
    }
  }

  // The body chosen precedes every other decodable one of its type.
  lemma {:induction false} FirstBodyIs(utf8: seq<Byte> -> string, parts: seq<Part>, mimeType: string, text: string)
    requires forall p <- parts :: p.Object?
    ensures FirstBody(utf8, parts, mimeType).None? <==> NoOffer(utf8, parts, mimeType)
    ensures FirstBody(utf8, parts, mimeType) == Some(text) <==> FirstOffer(utf8, parts, mimeType, text)
  {
    hide HasType, DecodedBody, Offers, OffersNothing;
    if parts != [] {
      hide NoOffer, FirstOffer;
      var init, last := parts[..|parts| - 1], parts[|parts| - 1];
      assert parts == init + [last];
      FirstBodyIs(utf8, init, mimeType, text);
      OneMorePart(utf8, init, last, mimeType, text);
      BodyIs(utf8, last, mimeType, text);
    }
  }

  lemma BodyIs(utf8: seq<Byte> -> string, part: Part, mimeType: string, text: string)
    requires part.Object?
    ensures HasType(part, mimeType) && DecodedBody(utf8, part) == Some(text) <==> Offers(utf8, part, mimeType, text)
    ensures OffersNothing(utf8, part, mimeType) <==> !HasType(part, mimeType) || DecodedBody(utf8, part).None?
  {
    if HasType(part, mimeType) && DecodedBody(utf8, part).Some? {
      assert Offers(utf8, part, mimeType, DecodedBody(utf8, part).value);
    }
  }

  lemma {:induction false} ObjectsAreObjects(parts: seq<Part>)
    ensures forall p <- Objects(parts) :: p.Object?
  {
    if parts != [] {
      ObjectsAreObjects(parts[..|parts| - 1]);
    }
  }

  // What the sanitizer makes of an HTML body: `parse` gives the parser's events, `safe` judges links.
  function Sanitized(parse: string -> seq<Sanitizer.Event>, safe: string -> bool, html: string): MailContent {
    var events := parse(html);
    var rendered := Sanitizer.Render(Sanitizer.Sanitize(safe, events));
    MailContent(Strip(Sanitizer.Run(safe, events).text), if rendered == "" then None else Some(rendered))
  }

  // The plain body if there is one, otherwise the HTML body, sanitized.
  method ExtractMailContent(utf8: seq<Byte> -> string, parse: string -> seq<Sanitizer.Event>, safe: string -> bool,
                            payload: Part)
    returns (content: MailContent)
    ensures var parts := if payload.Object? then Objects(Bounded(payload)) else [];
            && (forall p <- parts :: p.Object?)
            && var plain := FirstBody(utf8, parts, "text/plain");
               var html := FirstBody(utf8, parts, "text/html");
               content == (if plain.Some? then MailContent(plain.value, None)
                           else if html.None? then MailContent("", None)
                           else Sanitized(parse, safe, html.value))
  {
    hide Preorder, Below, Bounded, Objects, DecodeText, Sanitizer.Render, Sanitizer.Run, Strip;
    var parts := WalkParts(payload);
    ObjectsAreObjects(Bounded(payload));
    var plainBody: Option<string> := None;
    var htmlBody: Option<string> := None;
    var i := 0;
    while i < |parts|
      invariant 0 <= i <= |parts|
      invariant plainBody == FirstBody(utf8, parts[..i], "text/plain")
      invariant htmlBody == FirstBody(utf8, parts[..i], "text/html")
    {
      assert parts[..i + 1][..i] == parts[..i];
      var part := parts[i];
      i := i + 1;
      if part.mimeType.None? {
        continue;
      }
      var decoded := DecodedBody(utf8, part);
      if decoded.None? {
        continue;
      }
      if Lower(part.mimeType.value) == "text/plain" && plainBody.None? {
        plainBody := decoded;
      } else if Lower(part.mimeType.value) == "text/html" && htmlBody.None? {
        htmlBody := decoded;
      }
    }
    assert parts[..i] == parts;
    if plainBody.Some? {
      return MailContent(plainBody.value, None);
    }
    if htmlBody.None? {
      return MailContent("", None);
    }
    var sanitizer := new Sanitizer.StrictHtmlSanitizer(safe);
    sanitizer.Feed(parse(htmlBody.value));
    var rendered := sanitizer.RenderedHtml();
    var text := sanitizer.RenderedText();
    return MailContent(text, if rendered == "" then None else Some(rendered));
  }

  // ---------- get_email_body ----------

  // How one node of the bounded preorder contributes: nothing, the text, or a ValueError.
  datatype Verdict = Nothing | Body(text: string) | Invalid

  function Judge(utf8: seq<Byte> -> string, part: Part): Verdict {
    if part.NotAnObject? || part.children.NotAList? then Invalid
    else if part.children.Items? && part.children.parts != [] then Nothing
    else if part.mimeType.None? then Invalid
    else if !HasType(part, "text/plain") && !HasType(part, "text/html") then Nothing
    else
      match part.body
      case NoBody => Nothing
      case NotABody => Invalid
      case BodyData(data) =>
        match data
        case NoData => Nothing
        case NotText => Invalid
        case Encoded(text) =>
          if text == "" then Nothing
          else
            var extracted := DecodeText(utf8, text, MAX_BODY_BYTES);
            if extracted.None? then Invalid
            else if extracted.value == "" then Nothing
            else Body(extracted.value)
  }

  // The first node that says something decides.
  function FirstVerdict(utf8: seq<Byte> -> string, parts: seq<Part>): Verdict {
    if parts == [] then Nothing
    else
      var verdict := Judge(utf8, parts[0]);
      if verdict.Nothing? then FirstVerdict(utf8, parts[1..]) else verdict
  }

  lemma {:induction false} FirstVerdictIs(utf8: seq<Byte> -> string, parts: seq<Part>, verdict: Verdict)
    requires !verdict.Nothing?
    ensures FirstVerdict(utf8, parts) == verdict <==>
            exists k :: 0 <= k < |parts| && Judge(utf8, parts[k]) == verdict
                        && forall j :: 0 <= j < k ==> Judge(utf8, parts[j]).Nothing?
  {
    hide Judge;
    if parts != [] {
      var rest := parts[1..];
      FirstVerdictIs(utf8, rest, verdict);
      if k :| 0 <= k < |parts| && Judge(utf8, parts[k]) == verdict
              && forall j :: 0 <= j < k ==> Judge(utf8, parts[j]).Nothing? {
        if k > 0 {
          assert rest[k - 1] == parts[k] && forall j :: 0 <= j < k - 1 ==> rest[j] == parts[j + 1];
        }
      }
      if k :| 0 <= k < |rest| && Judge(utf8, rest[k]) == verdict
              && forall j :: 0 <= j < k ==> Judge(utf8, rest[j]).Nothing? {
        assert parts[k + 1] == rest[k] && forall j :: 0 < j < k + 1 ==> parts[j] == rest[j - 1];
      }
    }
  }

  lemma {:induction false} FirstOfTwo(utf8: seq<Byte> -> string, a: seq<Part>, b: seq<Part>)
    ensures FirstVerdict(utf8, a + b) ==
            if FirstVerdict(utf8, a).Nothing? then FirstVerdict(utf8, b) else FirstVerdict(utf8, a)
  {
    if a == [] {
      assert a + b == b;
    } else {
      assert (a + b)[1..] == a[1..] + b;
      FirstOfTwo(utf8, a[1..], b);
    }
  }

  // What the walk has left to say.
  lemma VisitedSilently(utf8: seq<Byte> -> string, visited: seq<Part>, part: Part)
    requires FirstVerdict(utf8, visited).Nothing? && Judge(utf8, part).Nothing?
    ensures FirstVerdict(utf8, visited + [part]).Nothing?
  {
    FirstOfTwo(utf8, visited, [part]);
    assert [part][1..] == [];
  }

  lemma Decides(utf8: seq<Byte> -> string, payload: Part, visited: seq<Part>, part: Part, rest: seq<Part>)
    requires FirstVerdict(utf8, visited).Nothing? && |visited| < MAX_PARTS
    requires visited + ([part] + rest) == Preorder([payload], 0)
    requires !Judge(utf8, part).Nothing?
    ensures FirstVerdict(utf8, Bounded(payload)) == Judge(utf8, part)
  {
    var tail := Bounded(payload)[|visited|..];
    assert Bounded(payload) == visited + tail;
    assert tail[0] == part;
    FirstOfTwo(utf8, visited, tail);
  }

  // The first text leaf with a nonempty body, or the first malformed node, within the bounds:
  // None stands for a ValueError.
  method GetEmailBody(utf8: seq<Byte> -> string, payload: Part) returns (body: Option<string>)
    ensures body == match FirstVerdict(utf8, Bounded(payload))
                    case Nothing => Some("")
                    case Body(text) => Some(text)
                    case Invalid => None
  {
    hide Preorder, Below, Pending, Bounded, FirstVerdict, DecodeText;
    var stack := [Frame([payload], 0)];
    var visitedParts := 0;
    ghost var visited: seq<Part> := [];
    StartsPending(payload);
    NothingYet(utf8);
    while stack != []
      invariant |visited| == visitedParts <= MAX_PARTS
      invariant visited + Pending(stack) == Preorder([payload], 0)
      invariant FirstVerdict(utf8, visited).Nothing?
      decreases |Pending(stack)|, |stack|
    {
      var top := stack[|stack| - 1];
      if top.siblings == [] {
        PopIsFree(stack);
        stack := stack[..|stack| - 1];
        continue;
      }
      var part := top.siblings[0];
      visitedParts := visitedParts + 1;
      ghost var push := part.Object? && part.children.Items? && part.children.parts != [] && top.depth < MAX_DEPTH;
      BelowIs(part, top.depth);
      VisitsNext(stack, push);
      if visitedParts > MAX_PARTS {
        CutShort(payload, visited, Pending(stack));
        return Some("");
      }
      ghost var before := visited;
      visited := visited + [part];
      stack := stack[|stack| - 1 := Frame(top.siblings[1..], top.depth)];
      if part.NotAnObject? || part.children.NotAList? {
        Decides(utf8, payload, before, part, Pending(stack));
        return None;
      }
      if part.children.Items? && part.children.parts != [] {
        if top.depth < MAX_DEPTH {
          stack := stack + [Frame(part.children.parts, top.depth + 1)];
        }
        VisitedSilently(utf8, before, part);
        continue;
      }
      var verdict := LeafBody(utf8, part);
      if !verdict.Nothing? {
        Decides(utf8, payload, before, part, Pending(stack));
        return if verdict.Invalid? then None else Some(verdict.text);
      }
      VisitedSilently(utf8, before, part);
    }
    CompleteWalk(payload, visited, stack);
    return Some("");
  }

  lemma NothingYet(utf8: seq<Byte> -> string)
    ensures FirstVerdict(utf8, []).Nothing?
  {
  }

  // The body of the loop for a leaf.
  method LeafBody(utf8: seq<Byte> -> string, part: Part) returns (verdict: Verdict)
    requires part.Object? && (part.children.Absent? || (part.children.Items? && part.children.parts == []))
    ensures verdict == Judge(utf8, part)
  {
    if part.mimeType.None? {
      return Invalid;
    }
    if Lower(part.mimeType.value) != "text/plain" && Lower(part.mimeType.value) != "text/html" {
      return Nothing;
    }
    if part.body.NoBody? {
      return Nothing;
    }
    if part.body.NotABody? {
      return Invalid;
    }
    var encoded := part.body.data;
    if encoded.NoData? {
      return Nothing;
    }
    if encoded.NotText? {
      return Invalid;
    }
    if encoded.text == "" {
      return Nothing;
    }
    var extracted := DecodeText(utf8, encoded.text, MAX_BODY_BYTES);
    if extracted.None? {
      return Invalid;
    }
    if extracted.value != "" {
      return Body(extracted.value);
    }
    return Nothing;
  }
}
