// Validation and canonicalization of staged action payloads (server/action_payloads.py).
//
// The library calls whose text the repository does not contain (address and time parsing, case
// folding, the time zone database) are fields of `Library`; what the proofs need of them is
// collected in `Library.WellBehaved`.

module ActionPayloads {
  import opened Common
  import opened PythonText

  datatype Kind = SendEmail | SendReply | CreateEvent | CreateTask

  function KindName(kind: Kind): string {
    match kind
    case SendEmail => "send_email"
    case SendReply => "send_reply"
    case CreateEvent => "create_event"
    case CreateTask => "create_task"
  }

  datatype Json = Null | Bool(b: bool) | Number(n: int) | Text(text: string) | List(items: seq<Json>) | Object

  datatype Field =
    | ActionType | SchemaVersion | SenderEmail | RecipientEmail | Subject | EmailBody
    | OriginalMessageId | ThreadId | OriginalRfcMessageId | OriginalReferences | OriginalSubject | ReplyMessage
    | Title | StartTimeIso | EndTimeIso | EventTimezone | Description | Location | AttendeeEmails | Notes
    | Other(name: string)

  type Payload = map<Field, Json>

  // A parsed datetime: the instant it denotes, and its UTC offset if it carries one.
  datatype Moment = Moment(utc: int, offset: Option<int>)

  datatype Library = Library(
    parseAddress: string -> string,
    fold: string -> string,
    parseMoment: Json -> Option<Moment>,
    printMoment: Moment -> string,
    isTimezone: string -> bool)
  {
    ghost predicate WellBehaved() {
      && (forall s: string :: IsAscii(s) ==> fold(s) == Lower(s))
      && (forall s: string :: fold(fold(s)) == fold(s))
      && (forall s: string :: SoundAddress(s) ==> SoundAddress(fold(s)))
      && (forall m: Moment :: m.offset.Some? ==> parseMoment(Text(printMoment(m))) == Some(m))
    }

    // An address as it is accepted, up to its length.
    predicate SoundAddress(s: string) {
      PlainAddress(s) && '\0' !in s && parseAddress(s) == s
    }
  }

  // Such a library exists.
  lemma WellBehavedLibraryExists()
    ensures exists lib: Library :: lib.WellBehaved()
  {
    var show := (m: Moment) => Unary(m.utc, m.offset.GetOr(0));
    var parse := (j: Json) =>
      if exists m: Moment :: m.offset.Some? && j == Text(show(m))
      then var m: Moment :| m.offset.Some? && j == Text(show(m)); Some(m)
      else None;
    var lib := Library(s => s, s => Lower(s), parse, show, _ => true);
    forall s: string ensures Lower(Lower(s)) == Lower(s) && (lib.SoundAddress(s) ==> lib.SoundAddress(Lower(s))) {
      LowerFixed(s);
      LowerKeepsNul(s);
    }
    forall m: Moment | m.offset.Some? ensures lib.parseMoment(Text(lib.printMoment(m))) == Some(m) {
      var m' := parse(Text(show(m))).value;
      UnaryIsInjective(m.utc, m.offset.value, m'.utc, m'.offset.value);
    }
    assert lib.WellBehaved();
  }

  // ---------- Text ----------

  const MAX_TEXT := 20_000

  function CleanText(value: string, maximum: nat): Option<string> {
    var text := Strip(value);
    if text == "" || |text| > maximum || '\0' in text then None else Some(text)
  }

  // A required `str` field with a `max_length`, cleaned.
  function RequiredText(payload: Payload, field: Field, maximum: nat): Option<string> {
    if field !in payload || !payload[field].Text? || |Trim(payload[field].text)| > maximum then None
    else CleanText(Trim(payload[field].text), maximum)
  }

  function OptionalText(payload: Payload, field: Field, maximum: nat): Option<string> {
    if field !in payload then Some("")
    else if !payload[field].Text? then None
    else
      var text := Trim(payload[field].text);
      if |text| > maximum || '\0' in text then None else Some(Strip(text))
  }

  // ---------- Addresses and identifiers ----------

  // One `@` with text on both sides, no dot at the ends of the domain, no white space.
  predicate PlainAddress(a: string) {
    && (forall i :: 0 <= i < |a| ==> !SpaceChar(a[i]))
    && exists k :: 0 < k < |a| - 1 && AtSign(a, k)
  }

  predicate AtSign(a: string, k: nat)
    requires 0 < k < |a| - 1
  {
    a[k] == '@' && a[k + 1] != '.' && a[|a| - 1] != '.' && (forall j :: 0 <= j < |a| && a[j] == '@' ==> j == k)
  }

  function CanonicalEmail(lib: Library, value: string): Option<string> {
    var text := CleanText(value, 320);
    if text.None? || lib.parseAddress(text.value) != text.value || !PlainAddress(text.value) then None
    else Some(lib.fold(text.value))
  }

  function EmailField(lib: Library, payload: Payload, field: Field): Option<string> {
    if field !in payload || !payload[field].Text? then None
    else CanonicalEmail(lib, Trim(payload[field].text))
  }

  predicate IdChar(c: char) {
    'A' <= c <= 'Z' || 'a' <= c <= 'z' || '0' <= c <= '9' || c == '_' || c == '-'
  }

  function ProviderId(payload: Payload, field: Field): Option<string> {
    if field !in payload || !payload[field].Text? then None
    else
      var text := CleanText(Trim(payload[field].text), 256);
      if text.Some? && forall i :: 0 <= i < |text.value| ==> IdChar(text.value[i]) then text else None
  }

  function RfcMessageId(payload: Payload, field: Field): Option<string> {
    if field !in payload || !payload[field].Text? then None
    else
      var text := CleanText(Trim(payload[field].text), 998);
      if text.Some? && text.value[0] == '<' && text.value[|text.value| - 1] == '>'
         && forall i :: 0 <= i < |text.value| ==> !SpaceChar(text.value[i])
      then text else None
  }

  // ---------- Attendees ----------

  // Order of strings by code point.
  predicate Less(a: string, b: string) {
    b != [] && (a == [] || a[0] < b[0] || (a[0] == b[0] && Less(a[1..], b[1..])))
  }

  function Insert(x: string, sorted: seq<string>): seq<string> {
    if sorted == [] then [x]
    else if x == sorted[0] then sorted
    else if Less(x, sorted[0]) then [x] + sorted
    else [sorted[0]] + Insert(x, sorted[1..])
  }

  // sorted(set(values))
  function SortedSet(values: seq<string>): seq<string> {
    if values == [] then [] else Insert(values[0], SortedSet(values[1..]))
  }

  function CanonicalEmails(lib: Library, values: seq<Json>): Option<seq<string>> {
    if values == [] then Some([])
    else
      var rest := CanonicalEmails(lib, values[1..]);
      if !values[0].Text? || rest.None? then None
      else
        var email := CanonicalEmail(lib, Trim(values[0].text));
        if email.None? then None else Some([email.value] + rest.value)
  }

  function Texts(values: seq<string>): seq<Json> {
    seq(|values|, i requires 0 <= i < |values| => Text(values[i]))
  }

  function Attendees(lib: Library, payload: Payload): Option<seq<string>> {
    if AttendeeEmails !in payload then Some([])
    else if !payload[AttendeeEmails].List? || |payload[AttendeeEmails].items| > 100 then None
    else
      var emails := CanonicalEmails(lib, payload[AttendeeEmails].items);
      if emails.None? || |SortedSet(emails.value)| != |emails.value| then None
      else Some(SortedSet(emails.value))
  }

  // ---------- The four payload models ----------

  function Allowed(kind: Kind): set<Field> {
    match kind
    case SendEmail => {ActionType, SchemaVersion, SenderEmail, RecipientEmail, Subject, EmailBody}
    case SendReply => {ActionType, SchemaVersion, SenderEmail, RecipientEmail, OriginalMessageId, ThreadId,
                       OriginalRfcMessageId, OriginalReferences, OriginalSubject, ReplyMessage}
    case CreateEvent => {ActionType, SchemaVersion, Title, StartTimeIso, EndTimeIso, EventTimezone, Description,
                         Location, AttendeeEmails}
    case CreateTask => {ActionType, SchemaVersion, Title, Notes}
  }

  // The action type is server-owned: a supplied one must agree.  Unknown fields are refused.
  predicate WellShaped(kind: Kind, payload: Payload) {
    && payload.Keys <= Allowed(kind)
    && (ActionType in payload ==> payload[ActionType] == Text(KindName(kind)))
    && (SchemaVersion in payload ==> payload[SchemaVersion] == Number(1))
  }

  function Header(kind: Kind): Payload {
    map[ActionType := Text(KindName(kind)), SchemaVersion := Number(1)]
  }

  function CanonicalSendEmail(lib: Library, p: Payload): Option<Payload> {
    var sender := EmailField(lib, p, SenderEmail);
    var recipient := EmailField(lib, p, RecipientEmail);
    var subject := RequiredText(p, Subject, 998);
    var body := RequiredText(p, EmailBody, MAX_TEXT);
    if sender.None? || recipient.None? || subject.None? || body.None? then None
    else Some(Header(SendEmail)[SenderEmail := Text(sender.value)][RecipientEmail := Text(recipient.value)]
              [Subject := Text(subject.value)][EmailBody := Text(body.value)])
  }

  function CanonicalSendReply(lib: Library, p: Payload): Option<Payload> {
    var sender := EmailField(lib, p, SenderEmail);
    var recipient := EmailField(lib, p, RecipientEmail);
    var message := ProviderId(p, OriginalMessageId);
    var thread := ProviderId(p, ThreadId);
    var rfcId := RfcMessageId(p, OriginalRfcMessageId);
    var references := OptionalText(p, OriginalReferences, 4_000);
    var subject := RequiredText(p, OriginalSubject, 998);
    var reply := RequiredText(p, ReplyMessage, MAX_TEXT);
    if sender.None? || recipient.None? || message.None? || thread.None? || rfcId.None? || references.None?
       || subject.None? || reply.None? then None
    else Some(Header(SendReply)[SenderEmail := Text(sender.value)][RecipientEmail := Text(recipient.value)]
              [OriginalMessageId := Text(message.value)][ThreadId := Text(thread.value)]
              [OriginalRfcMessageId := Text(rfcId.value)][OriginalReferences := Text(references.value)]
              [OriginalSubject := Text(subject.value)][ReplyMessage := Text(reply.value)])
  }

  function MomentField(lib: Library, p: Payload, field: Field): Option<Moment> {
    if field in p then lib.parseMoment(p[field]) else None
  }

  function Timezone(lib: Library, p: Payload): Option<string> {
    var zone := RequiredText(p, EventTimezone, 128);
    if zone.Some? && lib.isTimezone(zone.value) then zone else None
  }

  function CanonicalCreateEvent(lib: Library, p: Payload): Option<Payload> {
    var title := RequiredText(p, Title, 1_024);
    var start := MomentField(lib, p, StartTimeIso);
    var end := MomentField(lib, p, EndTimeIso);
    var zone := Timezone(lib, p);
    var description := OptionalText(p, Description, MAX_TEXT);
    var location := OptionalText(p, Location, 1_024);
    var attendees := Attendees(lib, p);
    if title.None? || start.None? || end.None? || zone.None? || description.None? || location.None? || attendees.None?
       || start.value.offset.None? || end.value.offset.None? || end.value.utc <= start.value.utc then None
    else Some(Header(CreateEvent)[Title := Text(title.value)][StartTimeIso := Text(lib.printMoment(start.value))]
              [EndTimeIso := Text(lib.printMoment(end.value))][EventTimezone := Text(zone.value)]
              [Description := Text(description.value)][Location := Text(location.value)]
              [AttendeeEmails := List(Texts(attendees.value))])
  }

  function CanonicalCreateTask(p: Payload): Option<Payload> {
    var title := RequiredText(p, Title, 1_024);
    var notes := RequiredText(p, Notes, MAX_TEXT);
    if title.None? || notes.None? then None
    else Some(Header(CreateTask)[Title := Text(title.value)][Notes := Text(notes.value)])
  }

  // `canonicalize_action_payload`; None stands for a ValueError.
  function Canonicalize(lib: Library, kind: Kind, payload: Payload): Option<Payload> {
    if !WellShaped(kind, payload) then None
    else
      match kind
      case SendEmail => CanonicalSendEmail(lib, payload)
      case SendReply => CanonicalSendReply(lib, payload)
      case CreateEvent => CanonicalCreateEvent(lib, payload)
      case CreateTask => CanonicalCreateTask(payload)
  }

  // ---------- Canonical fields are fixed points ----------

  lemma StripFixed(s: string)
    ensures Trim(Strip(s)) == Strip(s) && Strip(Strip(s)) == Strip(s)
  {
    var r := Strip(s);
    if r != [] {
      assert !SpaceChar(r[0]) && !SpaceChar(r[|r| - 1]);
    }
  }

  lemma CleanFixed(value: string, maximum: nat)
    requires CleanText(value, maximum).Some?
    ensures var text := CleanText(value, maximum).value;
            Trim(text) == text && CleanText(text, maximum) == Some(text)
  {
    StripFixed(value);
  }

  lemma RequiredTextFixed(p: Payload, q: Payload, field: Field, maximum: nat)
    requires RequiredText(p, field, maximum).Some?
    requires field in q && q[field] == Text(RequiredText(p, field, maximum).value)
    ensures RequiredText(q, field, maximum) == RequiredText(p, field, maximum)
  {
    CleanFixed(Trim(p[field].text), maximum);
  }

  lemma NoNul(space: char -> bool, s: string)
    requires '\0' !in s
    ensures '\0' !in StripWhere(space, s)
    decreases |s|
  {
    if s == [] {
    } else if space(s[0]) {
      NoNul(space, s[1..]);
    } else if space(s[|s| - 1]) {
      NoNul(space, s[..|s| - 1]);
    }
  }

  lemma OptionalTextFixed(p: Payload, q: Payload, field: Field, maximum: nat)
    requires OptionalText(p, field, maximum).Some?
    requires field in q && q[field] == Text(OptionalText(p, field, maximum).value)
    ensures OptionalText(q, field, maximum) == OptionalText(p, field, maximum)
  {
    if field in p {
      var text := Trim(p[field].text);
      StripFixed(text);
      NoNul(SpaceChar, text);
    }
  }

  lemma ProviderIdFixed(p: Payload, q: Payload, field: Field)
    requires ProviderId(p, field).Some? && field in q && q[field] == Text(ProviderId(p, field).value)
    ensures ProviderId(q, field) == ProviderId(p, field)
  {
    CleanFixed(Trim(p[field].text), 256);
  }

  lemma RfcMessageIdFixed(p: Payload, q: Payload, field: Field)
    requires RfcMessageId(p, field).Some? && field in q && q[field] == Text(RfcMessageId(p, field).value)
    ensures RfcMessageId(q, field) == RfcMessageId(p, field)
  {
    CleanFixed(Trim(p[field].text), 998);
  }

  lemma LowerFixed(a: string)
    ensures Lower(Lower(a)) == Lower(a)
    ensures IsAscii(a) ==> IsAscii(Lower(a))
    ensures PlainAddress(a) ==> PlainAddress(Lower(a))
  {
    var l := Lower(a);
    assert forall c :: LowerChar(LowerChar(c)) == LowerChar(c) && (SpaceChar(LowerChar(c)) <==> SpaceChar(c));
    assert forall c :: (LowerChar(c) == '@' <==> c == '@') && (LowerChar(c) == '.' <==> c == '.');
    if PlainAddress(a) {
      var k :| 0 < k < |a| - 1 && AtSign(a, k);
      assert AtSign(l, k);
    }
  }

  lemma PlainIsClean(a: string)
    requires PlainAddress(a) && '\0' !in a && |a| <= 320
    ensures Trim(a) == a && CleanText(a, 320) == Some(a)
  {
  }

  lemma LowerKeepsNul(a: string)
    ensures '\0' in Lower(a) <==> '\0' in a
  {
    assert forall c :: LowerChar(c) == '\0' <==> c == '\0';
    var l := Lower(a);
    if '\0' in a {
      var i :| 0 <= i < |a| && a[i] == '\0';
      assert l[i] == '\0';
    }
  }

  const MAX_ADDRESS := 320

  // A canonical address is canonical again exactly if folding did not lengthen it beyond the limit.
  lemma EmailFixed(lib: Library, value: string)
    requires lib.WellBehaved() && CanonicalEmail(lib, value).Some?
    ensures var email := CanonicalEmail(lib, value).value;
            && Trim(email) == email
            && CanonicalEmail(lib, email) == if |email| <= MAX_ADDRESS then Some(email) else None
  {
    var text := CleanText(value, MAX_ADDRESS).value;
    assert lib.SoundAddress(text);
    var email := lib.fold(text);
    assert lib.SoundAddress(email);
    assert Strip(email) == email && Trim(email) == email;
  }

  lemma EmailFieldFixed(lib: Library, p: Payload, q: Payload, field: Field)
    requires lib.WellBehaved() && EmailField(lib, p, field).Some?
    requires field in q && q[field] == Text(EmailField(lib, p, field).value)
    ensures EmailField(lib, q, field) == if |q[field].text| <= MAX_ADDRESS then EmailField(lib, p, field) else None
  {
    EmailFixed(lib, Trim(p[field].text));
  }

  // ---------- Sorting ----------

  predicate Ascending(s: seq<string>) {
    forall i, j :: 0 <= i < j < |s| ==> Less(s[i], s[j])
  }

  lemma {:induction false} LessIsTotal(a: string, b: string)
    ensures a == b || Less(a, b) || Less(b, a)
    ensures !(Less(a, b) && Less(b, a))
    ensures !Less(a, a)
  {
    if a != [] && b != [] && a[0] == b[0] {
      LessIsTotal(a[1..], b[1..]);
      assert a == [a[0]] + a[1..] && b == [b[0]] + b[1..];
    }
    if a != [] {
      LessIsTotal(a[1..], a[1..]);
    }
  }

  lemma {:induction false} LessIsTransitive(a: string, b: string, c: string)
    requires Less(a, b) && Less(b, c)
    ensures Less(a, c)
  {
    if a != [] && a[0] == b[0] == c[0] {
      LessIsTransitive(a[1..], b[1..], c[1..]);
    }
  }

  lemma {:induction false} InsertSorts(x: string, s: seq<string>)
    requires Ascending(s)
    ensures Ascending(Insert(x, s))
    ensures forall y :: y in Insert(x, s) <==> y == x || y in s
  {
    if s == [] || x == s[0] {
    } else if Less(x, s[0]) {
      forall j | 0 <= j < |s| ensures Less(x, s[j]) {
        if j > 0 {
          LessIsTransitive(x, s[0], s[j]);
        }
      }
    } else {
      LessIsTotal(x, s[0]);
      InsertSorts(x, s[1..]);
      var rest := Insert(x, s[1..]);
      assert forall y :: y in s <==> y == s[0] || y in s[1..];
      forall j | 0 <= j < |rest| ensures Less(s[0], rest[j]) {
        assert rest[j] in rest;
      }
    }
  }

  lemma {:induction false} SortedSetSorts(values: seq<string>)
    ensures Ascending(SortedSet(values))
    ensures forall y :: y in SortedSet(values) <==> y in values
  {
    if values != [] {
      SortedSetSorts(values[1..]);
      InsertSorts(values[0], SortedSet(values[1..]));
      assert forall y :: y in values <==> y == values[0] || y in values[1..];
    }
  }

  lemma {:induction false} SortedSetFixed(s: seq<string>)
    requires Ascending(s)
    ensures SortedSet(s) == s
  {
    if s != [] {
      SortedSetFixed(s[1..]);
      if |s| > 1 {
        LessIsTotal(s[0], s[1]);
      }
      assert s == [s[0]] + s[1..];
    }
  }

  // Canonicalizing each address of a list, one by one.
  lemma {:induction false} EmailsEach(lib: Library, values: seq<Json>)
    requires CanonicalEmails(lib, values).Some?
    ensures var emails := CanonicalEmails(lib, values).value;
            && |emails| == |values|
            && (forall i :: 0 <= i < |values| ==>
                  values[i].Text? && CanonicalEmail(lib, Trim(values[i].text)) == Some(emails[i]))
  {
    if values != [] {
      EmailsEach(lib, values[1..]);
    }
  }

  predicate AllShort(emails: seq<string>) {
    forall e <- emails :: |e| <= MAX_ADDRESS
  }

  lemma {:induction false} EmailsFixed(lib: Library, emails: seq<string>)
    requires forall e <- emails ::
               Trim(e) == e && CanonicalEmail(lib, e) == if |e| <= MAX_ADDRESS then Some(e) else None
    ensures CanonicalEmails(lib, Texts(emails)) == if AllShort(emails) then Some(emails) else None
  {
    hide CanonicalEmail, Trim;
    if emails != [] {
      EmailsFixed(lib, emails[1..]);
      assert Texts(emails)[1..] == Texts(emails[1..]);
      assert emails[0] in emails;
      assert emails == [emails[0]] + emails[1..];
    } else {
      assert Texts(emails) == [];
    }
  }

  // The stored list is ascending and free of duplicates, it holds the canonical form of every
  // supplied address and nothing else, and canonicalizing it again gives it back exactly if no
  // folded address is too long.
  lemma AttendeesFixed(lib: Library, p: Payload, q: Payload)
    requires lib.WellBehaved() && Attendees(lib, p).Some?
    requires AttendeeEmails in q && q[AttendeeEmails] == List(Texts(Attendees(lib, p).value))
    ensures Ascending(Attendees(lib, p).value)
    ensures Attendees(lib, q) == if AllShort(Attendees(lib, p).value) then Attendees(lib, p) else None
    ensures AttendeeEmails in p ==>
              var emails := CanonicalEmails(lib, p[AttendeeEmails].items).value;
              forall e :: e in Attendees(lib, p).value <==> e in emails
  {
    var stored := Attendees(lib, p).value;
    if AttendeeEmails in p {
      var items := p[AttendeeEmails].items;
      var emails := CanonicalEmails(lib, items).value;
      EmailsEach(lib, items);
      SortedSetSorts(emails);
      SortedSetFixed(stored);
      forall e <- stored
        ensures Trim(e) == e && CanonicalEmail(lib, e) == if |e| <= MAX_ADDRESS then Some(e) else None
      {
        assert e in emails;
        var i :| 0 <= i < |emails| && emails[i] == e;
        EmailFixed(lib, Trim(items[i].text));
      }
      EmailsFixed(lib, stored);
    } else {
      EmailsFixed(lib, stored);
    }
  }

  // ---------- Canonicalization is idempotent ----------

  // No folded address is longer than an address may be.
  predicate AddressesFit(q: Payload) {
    && (forall field <- {SenderEmail, RecipientEmail} :: field in q && q[field].Text? ==> |q[field].text| <= MAX_ADDRESS)
    && (AttendeeEmails in q && q[AttendeeEmails].List? ==>
          forall v <- q[AttendeeEmails].items :: v.Text? ==> |v.text| <= MAX_ADDRESS)
  }

  lemma SendEmailFixed(lib: Library, p: Payload)
    requires lib.WellBehaved() && CanonicalSendEmail(lib, p).Some?
    ensures var q := CanonicalSendEmail(lib, p).value;
            WellShaped(SendEmail, q) && CanonicalSendEmail(lib, q) == if AddressesFit(q) then Some(q) else None
  {
    hide Library.WellBehaved, EmailField, RequiredText;
    var q := CanonicalSendEmail(lib, p).value;
    EmailFieldFixed(lib, p, q, SenderEmail);
    EmailFieldFixed(lib, p, q, RecipientEmail);
    RequiredTextFixed(p, q, Subject, 998);
    RequiredTextFixed(p, q, EmailBody, MAX_TEXT);
    assert AddressesFit(q) <==> |q[SenderEmail].text| <= MAX_ADDRESS && |q[RecipientEmail].text| <= MAX_ADDRESS;
  }

  lemma SendReplyFixed(lib: Library, p: Payload)
    requires lib.WellBehaved() && CanonicalSendReply(lib, p).Some?
    ensures var q := CanonicalSendReply(lib, p).value;
            WellShaped(SendReply, q) && CanonicalSendReply(lib, q) == if AddressesFit(q) then Some(q) else None
  {
    hide Library.WellBehaved, EmailField, RequiredText, OptionalText, ProviderId, RfcMessageId;
    var q := CanonicalSendReply(lib, p).value;
    EmailFieldFixed(lib, p, q, SenderEmail);
    EmailFieldFixed(lib, p, q, RecipientEmail);
    ProviderIdFixed(p, q, OriginalMessageId);
    ProviderIdFixed(p, q, ThreadId);
    RfcMessageIdFixed(p, q, OriginalRfcMessageId);
    OptionalTextFixed(p, q, OriginalReferences, 4_000);
    RequiredTextFixed(p, q, OriginalSubject, 998);
    RequiredTextFixed(p, q, ReplyMessage, MAX_TEXT);
    assert AddressesFit(q) <==> |q[SenderEmail].text| <= MAX_ADDRESS && |q[RecipientEmail].text| <= MAX_ADDRESS;
  }

  lemma CreateEventFixed(lib: Library, p: Payload)
    requires lib.WellBehaved() && CanonicalCreateEvent(lib, p).Some?
    ensures var q := CanonicalCreateEvent(lib, p).value;
            WellShaped(CreateEvent, q) && CanonicalCreateEvent(lib, q) == if AddressesFit(q) then Some(q) else None
  {
    hide RequiredText, OptionalText, Attendees, AddressesFit;
    var q := CanonicalCreateEvent(lib, p).value;
    RequiredTextFixed(p, q, Title, 1_024);
    RequiredTextFixed(p, q, EventTimezone, 128);
    OptionalTextFixed(p, q, Description, MAX_TEXT);
    OptionalTextFixed(p, q, Location, 1_024);
    AttendeesFixed(lib, p, q);
    AttendeesFit(q, Attendees(lib, p).value);
  }

  lemma AttendeesFit(q: Payload, emails: seq<string>)
    requires SenderEmail !in q && RecipientEmail !in q && AttendeeEmails in q
    requires q[AttendeeEmails] == List(Texts(emails))
    ensures AddressesFit(q) <==> AllShort(emails)
  {
    var items := q[AttendeeEmails].items;
    if AddressesFit(q) {
      forall e <- emails ensures |e| <= MAX_ADDRESS {
        var i :| 0 <= i < |emails| && emails[i] == e;
        assert items[i] == Text(e) && items[i] in items;
      }
    }
  }

  lemma CreateTaskFixed(p: Payload)
    requires CanonicalCreateTask(p).Some?
    ensures var q := CanonicalCreateTask(p).value;
            WellShaped(CreateTask, q) && CanonicalCreateTask(q) == Some(q) && AddressesFit(q)
  {
    hide RequiredText;
    var q := CanonicalCreateTask(p).value;
    RequiredTextFixed(p, q, Title, 1_024);
    RequiredTextFixed(p, q, Notes, MAX_TEXT);
  }

  // The exact representation that is approved is the one that is executed: canonicalizing a
  // canonical payload gives it back, for all four action types, exactly if folding made no address
  // too long.
  lemma CanonicalizeIsIdempotentIff(lib: Library, kind: Kind, payload: Payload)
    requires lib.WellBehaved()
    ensures Canonicalize(lib, kind, payload).Some? ==>
              var q := Canonicalize(lib, kind, payload).value;
              Canonicalize(lib, kind, q) == if AddressesFit(q) then Some(q) else None
  {
    hide Library.WellBehaved, WellShaped, AddressesFit, CanonicalSendEmail, CanonicalSendReply, CanonicalCreateEvent,
         CanonicalCreateTask;
    if Canonicalize(lib, kind, payload).Some? {
      match kind
      case SendEmail => SendEmailFixed(lib, payload);
      case SendReply => SendReplyFixed(lib, payload);
      case CreateEvent => CreateEventFixed(lib, payload);
      case CreateTask => CreateTaskFixed(payload);
    }
  }

  // ASCII addresses always fit: folding them keeps their length.
  lemma AsciiAddressesFit(lib: Library, value: string)
    requires lib.WellBehaved() && CanonicalEmail(lib, value).Some? && IsAscii(Strip(value))
    ensures |CanonicalEmail(lib, value).value| <= MAX_ADDRESS
  {
  }

  // ---------- An address that folding makes too long ----------

  // 200 sharp s, which fold to 400 letters.
  const SHARP := Repeat(223 as char, 200) + "@b"
  const FOLDED := Repeat('s', 400) + "@b"

  function SharpFold(s: string): string {
    if IsAscii(s) then Lower(s) else if s == SHARP then FOLDED else s
  }

  lemma SharpAddresses()
    ensures !IsAscii(SHARP) && |SHARP| == 202 && PlainAddress(SHARP) && '\0' !in SHARP
    ensures IsAscii(FOLDED) && |FOLDED| == 402 && PlainAddress(FOLDED) && '\0' !in FOLDED && Lower(FOLDED) == FOLDED
  {
    assert SHARP[0] == 223 as char;
    assert AtSign(SHARP, 200) && AtSign(FOLDED, 400);
  }

  lemma SharpLibrary(lib: Library)
    requires lib.WellBehaved()
    ensures lib.(parseAddress := s => s, fold := SharpFold).WellBehaved()
  {
    SharpAddresses();
    var sharp := lib.(parseAddress := s => s, fold := SharpFold);
    forall s: string
      ensures SharpFold(SharpFold(s)) == SharpFold(s) && (sharp.SoundAddress(s) ==> sharp.SoundAddress(SharpFold(s)))
    {
      LowerFixed(s);
      LowerKeepsNul(s);
    }
  }

  lemma ShortText(t: string)
    requires t == "x"
    ensures CleanText(Trim(t), 998) == Some(t) && CleanText(Trim(t), MAX_TEXT) == Some(t) && Trim(t) == t
  {
  }

  lemma SharpIsAccepted(lib: Library)
    requires lib.parseAddress(SHARP) == SHARP && lib.fold(SHARP) == FOLDED
    ensures CanonicalEmail(lib, Trim(SHARP)) == Some(FOLDED)
  {
    SharpAddresses();
    assert Trim(SHARP) == SHARP && Strip(SHARP) == SHARP;
  }

  const SHARP_MAIL: Payload := Header(SendEmail)[SenderEmail := Text(SHARP)][RecipientEmail := Text(SHARP)]
                               [Subject := Text("x")][EmailBody := Text("x")]

  lemma SharpMailIsAccepted(lib: Library)
    requires lib.parseAddress(SHARP) == SHARP && lib.fold(SHARP) == FOLDED
    ensures Canonicalize(lib, SendEmail, SHARP_MAIL).Some?
    ensures !AddressesFit(Canonicalize(lib, SendEmail, SHARP_MAIL).value)
  {
    SharpAddresses();
    SharpIsAccepted(lib);
    ShortText("x");
    var p := SHARP_MAIL;
    assert FOLDED == Repeat('s', 400) + "@b" && |FOLDED| == 402;
    hide CanonicalEmail, Trim, CleanText, SharpFold, PlainAddress, IsAscii, Repeat;
    assert EmailField(lib, p, SenderEmail) == Some(FOLDED) && EmailField(lib, p, RecipientEmail) == Some(FOLDED);
    assert RequiredText(p, Subject, 998) == Some("x") && RequiredText(p, EmailBody, MAX_TEXT) == Some("x");
    assert Canonicalize(lib, SendEmail, p).value[SenderEmail] == Text(FOLDED);
  }

  // The condition is not empty: a staged mail to such an address fails the check at its approval.
  lemma FoldingCanBreakIt()
    ensures exists lib: Library, payload: Payload ::
              && lib.WellBehaved() && Canonicalize(lib, SendEmail, payload).Some?
              && Canonicalize(lib, SendEmail, Canonicalize(lib, SendEmail, payload).value).None?
  {
    WellBehavedLibraryExists();
    var lib0: Library :| lib0.WellBehaved();
    SharpLibrary(lib0);
    SharpAddresses();
    hide Library.WellBehaved, Canonicalize, AddressesFit;
    var lib := lib0.(parseAddress := s => s, fold := SharpFold);
    SharpMailIsAccepted(lib);
    CanonicalizeIsIdempotentIff(lib, SendEmail, SHARP_MAIL);
  }
}
