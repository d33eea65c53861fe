// What a canonical payload says, field by field, for all four action types: a table of the fields'
// rules instead of the code that applies them (server/action_payloads.py:58-199).

module ActionFields {
  import opened Common
  import opened PythonText
  import opened ActionPayloads

  // ---------- The table ----------

  datatype Rule =
    | TypeName | Version | Address | Required(limit: nat) | Optional(limit: nat) | Identifier | MessageId | Instant
    | Zone | Guests

  function RuleOf(field: Field): Rule {
    match field
    case ActionType => TypeName
    case SchemaVersion => Version
    case SenderEmail => Address
    case RecipientEmail => Address
    case Subject => Required(998)
    case EmailBody => Required(20_000)
    case OriginalMessageId => Identifier
    case ThreadId => Identifier
    case OriginalRfcMessageId => MessageId
    case OriginalReferences => Optional(4_000)
    case OriginalSubject => Required(998)
    case ReplyMessage => Required(20_000)
    case Title => Required(1_024)
    case StartTimeIso => Instant
    case EndTimeIso => Instant
    case EventTimezone => Zone
    case Description => Optional(20_000)
    case Location => Optional(1_024)
    case AttendeeEmails => Guests
    case Notes => Required(20_000)
    case Other(_) => Optional(0)
  }

  // The action types that have the field.
  predicate Belongs(kind: Kind, field: Field) {
    match field
    case ActionType => true
    case SchemaVersion => true
    case SenderEmail => kind.SendEmail? || kind.SendReply?
    case RecipientEmail => kind.SendEmail? || kind.SendReply?
    case Subject => kind.SendEmail?
    case EmailBody => kind.SendEmail?
    case OriginalMessageId => kind.SendReply?
    case ThreadId => kind.SendReply?
    case OriginalRfcMessageId => kind.SendReply?
    case OriginalReferences => kind.SendReply?
    case OriginalSubject => kind.SendReply?
    case ReplyMessage => kind.SendReply?
    case Title => kind.CreateEvent? || kind.CreateTask?
    case StartTimeIso => kind.CreateEvent?
    case EndTimeIso => kind.CreateEvent?
    case EventTimezone => kind.CreateEvent?
    case Description => kind.CreateEvent?
    case Location => kind.CreateEvent?
    case AttendeeEmails => kind.CreateEvent?
    case Notes => kind.CreateTask?
    case Other(_) => false
  }

  // Unknown fields are refused, and a supplied action type or version must agree.
  predicate Shaped(kind: Kind, p: Payload) {
    && (forall field <- p :: Belongs(kind, field))
    && (ActionType in p ==> p[ActionType] == Text(KindName(kind)))
    && (SchemaVersion in p ==> p[SchemaVersion] == Number(1))
  }

  lemma AllowedBelong(kind: Kind)
    ensures forall field :: field in Allowed(kind) <==> Belongs(kind, field)
  {
  }

  // A text without the white space at its ends.
  function Cleaned(v: Json): string {
    if v.Text? then Strip(Trim(v.text)) else ""
  }

  predicate CleanUpTo(v: Json, limit: nat) {
    v.Text? && 0 < |Cleaned(v)| <= limit && '\0' !in Cleaned(v)
  }

  predicate GoodAddress(lib: Library, v: Json) {
    CleanUpTo(v, 320) && lib.parseAddress(Cleaned(v)) == Cleaned(v) && PlainAddress(Cleaned(v))
  }

  predicate GoodGuests(lib: Library, v: Json) {
    && v.List? && |v.items| <= 100 && (forall i :: 0 <= i < |v.items| ==> GoodAddress(lib, v.items[i]))
    && (forall i, j :: 0 <= i < j < |v.items| ==> lib.fold(Cleaned(v.items[i])) != lib.fold(Cleaned(v.items[j])))
  }

  // What the field may hold; an optional one may be absent.
  predicate Fits(lib: Library, rule: Rule, v: Json) {
    match rule
    case TypeName => true
    case Version => true
    case Address => GoodAddress(lib, v)
    case Required(limit) => CleanUpTo(v, limit) && |Trim(v.text)| <= limit
    case Optional(limit) => v.Text? && |Trim(v.text)| <= limit && '\0' !in Trim(v.text)
    case Identifier => CleanUpTo(v, 256) && forall i :: 0 <= i < |Cleaned(v)| ==> IdChar(Cleaned(v)[i])
    case MessageId =>
      && CleanUpTo(v, 998) && Cleaned(v)[0] == '<' && Cleaned(v)[|Cleaned(v)| - 1] == '>'
      && forall i :: 0 <= i < |Cleaned(v)| ==> !SpaceChar(Cleaned(v)[i])
    case Instant => lib.parseMoment(v).Some? && lib.parseMoment(v).value.offset.Some?
    case Zone => CleanUpTo(v, 128) && |Trim(v.text)| <= 128 && lib.isTimezone(Cleaned(v))
    case Guests => GoodGuests(lib, v)
  }

  predicate Accepted(lib: Library, p: Payload, field: Field) {
    if field in p then Fits(lib, RuleOf(field), p[field])
    else RuleOf(field).Optional? || RuleOf(field).Guests? || RuleOf(field).TypeName? || RuleOf(field).Version?
  }

  // The stored guests are those supplied, each once, in ascending order.
  ghost predicate SameGuests(lib: Library, stored: Json, supplied: seq<Json>) {
    && stored.List? && (forall i :: 0 <= i < |stored.items| ==> stored.items[i].Text?)
    && (forall i, j :: 0 <= i < j < |stored.items| ==> Less(stored.items[i].text, stored.items[j].text))
    && (forall e: string :: Text(e) in stored.items <==> exists v <- supplied :: e == lib.fold(Cleaned(v)))
  }

  // What is stored for the field of the payload.
  ghost predicate Stored(lib: Library, kind: Kind, p: Payload, field: Field, stored: Json) {
    match RuleOf(field)
    case TypeName => stored == Text(KindName(kind))
    case Version => stored == Number(1)
    case Address => field in p && stored == Text(lib.fold(Cleaned(p[field])))
    case Optional(_) => stored == Text(if field in p then Cleaned(p[field]) else "")
    case Instant => field in p && stored.Text? && lib.parseMoment(stored) == lib.parseMoment(p[field])
    case Guests =>
      SameGuests(lib, stored, if AttendeeEmails in p && p[AttendeeEmails].List? then p[AttendeeEmails].items else [])
    case _ => field in p && stored == Text(Cleaned(p[field]))
  }

  predicate EndsAfterStart(lib: Library, p: Payload) {
    && StartTimeIso in p && EndTimeIso in p
    && lib.parseMoment(p[StartTimeIso]).Some? && lib.parseMoment(p[EndTimeIso]).Some?
    && lib.parseMoment(p[StartTimeIso]).value.utc < lib.parseMoment(p[EndTimeIso]).value.utc
  }

  // ---------- One field ----------

  lemma ServerFields(lib: Library, kind: Kind, p: Payload)
    ensures Accepted(lib, p, ActionType) && Accepted(lib, p, SchemaVersion)
    ensures Stored(lib, kind, p, ActionType, Header(kind)[ActionType])
    ensures Stored(lib, kind, p, SchemaVersion, Header(kind)[SchemaVersion])
    ensures Header(kind).Keys == {ActionType, SchemaVersion}
  {
  }

  lemma RequiredIs(lib: Library, kind: Kind, p: Payload, field: Field, limit: nat)
    requires RuleOf(field) == Required(limit)
    ensures var r := RequiredText(p, field, limit);
            && (r.Some? <==> Accepted(lib, p, field))
            && (r.Some? ==> Stored(lib, kind, p, field, Text(r.value)))
  {
  }

  lemma OptionalIs(lib: Library, kind: Kind, p: Payload, field: Field, limit: nat)
    requires RuleOf(field) == Optional(limit)
    ensures var r := OptionalText(p, field, limit);
            && (r.Some? <==> Accepted(lib, p, field))
            && (r.Some? ==> Stored(lib, kind, p, field, Text(r.value)))
  {
  }

  lemma AddressIs(lib: Library, v: Json)
    requires v.Text?
    ensures CanonicalEmail(lib, Trim(v.text)).Some? <==> GoodAddress(lib, v)
    ensures GoodAddress(lib, v) ==> CanonicalEmail(lib, Trim(v.text)) == Some(lib.fold(Cleaned(v)))
  {
  }

  lemma AddressFieldIs(lib: Library, kind: Kind, p: Payload, field: Field)
    requires RuleOf(field).Address?
    ensures var r := EmailField(lib, p, field);
            && (r.Some? <==> Accepted(lib, p, field))
            && (r.Some? ==> Stored(lib, kind, p, field, Text(r.value)))
  {
    if field in p && p[field].Text? {
      AddressIs(lib, p[field]);
    }
  }

  lemma IdentifierIs(lib: Library, kind: Kind, p: Payload, field: Field)
    requires RuleOf(field).Identifier?
    ensures var r := ProviderId(p, field);
            && (r.Some? <==> Accepted(lib, p, field))
            && (r.Some? ==> Stored(lib, kind, p, field, Text(r.value)))
  {
  }

  lemma MessageIdIs(lib: Library, kind: Kind, p: Payload, field: Field)
    requires RuleOf(field).MessageId?
    ensures var r := RfcMessageId(p, field);
            && (r.Some? <==> Accepted(lib, p, field))
            && (r.Some? ==> Stored(lib, kind, p, field, Text(r.value)))
  {
  }

  lemma ZoneIs(lib: Library, kind: Kind, p: Payload)
    ensures var r := Timezone(lib, p);
            && (r.Some? <==> Accepted(lib, p, EventTimezone))
            && (r.Some? ==> Stored(lib, kind, p, EventTimezone, Text(r.value)))
  {
  }

  lemma InstantIs(lib: Library, kind: Kind, p: Payload, field: Field)
    requires lib.WellBehaved() && RuleOf(field).Instant?
    ensures var r := MomentField(lib, p, field);
            && (r.Some? && r.value.offset.Some? <==> Accepted(lib, p, field))
            && (Accepted(lib, p, field) ==> Stored(lib, kind, p, field, Text(lib.printMoment(r.value))))
  {
  }

  // ---------- Guests ----------

  lemma {:induction false} InsertCounts(x: string, s: seq<string>)
    requires Ascending(s)
    ensures |Insert(x, s)| == |s| + if x in s then 0 else 1
  {
    if s == [] || x == s[0] {
    } else if Less(x, s[0]) {
      if x in s {
        var j :| 0 <= j < |s| && s[j] == x;
        LessIsTotal(x, s[0]);
      }
    } else {
      InsertCounts(x, s[1..]);
      assert x in s <==> x in s[1..];
    }
  }

  predicate Distinct(s: seq<string>) {
    forall i, j :: 0 <= i < j < |s| ==> s[i] != s[j]
  }

  lemma {:induction false} SortedSetCounts(values: seq<string>)
    ensures |SortedSet(values)| <= |values|
    ensures |SortedSet(values)| == |values| <==> Distinct(values)
  {
    if values != [] {
      var rest := values[1..];
      SortedSetCounts(rest);
      SortedSetSorts(rest);
      InsertCounts(values[0], SortedSet(rest));
      assert values == [values[0]] + rest;
      if Distinct(values) {
        assert forall i, j :: 0 <= i < j < |rest| ==> rest[i] == values[i + 1] && rest[j] == values[j + 1];
      }
      if Distinct(rest) && values[0] !in rest {
        forall i, j | 0 <= i < j < |values| ensures values[i] != values[j] {
          assert values[j] == rest[j - 1] && (i > 0 ==> values[i] == rest[i - 1]);
        }
      }
    }
  }

  lemma {:induction false} EmailsExist(lib: Library, values: seq<Json>)
    ensures CanonicalEmails(lib, values).Some? <==> forall i :: 0 <= i < |values| ==> GoodAddress(lib, values[i])
    ensures CanonicalEmails(lib, values).Some? ==>
              && |CanonicalEmails(lib, values).value| == |values|
              && forall i :: 0 <= i < |values| ==> CanonicalEmails(lib, values).value[i] == lib.fold(Cleaned(values[i]))
  {
    hide GoodAddress, CanonicalEmail, Cleaned;
    if values != [] {
      var rest := values[1..];
      EmailsExist(lib, rest);
      assert values == [values[0]] + rest;
      if values[0].Text? {
        AddressIs(lib, values[0]);
      } else {
        NoAddress(lib, values[0]);
      }
    }
  }

  lemma NoAddress(lib: Library, v: Json)
    requires !v.Text?
    ensures !GoodAddress(lib, v)
  {
  }

  lemma GuestsAre(lib: Library, kind: Kind, p: Payload)
    ensures var r := Attendees(lib, p);
            && (r.Some? <==> Accepted(lib, p, AttendeeEmails))
            && (r.Some? ==> Stored(lib, kind, p, AttendeeEmails, List(Texts(r.value))))
  {
    hide GoodAddress, Cleaned, CanonicalEmails, SortedSet;
    if AttendeeEmails in p && p[AttendeeEmails].List? {
      var items := p[AttendeeEmails].items;
      EmailsExist(lib, items);
      if CanonicalEmails(lib, items).Some? {
        var emails := CanonicalEmails(lib, items).value;
        SortedSetCounts(emails);
        SortedSetSorts(emails);
        ListedGuests(lib, items, emails, SortedSet(emails));
      }
    } else if AttendeeEmails !in p {
      assert Texts([]) == [];
    }
  }

  lemma ListedGuests(lib: Library, items: seq<Json>, emails: seq<string>, sorted: seq<string>)
    requires |emails| == |items| && forall i :: 0 <= i < |items| ==> emails[i] == lib.fold(Cleaned(items[i]))
    requires Ascending(sorted) && forall e :: e in sorted <==> e in emails
    ensures SameGuests(lib, List(Texts(sorted)), items)
  {
    hide Cleaned, Less;
    var texts := Texts(sorted);
    forall e: string ensures Text(e) in texts <==> exists v <- items :: e == lib.fold(Cleaned(v)) {
      if Text(e) in texts {
        var i :| 0 <= i < |texts| && texts[i] == Text(e);
        assert e in emails;
        var k :| 0 <= k < |emails| && emails[k] == e;
        assert items[k] in items;
      }
      if v :| v in items && e == lib.fold(Cleaned(v)) {
        var k :| 0 <= k < |items| && items[k] == v;
        assert emails[k] in emails;
        var i :| 0 <= i < |sorted| && sorted[i] == e;
        assert texts[i] == Text(e);
      }
    }
  }

  // ---------- The four payload models ----------

  ghost predicate AllAccepted(lib: Library, kind: Kind, p: Payload) {
    && (forall field: Field :: Belongs(kind, field) ==> Accepted(lib, p, field))
    && (kind.CreateEvent? ==> EndsAfterStart(lib, p))
  }

  ghost predicate AllStored(lib: Library, kind: Kind, p: Payload, q: Payload) {
    && (forall field: Field :: field in q <==> Belongs(kind, field))
    && (forall field <- q :: Stored(lib, kind, p, field, q[field]))
  }

  lemma MailFields(lib: Library, p: Payload)
    ensures CanonicalSendEmail(lib, p).Some? <==> AllAccepted(lib, SendEmail, p)
    ensures CanonicalSendEmail(lib, p).Some? ==> AllStored(lib, SendEmail, p, CanonicalSendEmail(lib, p).value)
  {
    hide EmailField, RequiredText, Accepted, Stored, RuleOf, Header, Belongs;
    AllowedBelong(SendEmail);
    ServerFields(lib, SendEmail, p);
    MailRules();
    AddressFieldIs(lib, SendEmail, p, SenderEmail);
    AddressFieldIs(lib, SendEmail, p, RecipientEmail);
    RequiredIs(lib, SendEmail, p, Subject, 998);
    RequiredIs(lib, SendEmail, p, EmailBody, MAX_TEXT);
  }

  lemma MailRules()
    ensures RuleOf(SenderEmail).Address? && RuleOf(RecipientEmail).Address?
    ensures RuleOf(Subject) == Required(998) && RuleOf(EmailBody) == Required(MAX_TEXT)
  {
  }

  lemma ReplyFields(lib: Library, p: Payload)
    ensures CanonicalSendReply(lib, p).Some? <==> AllAccepted(lib, SendReply, p)
    ensures CanonicalSendReply(lib, p).Some? ==> AllStored(lib, SendReply, p, CanonicalSendReply(lib, p).value)
  {
    hide EmailField, RequiredText, OptionalText, ProviderId, RfcMessageId, Accepted, Stored, RuleOf, Header, Belongs;
    AllowedBelong(SendReply);
    ServerFields(lib, SendReply, p);
    MailRules();
    ReplyRules();
    AddressFieldIs(lib, SendReply, p, SenderEmail);
    AddressFieldIs(lib, SendReply, p, RecipientEmail);
    IdentifierIs(lib, SendReply, p, OriginalMessageId);
    IdentifierIs(lib, SendReply, p, ThreadId);
    MessageIdIs(lib, SendReply, p, OriginalRfcMessageId);
    OptionalIs(lib, SendReply, p, OriginalReferences, 4_000);
    RequiredIs(lib, SendReply, p, OriginalSubject, 998);
    RequiredIs(lib, SendReply, p, ReplyMessage, MAX_TEXT);
  }

  lemma ReplyRules()
    ensures RuleOf(OriginalMessageId).Identifier? && RuleOf(ThreadId).Identifier?
    ensures RuleOf(OriginalRfcMessageId).MessageId? && RuleOf(OriginalReferences) == Optional(4_000)
    ensures RuleOf(OriginalSubject) == Required(998) && RuleOf(ReplyMessage) == Required(MAX_TEXT)
  {
  }

  lemma EventFields(lib: Library, p: Payload)
    requires lib.WellBehaved()
    ensures CanonicalCreateEvent(lib, p).Some? <==> AllAccepted(lib, CreateEvent, p)
    ensures CanonicalCreateEvent(lib, p).Some? ==> AllStored(lib, CreateEvent, p, CanonicalCreateEvent(lib, p).value)
  {
    hide RequiredText, OptionalText, Timezone, Attendees, Accepted, Stored, RuleOf, Header, Belongs, Library.WellBehaved;
    AllowedBelong(CreateEvent);
    ServerFields(lib, CreateEvent, p);
    EventRules();
    RequiredIs(lib, CreateEvent, p, Title, 1_024);
    InstantIs(lib, CreateEvent, p, StartTimeIso);
    InstantIs(lib, CreateEvent, p, EndTimeIso);
    ZoneIs(lib, CreateEvent, p);
    OptionalIs(lib, CreateEvent, p, Description, MAX_TEXT);
    OptionalIs(lib, CreateEvent, p, Location, 1_024);
    GuestsAre(lib, CreateEvent, p);
  }

  lemma EventRules()
    ensures RuleOf(Title) == Required(1_024) && RuleOf(StartTimeIso).Instant? && RuleOf(EndTimeIso).Instant?
    ensures RuleOf(Description) == Optional(MAX_TEXT) && RuleOf(Location) == Optional(1_024)
  {
  }

  lemma TaskFields(lib: Library, p: Payload)
    ensures CanonicalCreateTask(p).Some? <==> AllAccepted(lib, CreateTask, p)
    ensures CanonicalCreateTask(p).Some? ==> AllStored(lib, CreateTask, p, CanonicalCreateTask(p).value)
  {
    hide RequiredText, Accepted, Stored, RuleOf, Header, Belongs;
    AllowedBelong(CreateTask);
    ServerFields(lib, CreateTask, p);
    TaskRules();
    RequiredIs(lib, CreateTask, p, Title, 1_024);
    RequiredIs(lib, CreateTask, p, Notes, MAX_TEXT);
  }

  lemma TaskRules()
    ensures RuleOf(Title) == Required(1_024) && RuleOf(Notes) == Required(MAX_TEXT)
  {
  }

  // Main result.  A payload is accepted exactly if it has the shape of its type, every field keeps the
  // rule of the table and an event ends after it starts; and then every field of the type is stored,
  // no other, each as the table says, from the field of the same name.
  lemma CanonicalFields(lib: Library, kind: Kind, p: Payload)
    requires lib.WellBehaved()
    ensures Canonicalize(lib, kind, p).Some? <==> Shaped(kind, p) && AllAccepted(lib, kind, p)
    ensures Canonicalize(lib, kind, p).Some? ==> AllStored(lib, kind, p, Canonicalize(lib, kind, p).value)
  {
    AllowedBelong(kind);
    assert WellShaped(kind, p) <==> Shaped(kind, p);
    hide Library.WellBehaved, AllAccepted, AllStored, WellShaped, Shaped, CanonicalSendEmail, CanonicalSendReply,
         CanonicalCreateEvent, CanonicalCreateTask;
    match kind
    case SendEmail => MailFields(lib, p);
    case SendReply => ReplyFields(lib, p);
    case CreateEvent => EventFields(lib, p);
    case CreateTask => TaskFields(lib, p);
  }
}
