// Opaque page tokens (server/pagination.py): JSON in unpadded base64url.

module PageTokens {
  import opened Base64Url
  import opened Common
  import opened PythonText

  // ---------- Tokens ----------

  // The position after a row: its creation time and ID, ordered lexicographically.
  datatype Key = Key(createdAt: Time, id: nat)

  // An instant as datetime.fromisoformat returns it.
  datatype Stamp = Stamp(instant: Time, aware: bool)

  // The members "c" and "i" of a decoded JSON object, where they are strings.
  datatype Fields = Fields(c: Option<string>, i: Option<string>)

  datatype Library = Library(
    isoFormat: Time -> string,
    fromIso: string -> Option<Stamp>,
    printId: nat -> string,
    parseId: string -> Option<nat>,
    loads: seq<Byte> -> Option<Fields>)
  {
    // Printing and parsing agree, and JSON objects of two plain strings are read back.
    ghost predicate WellBehaved() {
      && (forall t: Time :: Plain(isoFormat(t)) && fromIso(isoFormat(t)) == Some(Stamp(t, true)))
      && (forall id: nat :: Plain(printId(id)) && parseId(printId(id)) == Some(id))
      && (forall c: string,
          i: string :: Plain(c) && Plain(i) ==> loads(Bytes(Dumps(c, i))) == Some(Fields(Some(c), Some(i))))
    }
  }

  // Printable ASCII that JSON does not escape.
  predicate Plain(s: string) {
    forall i :: 0 <= i < |s| ==> ' ' <= s[i] < 127 as char && s[i] != '"' && s[i] != '\\'
  }

  // json.dumps({"c": c, "i": i}, separators=(",", ":")) of plain strings
  function Dumps(c: string, i: string): string {
    "{\"c\":\"" + c + "\",\"i\":\"" + i + "\"}"
  }

  function Bytes(s: string): seq<Byte> {
    seq(|s|, i requires 0 <= i < |s| => s[i] as int % 256)
  }

  function EncodePageToken(lib: Library, key: Key): string {
    Encode64(Bytes(Dumps(lib.isoFormat(key.createdAt), lib.printId(key.id))))
  }

  // None stands for InvalidPageToken.
  function DecodePageToken(lib: Library, token: string): Option<Key> {
    var data := Decode(false, token);
    if data.None? then None
    else
      var fields := lib.loads(data.value);
      if fields.None? || fields.value.c.None? || fields.value.i.None? then None
      else
        var stamp, id := lib.fromIso(fields.value.c.value), lib.parseId(fields.value.i.value);
        if stamp.None? || id.None? || !stamp.value.aware then None
        else Some(Key(stamp.value.instant, id.value))
  }

  lemma TokensRoundTrip(lib: Library, key: Key)
    requires lib.WellBehaved()
    ensures DecodePageToken(lib, EncodePageToken(lib, key)) == Some(key)
    ensures '=' !in EncodePageToken(lib, key)
  {
    var data := Bytes(Dumps(lib.isoFormat(key.createdAt), lib.printId(key.id)));
    RoundTrip(false, data);
  }

  // The members that a token holds, where it is base64url of a JSON object.
  ghost predicate Names(lib: Library, token: string, c: string, i: string) {
    exists data :: Decode(false, token) == Some(data) && lib.loads(data) == Some(Fields(Some(c), Some(i)))
  }

  // A token is accepted exactly if it names an instant with a time zone and an ID, and stands for them.
  lemma AcceptedTokens(lib: Library, token: string, key: Key)
    ensures DecodePageToken(lib, token) == Some(key) <==>
            exists c, i :: Names(lib, token, c, i)
                           && lib.fromIso(c) == Some(Stamp(key.createdAt, true)) && lib.parseId(i) == Some(key.id)
  {
    hide Decode;
    var data := Decode(false, token);
    if data.Some? {
      var fields := lib.loads(data.value);
      if fields.Some? && fields.value.c.Some? && fields.value.i.Some? {
        assert Names(lib, token, fields.value.c.value, fields.value.i.value);
      }
    }
  }

  // ---------- The library's contract can be met ----------

  const HEAD := "{\"c\":\""
  const MIDDLE := "\",\"i\":\""

  lemma DumpsIsInjective(c: string, i: string, c': string, i': string)
    requires Plain(c) && Plain(i) && Plain(c') && Plain(i')
    ensures Bytes(Dumps(c, i)) == Bytes(Dumps(c', i')) ==> c == c' && i == i'
  {
    var s, s' := Dumps(c, i), Dumps(c', i');
    assert s == HEAD + c + MIDDLE + i + "\"}" && s' == HEAD + c' + MIDDLE + i' + "\"}";
    if Bytes(s) == Bytes(s') {
      PlainBytes(c, i);
      PlainBytes(c', i');
      assert forall k :: 0 <= k < |s| ==> Bytes(s)[k] == Bytes(s')[k];
      assert s == s';
      QuoteEndsField(c, i, c', i');
      QuoteEndsField(c', i', c, i);
      assert c == s[|HEAD|..|HEAD| + |c|] && c' == s'[|HEAD|..|HEAD| + |c'|];
      assert i == s[|HEAD| + |c| + |MIDDLE|..|s| - 2] && i' == s'[|HEAD| + |c'| + |MIDDLE|..|s'| - 2];
    }
  }

  lemma QuoteEndsField(c: string, i: string, c': string, i': string)
    requires Plain(c')
    ensures |c| < |c'| ==> Dumps(c, i) != Dumps(c', i')
  {
    var s, s' := Dumps(c, i), Dumps(c', i');
    assert s == HEAD + c + MIDDLE + i + "\"}" && s' == HEAD + c' + MIDDLE + i' + "\"}";
    if |c| < |c'| {
      assert s[|HEAD| + |c|] == '"' && s'[|HEAD| + |c|] == c'[|c|];
    }
  }

  lemma PlainBytes(c: string, i: string)
    requires Plain(c) && Plain(i)
    ensures var s := Dumps(c, i);
            |Bytes(s)| == |s| && forall k :: 0 <= k < |s| ==> Bytes(s)[k] == s[k] as int && s[k] < 128 as char
  {
    var s := Dumps(c, i);
    forall k | 0 <= k < |s| ensures s[k] < 128 as char {
      if |HEAD| <= k < |HEAD| + |c| {
        assert s[k] == c[k - |HEAD|];
      } else if |HEAD| + |c| + |MIDDLE| <= k < |s| - 2 {
        assert s[k] == i[k - (|HEAD| + |c| + |MIDDLE|)];
      }
    }
  }

  lemma WellBehavedLibraryExists()
    ensures exists lib: Library :: lib.WellBehaved()
  {
    var show := (t: Time) => Unary(t, 0);
    var read := (s: string) =>
      if exists t: Time :: s == Unary(t, 0) then var t: Time :| s == Unary(t, 0); Some(Stamp(t, true)) else None;
    var name := (n: nat) => Unary(n, 0);
    var parse := (s: string) =>
      if exists n: nat :: s == Unary(n, 0) then var n: nat :| s == Unary(n, 0); Some(n) else None;
    var loads := (b: seq<Byte>) =>
      if exists c: string, i: string :: Plain(c) && Plain(i) && b == Bytes(Dumps(c, i))
      then var c: string, i: string :| Plain(c) && Plain(i) && b == Bytes(Dumps(c, i)); Some(Fields(Some(c), Some(i)))
      else None;
    var lib := Library(show, read, name, parse, loads);
    forall t: Time ensures Plain(show(t)) && read(show(t)) == Some(Stamp(t, true)) {
      UnaryIsInjective(t, 0, read(show(t)).value.instant, 0);
    }
    forall n: nat ensures Plain(name(n)) && parse(name(n)) == Some(n) {
      UnaryIsInjective(n, 0, parse(name(n)).value, 0);
    }
    forall c: string, i: string | Plain(c) && Plain(i)
      ensures loads(Bytes(Dumps(c, i))) == Some(Fields(Some(c), Some(i)))
    {
      var f := loads(Bytes(Dumps(c, i))).value;
      DumpsIsInjective(c, i, f.c.value, f.i.value);
    }
    assert lib.WellBehaved();
  }
}
