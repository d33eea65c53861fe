// Unpadded base64url, section 5 of RFC 4648, as the repository writes and reads it
// (server/pagination.py:18, :23-24, server/mail/mime.py:160-176).

module Base64Url {
  import opened Common

  type Byte = n: int | 0 <= n < 256

  function Symbol(v: int): char
    requires 0 <= v < 64
  {
    if v < 26 then ('A' as int + v) as char
    else if v < 52 then ('a' as int + v - 26) as char
    else if v < 62 then ('0' as int + v - 52) as char
    else if v == 62 then '-'
    else '_'
  }

  // The decoder maps `-` and `_` to `+` and `/` first, so it accepts both alphabets.
  function Sextet(c: char): Option<int> {
    if 'A' <= c <= 'Z' then Some(c as int - 'A' as int)
    else if 'a' <= c <= 'z' then Some(c as int - 'a' as int + 26)
    else if '0' <= c <= '9' then Some(c as int - '0' as int + 52)
    else if c == '-' || c == '+' then Some(62)
    else if c == '_' || c == '/' then Some(63)
    else None
  }

  // urlsafe_b64encode without its trailing padding.
  function Encode64(data: seq<Byte>): string {
    if data == [] then ""
    else if |data| == 1 then [Symbol(data[0] / 4), Symbol(data[0] % 4 * 16)]
    else if |data| == 2 then
      [Symbol(data[0] / 4), Symbol(data[0] % 4 * 16 + data[1] / 16), Symbol(data[1] % 16 * 4)]
    else
      [Symbol(data[0] / 4), Symbol(data[0] % 4 * 16 + data[1] / 16),
       Symbol(data[1] % 16 * 4 + data[2] / 64), Symbol(data[2] % 64)]
      + Encode64(data[3..])
  }

  // The library decoder.  `quad` counts the sextets of the current group, `left` holds the bits not
  // yet written.  Unless it is strict, it skips characters outside the alphabet and stops at
  // complete padding, whatever follows.
  function Decode64(strict: bool, s: string, quad: nat, left: int, pads: nat, started: bool,
                    out: seq<Byte>): Option<seq<Byte>>
    requires Group(quad, left)
  {
    if s == "" then if quad == 0 then Some(out) else None
    else if s[0] == '=' then
      if strict && quad == 0 then None
      else if quad >= 2 && quad + pads + 1 >= 4 then if strict && |s| > 1 then None else Some(out)
      else Decode64(strict, s[1..], quad, left, if quad >= 2 then pads + 1 else pads, true, out)
    else
      match Sextet(s[0])
      case None => if strict then None else Decode64(strict, s[1..], quad, left, pads, started, out)
      case Some(v) =>
        if strict && started then None
        else if quad == 0 then Decode64(strict, s[1..], 1, v, 0, started, out)
        else if quad == 1 then Decode64(strict, s[1..], 2, v % 16, 0, started, out + [left * 4 + v / 16])
        else if quad == 2 then Decode64(strict, s[1..], 3, v % 4, 0, started, out + [left * 16 + v / 4])
        else Decode64(strict, s[1..], 0, 0, 0, started, out + [left * 64 + v])
  }

  predicate Group(quad: nat, left: int) {
    && quad <= 3
    && (quad == 0 ==> left == 0) && (quad == 1 ==> 0 <= left < 64) && (quad == 2 ==> 0 <= left < 16)
    && (quad == 3 ==> 0 <= left < 4)
  }

  // "=" * (-n % 4)
  function Padding(n: nat): string {
    match n % 4
    case 0 => ""
    case 1 => "==="
    case 2 => "=="
    case _ => "="
  }

  function Decode(strict: bool, text: string): Option<seq<Byte>> {
    if exists i :: 0 <= i < |text| && text[i] >= 128 as char then None
    else Decode64(strict, text + Padding(|text|), 0, 0, 0, false, [])
  }

  lemma SymbolIsDecoded(v: int)
    requires 0 <= v < 64
    ensures Sextet(Symbol(v)) == Some(v) && Symbol(v) != '=' && Symbol(v) < 128 as char
  {
  }

  // Vectors of section 10 of RFC 4648, and the two symbols that are not letters or digits.
  lemma KnownAnswers()
    ensures Encode64([102]) == "Zg" && Encode64([102, 111]) == "Zm8" && Encode64([102, 111, 111]) == "Zm9v"
    ensures Encode64([251, 240]) == "-_A"
  {
    assert Encode64([102, 111, 111]) == "Zm9v" + Encode64([]) by {
      assert [102, 111, 111][3..] == [];
    }
  }

  // One symbol is read.
  lemma Reads(strict: bool, v: int, rest: string, quad: nat, left: int, out: seq<Byte>)
    requires 0 <= v < 64 && Group(quad, left)
    ensures Decode64(strict, [Symbol(v)] + rest, quad, left, 0, false, out) ==
            if quad == 0 then Decode64(strict, rest, 1, v, 0, false, out)
            else if quad == 1 then Decode64(strict, rest, 2, v % 16, 0, false, out + [left * 4 + v / 16])
            else if quad == 2 then Decode64(strict, rest, 3, v % 4, 0, false, out + [left * 16 + v / 4])
            else Decode64(strict, rest, 0, 0, 0, false, out + [left * 64 + v])
  {
    SymbolIsDecoded(v);
    assert ([Symbol(v)] + rest)[1..] == rest;
  }

  lemma ReadsTwo(strict: bool, x: Byte, y: int, rest: string, out: seq<Byte>)
    requires 0 <= y < 16
    ensures Decode64(strict, [Symbol(x / 4), Symbol(x % 4 * 16 + y)] + rest, 0, 0, 0, false, out) ==
            Decode64(strict, rest, 2, y, 0, false, out + [x])
  {
    var a, b := x / 4, x % 4 * 16 + y;
    assert [Symbol(a), Symbol(b)] + rest == [Symbol(a)] + ([Symbol(b)] + rest);
    Reads(strict, a, [Symbol(b)] + rest, 0, 0, out);
    Reads(strict, b, rest, 1, a, out);
    assert a * 4 + b / 16 == x && b % 16 == y;
  }

  lemma ReadsGroup(strict: bool, x: Byte, y: Byte, z: Byte, rest: string, out: seq<Byte>)
    ensures var group := [Symbol(x / 4), Symbol(x % 4 * 16 + y / 16), Symbol(y % 16 * 4 + z / 64), Symbol(z % 64)];
            Decode64(strict, group + rest, 0, 0, 0, false, out) ==
            Decode64(strict, rest, 0, 0, 0, false, out + [x, y, z])
  {
    hide Symbol, Decode64;
    var c, d := y % 16 * 4 + z / 64, z % 64;
    var tail := [Symbol(c)] + ([Symbol(d)] + rest);
    assert [Symbol(x / 4), Symbol(x % 4 * 16 + y / 16), Symbol(c), Symbol(d)] + rest ==
           [Symbol(x / 4), Symbol(x % 4 * 16 + y / 16)] + tail;
    ReadsTwo(strict, x, y / 16, tail, out);
    Reads(strict, c, [Symbol(d)] + rest, 2, y / 16, out + [x]);
    assert y / 16 * 16 + c / 4 == y && c % 4 == z / 64;
    Reads(strict, d, rest, 3, z / 64, out + [x] + [y]);
    assert out + [x] + [y] + [z / 64 * 64 + d] == out + [x, y, z];
  }

  lemma PaddingEnds(strict: bool, left: int, out: seq<Byte>)
    ensures 0 <= left < 16 ==> Decode64(strict, "==", 2, left, 0, false, out) == Some(out)
    ensures 0 <= left < 4 ==> Decode64(strict, "=", 3, left, 0, false, out) == Some(out)
  {
    assert "=="[1..] == "=";
  }

  lemma OneByteDecodes(strict: bool, x: Byte, out: seq<Byte>)
    ensures var text := Encode64([x]);
            |text| == 2 && Decode64(strict, text + "==", 0, 0, 0, false, out) == Some(out + [x])
  {
    ReadsTwo(strict, x, 0, "==", out);
    PaddingEnds(strict, 0, out + [x]);
  }

  lemma TwoBytesDecode(strict: bool, x: Byte, y: Byte, out: seq<Byte>)
    ensures var text := Encode64([x, y]);
            |text| == 3 && Decode64(strict, text + "=", 0, 0, 0, false, out) == Some(out + [x, y])
  {
    var c := y % 16 * 4;
    var text := Encode64([x, y]);
    var rest := [Symbol(c)] + "=";
    assert text + "=" == [Symbol(x / 4), Symbol(x % 4 * 16 + y / 16)] + rest;
    hide Encode64, Symbol, Decode64;
    ReadsTwo(strict, x, y / 16, rest, out);
    Reads(strict, c, "=", 2, y / 16, out + [x]);
    assert y / 16 * 16 + c / 4 == y && c % 4 == 0;
    PaddingEnds(strict, 0, out + [x] + [y]);
    assert out + [x] + [y] == out + [x, y];
  }

  lemma {:induction false} EncodingDecodes(strict: bool, data: seq<Byte>, out: seq<Byte>)
    ensures Decode64(strict, Encode64(data) + Padding(|Encode64(data)|), 0, 0, 0, false, out) == Some(out + data)
  {
    hide Decode64, Symbol;
    var text := Encode64(data);
    if data == [] {
      NothingDecodes(strict, out);
      assert text + Padding(|text|) == "" && out + data == out;
    } else if |data| == 1 {
      assert data == [data[0]];
      OneByteDecodes(strict, data[0], out);
    } else if |data| == 2 {
      assert data == [data[0], data[1]];
      TwoBytesDecode(strict, data[0], data[1], out);
    } else {
      assert |text| == |Encode64(data[3..])| + 4;
      hide Encode64;
      var rest := Encode64(data[3..]);
      EncodingDecodes(strict, data[3..], out + data[..3]);
      GroupThenRest(strict, data, out, rest + Padding(|rest|));
      EncodesGroup(data);
      assert Padding(|text|) == Padding(|rest|);
      assert text + Padding(|text|) == text[..4] + (rest + Padding(|rest|));
    }
  }

  lemma NothingDecodes(strict: bool, out: seq<Byte>)
    ensures Decode64(strict, "", 0, 0, 0, false, out) == Some(out)
  {
  }

  lemma EncodesGroup(data: seq<Byte>)
    requires |data| >= 3
    ensures |Encode64(data)| == |Encode64(data[3..])| + 4 && Encode64(data)[4..] == Encode64(data[3..])
  {
  }

  lemma GroupThenRest(strict: bool, data: seq<Byte>, out: seq<Byte>, rest: string)
    requires |data| >= 3
    ensures |Encode64(data)| >= 4
    ensures Decode64(strict, Encode64(data)[..4] + rest, 0, 0, 0, false, out) ==
            Decode64(strict, rest, 0, 0, 0, false, out + data[..3])
    ensures out + data[..3] + data[3..] == out + data
  {
    var x, y, z := data[0], data[1], data[2];
    assert Encode64(data)[..4] == [Symbol(x / 4), Symbol(x % 4 * 16 + y / 16), Symbol(y % 16 * 4 + z / 64), Symbol(z % 64)];
    hide Encode64, Symbol, Decode64;
    ReadsGroup(strict, x, y, z, rest, out);
    assert data[..3] == [x, y, z];
  }

  lemma {:induction false} EncodingIsAscii(data: seq<Byte>)
    ensures forall i :: 0 <= i < |Encode64(data)| ==> Encode64(data)[i] < 128 as char && Encode64(data)[i] != '='
  {
    if |data| >= 3 {
      EncodingIsAscii(data[3..]);
    }
  }

  // Whatever was encoded is read back, by the strict and by the lenient decoder.
  lemma RoundTrip(strict: bool, data: seq<Byte>)
    ensures Decode(strict, Encode64(data)) == Some(data)
    ensures '=' !in Encode64(data)
  {
    EncodingIsAscii(data);
    EncodingDecodes(strict, data, []);
    assert [] + data == data;
  }

  // ---------- Bounded message bodies ----------

  // `decode_base64url_text`; `utf8` decodes with replacement characters.
  function DecodeText(utf8: seq<Byte> -> string, text: string, maxBytes: nat): Option<string> {
    if text == "" || |text| > (maxBytes + 2) / 3 * 4 + 4 then None
    else
      var decoded := Decode(true, text);
      if decoded.None? || |decoded.value| > maxBytes then None else Some(utf8(decoded.value))
  }

  // What a started group still owes, in quarters of a byte.
  function Credit(quad: nat): nat
    requires quad <= 3
  {
    match quad
    case 0 => 0
    case 1 => 3
    case 2 => 2
    case _ => 1
  }

  // The strict decoder writes at least three bytes for four characters, up to the last group; and
  // after padding starts, it accepts only what completes the group.
  lemma {:induction false} StrictLength(s: string, quad: nat, left: int, pads: nat, started: bool, out: seq<Byte>)
    requires Group(quad, left)
    requires if started then (quad == 1 && pads == 0) || (quad == 2 && pads == 1) else pads == 0
    ensures var d := Decode64(true, s, quad, left, pads, started, out);
            d.Some? ==>
              if started then quad == 2 && |s| == 1 && |d.value| == |out|
              else 4 * (|d.value| - |out|) >= 3 * |s| - 8 + Credit(quad)
    decreases |s|
  {
    if s == "" {
    } else if s[0] == '=' {
      if quad == 1 || (quad == 2 && pads == 0) {
        StrictLength(s[1..], quad, left, if quad >= 2 then pads + 1 else pads, true, out);
      }
    } else if Sextet(s[0]).Some? && !started {
      var v := Sextet(s[0]).value;
      if quad == 0 {
        StrictLength(s[1..], 1, v, 0, false, out);
      } else if quad == 1 {
        StrictLength(s[1..], 2, v % 16, 0, false, out + [left * 4 + v / 16]);
      } else if quad == 2 {
        StrictLength(s[1..], 3, v % 4, 0, false, out + [left * 16 + v / 4]);
      } else {
        StrictLength(s[1..], 0, 0, 0, false, out + [left * 64 + v]);
      }
    }
  }

  // The length check before decoding refuses nothing that the check after it would let pass: a text
  // is accepted exactly if it is not empty and decodes to at most the bounded number of bytes.
  lemma BodiesAreBounded(utf8: seq<Byte> -> string, text: string, maxBytes: nat)
    ensures DecodeText(utf8, text, maxBytes) ==
            if text != "" && Decode(true, text).Some? && |Decode(true, text).value| <= maxBytes
            then Some(utf8(Decode(true, text).value)) else None
  {
    var padded := text + Padding(|text|);
    StrictLength(padded, 0, 0, 0, false, []);
    hide Decode64;
    var groups := (maxBytes + 2) / 3;
    if |text| > groups * 4 + 4 {
      assert |padded| % 4 == 0 && |padded| >= |text|;
      assert |padded| >= groups * 4 + 8;
      assert groups * 3 >= maxBytes;
    }
  }

  // So a body that was encoded is read back exactly if it fits.
  lemma EncodedBodiesAreRead(utf8: seq<Byte> -> string, data: seq<Byte>, maxBytes: nat)
    ensures DecodeText(utf8, Encode64(data), maxBytes) ==
            if 0 < |data| <= maxBytes then Some(utf8(data)) else None
  {
    RoundTrip(true, data);
    BodiesAreBounded(utf8, Encode64(data), maxBytes);
    hide Decode, DecodeText;
    assert Encode64(data) == "" <==> data == [];
  }
}
