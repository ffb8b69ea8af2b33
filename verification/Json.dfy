/**
 JSON text (RFC 8259): a writer of compact documents and a reader, each the inverse
 of the other on what the writer can write.  Numbers are integers.
 */
module Json {
  import opened Common
  import opened Utf16

  datatype Json = JString(text: Text) | JNumber(value: int) | JArray(items: seq<Json>) | JObject(members: seq<Member>)

  datatype Member = Member(key: Text, value: Json)

  const Quote: CodeUnit := 0x22
  const Backslash: CodeUnit := 0x5C
  const Comma: CodeUnit := 0x2C
  const Colon: CodeUnit := 0x3A
  const Minus: CodeUnit := 0x2D
  const OpenBracket: CodeUnit := 0x5B
  const CloseBracket: CodeUnit := 0x5D
  const OpenBrace: CodeUnit := 0x7B
  const CloseBrace: CodeUnit := 0x7D
  const Newline: CodeUnit := 0x0A

  // ---- Writing --------------------------------------------------------------------------------

  /** A quote or a backslash gets a backslash before it. */
  function Escape(t: Text): Text {
    if t == [] then [] else EscapeUnit(t[0]) + Escape(t[1..])
  }

  function EscapeUnit(u: CodeUnit): Text {
    if u == Quote || u == Backslash then [Backslash, u] else [u]
  }

  function WriteString(t: Text): Text {
    [Quote] + Escape(t) + [Quote]
  }

  function Digits(n: nat): (t: Text)
    ensures t != []
    decreases n
  {
    if n < 10 then [0x30 + n] else Digits(n / 10) + [0x30 + n % 10]
  }

  function WriteInt(n: int): Text {
    if n < 0 then [Minus] + Digits(-n) else Digits(n)
  }

  function Write(v: Json): Text
    decreases v
  {
    match v
    case JString(t) => WriteString(t)
    case JNumber(n) => WriteInt(n)
    case JArray(items) => [OpenBracket] + WriteItems(items) + [CloseBracket]
    case JObject(members) => [OpenBrace] + WriteMembers(members) + [CloseBrace]
  }

  function WriteItems(items: seq<Json>): Text
    decreases items
  {
    if items == [] then []
    else if |items| == 1 then Write(items[0])
    else Write(items[0]) + [Comma] + WriteItems(items[1..])
  }

  function WriteMember(m: Member): Text
    decreases m
  {
    WriteString(m.key) + [Colon] + Write(m.value)
  }

  function WriteMembers(members: seq<Member>): Text
    decreases members
  {
    if members == [] then []
    else if |members| == 1 then WriteMember(members[0])
    else WriteMember(members[0]) + [Comma] + WriteMembers(members[1..])
  }

  // ---- Reading --------------------------------------------------------------------------------

  predicate IsSpace(u: CodeUnit) { u == 0x20 || u == 0x09 || u == 0x0A || u == 0x0D }

  predicate IsDigit(u: CodeUnit) { 0x30 <= u <= 0x39 }

  function SkipSpace(t: Text): (r: Text)
    ensures |r| <= |t|
  {
    if t != [] && IsSpace(t[0]) then SkipSpace(t[1..]) else t
  }

  function HexValue(u: CodeUnit): Option<nat> {
    if IsDigit(u) then Some(u as int - 0x30)
    else if 0x41 <= u <= 0x46 then Some(u as int - 0x41 + 10)
    else if 0x61 <= u <= 0x66 then Some(u as int - 0x61 + 10)
    else None
  }

  /** The code unit an escape stands for, and its length. */
  function ReadEscape(t: Text): (r: Option<(CodeUnit, nat)>)
    requires t != [] && t[0] == Backslash
    ensures r.Some? ==> 2 <= r.value.1 <= |t|
  {
    if |t| < 2 then None
    else if t[1] == Quote || t[1] == Backslash || t[1] == 0x2F then Some((t[1], 2))
    else if t[1] == 0x62 then Some((0x08, 2))
    else if t[1] == 0x66 then Some((0x0C, 2))
    else if t[1] == 0x6E then Some((0x0A, 2))
    else if t[1] == 0x72 then Some((0x0D, 2))
    else if t[1] == 0x74 then Some((0x09, 2))
    else if t[1] == 0x75 && |t| >= 6 then
      var a, b, c, d := HexValue(t[2]), HexValue(t[3]), HexValue(t[4]), HexValue(t[5]);
      if a.Some? && b.Some? && c.Some? && d.Some? && a.value < 16 && b.value < 16 && c.value < 16 && d.value < 16 then
        Some((a.value * 4096 + b.value * 256 + c.value * 16 + d.value, 6))
      else None
    else None
  }

  /** The rest of a string after its opening quote. */
  function ReadString(t: Text): (r: Option<(Text, Text)>)
    ensures r.Some? ==> |r.value.1| < |t|
    decreases |t|
  {
    if t == [] then None
    else if t[0] == Quote then Some(([], t[1..]))
    else if t[0] == Backslash then
      var e := ReadEscape(t);
      if e.None? then None
      else
        var more := ReadString(t[e.value.1..]);
        if more.None? then None else Some(([e.value.0] + more.value.0, more.value.1))
    else if t[0] < 0x20 then None
    else
      var more := ReadString(t[1..]);
      if more.None? then None else Some(([t[0]] + more.value.0, more.value.1))
  }

  function ReadDigits(t: Text, acc: nat): (r: (nat, Text))
    ensures |r.1| <= |t|
    ensures t != [] && IsDigit(t[0]) ==> |r.1| < |t|
    decreases |t|
  {
    if t != [] && IsDigit(t[0]) then ReadDigits(t[1..], acc * 10 + (t[0] as int - 0x30)) else (acc, t)
  }

  /** An integer: no leading zero, no fraction, no exponent. */
  function ReadInt(t: Text): (r: Option<(int, Text)>)
    ensures r.Some? ==> |r.value.1| < |t|
  {
    var negative := t != [] && t[0] == Minus;
    var body := if negative then t[1..] else t;
    if body == [] || !IsDigit(body[0]) || (body[0] == 0x30 && |body| > 1 && IsDigit(body[1])) then None
    else
      var (n, rest) := ReadDigits(body, 0);
      if rest != [] && (rest[0] == 0x2E || rest[0] == 0x45 || rest[0] == 0x65) then None
      else
        var value: int := if negative then 0 - n else n;
        Some((value, rest))
  }

  function ReadValue(t: Text): (r: Option<(Json, Text)>)
    ensures r.Some? ==> |r.value.1| < |t|
    decreases |t|, 1
  {
    var s := SkipSpace(t);
    if s == [] then None
    else if s[0] == Quote then
      var r := ReadString(s[1..]);
      if r.None? then None else Some((JString(r.value.0), r.value.1))
    else if s[0] == OpenBracket then
      var inner := SkipSpace(s[1..]);
      if inner != [] && inner[0] == CloseBracket then Some((JArray([]), inner[1..]))
      else
        var r := ReadItems(inner);
        if r.None? then None else Some((JArray(r.value.0), r.value.1))
    else if s[0] == OpenBrace then
      var inner := SkipSpace(s[1..]);
      if inner != [] && inner[0] == CloseBrace then Some((JObject([]), inner[1..]))
      else
        var r := ReadMembers(inner);
        if r.None? then None else Some((JObject(r.value.0), r.value.1))
    else
      var r := ReadInt(s);
      if r.None? then None else Some((JNumber(r.value.0), r.value.1))
  }

  function ReadItems(t: Text): (r: Option<(seq<Json>, Text)>)
    ensures r.Some? ==> |r.value.1| < |t|
    decreases |t|, 2
  {
    var first := ReadValue(t);
    if first.None? then None
    else
      var s := SkipSpace(first.value.1);
      if s == [] then None
      else if s[0] == CloseBracket then Some(([first.value.0], s[1..]))
      else if s[0] == Comma then
        var more := ReadItems(s[1..]);
        if more.None? then None else Some(([first.value.0] + more.value.0, more.value.1))
      else None
  }

  function ReadMember(t: Text): (r: Option<(Member, Text)>)
    ensures r.Some? ==> |r.value.1| < |t|
    decreases |t|, 2
  {
    var s := SkipSpace(t);
    if s == [] || s[0] != Quote then None
    else
      var key := ReadString(s[1..]);
      if key.None? then None
      else
        var c := SkipSpace(key.value.1);
        if c == [] || c[0] != Colon then None
        else
          var value := ReadValue(c[1..]);
          if value.None? then None else Some((Member(key.value.0, value.value.0), value.value.1))
  }

  function ReadMembers(t: Text): (r: Option<(seq<Member>, Text)>)
    ensures r.Some? ==> |r.value.1| < |t|
    decreases |t|, 3
  {
    var first := ReadMember(t);
    if first.None? then None
    else
      var s := SkipSpace(first.value.1);
      if s == [] then None
      else if s[0] == CloseBrace then Some(([first.value.0], s[1..]))
      else if s[0] == Comma then
        var more := ReadMembers(s[1..]);
        if more.None? then None else Some(([first.value.0] + more.value.0, more.value.1))
      else None
  }

  /** A whole document: one value, and nothing but white space after it. */
  function ReadDocument(t: Text): Option<Json> {
    var r := ReadValue(t);
    if r.Some? && SkipSpace(r.value.1) == [] then Some(r.value.0) else None
  }

  // ---- The reader undoes the writer -------------------------------------------------------------

  /** Strings without control characters, which RFC 8259 (section 7) would have escaped otherwise. */
  predicate NoControls(t: Text) {
    forall u <- t :: u >= 0x20
  }

  predicate Printable(v: Json)
    decreases v
  {
    match v
    case JString(t) => NoControls(t)
    case JNumber(_) => true
    case JArray(items) => forall i <- items :: Printable(i)
    case JObject(members) => forall m <- members :: PrintableMember(m)
  }

  predicate PrintableMember(m: Member)
    decreases m
  {
    NoControls(m.key) && Printable(m.value)
  }

  /** What may follow a value. */
  predicate Delimited(rest: Text) {
    rest == [] || rest[0] == Comma || rest[0] == CloseBracket || rest[0] == CloseBrace || rest[0] == Newline
  }

  lemma ReadEscapedUnit(u: CodeUnit, tail: Text)
    requires u >= 0x20 && ReadString(tail).Some?
    ensures ReadString(EscapeUnit(u) + tail) == Some(([u] + ReadString(tail).value.0, ReadString(tail).value.1))
  {
    var s := EscapeUnit(u) + tail;
    if u == Quote || u == Backslash {
      assert s[0] == Backslash && s[1] == u && s[2..] == tail;
      assert ReadEscape(s) == Some((u, 2));
    } else {
      assert s[0] == u && s[1..] == tail;
    }
  }

  lemma {:induction false} ReadEscaped(t: Text, rest: Text)
    requires NoControls(t)
    ensures ReadString(Escape(t) + ([Quote] + rest)) == Some((t, rest))
  {
    hide ReadString, EscapeUnit, NoControls;
    var tail := [Quote] + rest;
    if t == [] {
      assert Escape(t) + tail == tail;
      ReadEnd(rest);
    } else {
      FirstAndRest(t);
      ReadEscaped(t[1..], rest);
      ReadEscapedUnit(t[0], Escape(t[1..]) + tail);
      assert Escape(t) + tail == EscapeUnit(t[0]) + (Escape(t[1..]) + tail);
    }
  }

  lemma ReadEnd(rest: Text)
    ensures ReadString([Quote] + rest) == Some(([], rest))
  {
    assert ([Quote] + rest)[1..] == rest;
  }

  lemma FirstAndRest(t: Text)
    requires NoControls(t) && t != []
    ensures t[0] >= 0x20 && NoControls(t[1..]) && [t[0]] + t[1..] == t
  {
    assert t[0] in t;
    assert forall u <- t[1..] :: u in t;
  }

  lemma {:induction false} ReadWrittenDigits(n: nat, rest: Text)
    ensures ReadDigits(Digits(n) + rest, 0) == ReadDigits(rest, n)
    decreases n
  {
    if n >= 10 {
      var d: Text := [0x30 + n % 10];
      assert Digits(n) + rest == Digits(n / 10) + (d + rest);
      ReadWrittenDigits(n / 10, d + rest);
      assert (d + rest)[1..] == rest;
    } else {
      assert (Digits(n) + rest)[1..] == rest;
    }
  }

  lemma {:induction false} DigitsStart(n: nat)
    ensures IsDigit(Digits(n)[0]) && (n > 0 ==> Digits(n)[0] != 0x30) && (n == 0 ==> |Digits(n)| == 1)
    decreases n
  {
    if n >= 10 { DigitsStart(n / 10); }
  }

  lemma ReadWrittenInt(n: int, rest: Text)
    requires Delimited(rest)
    ensures ReadInt(WriteInt(n) + rest) == Some((n, rest))
  {
    var m: nat := if n < 0 then -n else n;
    DigitsStart(m);
    ReadWrittenDigits(m, rest);
    var t := WriteInt(n) + rest;
    var body := Digits(m) + rest;
    assert (if n < 0 then t[1..] else t) == body;
    assert t[0] == if n < 0 then Minus else Digits(m)[0];
    assert body[0] == Digits(m)[0];
  }

  /** A written value starts with a character that is neither white space nor the end of what holds it. */
  lemma WriteStart(v: Json)
    ensures Write(v) != [] && !IsSpace(Write(v)[0]) && Write(v)[0] != CloseBracket && Write(v)[0] != CloseBrace
  {
    if v.JNumber? {
      DigitsStart(if v.value < 0 then -v.value else v.value);
    }
  }

  lemma NoSpace(t: Text)
    requires t == [] || !IsSpace(t[0])
    ensures SkipSpace(t) == t
  {}

  /** Reading what was written, whatever follows, gives the value back and stops right after it. */
  lemma {:induction false} ReadWritten(v: Json, rest: Text)
    requires Printable(v) && Delimited(rest)
    ensures ReadValue(Write(v) + rest) == Some((v, rest))
    decreases v, 1
  {
    hide ReadItems, ReadMembers, ReadInt, ReadString, Escape;
    var t := Write(v) + rest;
    WriteStart(v);
    NoSpace(t);
    match v
    case JString(s) =>
      ReadEscaped(s, rest);
      assert t[0] == Quote && t[1..] == Escape(s) + ([Quote] + rest);
    case JNumber(n) =>
      ReadWrittenInt(n, rest);
      NumberStart(n);
    case JArray(items) =>
      var inner := WriteItems(items) + ([CloseBracket] + rest);
      assert t[0] == OpenBracket && t[1..] == inner;
      if items == [] {
        assert inner[0] == CloseBracket && inner[1..] == rest;
        NoSpace(inner);
      } else {
        ItemsStart(items);
        NoSpace(inner);
        ReadWrittenItems(items, rest);
      }
    case JObject(members) =>
      var inner := WriteMembers(members) + ([CloseBrace] + rest);
      assert t[0] == OpenBrace && t[1..] == inner;
      if members == [] {
        assert inner[0] == CloseBrace && inner[1..] == rest;
        NoSpace(inner);
      } else {
        MembersStart(members);
        NoSpace(inner);
        ReadWrittenMembers(members, rest);
      }
  }

  lemma NumberStart(n: int)
    ensures WriteInt(n) != [] && (WriteInt(n)[0] == Minus || IsDigit(WriteInt(n)[0]))
  {
    DigitsStart(if n < 0 then -n else n);
  }

  lemma ItemsStart(items: seq<Json>)
    requires items != []
    ensures WriteItems(items) != [] && !IsSpace(WriteItems(items)[0]) && WriteItems(items)[0] != CloseBracket
  {
    WriteStart(items[0]);
  }

  lemma MembersStart(members: seq<Member>)
    requires members != []
    ensures WriteMembers(members) != [] && WriteMembers(members)[0] == Quote
  {}

  lemma {:induction false} ReadWrittenItems(items: seq<Json>, rest: Text)
    requires items != [] && forall i <- items :: Printable(i)
    ensures ReadItems(WriteItems(items) + ([CloseBracket] + rest)) == Some((items, rest))
    decreases items, 0
  {
    hide ReadValue, Write, Printable;
    var t := WriteItems(items) + ([CloseBracket] + rest);
    if |items| == 1 {
      ReadWritten(items[0], [CloseBracket] + rest);
      NoSpace([CloseBracket] + rest);
      assert ([CloseBracket] + rest)[1..] == rest;
      assert items == [items[0]];
    } else {
      var after := [Comma] + (WriteItems(items[1..]) + ([CloseBracket] + rest));
      assert t == Write(items[0]) + after;
      ReadWritten(items[0], after);
      NoSpace(after);
      assert after[1..] == WriteItems(items[1..]) + ([CloseBracket] + rest);
      ReadWrittenItems(items[1..], rest);
      assert items == [items[0]] + items[1..];
    }
  }

  lemma {:induction false} ReadWrittenMember(m: Member, rest: Text)
    requires PrintableMember(m) && Delimited(rest)
    ensures ReadMember(WriteMember(m) + rest) == Some((m, rest))
    decreases m, 0
  {
    hide ReadValue, ReadString, Escape, Write, NoControls, Printable;
    var t := WriteMember(m) + rest;
    var after := [Colon] + (Write(m.value) + rest);
    assert t[0] == Quote && t[1..] == Escape(m.key) + ([Quote] + after);
    NoSpace(t);
    ReadEscaped(m.key, after);
    NoSpace(after);
    assert after[1..] == Write(m.value) + rest;
    ReadWritten(m.value, rest);
  }

  lemma {:induction false} ReadWrittenMembers(members: seq<Member>, rest: Text)
    requires members != [] && forall m <- members :: PrintableMember(m)
    ensures ReadMembers(WriteMembers(members) + ([CloseBrace] + rest)) == Some((members, rest))
    decreases members, 0
  {
    hide ReadMember, WriteMember, PrintableMember;
    var t := WriteMembers(members) + ([CloseBrace] + rest);
    if |members| == 1 {
      ReadWrittenMember(members[0], [CloseBrace] + rest);
      NoSpace([CloseBrace] + rest);
      assert ([CloseBrace] + rest)[1..] == rest;
      assert members == [members[0]];
    } else {
      var after := [Comma] + (WriteMembers(members[1..]) + ([CloseBrace] + rest));
      assert t == WriteMember(members[0]) + after;
      ReadWrittenMember(members[0], after);
      NoSpace(after);
      assert after[1..] == WriteMembers(members[1..]) + ([CloseBrace] + rest);
      ReadWrittenMembers(members[1..], rest);
      assert members == [members[0]] + members[1..];
    }
  }

  // ---- Escaping ----------------------------------------------------------------------------------

  /** Every `u` becomes `with`. */
  function ReplaceAll(t: Text, u: CodeUnit, with: Text): Text {
    if t == [] then [] else (if t[0] == u then with else [t[0]]) + ReplaceAll(t[1..], u, with)
  }

  lemma {:induction false} ReplaceAppend(s: Text, t: Text, u: CodeUnit, with: Text)
    ensures ReplaceAll(s + t, u, with) == ReplaceAll(s, u, with) + ReplaceAll(t, u, with)
  {
    if s == [] {
      assert s + t == t;
    } else {
      assert (s + t)[0] == s[0] && (s + t)[1..] == s[1..] + t;
      ReplaceAppend(s[1..], t, u, with);
    }
  }

  /** Replacing every backslash and then every quote escapes each character on its own. */
  lemma {:induction false} TwoReplacementsEscape(t: Text)
    ensures ReplaceAll(ReplaceAll(t, Backslash, [Backslash, Backslash]), Quote, [Backslash, Quote]) == Escape(t)
  {
    if t != [] {
      TwoReplacementsEscape(t[1..]);
      var first := if t[0] == Backslash then [Backslash, Backslash] else [t[0]];
      ReplaceAppend(first, ReplaceAll(t[1..], Backslash, [Backslash, Backslash]), Quote, [Backslash, Quote]);
      assert [Backslash, Backslash][1..] == [Backslash] && [Backslash][1..] == [];
      assert [t[0]][1..] == [];
      assert [Backslash, Backslash] == [Backslash] + [Backslash];
    }
  }

  /** Different texts are escaped differently. */
  lemma {:induction false} EscapeIsInjective(s: Text, t: Text)
    requires Escape(s) == Escape(t)
    ensures s == t
  {
    if s != [] && t != [] {
      var e := Escape(s);
      assert e[0] == (if s[0] == Quote || s[0] == Backslash then Backslash else s[0]);
      assert e[0] == (if t[0] == Quote || t[0] == Backslash then Backslash else t[0]);
      assert s[0] == Quote || s[0] == Backslash ==> e[1] == s[0];
      assert t[0] == Quote || t[0] == Backslash ==> e[1] == t[0];
      var n := if s[0] == Quote || s[0] == Backslash then 2 else 1;
      assert e[n..] == Escape(s[1..]) && e[n..] == Escape(t[1..]);
      EscapeIsInjective(s[1..], t[1..]);
      assert s == [s[0]] + s[1..] && t == [t[0]] + t[1..];
    }
  }
}
