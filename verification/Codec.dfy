/** JSON encoding under byte caps. Text is a sequence of Unicode code points, surrogates included, as
    a Python string is; bytes are counted as UTF-8 (section 3 of RFC 3629) of the compact encoding,
    whose strings escape what section 7 of RFC 8259 demands and keep everything else as is. */
module Codec {
  newtype Code = c: int | 0 <= c < 0x110000

  type Text = seq<Code>

  datatype Option<+T> = None | Some(value: T)

  datatype Json =
    | Null
    | Bool(flag: bool)
    | Number(digits: Text)
    | NotFinite
    | Str(text: Text)
    | Arr(items: seq<Json>)
    | Obj(fields: seq<Field>)

  datatype Field = Field(name: Text, value: Json)

  const MAX_DEPTH := 200
  const REPLACEMENT: Code := 0xFFFD

  const TYPE: Text := [116, 121, 112, 101]
  const MESSAGE: Text := [109, 101, 115, 115, 97, 103, 101]
  const TRACEBACK: Text := [116, 114, 97, 99, 101, 98, 97, 99, 107]
  const TRUNCATED: Text := [116, 114, 117, 110, 99, 97, 116, 101, 100]
  const NULL_WORD: Text := [110, 117, 108, 108]
  const TRUE_WORD: Text := [116, 114, 117, 101]
  const FALSE_WORD: Text := [102, 97, 108, 115, 101]

  // ---------------------------------------------------------------------- storable text and UTF-8

  predicate Surrogate(c: Code) { 0xD800 <= c <= 0xDFFF }

  predicate StorableText(t: Text) { forall k :: 0 <= k < |t| ==> t[k] != 0 && !Surrogate(t[k]) }

  /** Octets of one code point; a surrogate has none, and is never counted in a storable text. */
  function Utf8Width(c: Code): nat {
    if c < 0x80 then 1 else if c < 0x800 then 2 else if Surrogate(c) then 0 else if c < 0x10000 then 3 else 4
  }

  function Utf8Len(t: Text): nat {
    if t == [] then 0 else Utf8Width(t[0]) + Utf8Len(t[1..])
  }

  lemma {:induction false} Utf8LenConcat(a: Text, b: Text)
    ensures Utf8Len(a + b) == Utf8Len(a) + Utf8Len(b)
  {
    if a == [] {
      assert a + b == b;
    } else {
      assert (a + b)[1..] == a[1..] + b;
      Utf8LenConcat(a[1..], b);
    }
  }

  /** The keys and words of the encoding, as they are written. */
  predicate Written(t: Text, word: string) { |t| == |word| && forall k :: 0 <= k < |t| ==> t[k] as int == word[k] as int }

  lemma WordsAreWritten()
    ensures Written(TYPE, "type") && Written(MESSAGE, "message") && Written(TRACEBACK, "traceback") && Written(TRUNCATED, "truncated")
    ensures Written(NULL_WORD, "null") && Written(TRUE_WORD, "true") && Written(FALSE_WORD, "false")
  {
  }

  // ------------------------------------------------------------------------------------- sanitize

  /** Two passes as in the source: NULs first, then, if anything still has no encoding, surrogates. */
  function Sanitize(t: Text): Text {
    var t1 := seq(|t|, i requires 0 <= i < |t| => if t[i] == 0 then REPLACEMENT else t[i]);
    if StorableText(t1) then t1
    else seq(|t1|, i requires 0 <= i < |t1| => if Surrogate(t1[i]) then REPLACEMENT else t1[i])
  }

  /** The result is always storable, only what cannot be stored changes, and sanitizing again changes
      nothing. */
  lemma SanitizeIsExact(t: Text)
    ensures StorableText(Sanitize(t)) && |Sanitize(t)| == |t|
    ensures forall k :: 0 <= k < |t| ==>
      Sanitize(t)[k] == if t[k] == 0 || 0xD800 <= t[k] <= 0xDFFF then 0xFFFD else t[k]
    ensures Sanitize(t) == t <==> StorableText(t)
    ensures Sanitize(Sanitize(t)) == Sanitize(t)
  {
    var s := Sanitize(t);
    assert StorableText(t) ==> s == t;
    assert StorableText(s);
    assert Sanitize(s) == s;
  }

  // ----------------------------------------------------------------------------------------- dump

  function Hex(n: Code): Code
    requires n < 16
  {
    if n < 10 then 48 + n else 87 + n
  }

  function Escape(c: Code): Text {
    if c == 34 then [92, 34]
    else if c == 92 then [92, 92]
    else if c == 8 then [92, 98]
    else if c == 12 then [92, 102]
    else if c == 10 then [92, 110]
    else if c == 13 then [92, 114]
    else if c == 9 then [92, 116]
    else if c < 0x20 then [92, 117, 48, 48, Hex(c / 16), Hex(c % 16)]
    else [c]
  }

  function EscapeAll(t: Text): Text {
    if t == [] then [] else Escape(t[0]) + EscapeAll(t[1..])
  }

  function Quoted(t: Text): Text { [34] + EscapeAll(t) + [34] }

  function Dump(v: Json): Text
    decreases v, 1, 0
  {
    match v
    case Null => NULL_WORD
    case Bool(b) => if b then TRUE_WORD else FALSE_WORD
    case Number(digits) => digits
    case NotFinite => []
    case Str(t) => Quoted(t)
    case Arr(items) => [91] + DumpItems(v, items) + [93]
    case Obj(fields) => [123] + DumpFields(v, fields) + [125]
  }

  function DumpItems(v: Json, items: seq<Json>): Text
    requires forall x | x in items :: x < v
    decreases v, 0, |items|
  {
    if items == [] then []
    else
      var x := items[0];
      assert x in items && forall y | y in items[1..] :: y in items;
      Dump(x) + (if |items| == 1 then [] else [44] + DumpItems(v, items[1..]))
  }

  function DumpFields(v: Json, fields: seq<Field>): Text
    requires forall f | f in fields :: f.value < v
    decreases v, 0, |fields|
  {
    if fields == [] then []
    else
      var f := fields[0];
      assert f in fields && forall g | g in fields[1..] :: g in fields;
      Quoted(f.name) + [58] + Dump(f.value) + (if |fields| == 1 then [] else [44] + DumpFields(v, fields[1..]))
  }

  /** What `_check` and json.dumps accept, with `room` levels of nesting left. */
  predicate Storable(v: Json, room: nat)
    decreases v
  {
    match v
    case Null => true
    case Bool(_) => true
    case Number(_) => true
    case NotFinite => false
    case Str(t) => StorableText(t)
    case Arr(items) => room > 0 && forall x | x in items :: Storable(x, room - 1)
    case Obj(fields) => room > 0 && forall f | f in fields :: StorableText(f.name) && Storable(f.value, room - 1)
  }

  datatype Encoded = Ok(text: Text) | Unstorable

  function Encode(v: Json): Encoded {
    if Storable(v, MAX_DEPTH) then Ok(Dump(v)) else Unstorable
  }

  // ---------------------------------------------------------------------------------- byte counts

  lemma {:induction false} EscapedLen(t: Text)
    ensures |t| <= |EscapeAll(t)| && (StorableText(t) ==> |t| <= Utf8Len(EscapeAll(t)) <= 6 * |t|)
  {
    if t != [] {
      EscapedLen(t[1..]);
      Utf8LenConcat(Escape(t[0]), EscapeAll(t[1..]));
      EscapeLen(t[0]);
      assert t == [t[0]] + t[1..];
    }
  }

  lemma EscapeLen(c: Code)
    ensures |Escape(c)| >= 1 && (!Surrogate(c) ==> 1 <= Utf8Len(Escape(c)) <= 6)
  {
    if |Escape(c)| == 6 {
      assert Escape(c) == [92, 117, 48] + [48, Hex(c / 16), Hex(c % 16)];
      Utf8LenConcat([92, 117, 48], [48, Hex(c / 16), Hex(c % 16)]);
      assert Utf8Len([92, 117, 48]) == 3 by { Short3(92, 117, 48); }
      assert Utf8Len([48, Hex(c / 16), Hex(c % 16)]) == 3 by { Short3(48, Hex(c / 16), Hex(c % 16)); }
    } else if |Escape(c)| == 2 {
      var e := Escape(c);
      assert e == [e[0]] + [e[1]];
      Utf8LenConcat([e[0]], [e[1]]);
    }
  }

  lemma Short3(a: Code, b: Code, c: Code)
    requires a < 0x80 && b < 0x80 && c < 0x80
    ensures Utf8Len([a, b, c]) == 3
  {
    assert [a, b, c] == [a] + ([b] + [c]);
    Utf8LenConcat([a], [b] + [c]);
    Utf8LenConcat([b], [c]);
  }

  /** The bytes of a quoted text: at least one a code point, at most six, and the two quotes. */
  lemma QuotedLen(t: Text)
    ensures Utf8Len(Quoted(t)) == Utf8Len(EscapeAll(t)) + 2
    ensures StorableText(t) ==> |t| + 2 <= Utf8Len(Quoted(t)) <= 6 * |t| + 2
  {
    Utf8LenConcat([34] + EscapeAll(t), [34]);
    Utf8LenConcat([34], EscapeAll(t));
    EscapedLen(t);
  }

  predicate Plain(t: Text) { forall k :: 0 <= k < |t| ==> 0x20 <= t[k] < 0x80 && t[k] != 34 && t[k] != 92 }

  lemma {:induction false} PlainLen(t: Text)
    requires Plain(t)
    ensures Utf8Len(t) == |t| && EscapeAll(t) == t && Utf8Len(Quoted(t)) == |t| + 2
  {
    if t != [] {
      PlainLen(t[1..]);
      assert t == [t[0]] + t[1..];
    }
    QuotedLen(t);
  }

  function FieldLen(f: Field): nat { Utf8Len(Quoted(f.name)) + 1 + Utf8Len(Dump(f.value)) }

  /** The bytes between the braces of an object. */
  function FieldsLen(fields: seq<Field>): nat {
    if fields == [] then 0 else FieldLen(fields[0]) + (if |fields| == 1 then 0 else 1 + FieldsLen(fields[1..]))
  }

  lemma {:induction false} DumpFieldsLen(v: Json, fields: seq<Field>)
    requires forall f | f in fields :: f.value < v
    ensures Utf8Len(DumpFields(v, fields)) == FieldsLen(fields)
    decreases |fields|
  {
    if fields != [] {
      var f := fields[0];
      assert f in fields && forall g | g in fields[1..] :: g in fields;
      var head := Quoted(f.name) + [58] + Dump(f.value);
      Utf8LenConcat(Quoted(f.name) + [58], Dump(f.value));
      Utf8LenConcat(Quoted(f.name), [58]);
      if |fields| == 1 {
        assert DumpFields(v, fields) == head + [] == head;
      } else {
        DumpFieldsLen(v, fields[1..]);
        Utf8LenConcat(head, [44] + DumpFields(v, fields[1..]));
        Utf8LenConcat([44], DumpFields(v, fields[1..]));
      }
    }
  }

  /** utf8_len(encode(v)) for an object. */
  function Size(fields: seq<Field>): nat { Utf8Len(Dump(Obj(fields))) }

  lemma SizeIsFields(fields: seq<Field>)
    ensures Size(fields) == FieldsLen(fields) + 2
  {
    var v := Obj(fields);
    DumpFieldsLen(v, fields);
    Utf8LenConcat([123] + DumpFields(v, fields), [125]);
    Utf8LenConcat([123], DumpFields(v, fields));
  }
}
