/** Reading JSON text back, by the grammar of RFC 8259: what was encoded is what is read. */
module Decoding {
  import opened Codec

  datatype Parsed<+T> = Parsed(value: T, rest: Text) | Malformed

  // -------------------------------------------------------------------------------- strings, section 7

  predicate IsHex(c: Code) { 48 <= c <= 57 || 65 <= c <= 70 || 97 <= c <= 102 }

  function HexValue(c: Code): (n: Code)
    requires IsHex(c)
    ensures n < 16
  {
    if c <= 57 then c - 48 else if c <= 70 then c - 55 else c - 87
  }

  /** The character a two-character escape stands for. */
  function Short(c: Code): Option<Code> {
    if c == 34 || c == 92 || c == 47 then Some(c)
    else if c == 98 then Some(8)
    else if c == 102 then Some(12)
    else if c == 110 then Some(10)
    else if c == 114 then Some(13)
    else if c == 116 then Some(9)
    else None
  }

  function Then(c: Code, r: Parsed<Text>): Parsed<Text> {
    if r.Parsed? then Parsed([c] + r.value, r.rest) else Malformed
  }

  /** The characters of a string up to its closing quote. */
  function ReadChars(t: Text): (r: Parsed<Text>)
    ensures r.Parsed? ==> |r.rest| < |t|
    decreases |t|
  {
    if t == [] then Malformed
    else if t[0] == 34 then Parsed([], t[1..])
    else if t[0] == 92 then
      if |t| >= 2 && Short(t[1]).Some? then Then(Short(t[1]).value, ReadChars(t[2..]))
      else if |t| >= 6 && t[1] == 117 && IsHex(t[2]) && IsHex(t[3]) && IsHex(t[4]) && IsHex(t[5]) then
        Then(((HexValue(t[2]) * 16 + HexValue(t[3])) * 16 + HexValue(t[4])) * 16 + HexValue(t[5]), ReadChars(t[6..]))
      else Malformed
    else if t[0] < 0x20 then Malformed
    else Then(t[0], ReadChars(t[1..]))
  }

  lemma EscapeIsRead(c: Code, tail: Text)
    ensures ReadChars(Escape(c) + tail) == Then(c, ReadChars(tail))
  {
    var t := Escape(c) + tail;
    if |Escape(c)| == 1 {
      assert t[1..] == tail;
    } else if |Escape(c)| == 2 {
      assert t[2..] == tail;
    } else {
      HexIsRead(c / 16, c % 16, tail);
    }
  }

  lemma HexIsRead(high: Code, low: Code, tail: Text)
    requires high < 2 && low < 16
    ensures ReadChars([92, 117, 48, 48, Hex(high), Hex(low)] + tail) == Then(16 * high + low, ReadChars(tail))
  {
    var t := [92, 117, 48, 48, Hex(high), Hex(low)] + tail;
    assert t[6..] == tail;
    assert HexValue(Hex(high)) == high && HexValue(Hex(low)) == low;
  }

  lemma Associate(a: Text, b: Text, c: Text)
    ensures a + b + c == a + (b + c)
  {
  }

  /** Whatever the text, its escaped form reads back as the text. */
  lemma {:induction false} CharsAreRead(t: Text, rest: Text)
    ensures ReadChars(EscapeAll(t) + [34] + rest) == Parsed(t, rest)
    decreases |t|
  {
    if t == [] {
      assert EscapeAll(t) + [34] + rest == [34] + rest;
      assert ([34] + rest)[1..] == rest;
    } else {
      var first, others := Escape(t[0]), EscapeAll(t[1..]);
      CharsAreRead(t[1..], rest);
      EscapeIsRead(t[0], others + [34] + rest);
      assert EscapeAll(t) == first + others;
      hide Escape, EscapeAll, ReadChars;
      Associate(first, others, [34]);
      Associate(first, others + [34], rest);
      assert [t[0]] + t[1..] == t;
    }
  }

  // ---------------------------------------------------------------------------- values, sections 3 to 6

  /** What numbers are written with. */
  predicate NumberChar(c: Code) { 48 <= c <= 57 || c == 43 || c == 45 || c == 46 || c == 69 || c == 101 }

  function Span(t: Text): (n: nat)
    ensures n <= |t| && (n > 0 <==> t != [] && NumberChar(t[0]))
  {
    if t != [] && NumberChar(t[0]) then 1 + Span(t[1..]) else 0
  }

  function ReadValue(t: Text): (r: Parsed<Json>)
    ensures r.Parsed? ==> |r.rest| < |t|
    decreases |t|, 0
  {
    if t == [] then Malformed
    else if t[0] == 34 then
      var s := ReadChars(t[1..]);
      if s.Parsed? then Parsed(Str(s.value), s.rest) else Malformed
    else if t[0] == 91 then
      if |t| > 1 && t[1] == 93 then Parsed(Arr([]), t[2..])
      else
        var r := ReadItems(t[1..]);
        if r.Parsed? then Parsed(Arr(r.value), r.rest) else Malformed
    else if t[0] == 123 then
      if |t| > 1 && t[1] == 125 then Parsed(Obj([]), t[2..])
      else
        var r := ReadFields(t[1..]);
        if r.Parsed? then Parsed(Obj(r.value), r.rest) else Malformed
    else if NULL_WORD <= t then Parsed(Null, t[4..])
    else if TRUE_WORD <= t then Parsed(Bool(true), t[4..])
    else if FALSE_WORD <= t then Parsed(Bool(false), t[5..])
    else if Span(t) > 0 then Parsed(Number(t[..Span(t)]), t[Span(t)..])
    else Malformed
  }

  function ReadItems(t: Text): (r: Parsed<seq<Json>>)
    ensures r.Parsed? ==> |r.rest| < |t|
    decreases |t|, 1
  {
    var x := ReadValue(t);
    if x.Malformed? || x.rest == [] then Malformed
    else if x.rest[0] == 93 then Parsed([x.value], x.rest[1..])
    else if x.rest[0] == 44 then
      var more := ReadItems(x.rest[1..]);
      if more.Parsed? then Parsed([x.value] + more.value, more.rest) else Malformed
    else Malformed
  }

  function ReadFields(t: Text): (r: Parsed<seq<Field>>)
    ensures r.Parsed? ==> |r.rest| < |t|
    decreases |t|, 1
  {
    if t == [] || t[0] != 34 then Malformed
    else
      var name := ReadChars(t[1..]);
      if name.Malformed? || name.rest == [] || name.rest[0] != 58 then Malformed
      else
        var x := ReadValue(name.rest[1..]);
        if x.Malformed? || x.rest == [] then Malformed
        else if x.rest[0] == 125 then Parsed([Field(name.value, x.value)], x.rest[1..])
        else if x.rest[0] == 44 then
          var more := ReadFields(x.rest[1..]);
          if more.Parsed? then Parsed([Field(name.value, x.value)] + more.value, more.rest) else Malformed
        else Malformed
  }

  function Decode(t: Text): Option<Json> {
    var r := ReadValue(t);
    if r.Parsed? && r.rest == [] then Some(r.value) else None
  }

  // ---------------------------------------------------------------------------------- the round trip

  /** Its numbers are spelled with what numbers are written with, and are finite. */
  predicate Spelled(v: Json)
    decreases v
  {
    match v
    case Number(digits) => digits != [] && forall k :: 0 <= k < |digits| ==> NumberChar(digits[k])
    case NotFinite => false
    case Arr(items) => forall x | x in items :: Spelled(x)
    case Obj(fields) => forall f | f in fields :: Spelled(f.value)
    case _ => true
  }

  predicate EndsNumber(rest: Text) { rest == [] || !NumberChar(rest[0]) }

  lemma {:induction false} SpanOf(digits: Text, rest: Text)
    requires (forall k :: 0 <= k < |digits| ==> NumberChar(digits[k])) && EndsNumber(rest)
    ensures Span(digits + rest) == |digits|
    decreases |digits|
  {
    if digits != [] {
      assert (digits + rest)[1..] == digits[1..] + rest;
      SpanOf(digits[1..], rest);
    } else {
      assert digits + rest == rest;
    }
  }

  lemma DumpStarts(v: Json)
    requires Spelled(v)
    ensures Dump(v) != [] && Dump(v)[0] != 93 && Dump(v)[0] != 125
  {
  }

  lemma NumberIsRead(digits: Text, rest: Text)
    requires Spelled(Number(digits)) && EndsNumber(rest)
    ensures ReadValue(digits + rest) == Parsed(Number(digits), rest)
  {
    var t := digits + rest;
    SpanOf(digits, rest);
    assert t[0] == digits[0] && t[..|digits|] == digits && t[|digits|..] == rest;
    assert NULL_WORD[0] != t[0] && TRUE_WORD[0] != t[0] && FALSE_WORD[0] != t[0];
  }

  lemma WordIsRead(v: Json, rest: Text)
    requires v.Null? || v.Bool?
    ensures ReadValue(Dump(v) + rest) == Parsed(v, rest)
  {
    var word := Dump(v);
    var t := word + rest;
    assert t[..|word|] == word && t[|word|..] == rest && t[0] == word[0] && t[1] == word[1];
  }

  lemma StringIsRead(text: Text, rest: Text)
    ensures ReadValue(Dump(Str(text)) + rest) == Parsed(Str(text), rest)
  {
    var t := Dump(Str(text)) + rest;
    CharsAreRead(text, rest);
    assert t[1..] == EscapeAll(text) + [34] + rest;
  }

  lemma {:induction false} ItemsAreRead(v: Json, items: seq<Json>, rest: Text)
    requires items != [] && forall x | x in items :: x < v && Spelled(x)
    ensures ReadItems(DumpItems(v, items) + [93] + rest) == Parsed(items, rest)
    decreases v, 0, |items|
  {
    var x := items[0];
    assert x in items && forall y | y in items[1..] :: y in items;
    if |items| == 1 {
      assert DumpItems(v, items) == Dump(x) + [];
      hide ReadItems, ReadValue, Dump, DumpItems;
      ValueIsRead(x, [93] + rest);
      ItemIsRead(x, Dump(x), [93] + rest);
      assert Dump(x) + [] + [93] + rest == Dump(x) + ([93] + rest);
      assert ([93] + rest)[1..] == rest && [x] == items;
    } else {
      var others := DumpItems(v, items[1..]);
      assert DumpItems(v, items) == Dump(x) + ([44] + others);
      ItemsAreRead(v, items[1..], rest);
      hide ReadItems, ReadValue, Dump, DumpItems;
      ValueIsRead(x, [44] + (others + [93] + rest));
      Regrouped(Dump(x), others, [93], rest);
      MoreItems(items, Dump(x), others + [93] + rest);
    }
  }

  lemma MoreItems(items: seq<Json>, dumped: Text, others: Text)
    requires |items| > 1 && ReadValue(dumped + ([44] + others)) == Parsed(items[0], [44] + others)
    requires ReadItems(others).Parsed? && ReadItems(others).value == items[1..]
    ensures ReadItems(dumped + ([44] + others)) == Parsed(items, ReadItems(others).rest)
  {
    hide ReadItems, ReadValue;
    ItemIsRead(items[0], dumped, [44] + others);
    assert ([44] + others)[1..] == others && [items[0]] + items[1..] == items;
  }

  /** One item, given that it is read, and what follows it. */
  lemma ItemIsRead(x: Json, dumped: Text, after: Text)
    requires ReadValue(dumped + after) == Parsed(x, after) && after != []
    ensures
      ReadItems(dumped + after) ==
        if after[0] == 93 then Parsed([x], after[1..])
        else if after[0] == 44 && ReadItems(after[1..]).Parsed? then
          Parsed([x] + ReadItems(after[1..]).value, ReadItems(after[1..]).rest)
        else Malformed
  {
    hide ReadValue;
  }

  lemma OneFieldDumped(v: Json, fields: seq<Field>, rest: Text)
    requires |fields| == 1 && forall f | f in fields :: f.value < v
    ensures fields[0] in fields
    ensures DumpFields(v, fields) + [125] + rest == Quoted(fields[0].name) + ([58] + (Dump(fields[0].value) + ([125] + rest)))
  {
    var f := fields[0];
    assert DumpFields(v, fields) == Quoted(f.name) + [58] + Dump(f.value) + [];
    hide Quoted, Dump, DumpFields;
  }

  lemma MoreFieldsDumped(v: Json, fields: seq<Field>, rest: Text)
    requires |fields| > 1 && forall f | f in fields :: f.value < v
    ensures fields[0] in fields && forall g | g in fields[1..] :: g in fields
    ensures
      DumpFields(v, fields) + [125] + rest
      == Quoted(fields[0].name) + ([58] + (Dump(fields[0].value) + ([44] + (DumpFields(v, fields[1..]) + [125] + rest))))
  {
    var f := fields[0];
    assert f in fields && forall g | g in fields[1..] :: g in fields;
    var others := DumpFields(v, fields[1..]);
    assert DumpFields(v, fields) == Quoted(f.name) + [58] + Dump(f.value) + ([44] + others);
    hide Quoted, Dump, DumpFields;
    var after := [44] + (others + [125] + rest);
    Regrouped(Quoted(f.name) + [58] + Dump(f.value), others, [125], rest);
    Associate(Quoted(f.name) + [58], Dump(f.value), after);
    Associate(Quoted(f.name), [58], Dump(f.value) + after);
  }

  lemma Regrouped(first: Text, others: Text, close: Text, rest: Text)
    ensures first + ([44] + others) + close + rest == first + ([44] + (others + close + rest))
  {
    var more := [44] + others;
    Associate(first, more, close);
    Associate(first, more + close, rest);
    Associate([44], others, close);
    Associate([44], others + close, rest);
  }

  lemma {:induction false} FieldsAreRead(v: Json, fields: seq<Field>, rest: Text)
    requires fields != [] && forall f | f in fields :: f.value < v && Spelled(f.value)
    ensures ReadFields(DumpFields(v, fields) + [125] + rest) == Parsed(fields, rest)
    decreases v, 0, |fields|
  {
    hide ReadFields, ReadValue, Dump, DumpFields, Quoted;
    var f := fields[0];
    if |fields| == 1 {
      OneFieldDumped(v, fields, rest);
      ValueIsRead(f.value, [125] + rest);
      FieldIsRead(f, Dump(f.value), [125] + rest);
      assert ([125] + rest)[1..] == rest && [f] == fields;
    } else {
      MoreFieldsDumped(v, fields, rest);
      var others := DumpFields(v, fields[1..]) + [125] + rest;
      ValueIsRead(f.value, [44] + others);
      FieldsAreRead(v, fields[1..], rest);
      FieldIsRead(f, Dump(f.value), [44] + others);
      assert ([44] + others)[1..] == others && [f] + fields[1..] == fields;
    }
  }

  /** One field, given that its value is read, and what follows it. */
  lemma FieldIsRead(f: Field, dumped: Text, after: Text)
    requires ReadValue(dumped + after) == Parsed(f.value, after) && after != []
    ensures
      ReadFields(Quoted(f.name) + ([58] + (dumped + after))) ==
        if after[0] == 125 then Parsed([f], after[1..])
        else if after[0] == 44 && ReadFields(after[1..]).Parsed? then
          Parsed([f] + ReadFields(after[1..]).value, ReadFields(after[1..]).rest)
        else Malformed
  {
    hide Quoted, ReadValue, ReadChars;
    NameIsRead(f.name, [58] + (dumped + after));
    assert ([58] + (dumped + after))[1..] == dumped + after;
    assert Field(f.name, f.value) == f;
  }

  lemma NameIsRead(name: Text, tail: Text)
    ensures var t := Quoted(name) + tail; t[0] == 34 && ReadChars(t[1..]) == Parsed(name, tail)
  {
    CharsAreRead(name, tail);
    assert (Quoted(name) + tail)[1..] == EscapeAll(name) + [34] + tail;
  }

  lemma {:induction false} ValueIsRead(v: Json, rest: Text)
    requires Spelled(v) && EndsNumber(rest)
    ensures ReadValue(Dump(v) + rest) == Parsed(v, rest)
    decreases v, 1, 0
  {
    match v
    case Null => WordIsRead(v, rest);
    case Bool(_) => WordIsRead(v, rest);
    case Number(digits) => NumberIsRead(digits, rest);
    case Str(text) => StringIsRead(text, rest);
    case Arr(items) =>
      if items != [] { ItemsAreRead(v, items, rest); }
      ArrayIsRead(v, items, rest);
    case Obj(fields) =>
      if fields != [] { FieldsAreRead(v, fields, rest); }
      ObjectIsRead(v, fields, rest);
  }

  lemma ArrayIsRead(v: Json, items: seq<Json>, rest: Text)
    requires v == Arr(items) && Spelled(v)
    requires items != [] ==> ReadItems(DumpItems(v, items) + [93] + rest) == Parsed(items, rest)
    ensures ReadValue(Dump(v) + rest) == Parsed(v, rest)
  {
    if items == [] {
      assert Dump(v) + rest == [91, 93] + rest && ([91, 93] + rest)[2..] == rest;
    } else {
      assert items[0] in items;
      DumpStarts(items[0]);
      assert DumpItems(v, items)[0] == Dump(items[0])[0];
      assert Dump(v) == [91] + DumpItems(v, items) + [93];
      hide Dump, DumpItems, ReadItems, ReadValue;
      BracketsAreRead(DumpItems(v, items), items, rest);
    }
  }

  lemma BracketsAreRead(inside: Text, items: seq<Json>, rest: Text)
    requires inside != [] && inside[0] != 93 && ReadItems(inside + [93] + rest) == Parsed(items, rest)
    ensures ReadValue([91] + inside + [93] + rest) == Parsed(Arr(items), rest)
  {
    hide ReadItems, ReadFields, ReadChars;
    var t := [91] + inside + [93] + rest;
    assert t[1..] == inside + [93] + rest && t[1] == inside[0];
  }

  lemma ObjectIsRead(v: Json, fields: seq<Field>, rest: Text)
    requires v == Obj(fields) && Spelled(v)
    requires fields != [] ==> ReadFields(DumpFields(v, fields) + [125] + rest) == Parsed(fields, rest)
    ensures ReadValue(Dump(v) + rest) == Parsed(v, rest)
  {
    if fields == [] {
      assert Dump(v) + rest == [123, 125] + rest && ([123, 125] + rest)[2..] == rest;
    } else {
      assert Quoted(fields[0].name)[0] == 34 && fields[0] in fields;
      assert DumpFields(v, fields)[0] == 34;
      assert Dump(v) == [123] + DumpFields(v, fields) + [125];
      hide Dump, DumpFields, ReadFields, ReadValue;
      BracesAreRead(DumpFields(v, fields), fields, rest);
    }
  }

  lemma BracesAreRead(inside: Text, fields: seq<Field>, rest: Text)
    requires inside != [] && inside[0] == 34 && ReadFields(inside + [125] + rest) == Parsed(fields, rest)
    ensures ReadValue([123] + inside + [125] + rest) == Parsed(Obj(fields), rest)
  {
    hide ReadItems, ReadFields, ReadChars;
    var t := [123] + inside + [125] + rest;
    assert t[1..] == inside + [125] + rest && t[1] == inside[0];
  }

  /** decode(encode(v)) == v, for every value that is encoded at all. */
  lemma EncodedIsDecoded(v: Json)
    requires Spelled(v) && Encode(v).Ok?
    ensures Decode(Encode(v).text) == Some(v)
  {
    ValueIsRead(v, []);
    assert Dump(v) + [] == Dump(v);
  }

  /** Two values with the same encoding are the same. */
  lemma EncodingIsFaithful(v: Json, w: Json)
    requires Spelled(v) && Spelled(w) && Encode(v).Ok? && Encode(v) == Encode(w)
    ensures v == w
  {
    EncodedIsDecoded(v);
    EncodedIsDecoded(w);
  }

  // ------------------------------------------------------------------------ what is encoded is storable

  lemma EscapedIsStorable(t: Text)
    requires StorableText(t)
    ensures StorableText(Quoted(t))
  {
    EscapeAllIsStorable(t);
  }

  lemma {:induction false} EscapeAllIsStorable(t: Text)
    requires StorableText(t)
    ensures StorableText(EscapeAll(t))
  {
    if t != [] {
      EscapeAllIsStorable(t[1..]);
      assert t[0] != 0 && !Surrogate(t[0]);
      assert StorableText(Escape(t[0]));
    }
  }

  lemma {:induction false} ItemsAreStorable(v: Json, items: seq<Json>, room: nat)
    requires forall x | x in items :: x < v && Spelled(x) && Storable(x, room)
    ensures StorableText(DumpItems(v, items))
    decreases v, 0, |items|
  {
    if items != [] {
      assert items[0] in items && forall y | y in items[1..] :: y in items;
      DumpIsStorable(items[0], room);
      ItemsAreStorable(v, items[1..], room);
    }
  }

  lemma {:induction false} FieldsAreStorable(v: Json, fields: seq<Field>, room: nat)
    requires forall f | f in fields :: f.value < v && Spelled(f.value) && StorableText(f.name) && Storable(f.value, room)
    ensures StorableText(DumpFields(v, fields))
    decreases v, 0, |fields|
  {
    if fields != [] {
      var f := fields[0];
      assert f in fields && forall g | g in fields[1..] :: g in fields;
      EscapedIsStorable(f.name);
      DumpIsStorable(f.value, room);
      FieldsAreStorable(v, fields[1..], room);
    }
  }

  /** No encoding holds a NUL or a lone surrogate. */
  lemma {:induction false} DumpIsStorable(v: Json, room: nat)
    requires Spelled(v) && Storable(v, room)
    ensures StorableText(Dump(v))
    decreases v, 1, 0
  {
    match v
    case Str(t) => EscapedIsStorable(t);
    case Arr(items) => ItemsAreStorable(v, items, room - 1);
    case Obj(fields) => FieldsAreStorable(v, fields, room - 1);
    case _ =>
  }

  function Larger(a: nat, b: nat): nat { if a < b then b else a }

  /** How many containers are inside one another, at most. */
  function Depth(v: Json): nat
    decreases v, 1, 0
  {
    match v
    case Arr(items) => 1 + DeepestItem(v, items)
    case Obj(fields) => 1 + DeepestField(v, fields)
    case _ => 0
  }

  function DeepestItem(v: Json, items: seq<Json>): nat
    requires forall x | x in items :: x < v
    decreases v, 0, |items|
  {
    if items == [] then 0
    else
      assert items[0] in items && forall y | y in items[1..] :: y in items;
      Larger(Depth(items[0]), DeepestItem(v, items[1..]))
  }

  function DeepestField(v: Json, fields: seq<Field>): nat
    requires forall f | f in fields :: f.value < v
    decreases v, 0, |fields|
  {
    if fields == [] then 0
    else
      assert fields[0] in fields && forall g | g in fields[1..] :: g in fields;
      Larger(Depth(fields[0].value), DeepestField(v, fields[1..]))
  }

  /** No NaN, no infinity, and every text and key without NULs and lone surrogates. */
  predicate Clean(v: Json)
    decreases v
  {
    match v
    case NotFinite => false
    case Str(t) => StorableText(t)
    case Arr(items) => forall x | x in items :: Clean(x)
    case Obj(fields) => forall f | f in fields :: StorableText(f.name) && Clean(f.value)
    case _ => true
  }

  lemma {:induction false} ItemsWithin(v: Json, items: seq<Json>, room: nat)
    requires forall x | x in items :: x < v
    ensures (forall x | x in items :: Storable(x, room)) <==> DeepestItem(v, items) <= room && forall x | x in items :: Clean(x)
    decreases v, 0, |items|
  {
    if items != [] {
      assert items[0] in items && forall y | y in items[1..] :: y in items;
      StorableIff(items[0], room);
      ItemsWithin(v, items[1..], room);
      assert items == [items[0]] + items[1..];
    }
  }

  lemma {:induction false} FieldsWithin(v: Json, fields: seq<Field>, room: nat)
    requires forall f | f in fields :: f.value < v
    ensures (forall f | f in fields :: StorableText(f.name) && Storable(f.value, room))
      <==> DeepestField(v, fields) <= room && forall f | f in fields :: StorableText(f.name) && Clean(f.value)
    decreases v, 0, |fields|
  {
    if fields != [] {
      assert fields[0] in fields && forall g | g in fields[1..] :: g in fields;
      StorableIff(fields[0].value, room);
      FieldsWithin(v, fields[1..], room);
      assert fields == [fields[0]] + fields[1..];
    }
  }

  lemma {:induction false} StorableIff(v: Json, room: nat)
    ensures Storable(v, room) <==> Depth(v) <= room && Clean(v)
    decreases v, 1, 0
  {
    match v
    case Arr(items) => if room > 0 { ItemsWithin(v, items, room - 1); }
    case Obj(fields) => if room > 0 { FieldsWithin(v, fields, room - 1); }
    case _ =>
  }

  /** A value is encoded exactly when it nests at most 200 levels, is finite, and all its texts are
      storable; and the encoding is then storable itself. */
  lemma EncodedIsStorable(v: Json)
    ensures Encode(v).Ok? <==> Depth(v) <= 200 && Clean(v)
    ensures Encode(v).Ok? && Spelled(v) ==> StorableText(Encode(v).text)
  {
    StorableIff(v, 200);
    if Encode(v).Ok? && Spelled(v) { DumpIsStorable(v, 200); }
  }

  // ------------------------------------------------------------------------- bytes, section 3 of RFC 3629

  /** The octets of a code point. */
  function Octets(c: Code): seq<nat> {
    var n := c as nat;
    if n < 0x80 then [n]
    else if n < 0x800 then [0xC0 + n / 64, 0x80 + n % 64]
    else if n < 0x10000 then [0xE0 + n / 4096, 0x80 + n / 64 % 64, 0x80 + n % 64]
    else [0xF0 + n / 262144, 0x80 + n / 4096 % 64, 0x80 + n / 64 % 64, 0x80 + n % 64]
  }

  function Utf8(t: Text): seq<nat> {
    if t == [] then [] else Octets(t[0]) + Utf8(t[1..])
  }

  predicate Continues(b: nat) { 0x80 <= b < 0xC0 }

  /** The first code point of some octets, and how many it took. */
  function FirstOf(bytes: seq<nat>): Option<(nat, nat)> {
    if bytes == [] then None
    else
      var b := bytes[0];
      if b < 0x80 then Some((b, 1))
      else if 0xC0 <= b < 0xE0 && |bytes| >= 2 && Continues(bytes[1]) then Some(((b - 0xC0) * 64 + bytes[1] - 0x80, 2))
      else if 0xE0 <= b < 0xF0 && |bytes| >= 3 && Continues(bytes[1]) && Continues(bytes[2]) then
        Some(((b - 0xE0) * 4096 + (bytes[1] - 0x80) * 64 + bytes[2] - 0x80, 3))
      else if 0xF0 <= b < 0xF8 && |bytes| >= 4 && Continues(bytes[1]) && Continues(bytes[2]) && Continues(bytes[3]) then
        Some(((b - 0xF0) * 262144 + (bytes[1] - 0x80) * 4096 + (bytes[2] - 0x80) * 64 + bytes[3] - 0x80, 4))
      else None
  }

  /** Base 64. */
  lemma Digits(n: nat)
    ensures n == n / 64 * 64 + n % 64
    ensures n / 64 == n / 4096 * 64 + n / 64 % 64
    ensures n / 4096 == n / 262144 * 64 + n / 4096 % 64
  {
    assert n / 64 / 64 == n / 4096;
    assert n / 4096 / 64 == n / 262144;
  }

  /** Two to four octets, given the digits they carry. */
  lemma OctetsCarry(x: nat, y: nat, z: nat, w: nat, rest: seq<nat>)
    requires y < 64 && z < 64 && w < 64
    ensures x < 32 ==> FirstOf([0xC0 + x, 0x80 + y] + rest) == Some((x * 64 + y, 2))
    ensures x < 16 ==> FirstOf([0xE0 + x, 0x80 + y, 0x80 + z] + rest) == Some((x * 4096 + y * 64 + z, 3))
    ensures x < 8 ==> FirstOf([0xF0 + x, 0x80 + y, 0x80 + z, 0x80 + w] + rest) == Some((x * 262144 + y * 4096 + z * 64 + w, 4))
  {
  }

  lemma OctetsAreRead(c: Code, rest: seq<nat>)
    ensures FirstOf(Octets(c) + rest) == Some((c as nat, |Octets(c)|))
    ensures !(0xD800 <= c <= 0xDFFF) ==> |Octets(c)| == Utf8Width(c)
  {
    var n := c as nat;
    if n >= 0x80 {
      Digits(n);
      hide FirstOf;
      if n < 0x800 { OctetsCarry(n / 64, n % 64, 0, 0, rest); }
      else if n < 0x10000 { OctetsCarry(n / 4096, n / 64 % 64, n % 64, 0, rest); }
      else { OctetsCarry(n / 262144, n / 4096 % 64, n / 64 % 64, n % 64, rest); }
    }
  }

  /** The text that octets spell. */
  predicate Spells(bytes: seq<nat>, t: Text)
    decreases |t|
  {
    if t == [] then bytes == []
    else
      var first := FirstOf(bytes);
      first.Some? && first.value.0 == t[0] as nat && first.value.1 <= |bytes| && Spells(bytes[first.value.1..], t[1..])
  }

  /** The byte counts of the caps are those of UTF-8: as many octets as are needed to read the text back. */
  lemma {:induction false} BytesAreCounted(t: Text)
    ensures Spells(Utf8(t), t)
    ensures (forall k :: 0 <= k < |t| ==> !(0xD800 <= t[k] <= 0xDFFF)) ==> Utf8Len(t) == |Utf8(t)|
    decreases |t|
  {
    if t != [] {
      OctetsAreRead(t[0], Utf8(t[1..]));
      BytesAreCounted(t[1..]);
      assert Utf8(t)[|Octets(t[0])|..] == Utf8(t[1..]);
      assert forall k :: 0 <= k < |t| - 1 ==> t[1..][k] == t[k + 1];
    }
  }
}
