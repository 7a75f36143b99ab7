/** Shrinking error metadata to a byte cap, and what an attempt stores for an exception. */
module Truncation {
  import opened Codec

  datatype Outcome = Kept(fields: seq<Field>) | Raised

  predicate DistinctNames(fields: seq<Field>) {
    forall i, j :: 0 <= i < j < |fields| ==> fields[i].name != fields[j].name
  }

  /** Assignment to a key of a dictionary: in place, or at the end. */
  function Assign(fields: seq<Field>, name: Text, value: Json): seq<Field> {
    if fields == [] then [Field(name, value)]
    else if fields[0].name == name then [Field(name, value)] + fields[1..]
    else [fields[0]] + Assign(fields[1..], name, value)
  }

  function Marked(fields: seq<Field>): seq<Field> { Assign(fields, TRUNCATED, Bool(true)) }

  function Emptied(f: Field): Field { if f.value.Str? then Field(f.name, Str([])) else f }

  /** The object with every string emptied. */
  function Skeleton(fields: seq<Field>): seq<Field> {
    seq(|fields|, i requires 0 <= i < |fields| => Emptied(fields[i]))
  }

  function Fallback(shownType: Text): seq<Field> {
    [Field(TYPE, Str(Head(shownType, 64))), Field(TRUNCATED, Bool(true))]
  }

  function Head(t: Text, n: nat): Text { if |t| <= n then t else t[..n] }

  // ----------------------------------------------------------------------- what a cut may look like

  /** `cur` is the end (or the start) of `orig`. */
  predicate PartOf(cur: Text, orig: Text, tail: bool) {
    |cur| <= |orig| && cur == if tail then orig[|orig| - |cur|..] else orig[..|cur|]
  }

  predicate CutField(cur: Field, start: Field, keepTail: set<Text>) {
    && cur.name == start.name
    && (if start.value.Str? then cur.value.Str? && PartOf(cur.value.text, start.value.text, start.name in keepTail)
        else cur == start)
  }

  predicate Cut(cur: seq<Field>, start: seq<Field>, keepTail: set<Text>) {
    |cur| == |start| && forall i :: 0 <= i < |cur| ==> CutField(cur[i], start[i], keepTail)
  }

  function Length(f: Field): nat { if f.value.Str? then |f.value.text| else 0 }

  /** No string is more than twice as long as what is left of one that was cut. */
  predicate Fair(cur: seq<Field>, start: seq<Field>)
    requires |cur| == |start|
  {
    forall i, j :: 0 <= i < |cur| && 0 <= j < |cur| && Length(cur[i]) < Length(start[i])
      ==> Length(cur[j]) <= 2 * Length(cur[i]) + 1
  }

  predicate StorableFields(fields: seq<Field>) { Storable(Obj(fields), MAX_DEPTH) }

  function Total(fields: seq<Field>): nat {
    if fields == [] then 0 else Length(fields[0]) + Total(fields[1..])
  }

  lemma {:induction false} TotalUpdate(fields: seq<Field>, i: nat, f: Field)
    requires i < |fields|
    ensures Total(fields[i := f]) + Length(fields[i]) == Total(fields) + Length(f)
  {
    if i > 0 {
      assert fields[i := f][1..] == fields[1..][i - 1 := f];
      TotalUpdate(fields[1..], i - 1, f);
    } else {
      assert fields[i := f][1..] == fields[1..];
    }
  }

  lemma {:induction false} SmallerLen(small: seq<Field>, large: seq<Field>)
    requires |small| == |large|
    requires forall i :: 0 <= i < |small| ==> FieldLen(small[i]) <= FieldLen(large[i])
    ensures FieldsLen(small) <= FieldsLen(large)
  {
    if small != [] { SmallerLen(small[1..], large[1..]); }
  }

  /** No cut is smaller than the skeleton. */
  lemma SkeletonIsSmallest(cur: seq<Field>, start: seq<Field>, keepTail: set<Text>)
    requires Cut(cur, start, keepTail)
    ensures Size(Skeleton(start)) <= Size(cur)
  {
    var bones := Skeleton(start);
    forall i | 0 <= i < |bones| ensures FieldLen(bones[i]) <= FieldLen(cur[i]) {
      assert CutField(cur[i], start[i], keepTail);
      if start[i].value.Str? {
        QuotedLen([]);
        QuotedLen(cur[i].value.text);
        assert EscapeAll([]) == [];
      }
    }
    SmallerLen(bones, cur);
    SizeIsFields(bones);
    SizeIsFields(cur);
  }

  lemma {:induction false} AssignKeeps(fields: seq<Field>, name: Text, value: Json)
    requires DistinctNames(fields)
    ensures
      var after := Assign(fields, name, value);
      && DistinctNames(after)
      && (forall f | f in after :: f == Field(name, value) || f in fields)
      && Field(name, value) in after
      && (forall f | f in fields && f.name != name :: f in after)
  {
    if fields != [] {
      var rest := Assign(fields[1..], name, value);
      AssignKeeps(fields[1..], name, value);
      assert forall f | f in fields[1..] :: f in fields && f.name != fields[0].name;
      if fields[0].name != name {
        forall j | 0 <= j < |rest| ensures rest[j].name != fields[0].name { assert rest[j] in rest; }
      }
    }
  }

  lemma MarkedIsStorable(fields: seq<Field>)
    requires DistinctNames(fields) && StorableFields(fields)
    ensures StorableFields(Marked(fields))
  {
    AssignKeeps(fields, TRUNCATED, Bool(true));
  }

  lemma PartIsStorable(cur: Text, orig: Text, tail: bool)
    requires PartOf(cur, orig, tail) && StorableText(orig)
    ensures StorableText(cur)
  {
    var shift := if tail then |orig| - |cur| else 0;
    assert forall k :: 0 <= k < |cur| ==> cur[k] == orig[k + shift];
  }

  lemma StringIsStorable(t: Text, room: nat)
    ensures Storable(Str(t), room) <==> StorableText(t)
  {
  }

  lemma CutIsStorable(cur: seq<Field>, start: seq<Field>, keepTail: set<Text>)
    requires Cut(cur, start, keepTail) && StorableFields(start)
    ensures StorableFields(cur)
  {
    forall f | f in cur ensures StorableText(f.name) && Storable(f.value, MAX_DEPTH - 1) {
      var i :| 0 <= i < |cur| && cur[i] == f;
      assert CutField(cur[i], start[i], keepTail) && start[i] in start;
      assert Storable(start[i].value, MAX_DEPTH - 1);
      if f.value.Str? {
        StringIsStorable(start[i].value.text, MAX_DEPTH - 1);
        PartIsStorable(f.value.text, start[i].value.text, start[i].name in keepTail);
        StringIsStorable(f.value.text, MAX_DEPTH - 1);
      }
    }
  }

  // ------------------------------------------------------------------------------------ the loop

  /** max() over the non-empty strings: the first of the longest. */
  method Longest(data: seq<Field>) returns (best: Option<nat>)
    ensures best.None? ==> forall j :: 0 <= j < |data| ==> Length(data[j]) == 0
    ensures best.Some? ==> best.value < |data| && Length(data[best.value]) > 0
    ensures best.Some? ==> forall j :: 0 <= j < |data| ==> Length(data[j]) <= Length(data[best.value])
    ensures best.Some? ==> forall j :: 0 <= j < best.value ==> Length(data[j]) < Length(data[best.value])
  {
    best := None;
    for i := 0 to |data|
      invariant best.None? ==> forall j :: 0 <= j < i ==> Length(data[j]) == 0
      invariant best.Some? ==> best.value < i && Length(data[best.value]) > 0
      invariant best.Some? ==> forall j :: 0 <= j < i ==> Length(data[j]) <= Length(data[best.value])
      invariant best.Some? ==> forall j :: 0 <= j < best.value ==> Length(data[j]) < Length(data[best.value])
    {
      if Length(data[i]) > (if best.Some? then Length(data[best.value]) else 0) { best := Some(i); }
    }
  }

  /** Half of a text: its end or its start. */
  function Halved(text: Text, tail: bool): Text {
    var keep := |text| / 2;
    if keep == 0 then [] else if tail then text[|text| - keep..] else text[..keep]
  }

  lemma HalvedIsPart(text: Text, orig: Text, tail: bool)
    requires PartOf(text, orig, tail)
    ensures PartOf(Halved(text, tail), orig, tail) && |Halved(text, tail)| == |text| / 2
  {
  }

  lemma CutMore(cur: seq<Field>, start: seq<Field>, keepTail: set<Text>, i: nat)
    requires Cut(cur, start, keepTail) && Fair(cur, start) && i < |cur| && Length(cur[i]) > 0
    requires forall j :: 0 <= j < |cur| ==> Length(cur[j]) <= Length(cur[i])
    ensures
      var next := cur[i := Field(cur[i].name, Str(Halved(cur[i].value.text, cur[i].name in keepTail)))];
      Cut(next, start, keepTail) && Fair(next, start) && Total(next) < Total(cur)
  {
    assert CutField(cur[i], start[i], keepTail);
    HalvedIsPart(cur[i].value.text, start[i].value.text, cur[i].name in keepTail);
    var f := Field(cur[i].name, Str(Halved(cur[i].value.text, cur[i].name in keepTail)));
    TotalUpdate(cur, i, f);
  }

  lemma FullyCut(cur: seq<Field>, start: seq<Field>, keepTail: set<Text>)
    requires Cut(cur, start, keepTail) && forall j :: 0 <= j < |cur| ==> Length(cur[j]) == 0
    ensures cur == Skeleton(start)
  {
    forall j | 0 <= j < |cur| ensures cur[j] == Skeleton(start)[j] { assert CutField(cur[j], start[j], keepTail); }
  }

  /** What `truncate` promises. It raises exactly for unstorable input, keeps what fits, falls back to
      the type alone exactly when even the object with every string emptied is over the cap, and
      otherwise fits the cap with every string a prefix (or, in `keepTail`, a suffix) of its original,
      everything else untouched. */
  predicate Promised(error: seq<Field>, cap: nat, keepTail: set<Text>, shownType: Text, r: Outcome) {
    && (r.Raised? <==> !StorableFields(error))
    && (r.Kept? ==>
          if Size(error) <= cap then r.fields == error
          else if Size(Skeleton(Marked(error))) > cap then
            r.fields == [Field(TYPE, Str(if |shownType| <= 64 then shownType else shownType[..64])), Field(TRUNCATED, Bool(true))]
          else
            && Size(r.fields) <= cap
            && StorableFields(r.fields)
            && Cut(r.fields, Marked(error), keepTail)
            && Fair(r.fields, Marked(error)))
  }

  /** `shownType` is what str() makes of the "type" entry. */
  method Truncate(error: seq<Field>, cap: nat, keepTail: set<Text>, shownType: Text) returns (r: Outcome)
    requires DistinctNames(error)
    requires forall f | f in error && f.name == TYPE && f.value.Str? :: shownType == f.value.text
    ensures Promised(error, cap, keepTail, shownType, r)
  {
    if Encode(Obj(error)).Unstorable? { return Raised; }
    if Size(error) <= cap { return Kept(error); }
    var start := Marked(error);
    var data := start;
    MarkedIsStorable(error);
    while Size(data) > cap
      invariant Cut(data, start, keepTail) && Fair(data, start)
      decreases Total(data)
    {
      var best := Longest(data);
      if best.None? {
        FullyCut(data, start, keepTail);
        return Kept(Fallback(shownType));
      }
      var i := best.value;
      CutMore(data, start, keepTail, i);
      data := data[i := Field(data[i].name, Str(Halved(data[i].value.text, data[i].name in keepTail)))];
    }
    SkeletonIsSmallest(data, start, keepTail);
    CutIsStorable(data, start, keepTail);
    return Kept(data);
  }

  // ------------------------------------------------------------------------- what follows from it

  /** The fallback takes at most 412 bytes, so from that cap on every result fits. */
  lemma FallbackLen(shownType: Text)
    requires StorableText(Head(shownType, 64))
    ensures Size(Fallback(shownType)) <= 412
  {
    var f, g := Field(TYPE, Str(Head(shownType, 64))), Field(TRUNCATED, Bool(true));
    assert Fallback(shownType) == [f, g] && |Head(shownType, 64)| <= 64;
    hide Size, FieldLen, Fallback, Head;
    TwoFields(f, g);
    TypeLen(Head(shownType, 64));
    MarkLen();
  }

  lemma TypeLen(name: Text)
    requires StorableText(name) && |name| <= 64
    ensures FieldLen(Field(TYPE, Str(name))) <= 393
  {
    assert Plain(TYPE) && |TYPE| == 4;
    assert Dump(Str(name)) == Quoted(name);
    hide Utf8Len, EscapeAll, Quoted, Dump, Plain, StorableText;
    PlainLen(TYPE);
    QuotedLen(name);
  }

  lemma MarkLen()
    ensures FieldLen(Field(TRUNCATED, Bool(true))) == 16
  {
    assert Plain(TRUNCATED) && Plain(TRUE_WORD) && |TRUNCATED| == 9 && |TRUE_WORD| == 4;
    assert Dump(Bool(true)) == TRUE_WORD;
    hide Utf8Len, EscapeAll, Quoted, Dump;
    PlainLen(TRUNCATED);
    PlainLen(TRUE_WORD);
  }

  lemma TwoFields(f: Field, g: Field)
    ensures Size([f, g]) == FieldLen(f) + FieldLen(g) + 3
  {
    SizeIsFields([f, g]);
    assert [f, g][1..] == [g];
  }

  lemma FourFields(a: Field, b: Field, c: Field, d: Field)
    ensures Size([a, b, c, d]) == FieldLen(a) + FieldLen(b) + FieldLen(c) + FieldLen(d) + 5
  {
    SizeIsFields([a, b, c, d]);
    assert [a, b, c, d][1..] == [b, c, d] && [b, c, d][1..] == [c, d] && [c, d][1..] == [d];
    assert FieldsLen([c, d]) == FieldLen(c) + 1 + FieldLen(d);
    assert FieldsLen([b, c, d]) == FieldLen(b) + 1 + FieldsLen([c, d]);
  }

  lemma EmptyStringLen(name: Text)
    requires Plain(name)
    ensures FieldLen(Field(name, Str([]))) == |name| + 5
  {
    PlainLen(name);
    PlainLen([]);
  }

  lemma ResultsFitTheCap(error: seq<Field>, cap: nat, keepTail: set<Text>, shownType: Text, r: Outcome)
    requires Promised(error, cap, keepTail, shownType, r) && StorableFields(error) && StorableText(shownType)
    requires cap >= 412
    ensures Size(r.fields) <= cap
  {
    FallbackLen(shownType);
  }

  /** What error_metadata builds: three strings. */
  function ErrorFields(name: Text, message: Text, trace: Text): seq<Field> {
    [Field(TYPE, Str(name)), Field(MESSAGE, Str(Sanitize(message))), Field(TRACEBACK, Str(Sanitize(trace)))]
  }

  lemma ErrorNames()
    ensures TYPE != MESSAGE && TYPE != TRACEBACK && MESSAGE != TRACEBACK
    ensures TYPE != TRUNCATED && MESSAGE != TRUNCATED && TRACEBACK != TRUNCATED
  {
    assert TYPE[0] != MESSAGE[0] && MESSAGE[0] != TRACEBACK[0] && |TYPE| < |TRACEBACK| && TRACEBACK[2] != TRUNCATED[2];
  }

  lemma ErrorMarked(name: Text, message: Text, trace: Text)
    ensures
      var e := ErrorFields(name, message, trace);
      DistinctNames(e) && Marked(e) == e + [Field(TRUNCATED, Bool(true))]
  {
    var e := ErrorFields(name, message, trace);
    ErrorNames();
    var e1, e2, last := e[1..], e[1..][1..], Field(TRUNCATED, Bool(true));
    hide ErrorFields, Sanitize;
    assert e == [e[0]] + e1 && e1 == [e[1]] + e2 && e2 == [e[2]];
    assert Assign([], TRUNCATED, Bool(true)) == [last];
    assert e2[1..] == [];
    assert Assign(e2, TRUNCATED, Bool(true)) == e2 + [last];
    assert Assign(e1, TRUNCATED, Bool(true)) == [e[1]] + (e2 + [last]) == e1 + [last];
    assert Assign(e, TRUNCATED, Bool(true)) == [e[0]] + (e1 + [last]) == e + [last];
  }

  lemma ErrorSkeleton(name: Text, message: Text, trace: Text)
    ensures Size(Skeleton(Marked(ErrorFields(name, message, trace)))) <= 100
  {
    ErrorMarked(name, message, trace);
    var b0, b1, b2 := Field(TYPE, Str([])), Field(MESSAGE, Str([])), Field(TRACEBACK, Str([]));
    var last := Field(TRUNCATED, Bool(true));
    assert Skeleton(Marked(ErrorFields(name, message, trace))) == [b0, b1, b2, last];
    assert Plain(TYPE) && Plain(MESSAGE) && Plain(TRACEBACK) && |TYPE| == 4 && |MESSAGE| == 7 && |TRACEBACK| == 9;
    hide ErrorFields, Marked, Skeleton, Size, FieldLen, Plain;
    FourFields(b0, b1, b2, last);
    EmptyStringLen(TYPE);
    EmptyStringLen(MESSAGE);
    EmptyStringLen(TRACEBACK);
    MarkLen();
  }

  /** With any error cap the settings accept (at least 1 KiB) the metadata of an exception is never
      reduced to its type: it is shortened to fit, and it is refused exactly when the qualified name
      of its class is not storable, for that one is not sanitized. */
  lemma ErrorMetadataIsKept(name: Text, message: Text, trace: Text, cap: nat, r: Outcome)
    requires cap >= 1024
    requires Promised(ErrorFields(name, message, trace), cap, {TRACEBACK}, name, r)
    ensures r.Kept? <==> StorableText(name)
    ensures r.Kept? ==>
      && Size(r.fields) <= cap
      && |r.fields| >= 3
      && CutField(r.fields[0], Field(TYPE, Str(name)), {TRACEBACK})
      && CutField(r.fields[1], Field(MESSAGE, Str(Sanitize(message))), {TRACEBACK})
      && CutField(r.fields[2], Field(TRACEBACK, Str(Sanitize(trace))), {TRACEBACK})
    ensures
      var whole := [Field(TYPE, Str(name)), Field(MESSAGE, Str(Sanitize(message))), Field(TRACEBACK, Str(Sanitize(trace)))];
      r.Kept? ==> if Size(whole) <= cap then r.fields == whole else Fair(r.fields, Marked(whole))
  {
    var e := ErrorFields(name, message, trace);
    SanitizeIsExact(message);
    SanitizeIsExact(trace);
    assert StorableFields(e) <==> StorableText(name) by {
      assert e[0] in e && e[1] in e && e[2] in e;
      assert Storable(e[1].value, MAX_DEPTH - 1) && Storable(e[2].value, MAX_DEPTH - 1);
      assert Storable(e[0].value, MAX_DEPTH - 1) <==> StorableText(name);
    }
    ErrorSkeleton(name, message, trace);
    ErrorMarked(name, message, trace);
    if r.Kept? {
      forall i | 0 <= i < 3 ensures CutField(r.fields[i], e[i], {TRACEBACK}) {
        if Size(e) > cap { assert Marked(e)[i] == e[i] && CutField(r.fields[i], Marked(e)[i], {TRACEBACK}); }
      }
    }
  }

  /** A class whose `__qualname__` was assigned a lone surrogate (Python refuses one in a class name):
      error_metadata raises although it is documented to always return a storable value. */
  lemma UnstorableTypeNameRaises(message: Text, trace: Text, cap: nat, r: Outcome)
    requires Promised(ErrorFields([0xD800], message, trace), cap, {TRACEBACK}, [0xD800], r)
    ensures r.Raised?
  {
    var e := ErrorFields([0xD800], message, trace);
    StringIsStorable([0xD800], MAX_DEPTH - 1);
    assert Surrogate([0xD800 as Code][0]);
    assert e[0] in e && !Storable(e[0].value, MAX_DEPTH - 1);
  }

  // --------------------------------------------------------------- the controller's last resort

  /** `_error_json` and `_metadata_json`: the metadata; failing that, the type alone; failing that, its
      first 64 code points; failing that, the controller crashes. */
  function ErrorJson(name: Text, metadata: Outcome): Encoded {
    var first := if metadata.Kept? then Encode(Obj(metadata.fields)) else Encode(Obj([Field(TYPE, Str(name))]));
    if first.Ok? then first else Encode(Obj([Field(TYPE, Str(Head(name, 64)))]))
  }

  lemma OneString(name: Text)
    ensures StorableFields([Field(TYPE, Str(name))]) <==> StorableText(name)
  {
    var f := Field(TYPE, Str(name));
    assert f in [f];
    assert Storable(f.value, MAX_DEPTH - 1) <==> StorableText(name);
  }

  /** An exception's outcome is recorded exactly when the first 64 code points of its class name are
      storable; otherwise the attempt ends without one. */
  lemma FailureIsRecordedIff(name: Text, message: Text, trace: Text, cap: nat, metadata: Outcome)
    requires cap >= 1024
    requires Promised(ErrorFields(name, message, trace), cap, {TRACEBACK}, name, metadata)
    ensures ErrorJson(name, metadata).Ok? <==> StorableText(if |name| <= 64 then name else name[..64])
  {
    ErrorMetadataIsKept(name, message, trace, cap, metadata);
    ErrorSkeleton(name, message, trace);
    OneString(name);
    OneString(Head(name, 64));
    if metadata.Kept? {
      assert StorableFields(metadata.fields);
      assert StorableText(Head(name, 64));
    }
  }
}
