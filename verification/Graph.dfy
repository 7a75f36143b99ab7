/** `_check`: the walk over an arbitrary, possibly shared and cyclic, object graph before encoding. */
module Graph {
  import opened Codec

  type Ref = nat

  /** A scalar is anything that is neither text nor a container; json.dumps judges it later. */
  datatype Value = Scalar | Word(text: Text) | Container(ref: Ref)

  /** A list's or tuple's entries have a position only; a dict's keys are text or something else. */
  datatype Key = Position | Name(text: Text) | NotText

  datatype Entry = Entry(key: Key, value: Value)

  type Heap = map<Ref, seq<Entry>>

  datatype Verdict = Fine | TooDeep | Circular | BadKey | BadText

  predicate Closed(heap: Heap) {
    forall r, k | r in heap && 0 <= k < |heap[r]| && heap[r][k].value.Container? :: heap[r][k].value.ref in heap
  }

  predicate In(heap: Heap, v: Value) { v.Container? ==> v.ref in heap }

  function KeyVerdict(key: Key): Verdict {
    match key
    case Position => Fine
    case Name(t) => if StorableText(t) then Fine else BadText
    case NotText => BadKey
  }

  /** The walk as a function of the path of containers it is inside of. */
  function Walk(heap: Heap, v: Value, depth: nat, path: set<Ref>): Verdict
    requires Closed(heap) && In(heap, v) && depth <= MAX_DEPTH
    decreases MAX_DEPTH - depth, 0
  {
    match v
    case Scalar => Fine
    case Word(t) => if StorableText(t) then Fine else BadText
    case Container(r) =>
      if depth >= MAX_DEPTH then TooDeep
      else if r in path then Circular
      else WalkEntries(heap, r, 0, depth, path + {r})
  }

  function WalkEntries(heap: Heap, r: Ref, k: nat, depth: nat, path: set<Ref>): Verdict
    requires Closed(heap) && r in heap && k <= |heap[r]| && depth < MAX_DEPTH
    decreases MAX_DEPTH - depth - 1, |heap[r]| - k + 1
  {
    if k == |heap[r]| then Fine
    else
      var key := KeyVerdict(heap[r][k].key);
      if !key.Fine? then key
      else
        var value := Walk(heap, heap[r][k].value, depth + 1, path);
        if !value.Fine? then value else WalkEntries(heap, r, k + 1, depth, path)
  }

  // ------------------------------------------------------------------------ the walk, with its path

  class Path {
    var ids: set<Ref>

    constructor ()
      ensures ids == {}
    {
      ids := {};
    }
  }

  /** Every exit, by return or by an error, leaves the path as it was on entry. */
  method Check(heap: Heap, v: Value, depth: nat, path: Path) returns (verdict: Verdict)
    requires Closed(heap) && In(heap, v) && depth <= MAX_DEPTH
    modifies path
    ensures path.ids == old(path.ids)
    ensures verdict == Walk(heap, v, depth, old(path.ids))
    decreases MAX_DEPTH - depth
  {
    if v.Scalar? { return Fine; }
    if v.Word? { return if StorableText(v.text) then Fine else BadText; }
    if depth >= MAX_DEPTH { return TooDeep; }
    if v.ref in path.ids { return Circular; }
    path.ids := path.ids + {v.ref};
    var entries := heap[v.ref];
    verdict := Fine;
    var k := 0;
    while k < |entries| && verdict.Fine?
      invariant k <= |entries| && path.ids == old(path.ids) + {v.ref}
      invariant WalkEntries(heap, v.ref, 0, depth, path.ids)
             == if verdict.Fine? then WalkEntries(heap, v.ref, k, depth, path.ids) else verdict
    {
      verdict := KeyVerdict(entries[k].key);
      if verdict.Fine? { verdict := Check(heap, entries[k].value, depth + 1, path); }
      k := k + 1;
    }
    path.ids := path.ids - {v.ref};
    assert path.ids == old(path.ids);
  }

  // ---------------------------------------------------------------------- what is accepted, declared

  /** A chain of `n` containment steps. */
  ghost predicate Reaches(heap: Heap, a: Ref, b: Ref, n: nat)
    decreases n
  {
    if n == 0 then a == b else exists mid :: Reaches(heap, a, mid, n - 1) && Contains(heap, mid, b)
  }

  predicate Contains(heap: Heap, a: Ref, b: Ref) {
    a in heap && exists k :: 0 <= k < |heap[a]| && heap[a][k].value == Container(b)
  }

  /** Keys are storable text, and so is every text directly inside. */
  predicate CleanEntry(e: Entry) { !e.key.NotText? && !UnstorableInside(e) }

  /** A text right here, as a key or as a value, that cannot be stored. */
  predicate UnstorableInside(e: Entry) {
    (e.key.Name? && !StorableText(e.key.text)) || (e.value.Word? && !StorableText(e.value.text))
  }

  predicate CleanNode(heap: Heap, r: Ref) {
    r in heap && forall k :: 0 <= k < |heap[r]| ==> CleanEntry(heap[r][k])
  }

  /** Everything reachable is clean and every chain from `v` nests at most `room` containers. */
  ghost predicate Acceptable(heap: Heap, v: Value, room: nat) {
    match v
    case Scalar => true
    case Word(t) => StorableText(t)
    case Container(r) => forall b: Ref, n: nat :: Reaches(heap, r, b, n) ==> n < room && CleanNode(heap, b)
  }

  ghost predicate OnCycle(heap: Heap, r: Ref) { exists n: nat :: n > 0 && Reaches(heap, r, r, n) }

  ghost predicate LeadsToCycle(heap: Heap, v: Value) {
    v.Container? && exists a, n: nat :: Reaches(heap, v.ref, a, n) && OnCycle(heap, a)
  }

  // ----------------------------------------------------------------------------- chains

  lemma {:induction false} Compose(heap: Heap, a: Ref, b: Ref, c: Ref, n: nat, m: nat)
    requires Reaches(heap, a, b, n) && Reaches(heap, b, c, m)
    ensures Reaches(heap, a, c, n + m)
    decreases m
  {
    if m > 0 {
      var mid :| Reaches(heap, b, mid, m - 1) && Contains(heap, mid, c);
      Compose(heap, a, b, mid, n, m - 1);
      assert Reaches(heap, a, mid, n + m - 1);
    }
  }

  lemma {:induction false} FirstStep(heap: Heap, a: Ref, b: Ref, n: nat) returns (c: Ref)
    requires n > 0 && Reaches(heap, a, b, n)
    ensures Contains(heap, a, c) && Reaches(heap, c, b, n - 1)
    decreases n
  {
    var mid :| Reaches(heap, a, mid, n - 1) && Contains(heap, mid, b);
    if n == 1 {
      c := b;
    } else {
      c := FirstStep(heap, a, mid, n - 1);
      assert Reaches(heap, c, mid, n - 2);
    }
  }

  lemma OneStep(heap: Heap, a: Ref, b: Ref)
    requires Contains(heap, a, b)
    ensures Reaches(heap, a, b, 1)
  {
    assert Reaches(heap, a, a, 0);
  }

  /** A cycle gives chains of every length. */
  lemma {:induction false} Unending(heap: Heap, r: Ref, n: nat, room: nat)
    requires n > 0 && Reaches(heap, r, r, n)
    ensures Reaches(heap, r, r, n * room)
    decreases room
  {
    if room > 0 {
      Unending(heap, r, n, room - 1);
      Compose(heap, r, r, r, n * (room - 1), n);
    }
  }

  lemma CyclesAreRejected(heap: Heap, r: Ref, room: nat)
    requires OnCycle(heap, r)
    ensures !Acceptable(heap, Container(r), room)
  {
    var n: nat :| n > 0 && Reaches(heap, r, r, n);
    Unending(heap, r, n, room);
    assert n * room >= room;
  }

  // ------------------------------------------------------------------------------- the theorems

  /** The path holds containers that contain `v`, directly or not. */
  ghost predicate Ancestors(heap: Heap, path: set<Ref>, v: Value) {
    v.Container? ==> forall p | p in path :: exists n: nat :: n > 0 && Reaches(heap, p, v.ref, n)
  }

  lemma Deeper(heap: Heap, path: set<Ref>, r: Ref, k: nat)
    requires r in heap && k < |heap[r]| && Ancestors(heap, path, Container(r))
    ensures Ancestors(heap, path + {r}, heap[r][k].value)
  {
    var v := heap[r][k].value;
    if v.Container? {
      OneStep(heap, r, v.ref);
      forall p | p in path + {r} ensures exists n: nat :: n > 0 && Reaches(heap, p, v.ref, n) {
        if p in path {
          var n: nat :| n > 0 && Reaches(heap, p, r, n);
          Compose(heap, p, r, v.ref, n, 1);
        }
      }
    }
  }

  ghost predicate GoodEntry(heap: Heap, e: Entry, room: nat) { CleanEntry(e) && Acceptable(heap, e.value, room) }

  lemma AcceptableInside(heap: Heap, r: Ref, k: nat, room: nat)
    requires Acceptable(heap, Container(r), room) && r in heap && k < |heap[r]|
    ensures room > 0 && GoodEntry(heap, heap[r][k], room - 1)
  {
    assert Reaches(heap, r, r, 0);
    var v := heap[r][k].value;
    if v.Container? {
      OneStep(heap, r, v.ref);
      forall b: Ref, n: nat | Reaches(heap, v.ref, b, n) ensures n < room - 1 && CleanNode(heap, b) {
        Compose(heap, r, v.ref, b, 1, n);
      }
    }
  }

  lemma AcceptableFromInside(heap: Heap, r: Ref, room: nat)
    requires r in heap && room > 0
    requires forall k :: 0 <= k < |heap[r]| ==> GoodEntry(heap, heap[r][k], room - 1)
    ensures Acceptable(heap, Container(r), room)
  {
    assert CleanNode(heap, r) by {
      forall k | 0 <= k < |heap[r]| ensures CleanEntry(heap[r][k]) { assert GoodEntry(heap, heap[r][k], room - 1); }
    }
    forall b: Ref, n: nat | Reaches(heap, r, b, n) ensures n < room && CleanNode(heap, b) {
      if n > 0 {
        var c := FirstStep(heap, r, b, n);
        var k :| 0 <= k < |heap[r]| && heap[r][k].value == Container(c);
        assert GoodEntry(heap, heap[r][k], room - 1);
      }
    }
  }

  // ------------------------------------------------------------------------ which defect is reported

  predicate HasBadKey(heap: Heap, r: Ref) { r in heap && exists k :: 0 <= k < |heap[r]| && heap[r][k].key.NotText? }

  predicate HasBadText(heap: Heap, r: Ref) { r in heap && exists k :: 0 <= k < |heap[r]| && UnstorableInside(heap[r][k]) }

  /** The verdict names a defect that is there: within the value for keys and texts, `room` containers
      down for the depth. */
  ghost predicate Deserved(heap: Heap, v: Value, room: nat, verdict: Verdict) {
    match verdict
    case Fine => true
    case Circular => LeadsToCycle(heap, v)
    case TooDeep => v.Container? && exists b: Ref :: Reaches(heap, v.ref, b, room)
    case BadKey => v.Container? && exists b: Ref, n: nat :: Reaches(heap, v.ref, b, n) && HasBadKey(heap, b)
    case BadText =>
      || (v.Word? && !StorableText(v.text))
      || (v.Container? && exists b: Ref, n: nat :: Reaches(heap, v.ref, b, n) && HasBadText(heap, b))
  }

  /** What an entry's value deserves, its container deserves. */
  lemma DeservedOutside(heap: Heap, r: Ref, k: nat, room: nat, verdict: Verdict)
    requires r in heap && k < |heap[r]| && Deserved(heap, heap[r][k].value, room, verdict)
    ensures Deserved(heap, Container(r), room + 1, verdict)
  {
    var v := heap[r][k].value;
    assert Reaches(heap, r, r, 0);
    if v.Container? {
      OneStep(heap, r, v.ref);
      match verdict
      case Fine =>
      case Circular =>
        var a, n: nat :| Reaches(heap, v.ref, a, n) && OnCycle(heap, a);
        Compose(heap, r, v.ref, a, 1, n);
      case TooDeep =>
        var b: Ref :| Reaches(heap, v.ref, b, room);
        Compose(heap, r, v.ref, b, 1, room);
      case BadKey =>
        var b: Ref, n: nat :| Reaches(heap, v.ref, b, n) && HasBadKey(heap, b);
        Compose(heap, r, v.ref, b, 1, n);
      case BadText =>
        var b: Ref, n: nat :| Reaches(heap, v.ref, b, n) && HasBadText(heap, b);
        Compose(heap, r, v.ref, b, 1, n);
    } else if verdict.BadText? {
      assert HasBadText(heap, r);
    }
  }

  lemma {:induction false} WalkIsFair(heap: Heap, v: Value, depth: nat, path: set<Ref>)
    requires Closed(heap) && In(heap, v) && depth <= MAX_DEPTH && Ancestors(heap, path, v)
    ensures Deserved(heap, v, MAX_DEPTH - depth, Walk(heap, v, depth, path))
    decreases MAX_DEPTH - depth, 0
  {
    if v.Container? {
      if depth >= MAX_DEPTH {
        assert Reaches(heap, v.ref, v.ref, 0);
      } else if v.ref in path {
        WalkIsExact(heap, v, depth, path);
      } else {
        EntriesAreFair(heap, v.ref, 0, depth, path);
      }
    }
  }

  lemma {:induction false} EntriesAreFair(heap: Heap, r: Ref, k: nat, depth: nat, path: set<Ref>)
    requires Closed(heap) && r in heap && k <= |heap[r]| && depth < MAX_DEPTH && Ancestors(heap, path, Container(r))
    ensures Deserved(heap, Container(r), MAX_DEPTH - depth, WalkEntries(heap, r, k, depth, path + {r}))
    decreases MAX_DEPTH - depth - 1, |heap[r]| - k + 1
  {
    if k < |heap[r]| {
      assert Reaches(heap, r, r, 0);
      Deeper(heap, path, r, k);
      WalkIsFair(heap, heap[r][k].value, depth + 1, path + {r});
      DeservedOutside(heap, r, k, MAX_DEPTH - depth - 1, Walk(heap, heap[r][k].value, depth + 1, path + {r}));
      EntriesAreFair(heap, r, k + 1, depth, path);
      if heap[r][k].key.NotText? { assert HasBadKey(heap, r); }
      if UnstorableInside(heap[r][k]) { assert HasBadText(heap, r); }
    }
  }

  lemma {:induction false} WalkIsExact(heap: Heap, v: Value, depth: nat, path: set<Ref>)
    requires Closed(heap) && In(heap, v) && depth <= MAX_DEPTH && Ancestors(heap, path, v)
    ensures Walk(heap, v, depth, path).Fine? <==> Acceptable(heap, v, MAX_DEPTH - depth)
    ensures Walk(heap, v, depth, path).Circular? ==> LeadsToCycle(heap, v)
    decreases MAX_DEPTH - depth, 0
  {
    if v.Container? {
      if depth >= MAX_DEPTH {
        assert Reaches(heap, v.ref, v.ref, 0);
      } else if v.ref in path {
        var n: nat :| n > 0 && Reaches(heap, v.ref, v.ref, n);
        assert OnCycle(heap, v.ref) && Reaches(heap, v.ref, v.ref, 0);
        CyclesAreRejected(heap, v.ref, MAX_DEPTH - depth);
      } else {
        EntriesAreExact(heap, v.ref, 0, depth, path);
        var room := MAX_DEPTH - depth;
        if Acceptable(heap, v, room) {
          forall k | 0 <= k < |heap[v.ref]| ensures GoodEntry(heap, heap[v.ref][k], room - 1) {
            AcceptableInside(heap, v.ref, k, room);
          }
        } else if forall k :: 0 <= k < |heap[v.ref]| ==> GoodEntry(heap, heap[v.ref][k], room - 1) {
          AcceptableFromInside(heap, v.ref, room);
        }
      }
    }
  }

  lemma {:induction false} EntriesAreExact(heap: Heap, r: Ref, k: nat, depth: nat, path: set<Ref>)
    requires Closed(heap) && r in heap && k <= |heap[r]| && depth < MAX_DEPTH && Ancestors(heap, path, Container(r))
    ensures WalkEntries(heap, r, k, depth, path + {r}).Fine?
      <==> (forall j :: k <= j < |heap[r]| ==> GoodEntry(heap, heap[r][j], MAX_DEPTH - depth - 1))
    ensures WalkEntries(heap, r, k, depth, path + {r}).Circular? ==> LeadsToCycle(heap, Container(r))
    decreases MAX_DEPTH - depth - 1, |heap[r]| - k + 1
  {
    if k < |heap[r]| {
      var v := heap[r][k].value;
      Deeper(heap, path, r, k);
      WalkIsExact(heap, v, depth + 1, path + {r});
      EntriesAreExact(heap, r, k + 1, depth, path);
      assert GoodEntry(heap, heap[r][k], MAX_DEPTH - depth - 1)
        <==> KeyVerdict(heap[r][k].key).Fine? && Walk(heap, v, depth + 1, path + {r}).Fine?;
      if LeadsToCycle(heap, v) {
        var a, n: nat :| Reaches(heap, v.ref, a, n) && OnCycle(heap, a);
        OneStep(heap, r, v.ref);
        Compose(heap, r, v.ref, a, 1, n);
      }
    }
  }

  /** encode()'s check accepts exactly the values all of whose chains nest at most 200 containers with
      storable text and storable text keys, over any graph, however shared or cyclic. */
  lemma CheckAcceptsExactly(heap: Heap, v: Value)
    requires Closed(heap) && In(heap, v)
    ensures Walk(heap, v, 0, {}).Fine? <==> Acceptable(heap, v, 200)
  {
    WalkIsExact(heap, v, 0, {});
  }

  /** ... and where it refuses, it says why: a key that is not text, a text that cannot be stored, a chain
      of more than 200 containers, or a cycle is really there. */
  lemma VerdictsAreDeserved(heap: Heap, v: Value)
    requires Closed(heap) && In(heap, v)
    ensures Deserved(heap, v, 200, Walk(heap, v, 0, {}))
  {
    WalkIsFair(heap, v, 0, {});
  }

  /** The identity test reports a cycle only where there is one: no acyclic value is rejected for
      sharing substructure. */
  lemma SharingIsNotACycle(heap: Heap, v: Value)
    requires Closed(heap) && In(heap, v) && !LeadsToCycle(heap, v)
    ensures !Walk(heap, v, 0, {}).Circular?
  {
    WalkIsExact(heap, v, 0, {});
  }

  /** What encode() does first, with an empty path: it lets through exactly what can be stored, and the
      error it raises otherwise is deserved. */
  method CheckValue(heap: Heap, v: Value) returns (verdict: Verdict)
    requires Closed(heap) && In(heap, v)
    ensures verdict.Fine? <==> Acceptable(heap, v, 200)
    ensures Deserved(heap, v, 200, verdict)
  {
    var path := new Path();
    verdict := Check(heap, v, 0, path);
    CheckAcceptsExactly(heap, v);
    VerdictsAreDeserved(heap, v);
  }
}
