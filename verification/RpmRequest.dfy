/**
 Building a ReadPropertyMultiple request (client.go): requests are grouped by object and the
 groups printed in the order in which Go happens to iterate a map. The reader below is a
 device's view of the bytes, written with the repository's tag and unsigned decoders.
 */
module RpmRequest {
  import opened Bytes
  import opened Integers
  import opened Tags
  import opened Skipping
  import opened ReadProperty
  import opened ReadPropertyMultiple
  import opened RpmRoundTrip

  datatype ReadRequest = ReadRequest(oid: ObjectIdentifier, propertyId: uint32, arrayIndex: Option<uint32>)

  // ---- Grouping ------------------------------------------------------------

  /** The requests for one object, in the caller's order. */
  function Select(requests: seq<ReadRequest>, oid: ObjectIdentifier): (r: seq<ReadRequest>) {
    if requests == [] then []
    else
      var front, last := requests[..|requests| - 1], requests[|requests| - 1];
      Select(front, oid) + if last.oid == oid then [last] else []
  }

  function Objects(requests: seq<ReadRequest>): (oids: set<ObjectIdentifier>) {
    set r | r in requests :: r.oid
  }

  predicate Distinct(order: seq<ObjectIdentifier>) {
    forall i, j :: 0 <= i < j < |order| ==> order[i] != order[j]
  }

  /** An order in which the map may be iterated: every object once. */
  ghost predicate IsIterationOrder(order: seq<ObjectIdentifier>, requests: seq<ReadRequest>) {
    Distinct(order) && forall o :: o in order <==> o in Objects(requests)
  }

  // ---- Printing ------------------------------------------------------------

  function Item(r: ReadRequest): (s: seq<byte>) {
    EncodeContextUnsigned(0, r.propertyId)
    + if r.arrayIndex.Some? then EncodeContextUnsigned(1, r.arrayIndex.value) else []
  }

  function Items(rs: seq<ReadRequest>): (s: seq<byte>) {
    if rs == [] then [] else Items(rs[..|rs| - 1]) + Item(rs[|rs| - 1])
  }

  function Block(oid: ObjectIdentifier, rs: seq<ReadRequest>): (s: seq<byte>) {
    EncodeContextObjectId(0, oid) + EncodeOpeningTag(1) + Items(rs) + EncodeClosingTag(1)
  }

  /** One block per object, in the given order. */
  function Blocks(order: seq<ObjectIdentifier>, requests: seq<ReadRequest>): (s: seq<byte>) {
    if order == [] then []
    else
      var front, last := order[..|order| - 1], order[|order| - 1];
      Blocks(front, requests) + Block(last, Select(requests, last))
  }

  lemma SelectOne(requests: seq<ReadRequest>, i: nat, oid: ObjectIdentifier)
    requires i < |requests|
    ensures Select(requests[..i + 1], oid)
            == Select(requests[..i], oid) + if requests[i].oid == oid then [requests[i]] else []
  {
    assert requests[..i + 1][..i] == requests[..i];
  }

  lemma {:induction false} SelectAbsent(requests: seq<ReadRequest>, oid: ObjectIdentifier)
    requires oid !in Objects(requests)
    ensures Select(requests, oid) == []
  {
    if requests != [] {
      var front, last := requests[..|requests| - 1], requests[|requests| - 1];
      assert last in requests;
      assert forall r :: r in front ==> r in requests;
      SelectAbsent(front, oid);
    }
  }

  /** The grouping loop: append each request to the list of its object. */
  method GroupByObject(requests: seq<ReadRequest>) returns (groups: map<ObjectIdentifier, seq<ReadRequest>>)
    ensures groups.Keys == Objects(requests)
    ensures forall o :: o in groups ==> groups[o] == Select(requests, o)
  {
    groups := map[];
    for i := 0 to |requests|
      invariant groups.Keys == Objects(requests[..i])
      invariant forall o :: o in groups ==> groups[o] == Select(requests[..i], o)
    {
      var req := requests[i];
      forall o ensures Select(requests[..i + 1], o)
                       == Select(requests[..i], o) + if req.oid == o then [req] else []
      {
        SelectOne(requests, i, o);
      }
      if req.oid !in groups { SelectAbsent(requests[..i], req.oid); }
      assert requests[..i + 1] == requests[..i] + [req];
      assert Objects(requests[..i + 1]) == Objects(requests[..i]) + {req.oid} by {
        assert forall r :: r in requests[..i + 1] <==> r in requests[..i] || r == req;
      }
      groups := groups[req.oid := (if req.oid in groups then groups[req.oid] else []) + [req]];
    }
    assert requests[..|requests|] == requests;
  }

  method PrintGroup(oid: ObjectIdentifier, reqs: seq<ReadRequest>) returns (data: seq<byte>)
    ensures data == Block(oid, reqs)
  {
    hide EncodeContextTag, EncodeUnsigned, EncodeObjectId;
    data := EncodeContextObjectId(0, oid);
    data := data + EncodeOpeningTag(1);
    ghost var head := data;
    for i := 0 to |reqs|
      invariant data == head + Items(reqs[..i])
    {
      assert reqs[..i + 1][..i] == reqs[..i];
      data := data + EncodeContextUnsigned(0, reqs[i].propertyId);
      if reqs[i].arrayIndex.Some? {
        data := data + EncodeContextUnsigned(1, reqs[i].arrayIndex.value);
      }
    }
    assert reqs[..|reqs|] == reqs;
    data := data + EncodeClosingTag(1);
  }

  lemma BlocksSnoc(order: seq<ObjectIdentifier>, oid: ObjectIdentifier, requests: seq<ReadRequest>)
    ensures Blocks(order + [oid], requests) == Blocks(order, requests) + Block(oid, Select(requests, oid))
  {
    assert (order + [oid])[..|order|] == order;
  }

  /** Midway: `order` lists, without repetition, the objects no longer waiting. */
  ghost predicate Visited(order: seq<ObjectIdentifier>, all: set<ObjectIdentifier>, todo: set<ObjectIdentifier>) {
    Distinct(order) && forall o :: o in order <==> o in all && o !in todo
  }

  lemma VisitedSnoc(order: seq<ObjectIdentifier>, all: set<ObjectIdentifier>, todo: set<ObjectIdentifier>,
                    oid: ObjectIdentifier)
    requires todo <= all && Visited(order, all, todo) && oid in todo
    ensures Visited(order + [oid], all, todo - {oid})
  {
    assert oid !in order;
  }

  /**
   The request bytes. The map is iterated in an arbitrary order; whichever it was, the bytes are
   one block per distinct object, and a device reads back a permutation of the requests that
   keeps the caller's order within each object, exactly when every object is in range.
   */
  method BuildRequest(requests: seq<ReadRequest>) returns (data: seq<byte>)
    ensures exists order :: IsIterationOrder(order, requests) && data == Blocks(order, requests)
    ensures (forall r :: r in requests ==> InRange(r.oid)) <==>
            && ReadBlocks(data).Ok?
            && multiset(ReadBlocks(data).value) == multiset(requests)
            && forall o :: Select(ReadBlocks(data).value, o) == Select(requests, o)
  {
    hide Block, Select, Objects, Distinct, ReadBlocks;
    var groups := GroupByObject(requests);
    data := [];
    ghost var order: seq<ObjectIdentifier> := [];
    var todo := groups.Keys;
    assert Visited([], todo, todo) by { NoneVisited(todo); }
    while todo != {}
      invariant todo <= groups.Keys && Visited(order, groups.Keys, todo)
      invariant data == Blocks(order, requests)
      decreases |todo|
    {
      hide Visited, Blocks;
      var oid :| oid in todo;
      var block := PrintGroup(oid, groups[oid]);
      data := data + block;
      BlocksSnoc(order, oid, requests);
      VisitedSnoc(order, groups.Keys, todo, oid);
      order := order + [oid];
      todo := todo - {oid};
    }
    RequestRoundTrip(order, requests);
  }

  lemma NoneVisited(all: set<ObjectIdentifier>)
    ensures Visited([], all, all)
  {
  }

  // ---- Reading back --------------------------------------------------------

  /** The device's reading: blocks until the bytes end; anything malformed is refused. */
  function ReadBlocks(s: seq<byte>): (r: Result<seq<ReadRequest>>)
    decreases |s|, 0
  {
    if s == [] then Ok([])
    else
      var head := BlockHead(s);
      if head.Err? then Err else ReadItems(head.value.0, head.value.1)
  }

  function ReadItems(oid: ObjectIdentifier, s: seq<byte>): (r: Result<seq<ReadRequest>>)
    decreases |s|, 1
  {
    if StartsWithClosing(s, 1) then ReadBlocks(s[1..])
    else
      var f := ContextField(s, 0);
      if f.Err? then Err
      else
        var (index, rest) := OptionalIndex(f.value.1, 1);
        var more := ReadItems(oid, rest);
        if more.Err? then Err
        else Ok([ReadRequest(oid, DecodeUnsigned(f.value.0), index)] + more.value)
  }

  function Prefixed(rs: seq<ReadRequest>, r: Result<seq<ReadRequest>>): (r': Result<seq<ReadRequest>>) {
    if r.Err? then Err else Ok(rs + r.value)
  }

  /** What may follow an item: another item, or the end of the block. */
  predicate NoIndexAhead(s: seq<byte>) {
    ContextField(s, 1).Err?
  }

  lemma ClosingIsNoField(rest: seq<byte>)
    ensures NoIndexAhead(EncodeClosingTag(1) + rest) && StartsWithClosing(EncodeClosingTag(1) + rest, 1)
    ensures (EncodeClosingTag(1) + rest)[1..] == rest
  {
    BracketRoundTrip(1, rest);
  }

  lemma ItemIsNoIndex(r: ReadRequest, rest: seq<byte>)
    ensures NoIndexAhead(Item(r) + rest)
  {
    hide EncodeUnsigned, EncodeContextTag, ContextField;
    var tail := (if r.arrayIndex.Some? then EncodeContextUnsigned(1, r.arrayIndex.value) else []) + rest;
    assert Item(r) + rest == EncodeContextUnsigned(0, r.propertyId) + tail;
    FieldRoundTrip(0, EncodeUnsigned(r.propertyId), tail);
  }

  lemma ItemReadBack(oid: ObjectIdentifier, r: ReadRequest, rest: seq<byte>)
    requires r.oid == oid && NoIndexAhead(rest)
    ensures ReadItems(oid, Item(r) + rest) == Prefixed([r], ReadItems(oid, rest))
  {
    hide EncodeUnsigned, DecodeUnsigned, EncodeContextTag, ContextField, OptionalIndex, StartsWithClosing, ReadBlocks;
    var tail := PrintIndex(1, r.arrayIndex, rest);
    assert Item(r) + rest == EncodeContextUnsigned(0, r.propertyId) + tail;
    FieldRoundTrip(0, EncodeUnsigned(r.propertyId), tail);
    FieldIsNotClosing(0, EncodeUnsigned(r.propertyId), tail, 1);
    UnsignedRoundTrip(r.propertyId);
    IndexRoundTrip(1, r.arrayIndex, rest);
  }

  lemma {:induction false} ItemsReadBack(oid: ObjectIdentifier, rs: seq<ReadRequest>, rest: seq<byte>)
    requires forall r :: r in rs ==> r.oid == oid
    requires NoIndexAhead(rest)
    ensures ReadItems(oid, Items(rs) + rest) == Prefixed(rs, ReadItems(oid, rest))
  {
    hide Item, ReadItems, NoIndexAhead;
    if rs == [] {
      assert Items(rs) + rest == rest;
      if ReadItems(oid, rest).Ok? { assert rs + ReadItems(oid, rest).value == ReadItems(oid, rest).value; }
    } else {
      var front, last := rs[..|rs| - 1], rs[|rs| - 1];
      assert last in rs && forall r :: r in front ==> r in rs;
      assert Items(rs) + rest == Items(front) + (Item(last) + rest);
      ItemReadBack(oid, last, rest);
      ItemIsNoIndex(last, rest);
      ItemsReadBack(oid, front, Item(last) + rest);
      if ReadItems(oid, rest).Ok? {
        assert rs == front + [last];
        assert front + ([last] + ReadItems(oid, rest).value) == rs + ReadItems(oid, rest).value;
      }
    }
  }

  lemma CloseReadBack(oid: ObjectIdentifier, rest: seq<byte>)
    ensures NoIndexAhead(EncodeClosingTag(1) + rest)
    ensures ReadItems(oid, EncodeClosingTag(1) + rest) == ReadBlocks(rest)
  {
    hide EncodeClosingTag, StartsWithClosing, ReadBlocks, ContextField;
    ClosingIsNoField(rest);
  }

  lemma ReadBlocksUnfold(s: seq<byte>)
    requires s != [] && BlockHead(s).Ok?
    ensures ReadBlocks(s) == ReadItems(BlockHead(s).value.0, BlockHead(s).value.1)
  {
  }

  lemma BlockParts(oid: ObjectIdentifier, rs: seq<ReadRequest>, rest: seq<byte>)
    ensures Block(oid, rs) + rest
            == EncodeContextObjectId(0, oid) + Print(Opening(1), Items(rs) + (EncodeClosingTag(1) + rest))
  {
    hide EncodeContextObjectId, EncodeOpeningTag, EncodeClosingTag, Items;
  }

  lemma BlockReadBack(oid: ObjectIdentifier, rs: seq<ReadRequest>, rest: seq<byte>)
    requires InRange(oid) && forall r :: r in rs ==> r.oid == oid
    ensures ReadBlocks(Block(oid, rs) + rest) == Prefixed(rs, ReadBlocks(rest))
  {
    var close := EncodeClosingTag(1) + rest;
    hide Items, ReadItems, ReadBlocks, NoIndexAhead, EncodeContextObjectId, EncodeClosingTag, Block, Print,
      BlockHead, StartsWithClosing;
    CloseReadBack(oid, rest);
    ItemsReadBack(oid, rs, close);
    HeadReadBack(oid, Items(rs) + close);
    BlockParts(oid, rs, rest);
    ReadBlocksUnfold(Block(oid, rs) + rest);
  }

  lemma HeadReadBack(oid: ObjectIdentifier, rest: seq<byte>)
    requires InRange(oid)
    ensures BlockHead(EncodeContextObjectId(0, oid) + Print(Opening(1), rest)) == Ok((oid, rest))
    ensures EncodeContextObjectId(0, oid) + Print(Opening(1), rest) != []
  {
    hide EncodeContextTag, EncodeObjectId, Print, ContextField, StartsWithOpening, BigEndian32, DecodeObjectId;
    var tail := Print(Opening(1), rest);
    FieldRoundTrip(0, EncodeObjectId(oid), tail);
    OpeningIsNoField(1, rest, 1);
    OneByteOpening(1, rest);
    ObjectIdBytes(oid);
  }

  /** The requests, object by object in the order of iteration. */
  function Regrouped(order: seq<ObjectIdentifier>, requests: seq<ReadRequest>): (r: seq<ReadRequest>) {
    if order == [] then []
    else Regrouped(order[..|order| - 1], requests) + Select(requests, order[|order| - 1])
  }

  lemma {:induction false} SelectIsOwn(requests: seq<ReadRequest>, oid: ObjectIdentifier)
    ensures forall r :: r in Select(requests, oid) ==> r.oid == oid && r in requests
  {
    if requests != [] {
      SelectIsOwn(requests[..|requests| - 1], oid);
    }
  }

  lemma {:induction false} BlocksReadBack(order: seq<ObjectIdentifier>, requests: seq<ReadRequest>, rest: seq<byte>)
    requires forall o :: o in order ==> InRange(o)
    ensures ReadBlocks(Blocks(order, requests) + rest) == Prefixed(Regrouped(order, requests), ReadBlocks(rest))
  {
    hide Block, ReadBlocks, Select;
    if order == [] {
      assert Blocks(order, requests) + rest == rest;
      if ReadBlocks(rest).Ok? { assert [] + ReadBlocks(rest).value == ReadBlocks(rest).value; }
    } else {
      var front, last := order[..|order| - 1], order[|order| - 1];
      assert last in order && forall o :: o in front ==> o in order;
      var block := Block(last, Select(requests, last));
      assert Blocks(order, requests) + rest == Blocks(front, requests) + (block + rest);
      SelectIsOwn(requests, last);
      BlockReadBack(last, Select(requests, last), rest);
      BlocksReadBack(front, requests, block + rest);
      if ReadBlocks(rest).Ok? {
        assert Regrouped(front, requests) + (Select(requests, last) + ReadBlocks(rest).value)
               == Regrouped(order, requests) + ReadBlocks(rest).value;
      }
    }
  }

  // ---- Nothing lost, nothing reordered within an object --------------------

  lemma {:induction false} SelectConcat(a: seq<ReadRequest>, b: seq<ReadRequest>, oid: ObjectIdentifier)
    ensures Select(a + b, oid) == Select(a, oid) + Select(b, oid)
  {
    if b == [] {
      assert a + b == a;
    } else {
      var front, last := b[..|b| - 1], b[|b| - 1];
      assert (a + b)[..|a + b| - 1] == a + front;
      SelectConcat(a, front, oid);
    }
  }

  lemma {:induction false} SelectSelect(requests: seq<ReadRequest>, p: ObjectIdentifier, o: ObjectIdentifier)
    ensures Select(Select(requests, p), o) == if p == o then Select(requests, o) else []
  {
    if requests != [] {
      var front, last := requests[..|requests| - 1], requests[|requests| - 1];
      SelectSelect(front, p, o);
      var tail: seq<ReadRequest> := if last.oid == p then [last] else [];
      SelectConcat(Select(front, p), tail, o);
      assert Select(tail, o) == if last.oid == p && p == o then [last] else [] by {
        if last.oid == p { assert [last][..0] == []; }
      }
    }
  }

  lemma {:induction false} RegroupedSelect(order: seq<ObjectIdentifier>, requests: seq<ReadRequest>,
                                           o: ObjectIdentifier)
    requires Distinct(order)
    ensures Select(Regrouped(order, requests), o) == if o in order then Select(requests, o) else []
  {
    if order != [] {
      var front, last := order[..|order| - 1], order[|order| - 1];
      assert order == front + [last];
      RegroupedSelect(front, requests, o);
      SelectConcat(Regrouped(front, requests), Select(requests, last), o);
      SelectSelect(requests, last, o);
      assert o in order <==> o in front || o == last;
      assert last !in front;
    }
  }

  lemma {:induction false} SelectCounts(requests: seq<ReadRequest>, r: ReadRequest)
    ensures multiset(requests)[r] == multiset(Select(requests, r.oid))[r]
  {
    if requests != [] {
      var front, last := requests[..|requests| - 1], requests[|requests| - 1];
      assert requests == front + [last];
      SelectCounts(front, r);
      assert multiset(requests) == multiset(front) + multiset([last]);
      assert Select(requests, r.oid) == Select(front, r.oid) + if last.oid == r.oid then [last] else [];
    }
  }

  /** Two lists that agree object by object are permutations of each other. */
  lemma SameSelectionsPermute(a: seq<ReadRequest>, b: seq<ReadRequest>)
    requires forall o :: Select(a, o) == Select(b, o)
    ensures multiset(a) == multiset(b)
  {
    forall r: ReadRequest ensures multiset(a)[r] == multiset(b)[r] {
      SelectCounts(a, r);
      SelectCounts(b, r);
    }
  }

  /** Everything a device reads names an object in range: the wire has 10 and 22 bits. */
  lemma {:induction false} ReadInRange(s: seq<byte>, oid: ObjectIdentifier)
    requires InRange(oid)
    ensures ReadBlocks(s).Ok? ==> forall r :: r in ReadBlocks(s).value ==> InRange(r.oid)
    ensures ReadItems(oid, s).Ok? ==> forall r :: r in ReadItems(oid, s).value ==> InRange(r.oid)
    decreases |s|
  {
    hide ContextField, StartsWithClosing, StartsWithOpening, DecodeUnsigned, BigEndian32, OptionalIndex, DecodeObjectId;
    if s != [] && BlockHead(s).Ok? { HeadInRange(s); ReadInRange(BlockHead(s).value.1, BlockHead(s).value.0); }
    if StartsWithClosing(s, 1) {
      ReadInRange(s[1..], oid);
    } else if ContextField(s, 0).Ok? {
      ReadInRange(OptionalIndex(ContextField(s, 0).value.1, 1).1, oid);
    }
  }

  lemma HeadInRange(s: seq<byte>)
    requires BlockHead(s).Ok?
    ensures InRange(BlockHead(s).value.0)
  {
    hide ContextField, StartsWithOpening;
  }

  /**
   Whatever order the map is iterated in, a device reads back a permutation of the requests
   that keeps the caller's order within each object, exactly when every object is in range.
   */
  lemma RequestRoundTrip(order: seq<ObjectIdentifier>, requests: seq<ReadRequest>)
    requires IsIterationOrder(order, requests)
    ensures var back := ReadBlocks(Blocks(order, requests));
            (forall r :: r in requests ==> InRange(r.oid)) <==>
            && back.Ok?
            && multiset(back.value) == multiset(requests)
            && forall o :: Select(back.value, o) == Select(requests, o)
  {
    if forall r :: r in requests ==> InRange(r.oid) {
      InRangeRoundTrip(order, requests);
    } else {
      var r :| r in requests && !InRange(r.oid);
      var back := ReadBlocks(Blocks(order, requests));
      ReadInRange(Blocks(order, requests), ObjectIdentifier(0, 0));
      assert back.Ok? ==> multiset(back.value)[r] == 0;
      assert multiset(requests)[r] > 0;
    }
  }

  lemma InRangeRoundTrip(order: seq<ObjectIdentifier>, requests: seq<ReadRequest>)
    requires IsIterationOrder(order, requests)
    requires forall r :: r in requests ==> InRange(r.oid)
    ensures var back := ReadBlocks(Blocks(order, requests));
            && back.Ok?
            && multiset(back.value) == multiset(requests)
            && forall o :: Select(back.value, o) == Select(requests, o)
  {
    hide ReadBlocks, Blocks, Select;
    forall o | o in order ensures InRange(o) {
      assert o in Objects(requests);
    }
    assert Blocks(order, requests) + [] == Blocks(order, requests);
    BlocksReadBack(order, requests, []);
    NothingToRead();
    var back := Regrouped(order, requests);
    assert back + [] == back;
    forall o ensures Select(back, o) == Select(requests, o) {
      RegroupedSelect(order, requests, o);
      if o !in order {
        SelectAbsent(requests, o);
      }
    }
    SameSelectionsPermute(back, requests);
  }

  lemma NothingToRead()
    ensures ReadBlocks([]) == Ok([])
  {
  }
}
