/** Moving variables from a group of senders to a group of receivers: every sender packs one message
    for each of its partners, every receiver joins the messages of its partners. */
module Redistribution {
  import opened Arithmetic
  import opened Bytes
  import opened Buffers
  import opened Partners
  import opened StridedArray

  datatype Variable = Variable(name: string, kind: string)

  /** A scalar of some bytes, or one of the parallel arrays that a variable names. */
  datatype Item = ScalarItem(name: string, width: nat) | ArrayItem(name: string)

  /** The parts of a text between the commas, without an empty last one. */
  function Split(s: string): seq<string>
    decreases |s|
  {
    if s == [] then [] else
      var i := FirstComma(s);
      if i == |s| then [s] else [s[..i]] + Split(s[i + 1..])
  }

  function FirstComma(s: string): (i: nat)
    ensures i <= |s| && ',' !in s[..i] && (i < |s| ==> s[i] == ',')
  {
    if s == [] || s[0] == ',' then 0 else
      var k := FirstComma(s[1..]);
      assert s[..k + 1] == [s[0]] + s[1..][..k];
      k + 1
  }

  /** The parts with commas between them. */
  function Commas(parts: seq<string>): string {
    if parts == [] then ""
    else if |parts| == 1 then parts[0]
    else parts[0] + [','] + Commas(parts[1..])
  }

  /** Joined again, the parts are the text, less one comma at its end; none of them has a comma. */
  lemma {:induction false} SplitJoins(s: string)
    ensures var parts := Split(s);
      (parts == [] <==> s == "") && (forall i :: 0 <= i < |parts| ==> ',' !in parts[i]) &&
      s == Commas(parts) + if s != "" && s[|s| - 1] == ',' then [','] else []
    decreases |s|
  {
    var i := FirstComma(s);
    if s == [] || i == |s| {
      assert s[..|s|] == s;
    } else {
      var first, rest := s[..i], s[i + 1..];
      SplitJoins(rest);
      assert s == first + [','] + rest;
      CommaBefore(first, rest, Split(rest));
    }
  }

  lemma CommaBefore(first: string, rest: string, parts: seq<string>)
    requires parts == [] <==> rest == ""
    requires rest == Commas(parts) + if rest != "" && rest[|rest| - 1] == ',' then [','] else []
    ensures var s := first + [','] + rest;
      s == Commas([first] + parts) + if s[|s| - 1] == ',' then [','] else []
  {
    var all := [first] + parts;
    assert all[1..] == parts;
    if parts == [] {
    } else {
      var tail := if rest[|rest| - 1] == ',' then [','] else [];
      assert first + [','] + (Commas(parts) + tail) == (first + [','] + Commas(parts)) + tail;
    }
  }

  function ItemsOf(v: Variable): seq<Item> {
    if v.kind == "int" then [ScalarItem(v.name, 4)]
    else if v.kind == "size_t" then [ScalarItem(v.name, 8)]
    else if v.kind == "float" then [ScalarItem(v.name, 4)]
    else if v.kind == "double" then [ScalarItem(v.name, 8)]
    else if v.kind == "array" then
      var names := Split(v.name);
      seq(|names|, i requires 0 <= i < |names| => ArrayItem(names[i]))
    else []
  }

  /** What both loops over the variables of the command line go through; an unknown kind is passed over. */
  function Items(variables: seq<Variable>): seq<Item> {
    if variables == [] then []
    else Items(variables[..|variables| - 1]) + ItemsOf(variables[|variables| - 1])
  }

  lemma {:induction false} ItemsJoin(a: seq<Variable>, b: seq<Variable>)
    ensures Items(a + b) == Items(a) + Items(b)
  {
    if b == [] {
      assert a + b == a;
    } else {
      var front, last := b[..|b| - 1], b[|b| - 1];
      assert a + b == (a + front) + [last] && b == front + [last];
      ItemsJoin(a, front);
      ItemsStep(a + front, last);
      ItemsStep(front, last);
      ItemsAssociate(Items(a), Items(front), ItemsOf(last));
    }
  }

  lemma ItemsStep(variables: seq<Variable>, v: Variable)
    ensures Items(variables + [v]) == Items(variables) + ItemsOf(v)
  {
    assert (variables + [v])[..|variables|] == variables;
  }

  lemma ItemsAssociate(a: seq<Item>, b: seq<Item>, c: seq<Item>)
    ensures (a + b) + c == a + (b + c)
  {
  }

  /** What one variable of the command line stands for: a scalar of the width of its kind, or one array for
      each name between the commas, in order; an unknown kind for nothing. `ItemsJoin` has the rest. */
  lemma ItemsOfOne(v: Variable)
    ensures v.kind == "int" || v.kind == "float" ==> Items([v]) == [ScalarItem(v.name, 4)]
    ensures v.kind == "size_t" || v.kind == "double" ==> Items([v]) == [ScalarItem(v.name, 8)]
    ensures v.kind == "array" ==> ArraysOf(Items([v]), Split(v.name))
    ensures v.kind !in ["int", "float", "size_t", "double", "array"] ==> Items([v]) == []
  {
    ItemsStep([], v);
    assert [] + [v] == [v];
    KindsDiffer(v.kind);
  }

  predicate ArraysOf(items: seq<Item>, names: seq<string>) {
    |items| == |names| && forall i :: 0 <= i < |items| ==> items[i] == ArrayItem(names[i])
  }

  lemma KindsDiffer(kind: string)
    ensures kind == "size_t" ==> kind != "int" && kind != "float" && kind != "double"
    ensures kind == "double" ==> kind != "int" && kind != "float" && kind != "size_t"
    ensures kind == "array" ==> kind != "int" && kind != "float" && kind != "size_t" && kind != "double"
    ensures kind == "float" ==> kind != "int" && kind != "size_t"
  {
    if kind == "size_t" { assert kind[0] == 's'; }
    if kind == "double" { assert kind[0] == 'd'; }
    if kind == "array" { assert kind[0] == 'a'; }
    if kind == "float" { assert kind[0] == 'f'; }
    if kind == "int" { assert kind[0] == 'i'; }
  }

  /** One variable in a message. */
  datatype Field = ScalarField(bytes: seq<Byte>) | ArrayField(count: nat, size: nat, data: seq<Byte>)

  function FieldBytes(f: Field): seq<Byte> {
    match f
    case ScalarField(b) => b
    case ArrayField(count, size, data) => SizeBytes(count) + SizeBytes(size) + data
  }

  /** How a variable lies in a message: a scalar as it is, an array behind its count and its element size,
      eight bytes each. */
  lemma FieldLayout(bytes: seq<Byte>, count: nat, size: nat, data: seq<Byte>)
    ensures FieldBytes(ScalarField(bytes)) == bytes
    ensures FieldBytes(ArrayField(count, size, data)) == Encode(8, count) + Encode(8, size) + data
  {
  }

  function Parts(fields: seq<Field>): (parts: seq<seq<Byte>>)
    ensures |parts| == |fields|
  {
    seq(|fields|, j requires 0 <= j < |fields| => FieldBytes(fields[j]))
  }

  function MessageBytes(fields: seq<Field>): seq<Byte> {
    Flatten(Parts(fields))
  }

  predicate Fits(item: Item, f: Field) {
    match item
    case ScalarItem(_, width) => f.ScalarField? && |f.bytes| == width
    case ArrayItem(_) => f.ArrayField? && |f.data| == Times(f.count, f.size) && IsSize(f.count) && IsSize(f.size)
  }

  predicate AllFit(items: seq<Item>, fields: seq<Field>) {
    |fields| == |items| && forall j :: 0 <= j < |items| ==> Fits(items[j], fields[j])
  }

  // The sender.

  /** The named data of one sender. */
  datatype Source = Source(values: map<string, seq<Byte>>, arrays: map<string, Strided>)

  ghost predicate Has(source: Source, item: Item) {
    match item
    case ScalarItem(name, width) => name in source.values && |source.values[name]| == width
    case ArrayItem(name) =>
      name in source.arrays && source.arrays[name].Valid() &&
      IsSize(source.arrays[name].count) && IsSize(source.arrays[name].size)
  }

  ghost predicate HasAll(source: Source, items: seq<Item>) {
    forall j :: 0 <= j < |items| ==> Has(source, items[j])
  }

  /** Where the slice for the `r`-th of `k` partners begins, and the one before it ends. */
  function Bound(count: nat, k: nat, r: nat): nat
    requires k > 0
  {
    if r == k then count else Times(r, Quotient(count, k))
  }

  lemma BoundOrder(count: nat, k: nat, r: nat)
    requires r < k
    ensures Bound(count, k, r) <= Bound(count, k, r + 1) <= count
    ensures Bound(count, k, 0) == 0
  {
    var q := Quotient(count, k);
    QuotientBounds(count, k);
    TimesCommutes(q, k);
    TimesMonotone(r, r + 1, q);
    if r + 1 < k { TimesMonotone(r + 1, k, q); }
  }

  /** What the sender writes about an item for its `r`-th of `k` partners. */
  ghost function FieldOf(source: Source, item: Item, r: nat, k: nat): Field
    requires Has(source, item) && r < k
  {
    match item
    case ScalarItem(name, _) => ScalarField(source.values[name])
    case ArrayItem(name) =>
      var a := source.arrays[name];
      var from, to := Bound(a.count, k, r), Bound(a.count, k, r + 1);
      BoundOrder(a.count, k, r);
      ArrayField(to - from, a.size, a.Packed(from, to))
  }

  ghost function FieldsOf(source: Source, items: seq<Item>, r: nat, k: nat): (fields: seq<Field>)
    requires HasAll(source, items) && r < k
    ensures |fields| == |items|
  {
    seq(|items|, j requires 0 <= j < |items| => FieldOf(source, items[j], r, k))
  }

  lemma FieldsFit(source: Source, items: seq<Item>, r: nat, k: nat)
    requires HasAll(source, items) && r < k
    ensures AllFit(items, FieldsOf(source, items, r, k))
  {
    forall j | 0 <= j < |items| ensures Fits(items[j], FieldOf(source, items[j], r, k)) {
      assert Has(source, items[j]);
      if items[j].ArrayItem? {
        var a := source.arrays[items[j].name];
        BoundOrder(a.count, k, r);
        PackedLength(a, Bound(a.count, k, r), Bound(a.count, k, r + 1));
      }
    }
  }

  /** Writing at the end of a buffer. */
  method Write(b: MemoryBuffer, x: seq<Byte>)
    requires b.position == |b.buffer|
    modifies b
    ensures b.position == |b.buffer| && b.buffer == old(b.buffer) + x
  {
    b.SaveBinary(x);
  }

  /** The message for the `r`-th of `k` partners. */
  method Pack(source: Source, variables: seq<Variable>, r: nat, k: nat) returns (b: MemoryBuffer)
    requires HasAll(source, Items(variables)) && r < k
    ensures fresh(b) && b.buffer == MessageBytes(FieldsOf(source, Items(variables), r, k)) && b.position == |b.buffer|
  {
    var items := Items(variables);
    b := new MemoryBuffer();
    ghost var parts := Parts(FieldsOf(source, items, r, k));
    for j := 0 to |items|
      invariant fresh(b) && b.buffer == Flatten(parts[..j]) && b.position == |b.buffer|
    {
      FlattenStep(parts, j);
      PackItem(b, source, items[j], r, k);
    }
    assert parts[..|items|] == parts;
  }

  method PackItem(b: MemoryBuffer, source: Source, item: Item, r: nat, k: nat)
    requires Has(source, item) && r < k && b.position == |b.buffer|
    modifies b
    ensures b.position == |b.buffer| && b.buffer == old(b.buffer) + FieldBytes(FieldOf(source, item, r, k))
  {
    if item.ScalarItem? {
      Write(b, source.values[item.name]);
    } else {
      var a := source.arrays[item.name];
      var from, to := SliceBounds(a.count, k, r);
      FieldOfArray(source, item, r, k, from, to);
      PackArray(b, a, from, to);
    }
  }

  lemma FieldOfArray(source: Source, item: Item, r: nat, k: nat, from: nat, to: nat)
    requires Has(source, item) && item.ArrayItem? && r < k
    requires var a := source.arrays[item.name];
      from == Bound(a.count, k, r) <= to == Bound(a.count, k, r + 1) <= a.count
    ensures var a := source.arrays[item.name];
      FieldOf(source, item, r, k) == ArrayField(to - from, a.size, a.Packed(from, to))
  {
  }

  /** Every partner gets as many elements, and the last one the remainder as well. */
  method SliceBounds(count: nat, k: nat, r: nat) returns (from: nat, to: nat)
    requires r < k
    ensures from == Bound(count, k, r) <= to == Bound(count, k, r + 1) <= count
    ensures from == r * (count / k) && to - from == count / k + if r + 1 == k then count % k else 0
  {
    BoundOrder(count, k, r);
    QuotientIs(count, k);
    TimesIs(r, count / k);
    TimesIs(r + 1, count / k);
    from := r * (count / k);
    to := if r + 1 == k then count else (r + 1) * (count / k);
    LastSlice(count, k, r);
  }

  lemma LastSlice(count: nat, k: nat, r: nat)
    requires r < k
    ensures (r + 1) * (count / k) == r * (count / k) + count / k
    ensures r + 1 == k ==> count == r * (count / k) + count / k + count % k
  {
    DivisionRest(count, k);
    var q := count / k;
    assert (r + 1) * q == r * q + q;
    assert r + 1 == k ==> k * q == (r + 1) * q;
  }

  method PackArray(b: MemoryBuffer, a: Strided, from: nat, to: nat)
    requires a.Valid() && from <= to <= a.count && b.position == |b.buffer|
    modifies b
    ensures b.position == |b.buffer|
    ensures b.buffer == old(b.buffer) + FieldBytes(ArrayField(to - from, a.size, a.Packed(from, to)))
  {
    var count, size := SizeBytes(to - from), SizeBytes(a.size);
    PackSizes(b, count, size);
    PackRange(b, a, from, to);
    Joined(old(b.buffer), count + size, a.Packed(from, to));
  }

  lemma Joined(x: seq<Byte>, y: seq<Byte>, z: seq<Byte>)
    ensures (x + y) + z == x + (y + z)
  {
  }

  method PackSizes(b: MemoryBuffer, count: seq<Byte>, size: seq<Byte>)
    requires b.position == |b.buffer|
    modifies b
    ensures b.position == |b.buffer| && b.buffer == old(b.buffer) + (count + size)
  {
    Write(b, count);
    Write(b, size);
  }

  method PackRange(b: MemoryBuffer, a: Strided, from: nat, to: nat)
    requires a.Valid() && from <= to <= a.count && b.position == |b.buffer|
    modifies b
    ensures b.position == |b.buffer| && b.buffer == old(b.buffer) + a.Packed(from, to)
  {
    for i := from to to
      invariant b.position == |b.buffer| && b.buffer == old(b.buffer) + a.Packed(from, i)
    {
      PackElement(b, a, i);
    }
  }

  method PackElement(b: MemoryBuffer, a: Strided, i: nat)
    requires a.Valid() && i < a.count && b.position == |b.buffer|
    modifies b
    ensures b.position == |b.buffer| && b.buffer == old(b.buffer) + a.Element(i)
  {
    TimesIs(i, a.stride);
    Write(b, a.memory[i * a.stride..][..a.size]);
  }

  // The receiver.

  /** What has been joined of one array: `size` is that of the last message. */
  datatype Column = Column(data: seq<Byte>, count: nat, size: nat) {
    function Extend(f: Field): Column
      requires f.ArrayField?
    {
      Column(data + f.data, count + f.count, f.size)
    }

    function AsArray(): Strided {
      Strided(data, size, count, size)
    }
  }

  predicate WellFormed(items: seq<Item>, buffers: seq<seq<Byte>>, messages: seq<seq<Field>>) {
    |buffers| == |messages| &&
    forall i :: 0 <= i < |messages| ==> AllFit(items, messages[i]) && buffers[i] == MessageBytes(messages[i])
  }

  predicate AllWellFormed(items: seq<Item>, messages: seq<seq<Field>>) {
    forall i :: 0 <= i < |messages| ==> AllFit(items, messages[i])
  }

  /** Array item `j` as joined from the messages. */
  function ColumnOf(items: seq<Item>, messages: seq<seq<Field>>, j: nat): Column
    requires AllWellFormed(items, messages) && j < |items| && items[j].ArrayItem?
  {
    if messages == [] then Column([], 0, 0)
    else
      var n := |messages| - 1;
      assert Fits(items[j], messages[n][j]);
      ColumnOf(items, messages[..n], j).Extend(messages[n][j])
  }

  /** The columns of the arrays among the first `j` items. */
  function Columns(items: seq<Item>, messages: seq<seq<Field>>, j: nat): seq<Column>
    requires AllWellFormed(items, messages) && j <= |items|
  {
    if j == 0 then []
    else Columns(items, messages, j - 1) + if items[j - 1].ArrayItem? then [ColumnOf(items, messages, j - 1)] else []
  }

  /** The arrays that are saved, by name, for the first `j` items. */
  function SavedArrays(items: seq<Item>, messages: seq<seq<Field>>, j: nat): seq<(string, Strided)>
    requires AllWellFormed(items, messages) && j <= |items|
  {
    if j == 0 then []
    else
      SavedArrays(items, messages, j - 1) +
      if items[j - 1].ArrayItem? then [(items[j - 1].name, ColumnOf(items, messages, j - 1).AsArray())] else []
  }

  /** The scalars of one message that are saved for the first `j` items. */
  function ScalarsOf(items: seq<Item>, message: seq<Field>, j: nat): seq<(string, seq<Byte>)>
    requires AllFit(items, message) && j <= |items|
  {
    if j == 0 then []
    else
      assert Fits(items[j - 1], message[j - 1]);
      ScalarsOf(items, message, j - 1) +
      if items[j - 1].ScalarItem? then [(items[j - 1].name, message[j - 1].bytes)] else []
  }

  /** The scalars of every message, one message after the other. */
  function SavedScalars(items: seq<Item>, messages: seq<seq<Field>>): seq<(string, seq<Byte>)>
    requires AllWellFormed(items, messages)
  {
    if messages == [] then []
    else
      var n := |messages| - 1;
      SavedScalars(items, messages[..n]) + ScalarsOf(items, messages[n], |items|)
  }

  /** How many of the first `j` items are scalars, and how many are arrays. */
  function ScalarCount(items: seq<Item>, j: nat): nat
    requires j <= |items|
  {
    if j == 0 then 0 else ScalarCount(items, j - 1) + if items[j - 1].ScalarItem? then 1 else 0
  }

  function ArrayCount(items: seq<Item>, j: nat): nat
    requires j <= |items|
  {
    if j == 0 then 0 else ArrayCount(items, j - 1) + if items[j - 1].ArrayItem? then 1 else 0
  }

  /** Every array is saved once, in order, under its own name. */
  lemma {:induction false} SavedArrayAt(items: seq<Item>, messages: seq<seq<Field>>, j: nat, m: nat)
    requires AllWellFormed(items, messages) && j < m <= |items| && items[j].ArrayItem?
    ensures |SavedArrays(items, messages, m)| == ArrayCount(items, m) && ArrayCount(items, j) < ArrayCount(items, m)
    ensures SavedArrays(items, messages, m)[ArrayCount(items, j)] ==
      (items[j].name, ColumnOf(items, messages, j).AsArray())
  {
    SavedArraysLength(items, messages, m - 1);
    if j == m - 1 {
    } else {
      SavedArrayAt(items, messages, j, m - 1);
    }
  }

  lemma {:induction false} SavedArraysLength(items: seq<Item>, messages: seq<seq<Field>>, m: nat)
    requires AllWellFormed(items, messages) && m <= |items|
    ensures |SavedArrays(items, messages, m)| == ArrayCount(items, m)
  {
    if m == 0 {
    } else {
      SavedArraysLength(items, messages, m - 1);
    }
  }

  lemma {:induction false} ScalarsLength(items: seq<Item>, message: seq<Field>, m: nat)
    requires AllFit(items, message) && m <= |items|
    ensures |ScalarsOf(items, message, m)| == ScalarCount(items, m)
  {
    if m == 0 {
    } else {
      ScalarsLength(items, message, m - 1);
    }
  }

  lemma {:induction false} ScalarAt(items: seq<Item>, message: seq<Field>, j: nat, m: nat)
    requires AllFit(items, message) && j < m <= |items| && items[j].ScalarItem?
    ensures message[j].ScalarField?
    ensures |ScalarsOf(items, message, m)| == ScalarCount(items, m) && ScalarCount(items, j) < ScalarCount(items, m)
    ensures ScalarsOf(items, message, m)[ScalarCount(items, j)] == (items[j].name, message[j].bytes)
  {
    ScalarsLength(items, message, m - 1);
    assert Fits(items[j], message[j]);
    if j == m - 1 {
    } else {
      ScalarAt(items, message, j, m - 1);
    }
  }

  /** Every scalar of every message is saved, one message after the other, under its name. */
  lemma {:induction false} SavedScalarAt(items: seq<Item>, messages: seq<seq<Field>>, i: nat, j: nat)
    requires AllWellFormed(items, messages) && i < |messages| && j < |items| && items[j].ScalarItem?
    ensures messages[i][j].ScalarField?
    ensures var n, at := ScalarCount(items, |items|), Times(i, ScalarCount(items, |items|)) + ScalarCount(items, j);
      |SavedScalars(items, messages)| == Times(|messages|, n) && at < Times(|messages|, n) &&
      SavedScalars(items, messages)[at] == (items[j].name, messages[i][j].bytes)
  {
    var k, n := |messages| - 1, ScalarCount(items, |items|);
    SavedScalarsLength(items, messages[..k]);
    ScalarAt(items, messages[i], j, |items|);
    ScalarsLength(items, messages[k], |items|);
    if i == k {
    } else {
      SavedScalarAt(items, messages[..k], i, j);
    }
  }

  lemma {:induction false} SavedScalarsLength(items: seq<Item>, messages: seq<seq<Field>>)
    requires AllWellFormed(items, messages)
    ensures |SavedScalars(items, messages)| == Times(|messages|, ScalarCount(items, |items|))
  {
    if messages == [] {
    } else {
      SavedScalarsLength(items, messages[..|messages| - 1]);
      ScalarsLength(items, messages[|messages| - 1], |items|);
    }
  }

  /** The column of array item `j` stands behind those of the arrays before it. */
  lemma {:induction false} ColumnAt(items: seq<Item>, messages: seq<seq<Field>>, j: nat, m: nat)
    requires AllWellFormed(items, messages) && j < m <= |items| && items[j].ArrayItem?
    ensures var x := |Columns(items, messages, j)|;
      x < |Columns(items, messages, m)| && Columns(items, messages, m)[x] == ColumnOf(items, messages, j)
  {
    if j < m - 1 { ColumnAt(items, messages, j, m - 1); }
  }

  lemma {:induction false} ColumnsLength(items: seq<Item>, a: seq<seq<Field>>, b: seq<seq<Field>>, j: nat)
    requires AllWellFormed(items, a) && AllWellFormed(items, b) && j <= |items|
    ensures |Columns(items, a, j)| == |Columns(items, b, j)|
  {
    if j == 0 {
    } else {
      ColumnsLength(items, a, b, j - 1);
    }
  }

  /** Reads what stands in the buffer for an item. */
  method ReadField(item: Item, buffer: seq<Byte>, position: nat, ghost f: Field) returns (field: Field, next: nat)
    requires Fits(item, f) && position + |FieldBytes(f)| <= |buffer|
    requires buffer[position..][..|FieldBytes(f)|] == FieldBytes(f)
    ensures field == f && next == position + |FieldBytes(f)|
  {
    if item.ScalarItem? {
      field, next := ScalarField(buffer[position..][..item.width]), position + item.width;
      return;
    }
    ghost var all := buffer[position..][..|FieldBytes(f)|];
    DecodeEncode(8, f.count);
    DecodeEncode(8, f.size);
    assert all[..8] == SizeBytes(f.count) && all[8..16] == SizeBytes(f.size) && all[16..] == f.data;
    var count := Decode(buffer[position..][..8]);
    var size := Decode(buffer[position + 8..][..8]);
    assert buffer[position..][..8] == all[..8] && buffer[position + 8..][..8] == all[8..16];
    TimesIs(count, size);
    assert buffer[position + 16..][..count * size] == all[16..];
    field := ArrayField(count, size, buffer[position + 16..][..count * size]);
    next := position + 16 + count * size;
  }

  /** The arrays taken in so far: those saved, the columns, and the number of the next one. */
  datatype Intake = Intake(saved: seq<(string, Strided)>, columns: seq<Column>, arrayIdx: nat) {
    function Take(name: string, f: Field, single: bool): Intake
      requires f.ArrayField?
    {
      if single then Intake(saved + [(name, Strided(f.data, f.size, f.count, f.size))], columns, arrayIdx + 1)
      else if arrayIdx < |columns| then Intake(saved, columns[arrayIdx := columns[arrayIdx].Extend(f)], arrayIdx + 1)
      else this
    }
  }

  function TakeAll(items: seq<Item>, message: seq<Field>, single: bool, before: seq<Column>, j: nat): Intake
    requires AllFit(items, message) && j <= |items|
  {
    if j == 0 then Intake([], before, 0)
    else
      var t := TakeAll(items, message, single, before, j - 1);
      assert Fits(items[j - 1], message[j - 1]);
      if items[j - 1].ArrayItem? then t.Take(items[j - 1].name, message[j - 1], single) else t
  }

  /** Reads one message. With a single partner its arrays are saved as they lie in the buffer;
      otherwise they are joined to what the messages before have brought. */
  method ReadMessage(items: seq<Item>, buffer: seq<Byte>, single: bool, before: seq<Column>,
                     ghost messages: seq<seq<Field>>, ghost message: seq<Field>)
    returns (scalars: seq<(string, seq<Byte>)>, saved: seq<(string, Strided)>, after: seq<Column>)
    requires AllWellFormed(items, messages) && AllFit(items, message) && buffer == MessageBytes(message)
    requires before == Columns(items, messages, |items|)
    ensures AllWellFormed(items, [message]) && AllWellFormed(items, messages + [message])
    ensures scalars == ScalarsOf(items, message, |items|)
    ensures single ==> saved == SavedArrays(items, [message], |items|)
    ensures !single ==> saved == [] && after == Columns(items, messages + [message], |items|)
  {
    ghost var parts := Parts(message);
    scalars, saved, after := [], [], before;
    var position, arrayIdx := 0, 0;
    for j := 0 to |items|
      invariant position == |Flatten(parts[..j])|
      invariant scalars == ScalarsOf(items, message, j)
      invariant Intake(saved, after, arrayIdx) == TakeAll(items, message, single, before, j)
    {
      FlattenAt(parts, j);
      assert Fits(items[j], message[j]);
      var field;
      field, position := ReadField(items[j], buffer, position, message[j]);
      if items[j].ScalarItem? {
        scalars := scalars + [(items[j].name, field.bytes)];
      } else {
        if single {
          saved := saved + [(items[j].name, Strided(field.data, field.size, field.count, field.size))];
        } else {
          TakenJoins(items, messages, message, before, j);
          after := after[arrayIdx := after[arrayIdx].Extend(field)];
        }
        arrayIdx := arrayIdx + 1;
      }
    }
    MoreWellFormed(items, messages, message);
    assert parts[..|items|] == parts;
    if single {
      TakenSaves(items, message, before, |items|);
    } else {
      TakenJoins(items, messages, message, before, |items|);
      ColumnsLength(items, messages, messages + [message], |items|);
    }
  }

  lemma MoreWellFormed(items: seq<Item>, messages: seq<seq<Field>>, message: seq<Field>)
    requires AllWellFormed(items, messages) && AllFit(items, message)
    ensures AllWellFormed(items, [message]) && AllWellFormed(items, messages + [message])
  {
  }

  /** With a single partner, the arrays of its message are saved. */
  lemma {:induction false} TakenSaves(items: seq<Item>, message: seq<Field>, before: seq<Column>, j: nat)
    requires AllFit(items, message) && AllWellFormed(items, [message]) && j <= |items|
    ensures TakeAll(items, message, true, before, j).saved == SavedArrays(items, [message], j)
  {
    if j == 0 {
    } else {
      TakenSaves(items, message, before, j - 1);
      if items[j - 1].ArrayItem? {
        MoreWellFormed(items, [], message);
        AddColumn(items, [], message, j - 1);
      }
    }
  }

  /** With several, the first arrays have been joined to their columns, and the next one has its column. */
  lemma {:induction false} TakenJoins(items: seq<Item>, messages: seq<seq<Field>>, message: seq<Field>,
                                      before: seq<Column>, j: nat)
    requires AllWellFormed(items, messages) && AllFit(items, message) && j <= |items|
    requires before == Columns(items, messages, |items|)
    ensures AllWellFormed(items, messages + [message])
    ensures Joining(items, messages, message, before, j, TakeAll(items, message, false, before, j))
    ensures j < |items| && items[j].ArrayItem? ==> |Columns(items, messages, j)| < |before|
  {
    MoreWellFormed(items, messages, message);
    if j == 0 {
    } else {
      TakenJoins(items, messages, message, before, j - 1);
      JoinNext(items, messages, message, before, j - 1, TakeAll(items, message, false, before, j - 1));
    }
    if j < |items| && items[j].ArrayItem? { ColumnAt(items, messages, j, |items|); }
  }

  ghost predicate Joining(items: seq<Item>, messages: seq<seq<Field>>, message: seq<Field>, before: seq<Column>,
                          j: nat, t: Intake)
    requires AllWellFormed(items, messages) && AllWellFormed(items, messages + [message]) && j <= |items|
  {
    var x := |Columns(items, messages, j)|;
    t.saved == [] && t.arrayIdx == x == |Columns(items, messages + [message], j)| <= |before| &&
    t.columns == Columns(items, messages + [message], j) + before[x..]
  }

  lemma JoinNext(items: seq<Item>, messages: seq<seq<Field>>, message: seq<Field>, before: seq<Column>, j: nat,
                 t: Intake)
    requires AllWellFormed(items, messages) && AllWellFormed(items, messages + [message]) && AllFit(items, message)
    requires j < |items| && before == Columns(items, messages, |items|) &&
      Joining(items, messages, message, before, j, t)
    ensures items[j].ArrayItem? ==>
      (message[j].ArrayField? &&
        Joining(items, messages, message, before, j + 1, t.Take(items[j].name, message[j], false)))
    ensures items[j].ScalarItem? ==> Joining(items, messages, message, before, j + 1, t)
  {
    if items[j].ArrayItem? {
      MoreWellFormed(items, messages, message);
      NextColumn(items, messages, message, j, before);
    }
  }

  /** One more message adds its data to a column. */
  lemma AddColumn(items: seq<Item>, messages: seq<seq<Field>>, message: seq<Field>, j: nat)
    requires AllWellFormed(items, messages) && AllFit(items, message) && j < |items| && items[j].ArrayItem?
    requires AllWellFormed(items, messages + [message]) && AllWellFormed(items, [message])
    ensures message[j].ArrayField?
    ensures ColumnOf(items, messages + [message], j) == ColumnOf(items, messages, j).Extend(message[j])
    ensures ColumnOf(items, [message], j) == Column(message[j].data, message[j].count, message[j].size)
  {
    assert Fits(items[j], message[j]);
    assert (messages + [message])[..|messages|] == messages;
    assert [message][..0] == [];
  }

  /** Extending the column at hand turns the columns before the message into those after it, one further on. */
  lemma NextColumn(items: seq<Item>, messages: seq<seq<Field>>, message: seq<Field>, j: nat, before: seq<Column>)
    requires AllWellFormed(items, messages) && AllFit(items, message) && j < |items| && items[j].ArrayItem?
    requires AllWellFormed(items, messages + [message]) && AllWellFormed(items, [message])
    requires before == Columns(items, messages, |items|)
    requires |Columns(items, messages, j)| == |Columns(items, messages + [message], j)|
    ensures var x := |Columns(items, messages, j)|; var more := messages + [message];
      message[j].ArrayField? && x < |before| &&
      (Columns(items, more, j) + before[x..])[x := before[x].Extend(message[j])] ==
        Columns(items, more, j + 1) + before[x + 1..] &&
      ColumnOf(items, [message], j) == Column(message[j].data, message[j].count, message[j].size)
  {
    ColumnAt(items, messages, j, |items|);
    AddColumn(items, messages, message, j);
  }

  /** What has been saved and joined after some messages; with a single partner its arrays are saved at once. */
  predicate TakenIn(items: seq<Item>, single: bool, messages: seq<seq<Field>>, scalars: seq<(string, seq<Byte>)>,
                    arrays: seq<(string, Strided)>, columns: seq<Column>)
  {
    AllWellFormed(items, messages) && scalars == SavedScalars(items, messages) &&
    if single then
      if messages == [] then arrays == [] && columns == Columns(items, [], |items|)
      else arrays == SavedArrays(items, messages, |items|)
    else arrays == [] && columns == Columns(items, messages, |items|)
  }

  method TakeMessage(items: seq<Item>, buffer: seq<Byte>, single: bool, scalars: seq<(string, seq<Byte>)>,
                     arrays: seq<(string, Strided)>, columns: seq<Column>,
                     ghost messages: seq<seq<Field>>, ghost message: seq<Field>)
    returns (scalars': seq<(string, seq<Byte>)>, arrays': seq<(string, Strided)>, columns': seq<Column>)
    requires TakenIn(items, single, messages, scalars, arrays, columns) && (single ==> messages == [])
    requires AllFit(items, message) && buffer == MessageBytes(message)
    ensures TakenIn(items, single, messages + [message], scalars', arrays', columns')
  {
    var more, saved, after := ReadMessage(items, buffer, single, columns, messages, message);
    ScalarsMore(items, messages, message);
    assert [] + [message] == [message];
    scalars', arrays', columns' := scalars + more, arrays + saved, after;
  }

  /** The receiver's work on the messages of a round, one from each partner in rank order. */
  method Receive(variables: seq<Variable>, buffers: seq<seq<Byte>>, ghost messages: seq<seq<Field>>)
    returns (scalars: seq<(string, seq<Byte>)>, arrays: seq<(string, Strided)>)
    requires WellFormed(Items(variables), buffers, messages) && buffers != []
    ensures AllWellFormed(Items(variables), messages)
    ensures scalars == SavedScalars(Items(variables), messages)
    ensures arrays == SavedArrays(Items(variables), messages, |Items(variables)|)
  {
    scalars, arrays := ReceiveItems(Items(variables), buffers, messages);
  }

  method ReceiveItems(items: seq<Item>, buffers: seq<seq<Byte>>, ghost messages: seq<seq<Field>>)
    returns (scalars: seq<(string, seq<Byte>)>, arrays: seq<(string, Strided)>)
    requires WellFormed(items, buffers, messages) && buffers != []
    ensures AllWellFormed(items, messages)
    ensures scalars == SavedScalars(items, messages) && arrays == SavedArrays(items, messages, |items|)
  {
    scalars, arrays := [], [];
    var columns := NoColumns(items);
    ghost var taken := [];
    for i := 0 to |buffers|
      invariant taken == messages[..i] && TakenIn(items, |buffers| == 1, taken, scalars, arrays, columns)
    {
      scalars, arrays, columns :=
        TakeMessage(items, buffers[i], |buffers| == 1, scalars, arrays, columns, taken, messages[i]);
      taken := taken + [messages[i]];
    }
    assert taken == messages;
    if |buffers| != 1 {
      arrays := SaveColumns(items, columns, messages);
    }
  }

  lemma ScalarsMore(items: seq<Item>, messages: seq<seq<Field>>, message: seq<Field>)
    requires AllWellFormed(items, messages) && AllFit(items, message)
    ensures AllWellFormed(items, messages + [message])
    ensures SavedScalars(items, messages + [message]) ==
      SavedScalars(items, messages) + ScalarsOf(items, message, |items|)
  {
    assert (messages + [message])[..|messages|] == messages;
  }

  method NoColumns(items: seq<Item>) returns (columns: seq<Column>)
    ensures columns == Columns(items, [], |items|)
  {
    columns := [];
    for j := 0 to |items|
      invariant columns == Columns(items, [], j)
    {
      if items[j].ArrayItem? {
        columns := columns + [Column([], 0, 0)];
      }
    }
  }

  method SaveColumns(items: seq<Item>, columns: seq<Column>, ghost messages: seq<seq<Field>>)
    returns (arrays: seq<(string, Strided)>)
    requires AllWellFormed(items, messages) && columns == Columns(items, messages, |items|)
    ensures arrays == SavedArrays(items, messages, |items|)
  {
    arrays := [];
    var arrayIdx := 0;
    for j := 0 to |items|
      invariant arrayIdx == |Columns(items, messages, j)|
      invariant arrays == SavedArrays(items, messages, j)
    {
      if items[j].ArrayItem? {
        ColumnAt(items, messages, j, |items|);
        arrays := arrays + [(items[j].name, columns[arrayIdx].AsArray())];
        arrayIdx := arrayIdx + 1;
      }
    }
  }

  // Both groups together.

  ghost predicate AllHave(sources: seq<Source>, items: seq<Item>) {
    forall s :: 0 <= s < |sources| ==> HasAll(sources[s], items)
  }

  /** The message from sender `s` to receiver `r`. */
  ghost function MessageFrom(sources: seq<Source>, receivers: nat, items: seq<Item>, s: nat, r: nat): seq<Field>
    requires s < |sources| && receivers > 0 && Divisible(|sources|, receivers) && AllHave(sources, items)
  {
    var to := PartnersOf(|sources|, receivers, s);
    if to != [] && 0 <= r - to[0] < |to| then FieldsOf(sources[s], items, r - to[0], |to|) else []
  }

  /** All messages that receiver `r` takes in, in rank order. */
  ghost function MessagesTo(sources: seq<Source>, receivers: nat, items: seq<Item>, r: nat): (messages: seq<seq<Field>>)
    requires sources != [] && r < receivers && Divisible(|sources|, receivers) && AllHave(sources, items)
  {
    RatioExact(|sources|, receivers);
    InOrder(receivers, |sources|, r);
    var from := PartnersOf(receivers, |sources|, r);
    seq(|from|, i requires 0 <= i < |from| => MessageFrom(sources, receivers, items, from[i], r))
  }

  /** A receiver finds one well-formed message from each partner. */
  lemma MessagesFit(sources: seq<Source>, receivers: nat, items: seq<Item>, r: nat)
    requires sources != [] && r < receivers && Divisible(|sources|, receivers) && AllHave(sources, items)
    ensures AllWellFormed(items, MessagesTo(sources, receivers, items, r))
  {
    RatioExact(|sources|, receivers);
    InOrder(receivers, |sources|, r);
    var from := PartnersOf(receivers, |sources|, r);
    var messages: seq<seq<Field>> := MessagesTo(sources, receivers, items, r);
    forall i | 0 <= i < |messages| ensures AllFit(items, messages[i]) {
      var s := from[i];
      var to := PartnersOf(|sources|, receivers, s);
      assert s in from;
      Mutual(|sources|, receivers, s, r);
      InOrder(|sources|, receivers, s);
      assert 0 <= r - to[0] < |to|;
      FieldsFit(sources[s], items, r - to[0], |to|);
    }
  }

  /** The scalars that a receiver saves are those that its partners have, one partner after the other. */
  lemma ScalarsArrive(sources: seq<Source>, receivers: nat, items: seq<Item>, r: nat, i: nat, j: nat)
    requires sources != [] && r < receivers && Divisible(|sources|, receivers) && AllHave(sources, items)
    requires Divisible(receivers, |sources|) && i < |PartnersOf(receivers, |sources|, r)|
    requires j < |items| && items[j].ScalarItem?
    ensures var messages, s := MessagesTo(sources, receivers, items, r), PartnersOf(receivers, |sources|, r)[i];
      AllWellFormed(items, messages) && s < |sources| && items[j].name in sources[s].values &&
      Times(i, ScalarCount(items, |items|)) + ScalarCount(items, j) < |SavedScalars(items, messages)| &&
      SavedScalars(items, messages)[Times(i, ScalarCount(items, |items|)) + ScalarCount(items, j)] ==
        (items[j].name, sources[s].values[items[j].name])
  {
    var messages: seq<seq<Field>> := MessagesTo(sources, receivers, items, r);
    var s := PartnersOf(receivers, |sources|, r)[i];
    MessagesFit(sources, receivers, items, r);
    InOrder(receivers, |sources|, r);
    SavedScalarAt(items, messages, i, j);
    assert s in PartnersOf(receivers, |sources|, r);
    Mutual(|sources|, receivers, s, r);
    InOrder(|sources|, receivers, s);
    assert Has(sources[s], items[j]);
  }

  /** What receiver `r` has of array item `j`. */
  ghost function Received(sources: seq<Source>, receivers: nat, items: seq<Item>, r: nat, j: nat): Column
    requires sources != [] && r < receivers && Divisible(|sources|, receivers) && AllHave(sources, items)
    requires j < |items| && items[j].ArrayItem?
  {
    MessagesFit(sources, receivers, items, r);
    ColumnOf(items, MessagesTo(sources, receivers, items, r), j)
  }

  ghost function Whole(sources: seq<Source>, items: seq<Item>, s: nat, j: nat): seq<Byte>
    requires AllHave(sources, items) && s < |sources| && j < |items| && items[j].ArrayItem?
  {
    assert Has(sources[s], items[j]);
    sources[s].arrays[items[j].name].All()
  }

  lemma {:induction false} ColumnData(items: seq<Item>, messages: seq<seq<Field>>, j: nat, parts: seq<seq<Byte>>)
    requires AllWellFormed(items, messages) && j < |items| && items[j].ArrayItem? && |parts| == |messages|
    requires forall i :: 0 <= i < |messages| ==>
      |messages[i]| == |items| && messages[i][j].ArrayField? && parts[i] == messages[i][j].data
    ensures ColumnOf(items, messages, j).data == Flatten(parts)
  {
    if messages == [] {
    } else {
      var n := |messages| - 1;
      ColumnData(items, messages[..n], j, parts[..n]);
    }
  }

  ghost function Slice(a: Strided, k: nat, i: nat): seq<Byte>
    requires a.Valid() && i < k
  {
    BoundOrder(a.count, k, i);
    a.Packed(Bound(a.count, k, i), Bound(a.count, k, i + 1))
  }

  /** The slices for the first `m` of `k` partners are the array up to the bound of the last. */
  lemma {:induction false} SlicesJoin(a: Strided, k: nat, m: nat, slices: seq<seq<Byte>>)
    requires a.Valid() && m <= k == |slices| && k > 0
    requires forall i: nat :: i < k ==> slices[i] == Slice(a, k, i)
    ensures Bound(a.count, k, m) <= a.count && Flatten(slices[..m]) == a.Packed(0, Bound(a.count, k, m))
  {
    BoundOrder(a.count, k, 0);
    if m == 0 {
    } else {
      SlicesJoin(a, k, m - 1, slices);
      FlattenStep(slices, m - 1);
      BoundOrder(a.count, k, m - 1);
      PackedSplit(a, 0, Bound(a.count, k, m - 1), Bound(a.count, k, m));
    }
  }

  /** With at least as many senders, a receiver has the whole arrays of one block of senders. */
  lemma ReceivedBlock(sources: seq<Source>, receivers: nat, items: seq<Item>, r: nat, j: nat, wholes: seq<seq<Byte>>)
    requires sources != [] && r < receivers <= |sources| && Divisible(|sources|, receivers) && AllHave(sources, items)
    requires j < |items| && items[j].ArrayItem? && |wholes| == |sources|
    requires forall s: nat :: s < |sources| ==> wholes[s] == Whole(sources, items, s, j)
    ensures IsBlock(wholes, Ratio(|sources|, receivers), r, Received(sources, receivers, items, r, j).data)
  {
    RatioExact(|sources|, receivers);
    var q := Ratio(|sources|, receivers);
    var messages: seq<seq<Field>> := MessagesTo(sources, receivers, items, r);
    var from := PartnersOf(receivers, |sources|, r);
    MessagesFit(sources, receivers, items, r);
    InOrder(receivers, |sources|, r);
    if receivers == |sources| { TimesOne(r); }
    TimesMonotone(r, receivers, q);
    assert |from| == q && from[0] == Times(r, q);
    var parts := wholes[Times(r, q)..][..q];
    forall i | 0 <= i < q ensures |messages[i]| == |items| && messages[i][j].ArrayField? &&
      parts[i] == messages[i][j].data {
      WholeMessage(sources, receivers, items, from[i], r, j);
    }
    ColumnData(items, messages, j, parts);
  }

  lemma WholeMessage(sources: seq<Source>, receivers: nat, items: seq<Item>, s: nat, r: nat, j: nat)
    requires r < receivers <= |sources| && s < |sources| && Divisible(|sources|, receivers) && AllHave(sources, items)
    requires j < |items| && items[j].ArrayItem? && s in PartnersOf(receivers, |sources|, r)
    ensures var message := MessageFrom(sources, receivers, items, s, r);
      |message| == |items| && message[j].ArrayField? && message[j].data == Whole(sources, items, s, j)
  {
    RatioExact(|sources|, receivers);
    Mutual(|sources|, receivers, s, r);
    InOrder(|sources|, receivers, s);
    assert Has(sources[s], items[j]);
    var a := sources[s].arrays[items[j].name];
    BoundOrder(a.count, 1, 0);
  }

  lemma DivisibleBack(size: nat, remote: nat)
    requires size > 0 && remote > 0 && Divisible(size, remote)
    ensures Divisible(remote, size)
  {
  }

  /** With fewer senders, the `i`-th partner of a sender has no other. */
  lemma OnePartner(senders: nat, receivers: nat, s: nat, i: nat)
    requires s < senders < receivers && Divisible(senders, receivers) && i < Ratio(senders, receivers)
    ensures var q := Ratio(senders, receivers); var r := Times(s, q) + i;
      r < receivers && Divisible(receivers, senders) && PartnersOf(receivers, senders, r) == [s]
  {
    RatioExact(senders, receivers);
    DivisibleBack(senders, receivers);
    var q := Ratio(senders, receivers);
    TimesMonotone(s, senders, q);
    QuotientUnique(Times(s, q) + i, q, s);
  }

  lemma ManyPartners(senders: nat, receivers: nat, s: nat)
    requires s < senders < receivers && Divisible(senders, receivers)
    ensures var q, to := Ratio(senders, receivers), PartnersOf(senders, receivers, s);
      |to| == q && q > 0 && to[0] == Times(s, q)
  {
    RatioExact(senders, receivers);
  }

  lemma OneMessage(sources: seq<Source>, receivers: nat, items: seq<Item>, s: nat, r: nat, j: nat, data: seq<Byte>)
    requires s < |sources| && r < receivers && Divisible(|sources|, receivers) && AllHave(sources, items)
    requires Divisible(receivers, |sources|) && PartnersOf(receivers, |sources|, r) == [s]
    requires j < |items| && items[j].ArrayItem?
    requires var message := MessageFrom(sources, receivers, items, s, r);
      |message| == |items| && message[j].ArrayField? && message[j].data == data
    ensures Received(sources, receivers, items, r, j).data == data
  {
    MessagesFit(sources, receivers, items, r);
    ColumnData(items, MessagesTo(sources, receivers, items, r), j, [data]);
    assert Flatten([data][..0]) == [];
  }

  lemma SliceMessage(sources: seq<Source>, receivers: nat, items: seq<Item>, s: nat, r: nat, i: nat, j: nat)
    requires s < |sources| && receivers > 0 && Divisible(|sources|, receivers) && AllHave(sources, items)
    requires j < |items| && items[j].ArrayItem? && Has(sources[s], items[j])
    requires var to := PartnersOf(|sources|, receivers, s); i < |to| && r == to[0] + i
    ensures var message := MessageFrom(sources, receivers, items, s, r);
      |message| == |items| && message[j].ArrayField? &&
      message[j].data == Slice(sources[s].arrays[items[j].name], |PartnersOf(|sources|, receivers, s)|, i)
  {
  }

  lemma ReceivedFrom(sources: seq<Source>, receivers: nat, items: seq<Item>, s: nat, r: nat, i: nat, j: nat, k: nat)
    requires s < |sources| && r < receivers && Divisible(|sources|, receivers) && AllHave(sources, items)
    requires j < |items| && items[j].ArrayItem? && Has(sources[s], items[j])
    requires var to := PartnersOf(|sources|, receivers, s); i < k == |to| && r == to[0] + i
    requires Divisible(receivers, |sources|) && PartnersOf(receivers, |sources|, r) == [s]
    ensures Received(sources, receivers, items, r, j).data == Slice(sources[s].arrays[items[j].name], k, i)
  {
    SliceMessage(sources, receivers, items, s, r, i, j);
    OneMessage(sources, receivers, items, s, r, j, Slice(sources[s].arrays[items[j].name], k, i));
  }

  /** It is sent the `i`-th slice. */
  lemma ReceivedSlice(sources: seq<Source>, receivers: nat, items: seq<Item>, s: nat, i: nat, j: nat, q: nat, r: nat)
    requires s < |sources| < receivers && Divisible(|sources|, receivers) && AllHave(sources, items)
    requires j < |items| && items[j].ArrayItem? && Has(sources[s], items[j])
    requires q == Ratio(|sources|, receivers) && i < q && r == Times(s, q) + i
    ensures r < receivers && Received(sources, receivers, items, r, j).data ==
      Slice(sources[s].arrays[items[j].name], q, i)
  {
    OnePartner(|sources|, receivers, s, i);
    ManyPartners(|sources|, receivers, s);
    ReceivedFrom(sources, receivers, items, s, r, i, j, q);
  }

  /** Nothing is lost, doubled or moved: the arrays of the receivers one behind the other are the arrays
      of the senders one behind the other. */
  lemma Conservation(sources: seq<Source>, receivers: nat, items: seq<Item>, j: nat, wholes: seq<seq<Byte>>,
                     parts: seq<seq<Byte>>)
    requires sources != [] && receivers > 0 && Divisible(|sources|, receivers) && AllHave(sources, items)
    requires j < |items| && items[j].ArrayItem? && |wholes| == |sources| && |parts| == receivers
    requires forall s: nat :: s < |sources| ==> wholes[s] == Whole(sources, items, s, j)
    requires forall r: nat :: r < receivers ==> parts[r] == Received(sources, receivers, items, r, j).data
    ensures Flatten(parts) == Flatten(wholes)
  {
    RatioExact(|sources|, receivers);
    var q := Ratio(|sources|, receivers);
    if |sources| >= receivers {
      forall r: nat | r < receivers ensures IsBlock(wholes, q, r, parts[r]) {
        ReceivedBlock(sources, receivers, items, r, j, wholes);
      }
      FlattenBlocks(wholes, q, parts);
    } else {
      forall s: nat | s < |sources| ensures IsBlock(parts, q, s, wholes[s]) {
        SplitBlock(sources, receivers, items, s, j, parts);
      }
      FlattenBlocks(parts, q, wholes);
    }
  }

  lemma SplitBlock(sources: seq<Source>, receivers: nat, items: seq<Item>, s: nat, j: nat, parts: seq<seq<Byte>>)
    requires s < |sources| < receivers && Divisible(|sources|, receivers) && AllHave(sources, items)
    requires j < |items| && items[j].ArrayItem? && |parts| == receivers
    requires forall r: nat :: r < receivers ==> parts[r] == Received(sources, receivers, items, r, j).data
    ensures IsBlock(parts, Ratio(|sources|, receivers), s, Whole(sources, items, s, j))
  {
    RatioExact(|sources|, receivers);
    var q := Ratio(|sources|, receivers);
    assert Has(sources[s], items[j]);
    var a := sources[s].arrays[items[j].name];
    TimesMonotone(s, |sources|, q);
    var slices := parts[Times(s, q)..][..q];
    forall i: nat | i < q ensures slices[i] == Slice(a, q, i) {
      ReceivedSlice(sources, receivers, items, s, i, j, q, Times(s, q) + i);
    }
    SlicesJoin(a, q, q, slices);
    assert slices[..q] == slices;
  }

  // Reading what has been saved.

  function FieldAt(items: seq<Item>, messages: seq<seq<Field>>, i: nat, j: nat): (f: Field)
    requires AllWellFormed(items, messages) && i < |messages| && j < |items| && items[j].ArrayItem?
    ensures f.ArrayField? && Fits(items[j], f)
  {
    assert Fits(items[j], messages[i][j]);
    messages[i][j]
  }

  /** Element `k` of what one partner has sent. */
  function PartElement(f: Field, k: nat): (e: seq<Byte>)
    requires f.ArrayField? && |f.data| == Times(f.count, f.size) && k < f.count
    ensures |e| == f.size
  {
    TimesMonotone(k, f.count, f.size);
    f.data[Times(k, f.size)..][..f.size]
  }

  /** How many elements stand before those of the `i`-th partner. */
  function CountBefore(items: seq<Item>, messages: seq<seq<Field>>, i: nat, j: nat): nat
    requires AllWellFormed(items, messages) && i <= |messages| && j < |items| && items[j].ArrayItem?
  {
    ColumnOf(items, messages[..i], j).count
  }

  /** Whoever reads the saved array finds the elements of each partner at their place. */
  ghost predicate ReadBack(items: seq<Item>, messages: seq<seq<Field>>, j: nat)
    requires AllWellFormed(items, messages) && j < |items| && items[j].ArrayItem?
  {
    var a := ColumnOf(items, messages, j).AsArray();
    a.Valid() &&
    forall i: nat, k: nat :: i < |messages| && k < FieldAt(items, messages, i, j).count ==>
      FoundAt(a, CountBefore(items, messages, i, j), FieldAt(items, messages, i, j), k)
  }

  ghost predicate FoundAt(a: Strided, before: nat, f: Field, k: nat)
    requires a.Valid() && f.ArrayField? && |f.data| == Times(f.count, f.size) && k < f.count
  {
    before + k < a.count && a.Element(before + k) == PartElement(f, k)
  }

  /** Every partner that has sent an element has sent elements of the given size. */
  predicate SizesAre(items: seq<Item>, messages: seq<seq<Field>>, j: nat, size: nat)
    requires AllWellFormed(items, messages) && j < |items| && items[j].ArrayItem?
  {
    forall i: nat :: i < |messages| && FieldAt(items, messages, i, j).count > 0 ==>
      FieldAt(items, messages, i, j).size == size
  }

  lemma FieldBytesAre(f: Field, size: nat)
    requires f.ArrayField? && |f.data| == Times(f.count, f.size) && (f.count > 0 ==> f.size == size)
    ensures |f.data| == Times(f.count, size)
  {
  }

  /** Elements of one size lie without gaps, in front of them what has been joined before. */
  lemma {:induction false} ColumnFilled(items: seq<Item>, messages: seq<seq<Field>>, j: nat, size: nat)
    requires AllWellFormed(items, messages) && j < |items| && items[j].ArrayItem?
    requires SizesAre(items, messages, j, size)
    ensures var c := ColumnOf(items, messages, j); |c.data| == Times(c.count, size)
  {
    if messages == [] {
    } else {
      var n := |messages| - 1;
      SizesBefore(items, messages, j, size, n);
      ColumnFilled(items, messages[..n], j, size);
      var f := FieldAt(items, messages, n, j);
      FieldBytesAre(f, size);
      TimesAdd(CountBefore(items, messages, n, j), f.count, size);
    }
  }

  lemma SizesBefore(items: seq<Item>, messages: seq<seq<Field>>, j: nat, size: nat, n: nat)
    requires AllWellFormed(items, messages) && j < |items| && items[j].ArrayItem?
    requires SizesAre(items, messages, j, size) && n <= |messages|
    ensures AllWellFormed(items, messages[..n]) && SizesAre(items, messages[..n], j, size)
  {
    forall i: nat | i < n ensures FieldAt(items, messages[..n], i, j) == FieldAt(items, messages, i, j) {
    }
  }

  /** What the `i`-th partner has sent stands behind what was joined before. */
  lemma {:induction false} PartAt(items: seq<Item>, messages: seq<seq<Field>>, j: nat, i: nat)
    requires AllWellFormed(items, messages) && i < |messages| && j < |items| && items[j].ArrayItem?
    ensures var c, b := ColumnOf(items, messages, j), ColumnOf(items, messages[..i], j);
      var f := FieldAt(items, messages, i, j);
      b.data + f.data <= c.data && b.count + f.count <= c.count
  {
    var n := |messages| - 1;
    if i == n {
    } else {
      PartAt(items, messages[..n], j, i);
      assert messages[..n][..i] == messages[..i];
    }
  }

  lemma ElementFound(c: Column, before: Column, f: Field, k: nat)
    requires f.ArrayField? && |f.data| == Times(f.count, f.size) && k < f.count && f.size == c.size
    requires before.data + f.data <= c.data && before.count + f.count <= c.count
    requires |before.data| == Times(before.count, c.size) && c.AsArray().Valid()
    ensures FoundAt(c.AsArray(), before.count, f, k)
  {
    TimesAdd(before.count, k, c.size);
    TimesMonotone(k, f.count, c.size);
    var p := |before.data|;
    assert c.data[p..][..|f.data|] == f.data;
    assert c.data[p + Times(k, c.size)..][..c.size] == c.data[p..][..|f.data|][Times(k, c.size)..][..c.size];
  }

  /** A receiver keeps the element size of its last partner, empty or not. The saved array gives back the
      elements of all partners, each at its place, exactly when every partner that has sent elements has
      sent them of that size; then it covers just the joined bytes. */
  lemma Readable(items: seq<Item>, messages: seq<seq<Field>>, j: nat)
    requires AllWellFormed(items, messages) && messages != [] && j < |items| && items[j].ArrayItem?
    ensures var c := ColumnOf(items, messages, j);
      c.size == FieldAt(items, messages, |messages| - 1, j).size &&
      (ReadBack(items, messages, j) <==> SizesAre(items, messages, j, c.size)) &&
      (SizesAre(items, messages, j, c.size) ==> c.AsArray().Valid() && c.AsArray().All() == c.data)
  {
    var c := ColumnOf(items, messages, j);
    if SizesAre(items, messages, j, c.size) {
      SizesReadBack(items, messages, j);
    }
    if ReadBack(items, messages, j) {
      forall i: nat | i < |messages| && FieldAt(items, messages, i, j).count > 0
        ensures FieldAt(items, messages, i, j).size == c.size
      {
        assert FoundAt(c.AsArray(), CountBefore(items, messages, i, j), FieldAt(items, messages, i, j), 0);
      }
    }
  }

  lemma SizesReadBack(items: seq<Item>, messages: seq<seq<Field>>, j: nat)
    requires AllWellFormed(items, messages) && j < |items| && items[j].ArrayItem?
    requires SizesAre(items, messages, j, ColumnOf(items, messages, j).size)
    ensures ReadBack(items, messages, j)
    ensures var c := ColumnOf(items, messages, j); c.AsArray().Valid() && c.AsArray().All() == c.data
  {
    var c := ColumnOf(items, messages, j);
    ColumnFilled(items, messages, j, c.size);
    Contiguous(c.data, c.size, c.count);
    forall i: nat, k: nat | i < |messages| && k < FieldAt(items, messages, i, j).count
      ensures FoundAt(c.AsArray(), CountBefore(items, messages, i, j), FieldAt(items, messages, i, j), k)
    {
      SizesBefore(items, messages, j, c.size, i);
      ColumnFilled(items, messages[..i], j, c.size);
      PartAt(items, messages, j, i);
      ElementFound(c, ColumnOf(items, messages[..i], j), FieldAt(items, messages, i, j), k);
    }
  }

  const FOUR_BYTES: Strided := Strided([1, 2, 3, 4], 4, 1, 4)
  const NOTHING: Strided := Strided([], 0, 0, 0)

  function SourceOf(name: string, a: Strided): Source {
    Source(map[], map[name := a])
  }

  lemma FourBytes()
    ensures FOUR_BYTES.Valid() && FOUR_BYTES.All() == [1, 2, 3, 4]
    ensures NOTHING.Valid() && NOTHING.All() == []
  {
    TimesOne(4);
    Contiguous(FOUR_BYTES.memory, 4, 1);
  }

  /** Two senders with an array each, and one receiver. */
  lemma TwoToOne(name: string, a: Strided, b: Strided)
    requires a.Valid() && b.Valid() && IsSize(a.count) && IsSize(a.size) && IsSize(b.count) && IsSize(b.size)
    ensures var sources, items := [SourceOf(name, a), SourceOf(name, b)], [ArrayItem(name)];
      Divisible(|sources|, 1) && AllHave(sources, items) &&
      MessagesTo(sources, 1, items, 0) ==
        [[ArrayField(a.count, a.size, a.All())], [ArrayField(b.count, b.size, b.All())]]
  {
    var sources, items := [SourceOf(name, a), SourceOf(name, b)], [ArrayItem(name)];
    forall s: nat | s < 2 ensures HasAll(sources[s], items) {
      assert Has(sources[s], items[0]);
    }
    RatioExact(2, 1);
    InOrder(1, 2, 0);
    assert PartnersOf(1, 2, 0) == [0, 1];
    BothMessages(sources, items, 0);
    BothMessages(sources, items, 1);
  }

  lemma BothMessages(sources: seq<Source>, items: seq<Item>, s: nat)
    requires |sources| == 2 && AllHave(sources, items) && |items| == 1 && items[0].ArrayItem? && s < 2
    ensures Has(sources[s], items[0])
    ensures var a := sources[s].arrays[items[0].name];
      MessageFrom(sources, 1, items, s, 0) == [ArrayField(a.count, a.size, a.All())]
  {
    RatioExact(2, 1);
    InOrder(2, 1, s);
    QuotientUnique(s, 2, 0);
    assert Has(sources[s], items[0]);
    FieldOfArray(sources[s], items[0], 0, 1, 0, sources[s].arrays[items[0].name].count);
  }

  /** One sender has an array of one element of four bytes, the next an empty one described with no element
      size: their one receiver joins the four bytes, and saves them as one element of no bytes. */
  lemma SizeLost(name: string)
    ensures var sources, items := [SourceOf(name, FOUR_BYTES), SourceOf(name, NOTHING)], [ArrayItem(name)];
      Divisible(|sources|, 1) && AllHave(sources, items) && AllWellFormed(items, MessagesTo(sources, 1, items, 0)) &&
      Received(sources, 1, items, 0, 0) == Column([1, 2, 3, 4], 1, 0) &&
      Received(sources, 1, items, 0, 0).AsArray().Valid() && Received(sources, 1, items, 0, 0).AsArray().All() == [] &&
      !ReadBack(items, MessagesTo(sources, 1, items, 0), 0)
  {
    var sources, items := [SourceOf(name, FOUR_BYTES), SourceOf(name, NOTHING)], [ArrayItem(name)];
    FourBytes();
    TwoToOne(name, FOUR_BYTES, NOTHING);
    MessagesFit(sources, 1, items, 0);
    ColumnOfTwo(items, ArrayField(1, 4, [1, 2, 3, 4]), ArrayField(0, 0, []), MessagesTo(sources, 1, items, 0));
    Readable(items, MessagesTo(sources, 1, items, 0), 0);
  }

  lemma ColumnOfTwo(items: seq<Item>, f: Field, g: Field, messages: seq<seq<Field>>)
    requires messages == [[f], [g]] && AllWellFormed(items, messages) && |items| == 1 && items[0].ArrayItem?
    ensures f.ArrayField? && g.ArrayField?
    ensures ColumnOf(items, messages, 0) == Column(f.data + g.data, f.count + g.count, g.size)
    ensures FieldAt(items, messages, 0, 0) == f
  {
    assert FieldAt(items, messages, 0, 0) == f && FieldAt(items, messages, 1, 0) == g;
    assert messages[..1] == [[f]] && messages[..1][..0] == [];
    assert ColumnOf(items, messages[..1], 0) == Column([], 0, 0).Extend(f);
  }
}
