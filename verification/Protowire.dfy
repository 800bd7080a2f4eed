/** The protocol buffer wire format as far as xtags needs it: tags, varints, length-delimited
    fields, and the skipping of any other field, groups included. */
module Protowire {
  import opened Common

  const VARINT: nat := 0
  const FIXED64: nat := 1
  const BYTES: nat := 2
  const START_GROUP: nat := 3
  const END_GROUP: nat := 4
  const FIXED32: nat := 5
  const MAX_NUMBER: nat := 0x7fff_ffff
  const RECURSION_LIMIT: nat := 10000

  /** What the bytes from the i-th of a varint can still say; Cap(0) is 2^64. */
  function Cap(i: nat): (c: nat)
    requires i <= 9
    ensures c >= 2
    decreases 9 - i
  {
    if i == 9 then 2 else 128 * Cap(i + 1)
  }

  /** A varint's value and length; b starts at its i-th byte. */
  function ReadVarint(b: seq<byte>, i: nat): (r: Option<(nat, nat)>)
    requires i <= 9
    ensures r.Some? ==> 1 <= r.value.1 <= |b|
    decreases 9 - i
  {
    if b == [] then None
    else if i == 9 then (if b[0] < 2 then Some((b[0], 1)) else None)
    else if b[0] < 128 then Some((b[0], 1))
    else
      var r := ReadVarint(b[1..], i + 1);
      if r.None? then None else Some((b[0] - 128 + 128 * r.value.0, r.value.1 + 1))
  }

  datatype Tag = Tag(num: nat, typ: nat, len: nat)

  function ReadTag(b: seq<byte>): (r: Option<Tag>)
    ensures r.Some? ==> 1 <= r.value.len <= |b| && 1 <= r.value.num <= MAX_NUMBER
  {
    var v := ReadVarint(b, 0);
    if v.None? || v.value.0 / 8 > MAX_NUMBER || v.value.0 / 8 < 1 then None
    else Some(Tag(v.value.0 / 8, v.value.0 % 8, v.value.1))
  }

  datatype Delimited = Delimited(payload: seq<byte>, len: nat)

  function ReadBytes(b: seq<byte>): (r: Option<Delimited>)
    ensures r.Some? ==> 1 <= r.value.len <= |b|
  {
    var v := ReadVarint(b, 0);
    if v.None? || v.value.0 > |b| - v.value.1 then None
    else Some(Delimited(b[v.value.1..v.value.1 + v.value.0], v.value.1 + v.value.0))
  }

  /** The length of a value that is not a group. */
  function LeafLength(typ: nat, b: seq<byte>): (r: Option<nat>)
    ensures r.Some? ==> r.value <= |b|
  {
    if typ == VARINT then
      var v := ReadVarint(b, 0);
      if v.None? then None else Some(v.value.1)
    else if typ == FIXED32 then (if |b| < 4 then None else Some(4))
    else if typ == FIXED64 then (if |b| < 8 then None else Some(8))
    else if typ == BYTES then
      var d := ReadBytes(b);
      if d.None? then None else Some(d.value.len)
    else None
  }

  /** The groups that are open, the innermost first. */
  datatype Open = Outside | Inside(num: nat, level: nat, outer: Open)

  function Level(open: Open): nat {
    if open.Outside? then 0 else open.level
  }

  function Opened(open: Open, num: nat): Open {
    Inside(num, Level(open) + 1, open)
  }

  /** One step inside open groups: the groups open after it, and the bytes it took. */
  function Next(open: Open, b: seq<byte>): Option<(Open, nat)> {
    var t := ReadTag(b);
    if open.Outside? || t.None? then None
    else if t.value.typ == END_GROUP then
      if t.value.num == open.num then Some((open.outer, t.value.len)) else None
    else if t.value.typ == START_GROUP then
      if open.level <= RECURSION_LIMIT then Some((Opened(open, t.value.num), t.value.len)) else None
    else
      var n := LeafLength(t.value.typ, b[t.value.len..]);
      if n.None? then None else Some((open, t.value.len + n.value))
  }

  type Stepper = (Open, seq<byte>) -> Option<(Open, nat)>

  /** Where the outermost of the open groups ends. The step is a parameter, so that what is
      said of many steps need not look into one. */
  function GroupsEnd(next: Stepper, open: Open, b: seq<byte>, at: nat): (r: Option<nat>)
    requires at <= |b|
    ensures r.Some? ==> r.value <= |b|
    decreases |b| - at
  {
    if open.Outside? then Some(at)
    else
      var step := next(open, b[at..]);
      if step.None? || !(1 <= step.value.1 <= |b| - at) then None
      else GroupsEnd(next, step.value.0, b, at + step.value.1)
  }

  /** ConsumeFieldValue: the length of a field's value, whatever it is. */
  function ValueLength(num: nat, typ: nat, b: seq<byte>): (r: Option<nat>)
    ensures r.Some? ==> r.value <= |b|
  {
    if typ == START_GROUP then GroupsEnd(Next, Opened(Outside, num), b, 0) else LeafLength(typ, b)
  }

  /** A length-delimited field with a number that is looked for. */
  datatype Entry = Entry(num: nat, payload: seq<byte>)

  /** All of them in a message, the other fields skipped; none if it is malformed. */
  function Parse(b: seq<byte>, known: set<nat>): Option<seq<Entry>>
    decreases |b|
  {
    if b == [] then Some([])
    else
      var t := ReadTag(b);
      if t.None? then None
      else
        var body := b[t.value.len..];
        if t.value.num in known && t.value.typ == BYTES then
          var d := ReadBytes(body);
          if d.None? then None else Consed([Entry(t.value.num, d.value.payload)], Parse(body[d.value.len..], known))
        else
          var n := ValueLength(t.value.num, t.value.typ, body);
          if n.None? then None else Consed([], Parse(body[n.value..], known))
  }

  function Consed(first: seq<Entry>, rest: Option<seq<Entry>>): Option<seq<Entry>> {
    if rest.None? then None else Some(first + rest.value)
  }

  // ---- the encoding

  datatype Field = Field(num: nat, value: Value)

  datatype Value = Varint(n: nat) | Fixed32(raw: seq<byte>) | Fixed64(raw: seq<byte>)
    | Bytes(payload: seq<byte>) | Group(fields: Fields)

  datatype Fields = End | Then(head: Field, tail: Fields)

  function Type(v: Value): nat {
    match v {
      case Varint(_) => VARINT
      case Fixed32(_) => FIXED32
      case Fixed64(_) => FIXED64
      case Bytes(_) => BYTES
      case Group(_) => START_GROUP
    }
  }

  /** Fields that fit the format inside so many groups. */
  predicate OkField(f: Field, level: nat) {
    1 <= f.num <= MAX_NUMBER && OkValue(f.value, level)
  }

  predicate OkValue(v: Value, level: nat) {
    match v {
      case Varint(n) => n < Cap(0)
      case Fixed32(raw) => |raw| == 4
      case Fixed64(raw) => |raw| == 8
      case Bytes(payload) => |payload| < Cap(0)
      case Group(fields) => level <= RECURSION_LIMIT && OkFields(fields, level + 1)
    }
  }

  predicate OkFields(fs: Fields, level: nat) {
    fs.Then? ==> OkField(fs.head, level) && OkFields(fs.tail, level)
  }

  function VarintBytes(n: nat): (b: seq<byte>)
    ensures |b| >= 1
  {
    if n < 128 then [n] else [n % 128 + 128] + VarintBytes(n / 128)
  }

  function TagBytes(num: nat, typ: nat): (b: seq<byte>)
    ensures |b| >= 1
  {
    VarintBytes(num * 8 + typ)
  }

  function FieldBytes(f: Field): seq<byte>
    decreases f, 0
  {
    TagBytes(f.num, Type(f.value)) + ValueBytes(f.num, f.value)
  }

  function ValueBytes(num: nat, v: Value): seq<byte>
    decreases v, 0
  {
    match v {
      case Varint(n) => VarintBytes(n)
      case Fixed32(raw) => raw
      case Fixed64(raw) => raw
      case Bytes(payload) => VarintBytes(|payload|) + payload
      case Group(fields) => FieldsBytes(fields) + TagBytes(num, END_GROUP)
    }
  }

  function FieldsBytes(fs: Fields): seq<byte>
    decreases fs, 0
  {
    match fs {
      case End => []
      case Then(head, tail) => FieldBytes(head) + FieldsBytes(tail)
    }
  }

  /** The entries among the fields. */
  function Entries(fs: Fields, known: set<nat>): seq<Entry> {
    match fs {
      case End => []
      case Then(head, tail) =>
        (if head.num in known && head.value.Bytes? then [Entry(head.num, head.value.payload)] else []) + Entries(tail, known)
    }
  }

  // ---- reading back

  lemma {:induction false} VarintReadsBack(n: nat, i: nat, rest: seq<byte>)
    requires i <= 9 && n < Cap(i)
    ensures ReadVarint(VarintBytes(n) + rest, i) == Some((n, |VarintBytes(n)|))
    decreases 9 - i
  {
    if n >= 128 {
      VarintReadsBack(n / 128, i + 1, rest);
      assert (VarintBytes(n) + rest)[1..] == VarintBytes(n / 128) + rest;
    }
  }

  lemma {:induction false} TagReadsBack(num: nat, typ: nat, s: seq<byte>, rest: seq<byte>)
    requires 1 <= num <= MAX_NUMBER && typ < 8 && s == TagBytes(num, typ) + rest
    ensures ReadTag(s) == Some(Tag(num, typ, |TagBytes(num, typ)|))
  {
    VarintReadsBack(num * 8 + typ, 0, rest);
  }

  lemma {:induction false} BytesReadBack(payload: seq<byte>, rest: seq<byte>)
    requires |payload| < Cap(0)
    ensures ReadBytes(VarintBytes(|payload|) + payload + rest) == Some(Delimited(payload, |VarintBytes(|payload|)| + |payload|))
  {
    var head := VarintBytes(|payload|);
    VarintReadsBack(|payload|, 0, payload + rest);
    assert head + payload + rest == head + (payload + rest);
    assert (head + payload + rest)[|head|..|head| + |payload|] == payload;
  }

  lemma {:induction false} LeafIsSkipped(num: nat, v: Value, s: seq<byte>, rest: seq<byte>)
    requires OkValue(v, 0) && !v.Group? && s == ValueBytes(num, v) + rest
    ensures LeafLength(Type(v), s) == Some(|ValueBytes(num, v)|)
  {
    match v {
      case Varint(n) => VarintReadsBack(n, 0, rest);
      case Bytes(payload) => BytesReadBack(payload, rest);
      case _ =>
    }
  }

  ghost predicate At(b: seq<byte>, at: nat, piece: seq<byte>) {
    at + |piece| <= |b| && forall k :: 0 <= k < |piece| ==> piece[k] == b[at + k]
  }

  lemma {:induction false} AtSplit(b: seq<byte>, at: nat, x: seq<byte>, y: seq<byte>)
    requires At(b, at, x + y)
    ensures At(b, at, x) && At(b, at + |x|, y)
  {
    assert forall k :: 0 <= k < |x| ==> x[k] == (x + y)[k];
    assert forall k :: 0 <= k < |y| ==> y[k] == (x + y)[|x| + k];
  }

  lemma {:induction false} FromAt(b: seq<byte>, at: nat, piece: seq<byte>)
    requires At(b, at, piece)
    ensures b[at..] == piece + b[at + |piece|..]
  {
  }

  lemma {:induction false} TagAt(b: seq<byte>, at: nat, num: nat, typ: nat)
    requires 1 <= num <= MAX_NUMBER && typ < 8 && At(b, at, TagBytes(num, typ))
    ensures ReadTag(b[at..]) == Some(Tag(num, typ, |TagBytes(num, typ)|))
  {
    var tag := TagBytes(num, typ);
    FromAt(b, at, tag);
    TagReadsBack(num, typ, b[at..], b[at + |tag|..]);
  }

  ghost predicate IsNext(next: Stepper) {
    forall o, s {:trigger Next(o, s)} :: next(o, s) == Next(o, s)
  }

  lemma {:induction false} Step(next: Stepper, open: Open, b: seq<byte>, at: nat, inner: Open, end: nat)
    requires at < end <= |b| && open.Inside? && next(open, b[at..]) == Some((inner, end - at))
    ensures GroupsEnd(next, open, b, at) == GroupsEnd(next, inner, b, end)
  {
  }

  lemma {:induction false} LeafAt(num: nat, v: Value, b: seq<byte>, at: nat)
    requires OkValue(v, 0) && !v.Group? && At(b, at, ValueBytes(num, v))
    ensures LeafLength(Type(v), b[at..]) == Some(|ValueBytes(num, v)|)
  {
    FromAt(b, at, ValueBytes(num, v));
    LeafIsSkipped(num, v, b[at..], b[at + |ValueBytes(num, v)|..]);
  }

  lemma {:induction false} LeafNext(open: Open, s: seq<byte>, t: Tag, body: seq<byte>, n: nat)
    requires open.Inside? && ReadTag(s) == Some(t) && t.typ != START_GROUP && t.typ != END_GROUP
    requires s[t.len..] == body && LeafLength(t.typ, body) == Some(n)
    ensures Next(open, s) == Some((open, t.len + n))
  {
  }

  lemma {:induction false} DropTwice(b: seq<byte>, at: nat, mid: nat)
    requires at <= mid <= |b|
    ensures b[at..][mid - at..] == b[mid..]
  {
  }

  lemma {:induction false} LeafStep(next: Stepper, open: Open, num: nat, typ: nat, b: seq<byte>, at: nat, mid: nat, end: nat)
    requires open.Inside? && 1 <= num <= MAX_NUMBER && typ < 8 && typ != START_GROUP && typ != END_GROUP
    requires At(b, at, TagBytes(num, typ)) && mid == at + |TagBytes(num, typ)|
    requires next(open, b[at..]) == Next(open, b[at..])
    requires mid <= end <= |b| && LeafLength(typ, b[mid..]) == Some(end - mid)
    ensures GroupsEnd(next, open, b, at) == GroupsEnd(next, open, b, end)
  {
    hide *;
    TagAt(b, at, num, typ);
    DropTwice(b, at, mid);
    LeafNext(open, b[at..], Tag(num, typ, mid - at), b[mid..], end - mid);
    Step(next, open, b, at, open, end);
  }

  lemma {:induction false} LeafIsPassed(next: Stepper, open: Open, num: nat, v: Value, b: seq<byte>, at: nat, mid: nat, end: nat)
    requires IsNext(next) && open.Inside? && 1 <= num <= MAX_NUMBER && OkValue(v, 0) && !v.Group?
    requires At(b, at, TagBytes(num, Type(v))) && mid == at + |TagBytes(num, Type(v))|
    requires At(b, mid, ValueBytes(num, v)) && end == mid + |ValueBytes(num, v)|
    ensures GroupsEnd(next, open, b, at) == GroupsEnd(next, open, b, end)
  {
    LeafAt(num, v, b, mid);
    assert next(open, b[at..]) == Next(open, b[at..]);
    LeafStep(next, open, num, Type(v), b, at, mid, end);
  }

  lemma {:induction false} GroupOpens(next: Stepper, open: Open, num: nat, b: seq<byte>, at: nat, end: nat)
    requires IsNext(next) && open.Inside? && open.level <= RECURSION_LIMIT && 1 <= num <= MAX_NUMBER
    requires At(b, at, TagBytes(num, START_GROUP)) && end == at + |TagBytes(num, START_GROUP)|
    ensures GroupsEnd(next, open, b, at) == GroupsEnd(next, Opened(open, num), b, end)
  {
    TagAt(b, at, num, START_GROUP);
    assert Next(open, b[at..]) == Some((Opened(open, num), end - at));
    Step(next, open, b, at, Opened(open, num), end);
  }

  lemma {:induction false} GroupCloses(next: Stepper, open: Open, num: nat, b: seq<byte>, at: nat, end: nat)
    requires IsNext(next) && 1 <= num <= MAX_NUMBER
    requires At(b, at, TagBytes(num, END_GROUP)) && end == at + |TagBytes(num, END_GROUP)|
    ensures GroupsEnd(next, Opened(open, num), b, at) == GroupsEnd(next, open, b, end)
  {
    TagAt(b, at, num, END_GROUP);
    assert Next(Opened(open, num), b[at..]) == Some((open, end - at));
    Step(next, Opened(open, num), b, at, open, end);
  }

  /** A whole group from its first field on ends with its end tag. */
  lemma {:induction false} GroupIsSkipped(next: Stepper, open: Open, num: nat, fs: Fields, b: seq<byte>, at: nat, end: nat)
    requires IsNext(next) && 1 <= num <= MAX_NUMBER && OkFields(fs, Level(open) + 1)
    requires At(b, at, ValueBytes(num, Group(fs))) && end == at + |ValueBytes(num, Group(fs))|
    ensures GroupsEnd(next, Opened(open, num), b, at) == GroupsEnd(next, open, b, end)
    decreases fs, 1
  {
    AtSplit(b, at, FieldsBytes(fs), TagBytes(num, END_GROUP));
    var mid := at + |FieldsBytes(fs)|;
    FieldsAreSkipped(next, Opened(open, num), fs, b, at, mid);
    GroupCloses(next, open, num, b, mid, end);
  }

  /** Inside a group a field is skipped exactly. */
  lemma {:induction false} FieldIsSkipped(next: Stepper, open: Open, f: Field, b: seq<byte>, at: nat, end: nat)
    requires IsNext(next) && open.Inside? && OkField(f, open.level)
    requires At(b, at, FieldBytes(f)) && end == at + |FieldBytes(f)|
    ensures GroupsEnd(next, open, b, at) == GroupsEnd(next, open, b, end)
    decreases f, 0
  {
    var mid := at + |TagBytes(f.num, Type(f.value))|;
    AtSplit(b, at, TagBytes(f.num, Type(f.value)), ValueBytes(f.num, f.value));
    if f.value.Group? {
      GroupOpens(next, open, f.num, b, at, mid);
      GroupIsSkipped(next, open, f.num, f.value.fields, b, mid, end);
    } else {
      LeafIsPassed(next, open, f.num, f.value, b, at, mid, end);
    }
  }

  lemma {:induction false} FieldsAreSkipped(next: Stepper, open: Open, fs: Fields, b: seq<byte>, at: nat, end: nat)
    requires IsNext(next) && open.Inside? && OkFields(fs, open.level)
    requires At(b, at, FieldsBytes(fs)) && end == at + |FieldsBytes(fs)|
    ensures GroupsEnd(next, open, b, at) == GroupsEnd(next, open, b, end)
    decreases fs, 0
  {
    if fs.Then? {
      AtSplit(b, at, FieldBytes(fs.head), FieldsBytes(fs.tail));
      var mid := at + |FieldBytes(fs.head)|;
      FieldIsSkipped(next, open, fs.head, b, at, mid);
      FieldsAreSkipped(next, open, fs.tail, b, mid, end);
    }
  }

  /** A value is skipped exactly, whatever follows it. */
  lemma {:induction false} ValueIsSkipped(num: nat, v: Value, rest: seq<byte>)
    requires 1 <= num <= MAX_NUMBER && OkValue(v, 0)
    ensures ValueLength(num, Type(v), ValueBytes(num, v) + rest) == Some(|ValueBytes(num, v)|)
  {
    if v.Group? {
      GroupIsSkipped(Next, Outside, num, v.fields, ValueBytes(num, v) + rest, 0, |ValueBytes(num, v)|);
    } else {
      LeafIsSkipped(num, v, ValueBytes(num, v) + rest, rest);
    }
  }

  /** A message reads back as the entries it was built from, mixed with any other fields. */
  lemma {:induction false} MessageReadsBack(fs: Fields, known: set<nat>)
    requires OkFields(fs, 0)
    ensures Parse(FieldsBytes(fs), known) == Some(Entries(fs, known))
  {
    match fs {
      case End =>
      case Then(head, tail) =>
        MessageReadsBack(tail, known);
        FieldReadsBack(head, FieldsBytes(tail), known);
    }
  }

  lemma {:induction false} FieldReadsBack(f: Field, rest: seq<byte>, known: set<nat>)
    requires OkField(f, 0)
    ensures Parse(FieldBytes(f) + rest, known)
         == Consed(if f.num in known && f.value.Bytes? then [Entry(f.num, f.value.payload)] else [], Parse(rest, known))
  {
    var tag, value := TagBytes(f.num, Type(f.value)), ValueBytes(f.num, f.value);
    var b := FieldBytes(f) + rest;
    assert b == tag + (value + rest);
    TagReadsBack(f.num, Type(f.value), b, value + rest);
    assert b[|tag|..] == value + rest;
    assert (value + rest)[|value|..] == rest;
    if f.num in known && f.value.Bytes? {
      BytesReadBack(f.value.payload, rest);
    } else {
      ValueIsSkipped(f.num, f.value, rest);
    }
  }
}
