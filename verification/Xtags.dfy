/** youtube/xtags.go: the audio role in the xtags of a player response, base64 over a
    protobuf message of repeated pairs (field 1, each with its key in field 1 and its
    value in field 2). */
module Xtags {
  import opened Common
  import opened Protowire
  import opened Utf8Text
  import Base64

  const ACONT: seq<byte> := [97, 99, 111, 110, 116] // "acont"

  datatype Pair = Pair(key: seq<byte>, value: seq<byte>)

  /** The last payload of a number, or what is given where there is none. */
  function LastOf(es: seq<Entry>, num: nat, given: seq<byte>): seq<byte> {
    if es == [] then given
    else if es[|es| - 1].num == num then es[|es| - 1].payload
    else LastOf(es[..|es| - 1], num, given)
  }

  ghost predicate AllUtf8(es: seq<Entry>) {
    forall k :: 0 <= k < |es| ==> Utf8(es[k].payload)
  }

  /** What entries say as a pair, given a key and a value read before: the last of each, all
      strings being UTF-8. */
  ghost function PairSaid(es: Option<seq<Entry>>, key: seq<byte>, value: seq<byte>): Option<Pair> {
    if es.None? || !AllUtf8(es.value) then None
    else Some(Pair(LastOf(es.value, 1, key), LastOf(es.value, 2, value)))
  }

  ghost function PairOf(b: seq<byte>): Option<Pair> {
    PairSaid(Parse(b, {1, 2}), [], [])
  }

  /** The first non-empty value whose key is acont. */
  ghost function FirstRole(es: seq<Entry>): seq<byte> {
    if es == [] then []
    else if PairOf(es[0].payload).Some? && PairOf(es[0].payload).value.key == ACONT && PairOf(es[0].payload).value.value != []
    then PairOf(es[0].payload).value.value
    else FirstRole(es[1..])
  }

  ghost predicate PairsRead(es: seq<Entry>) {
    forall k :: 0 <= k < |es| ==> PairOf(es[k].payload).Some?
  }

  /** What entries say as a role, given one read before: the first, all pairs being well
      formed. Empty stands for none. */
  ghost function RoleSaid(es: Option<seq<Entry>>, role: seq<byte>): Option<seq<byte>> {
    if es.None? || !PairsRead(es.value) then None
    else Some(if role != [] then role else FirstRole(es.value))
  }

  /** The message's audio role, if it is well formed throughout and says one. */
  ghost function RoleOf(b: seq<byte>): Option<seq<byte>> {
    var said := RoleSaid(Parse(b, {1}), []);
    if said == Some([]) then None else said
  }

  lemma {:induction false} LastOfCons(e: Entry, es: seq<Entry>, num: nat, given: seq<byte>)
    ensures LastOf([e] + es, num, given) == LastOf(es, num, if e.num == num then e.payload else given)
  {
    if es == [] {
      assert [e] + es == [e];
      assert [e][..0] == [];
    } else {
      LastOfCons(e, es[..|es| - 1], num, given);
      assert ([e] + es)[..|es|] == [e] + es[..|es| - 1];
    }
  }

  lemma {:induction false} PairSaidCons(e: Entry, after: Option<seq<Entry>>, key: seq<byte>, value: seq<byte>)
    ensures PairSaid(Consed([e], after), key, value)
         == if !Utf8(e.payload) then None
            else PairSaid(after, if e.num == 1 then e.payload else key, if e.num == 2 then e.payload else value)
  {
    if after.Some? {
      var es := [e] + after.value;
      assert es[0] == e;
      assert forall k :: 0 <= k < |after.value| ==> es[k + 1] == after.value[k];
      LastOfCons(e, after.value, 1, key);
      LastOfCons(e, after.value, 2, value);
    }
  }

  /** xtagsPair. */
  method ReadPair(bytes: seq<byte>) returns (r: Option<Pair>)
    ensures r == PairOf(bytes)
  {
    var b, key, value := bytes, [], [];
    while b != []
      invariant PairOf(bytes) == PairSaid(Parse(b, {1, 2}), key, value)
      decreases |b|
    {
      var t := ReadTag(b);
      if t.None? {
        return None;
      }
      b := b[t.value.len..];
      if (t.value.num != 1 && t.value.num != 2) || t.value.typ != BYTES {
        var n := ValueLength(t.value.num, t.value.typ, b);
        if n.None? {
          return None;
        }
        b := b[n.value..];
        SkippedKeeps(Parse(b, {1, 2}));
        continue;
      }
      var d := ReadBytes(b);
      if d.None? {
        return None;
      }
      b := b[d.value.len..];
      PairSaidCons(Entry(t.value.num, d.value.payload), Parse(b, {1, 2}), key, value);
      if !Utf8(d.value.payload) {
        return None;
      }
      if t.value.num == 1 {
        key := d.value.payload;
      } else {
        value := d.value.payload;
      }
    }
    return Some(Pair(key, value));
  }

  lemma {:induction false} SkippedKeeps(rest: Option<seq<Entry>>)
    ensures Consed([], rest) == rest
  {
    if rest.Some? {
      assert [] + rest.value == rest.value;
    }
  }

  lemma {:induction false} RoleSaidCons(payload: seq<byte>, after: Option<seq<Entry>>, role: seq<byte>)
    ensures RoleSaid(Consed([Entry(1, payload)], after), role)
         == if PairOf(payload).None? then None
            else RoleSaid(after, if role == [] && PairOf(payload).value.key == ACONT then PairOf(payload).value.value else role)
  {
    if after.Some? {
      var es := [Entry(1, payload)] + after.value;
      assert es[0].payload == payload && es[1..] == after.value;
      assert forall k :: 0 <= k < |after.value| ==> es[k + 1] == after.value[k];
    }
  }

  /** The message loop of xtagsAudioContent. */
  method ReadRole(bytes: seq<byte>) returns (r: Option<seq<byte>>)
    ensures r == RoleOf(bytes)
  {
    var b, role := bytes, [];
    while b != []
      invariant RoleSaid(Parse(bytes, {1}), []) == RoleSaid(Parse(b, {1}), role)
      decreases |b|
    {
      var t := ReadTag(b);
      if t.None? {
        return None;
      }
      b := b[t.value.len..];
      if t.value.num != 1 || t.value.typ != BYTES {
        var n := ValueLength(t.value.num, t.value.typ, b);
        if n.None? {
          return None;
        }
        b := b[n.value..];
        SkippedKeeps(Parse(b, {1}));
        continue;
      }
      var d := ReadBytes(b);
      if d.None? {
        return None;
      }
      b := b[d.value.len..];
      RoleSaidCons(d.value.payload, Parse(b, {1}), role);
      var pair := ReadPair(d.value.payload);
      if pair.None? {
        return None;
      }
      if role == [] && pair.value.key == ACONT {
        role := pair.value.value;
      }
    }
    return if role == [] then None else Some(role);
  }

  /** xtagsAudioContent. */
  method AudioContent(s: string) returns (r: Option<seq<byte>>)
    ensures r == AudioContentOf(s)
  {
    var b := Base64.DecodeTolerant(s);
    if b.None? {
      return None;
    }
    r := ReadRole(b.value);
  }

  ghost function AudioContentOf(s: string): Option<seq<byte>> {
    var b := Base64.Tolerant(s);
    if b.None? then None else RoleOf(b.value)
  }

  // ---- the round trip

  /** A pair, its strings mixed with any other fields, or a field that is no pair. */
  datatype Item = PairItem(parts: Fields) | Unknown(f: Field)

  ghost predicate OkItem(i: Item) {
    match i {
      case PairItem(parts) => OkFields(parts, 0) && |FieldsBytes(parts)| < Cap(0) && AllUtf8(Entries(parts, {1, 2}))
      case Unknown(f) => OkField(f, 0) && !(f.num == 1 && f.value.Bytes?)
    }
  }

  ghost predicate OkItems(items: seq<Item>) {
    forall k :: 0 <= k < |items| ==> OkItem(items[k])
  }

  function AsField(i: Item): Field {
    match i {
      case PairItem(parts) => Field(1, Bytes(FieldsBytes(parts)))
      case Unknown(f) => f
    }
  }

  function Message(items: seq<Item>): Fields {
    if items == [] then End else Then(AsField(items[0]), Message(items[1..]))
  }

  /** The last string of a number among the fields. */
  function LastString(fs: Fields, num: nat, given: seq<byte>): seq<byte> {
    match fs {
      case End => given
      case Then(head, tail) => LastString(tail, num, if head.num == num && head.value.Bytes? then head.value.payload else given)
    }
  }

  /** The first non-empty acont value, read off the items. */
  function FirstAcont(items: seq<Item>): seq<byte> {
    if items == [] then []
    else if items[0].PairItem? && LastString(items[0].parts, 1, []) == ACONT && LastString(items[0].parts, 2, []) != []
    then LastString(items[0].parts, 2, [])
    else FirstAcont(items[1..])
  }

  lemma {:induction false} LastStringIsLastEntry(fs: Fields, num: nat, given: seq<byte>)
    requires num in {1, 2}
    ensures LastString(fs, num, given) == LastOf(Entries(fs, {1, 2}), num, given)
  {
    match fs {
      case End =>
      case Then(head, tail) =>
        if head.num in {1, 2} && head.value.Bytes? {
          LastOfCons(Entry(head.num, head.value.payload), Entries(tail, {1, 2}), num, given);
          LastStringIsLastEntry(tail, num, if head.num == num then head.value.payload else given);
        } else {
          assert [] + Entries(tail, {1, 2}) == Entries(tail, {1, 2});
          LastStringIsLastEntry(tail, num, given);
        }
    }
  }

  lemma {:induction false} PairReadsBack(parts: Fields)
    requires OkItem(PairItem(parts))
    ensures PairOf(FieldsBytes(parts)) == Some(Pair(LastString(parts, 1, []), LastString(parts, 2, [])))
  {
    MessageReadsBack(parts, {1, 2});
    LastStringIsLastEntry(parts, 1, []);
    LastStringIsLastEntry(parts, 2, []);
  }

  lemma {:induction false} MessageIsOk(items: seq<Item>)
    requires OkItems(items)
    ensures OkFields(Message(items), 0)
  {
    if items != [] {
      assert OkItem(items[0]);
      assert forall k :: 0 <= k < |items[1..]| ==> items[1..][k] == items[k + 1];
      MessageIsOk(items[1..]);
    }
  }

  lemma {:induction false} EntriesOfPair(parts: Fields, tail: Fields)
    ensures Entries(Then(AsField(PairItem(parts)), tail), {1}) == [Entry(1, FieldsBytes(parts))] + Entries(tail, {1})
  {
  }

  lemma {:induction false} EntriesOfUnknown(f: Field, tail: Fields)
    requires !(f.num == 1 && f.value.Bytes?)
    ensures Entries(Then(f, tail), {1}) == Entries(tail, {1})
  {
  }

  lemma {:induction false} FirstRoleCons(payload: seq<byte>, rest: seq<Entry>, p: Pair)
    requires PairOf(payload) == Some(p) && PairsRead(rest)
    ensures PairsRead([Entry(1, payload)] + rest)
    ensures FirstRole([Entry(1, payload)] + rest) == if p.key == ACONT && p.value != [] then p.value else FirstRole(rest)
  {
  }

  /** Among the entries of a message the first role is the first acont of its items. */
  lemma {:induction false} RoleOfItems(items: seq<Item>)
    requires OkItems(items)
    ensures PairsRead(Entries(Message(items), {1}))
    ensures FirstRole(Entries(Message(items), {1})) == FirstAcont(items)
  {
    if items != [] {
      var tail := Message(items[1..]);
      assert OkItem(items[0]);
      assert forall k :: 0 <= k < |items[1..]| ==> items[1..][k] == items[k + 1];
      RoleOfItems(items[1..]);
      match items[0] {
        case PairItem(parts) =>
          PairReadsBack(parts);
          EntriesOfPair(parts, tail);
          FirstRoleCons(FieldsBytes(parts), Entries(tail, {1}), Pair(LastString(parts, 1, []), LastString(parts, 2, [])));
        case Unknown(f) =>
          EntriesOfUnknown(f, tail);
      }
    }
  }

  /** For any pairs mixed with any other fields, in any base64 variant, the role read is the
      first non-empty acont value. */
  lemma {:induction false} XtagsReadBack(items: seq<Item>, v: Base64.Variant)
    requires OkItems(items)
    ensures AudioContentOf(Base64.Encode(v, FieldsBytes(Message(items))))
         == (if FirstAcont(items) == [] then None else Some(FirstAcont(items)))
  {
    var b := FieldsBytes(Message(items));
    Base64.EncodedReadsBack(v, b);
    MessageIsOk(items);
    MessageReadsBack(Message(items), {1});
    RoleOfItems(items);
  }
}
