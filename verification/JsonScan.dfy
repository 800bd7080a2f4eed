/** youtube/playerresponse.go's extractJSONObjectFrom: cutting one balanced object out of
    a page. Text is a sequence of bytes, written as characters. */
module JsonScan {
  import opened Common

  // ---------- JSON texts (RFC 8259) ----------

  /** One piece of a string: a byte that stands for itself, or an escape. */
  datatype StringItem = Raw(c: char) | Escape(c: char) | Unicode(hex: string)
  {
    predicate Ok() {
      match this
      case Raw(c) => c != '"' && c != '\\'
      case Escape(c) => c in "\"\\/bfnrt"
      case Unicode(hex) => |hex| == 4 && forall k :: 0 <= k < 4 ==> IsHex(hex[k])
    }

    function Text(): string {
      match this
      case Raw(c) => [c]
      case Escape(c) => ['\\', c]
      case Unicode(hex) => ['\\', 'u'] + hex
    }
  }

  predicate IsHex(c: char) {
    '0' <= c <= '9' || 'a' <= c <= 'f' || 'A' <= c <= 'F'
  }

  /** A JSON value with its white space: members and elements are chained, each carrying
      the white space around its parts. Atoms are numbers, true, false and null. */
  datatype Value =
    | Atom(text: string)
    | Str(items: seq<StringItem>)
    | Arr(elements: Elements)
    | Obj(members: Members)

  datatype Elements = NoElement(ws: string) | Element(pre: string, v: Value, post: string, rest: Elements)

  datatype Members =
    | NoMember(ws: string)
    | Member(pre: string, key: seq<StringItem>, mid: string, v: Value, post: string, rest: Members)

  predicate Plain(s: string) {
    forall k :: 0 <= k < |s| ==> s[k] != '"' && s[k] != '{' && s[k] != '}' && s[k] != '\\'
  }

  predicate OkItems(items: seq<StringItem>) {
    forall k :: 0 <= k < |items| ==> items[k].Ok()
  }

  predicate OkValue(v: Value) {
    match v
    case Atom(text) => Plain(text)
    case Str(items) => OkItems(items)
    case Arr(e) => OkElements(e)
    case Obj(m) => OkMembers(m)
  }

  predicate OkElements(e: Elements) {
    match e
    case NoElement(ws) => Plain(ws)
    case Element(pre, v, post, rest) => Plain(pre) && OkValue(v) && Plain(post) && OkElements(rest)
  }

  predicate OkMembers(m: Members) {
    match m
    case NoMember(ws) => Plain(ws)
    case Member(pre, key, mid, v, post, rest) =>
      Plain(pre) && OkItems(key) && Plain(mid) && OkValue(v) && Plain(post) && OkMembers(rest)
  }

  function ItemsText(items: seq<StringItem>): string {
    if items == [] then "" else items[0].Text() + ItemsText(items[1..])
  }

  function StringText(items: seq<StringItem>): string {
    "\"" + ItemsText(items) + "\""
  }

  function ValueText(v: Value): string {
    match v
    case Atom(text) => text
    case Str(items) => StringText(items)
    case Arr(e) => "[" + ElementsText(e) + "]"
    case Obj(m) => "{" + MembersText(m) + "}"
  }

  /** A comma stands between two elements, not after the last. */
  function ElementsText(e: Elements): string {
    match e
    case NoElement(ws) => ws
    case Element(pre, v, post, rest) =>
      pre + ValueText(v) + post + (if rest.Element? then "," else "") + ElementsText(rest)
  }

  function MembersText(m: Members): string {
    match m
    case NoMember(ws) => ws
    case Member(pre, key, mid, v, post, rest) =>
      pre + StringText(key) + mid + ":" + ValueText(v) + post + (if rest.Member? then "," else "") + MembersText(rest)
  }

  // ---------- the scanner ----------

  /** Where the scan stands: the brace depth, whether in a string, whether after a backslash. */
  datatype Mode = Mode(depth: int, inStr: bool, escaped: bool)

  /** One turn of the loop on a byte. */
  function Turn(m: Mode, ch: char): Mode {
    if m.inStr then
      if m.escaped then m.(escaped := false)
      else if ch == '\\' then m.(escaped := true)
      else if ch == '"' then m.(inStr := false)
      else m
    else if ch == '"' then m.(inStr := true)
    else if ch == '{' then m.(depth := m.depth + 1)
    else if ch == '}' then m.(depth := m.depth - 1)
    else m
  }

  /** The byte on which the loop returns. */
  predicate Closes(m: Mode, ch: char) {
    !m.inStr && ch == '}' && m.depth == 1
  }

  /** How many bytes of s the loop reads up to and with the one it returns on. */
  function Balance(s: string, m: Mode): (r: Option<nat>)
    ensures r.Some? ==> 0 < r.value <= |s|
    decreases |s|
  {
    if s == "" then None
    else if Closes(m, s[0]) then Some(1)
    else
      match Balance(s[1..], Turn(m, s[0]))
      case None => None
      case Some(n) => Some(n + 1)
  }

  function Plus(r: Option<nat>, n: nat): Option<nat> {
    if r.None? then None else Some(r.value + n)
  }

  /** strings.Index from a position on. */
  function IndexFrom(s: string, marker: string, start: nat): (r: Option<nat>)
    requires start <= |s|
    ensures r.Some? ==> start <= r.value && r.value + |marker| <= |s| && s[r.value..r.value + |marker|] == marker
    ensures r.Some? ==> forall j :: start <= j < r.value ==> !OccursAt(s, marker, j)
    ensures r.None? ==> forall j :: start <= j <= |s| ==> !OccursAt(s, marker, j)
    decreases |s| - start
  {
    if OccursAt(s, marker, start) then Some(start)
    else if start == |s| then None
    else IndexFrom(s, marker, start + 1)
  }

  predicate OccursAt(s: string, marker: string, j: int) {
    0 <= j && j + |marker| <= |s| && s[j..j + |marker|] == marker
  }

  /** The loop from the first brace: the index past the closing one. */
  method ScanObject(s: string, objStart: nat) returns (end: Option<nat>)
    requires objStart <= |s|
    ensures end == Plus(Balance(s[objStart..], Mode(0, false, false)), objStart)
  {
    var depth, inStr, escaped := 0, false, false;
    var k := objStart;
    while k < |s|
      invariant objStart <= k <= |s|
      invariant Plus(Balance(s[objStart..], Mode(0, false, false)), objStart)
             == Plus(Balance(s[k..], Mode(depth, inStr, escaped)), k)
    {
      var ch := s[k];
      assert s[k..][1..] == s[k + 1..];
      if inStr {
        if escaped {
          escaped := false;
        } else if ch == '\\' {
          escaped := true;
        } else if ch == '"' {
          inStr := false;
        }
      } else if ch == '"' {
        inStr := true;
      } else if ch == '{' {
        depth := depth + 1;
      } else if ch == '}' {
        depth := depth - 1;
        if depth == 0 {
          return Some(k + 1);
        }
      }
      k := k + 1;
    }
    return None;
  }

  /** extractJSONObjectFrom: the object after the next marker, and the index past it. */
  method ExtractFrom(s: string, marker: string, from: int) returns (r: Option<(string, nat)>)
    requires from <= |s|
    ensures r == Extracted(s, marker, from)
  {
    var at := IndexFrom(s, marker, if from < 0 then 0 else from);
    if at.None? {
      return None;
    }
    var brace := IndexFrom(s, "{", at.value);
    if brace.None? {
      return None;
    }
    var end := ScanObject(s, brace.value);
    if end.None? {
      return None;
    }
    return Some((s[brace.value..end.value], end.value));
  }

  function Extracted(s: string, marker: string, from: int): (r: Option<(string, nat)>)
    requires from <= |s|
    // repeated scans advance
    ensures r.Some? ==> |r.value.0| >= 1 && Max(from, 0) + |r.value.0| <= r.value.1 <= |s|
  {
    var at := IndexFrom(s, marker, Max(from, 0));
    if at.None? then None
    else
      var brace := IndexFrom(s, "{", at.value);
      if brace.None? then None
      else
        var n := Balance(s[brace.value..], Mode(0, false, false));
        if n.None? then None else Some((s[brace.value..brace.value + n.value], brace.value + n.value))
  }

  /** What is cut out is a stretch of the page in braces. */
  lemma {:induction false} ExtractedIsBraced(s: string, marker: string, from: int)
    requires from <= |s| && Extracted(s, marker, from).Some?
    ensures var (text, end) := Extracted(s, marker, from).value;
            text == s[end - |text|..end] && text[0] == '{' && text[|text| - 1] == '}'
  {
    var at := IndexFrom(s, marker, Max(from, 0)).value;
    var brace := IndexFrom(s, "{", at).value;
    BalanceEndsInBrace(s[brace..], Mode(0, false, false));
    assert s[brace..brace + 1] == [s[brace]];
  }

  lemma {:induction false} BalanceEndsInBrace(s: string, m: Mode)
    requires Balance(s, m).Some?
    ensures s[Balance(s, m).value - 1] == '}'
    decreases |s|
  {
    if !Closes(m, s[0]) {
      BalanceEndsInBrace(s[1..], Turn(m, s[0]));
    }
  }

  // ---------- the scanner on JSON texts ----------

  /** The loop passes over text: it comes out in the mode it went in. */
  predicate Passes(text: string, m: Mode, rest: string) {
    Balance(text + rest, m) == Plus(Balance(rest, m), |text|)
  }

  lemma {:induction false} OneByte(c: char, m: Mode, rest: string)
    requires !Closes(m, c)
    ensures Balance([c] + rest, m) == Plus(Balance(rest, Turn(m, c)), 1)
  {
  }

  lemma {:induction false} Together(a: string, b: string, m: Mode, rest: string)
    requires Passes(b, m, rest) && Passes(a, m, b + rest)
    ensures Passes(a + b, m, rest)
  {
    assert a + b + rest == a + (b + rest);
  }

  lemma {:induction false} PlainPasses(s: string, m: Mode, rest: string)
    requires Plain(s) && !m.inStr
    ensures Passes(s, m, rest)
  {
    if s == "" {
      assert s + rest == rest;
    } else {
      PlainPasses(s[1..], m, rest);
      OneByte(s[0], m, s[1..] + rest);
      assert s + rest == [s[0]] + (s[1..] + rest);
    }
  }

  lemma {:induction false} ItemPasses(item: StringItem, m: Mode, rest: string)
    requires item.Ok() && m.inStr && !m.escaped
    ensures Passes(item.Text(), m, rest)
  {
    match item {
      case Raw(c) => OneByte(c, m, rest);
      case Escape(c) =>
        OneByte(c, m.(escaped := true), rest);
        OneByte('\\', m, [c] + rest);
        assert ['\\', c] + rest == ['\\'] + ([c] + rest);
      case Unicode(hex) =>
        HexPasses(hex, m, rest);
        OneByte('u', m.(escaped := true), hex + rest);
        OneByte('\\', m, ['u'] + (hex + rest));
        assert ['\\', 'u'] + hex + rest == ['\\'] + (['u'] + (hex + rest));
    }
  }

  lemma {:induction false} HexPasses(hex: string, m: Mode, rest: string)
    requires m.inStr && !m.escaped && forall k :: 0 <= k < |hex| ==> IsHex(hex[k])
    ensures Passes(hex, m, rest)
  {
    if hex == "" {
      assert hex + rest == rest;
    } else {
      HexPasses(hex[1..], m, rest);
      OneByte(hex[0], m, hex[1..] + rest);
      assert hex + rest == [hex[0]] + (hex[1..] + rest);
    }
  }

  lemma {:induction false} ItemsPass(items: seq<StringItem>, m: Mode, rest: string)
    requires OkItems(items) && m.inStr && !m.escaped
    ensures Passes(ItemsText(items), m, rest)
  {
    if items == [] {
      assert "" + rest == rest;
    } else {
      ItemsPass(items[1..], m, rest);
      ItemPasses(items[0], m, ItemsText(items[1..]) + rest);
      Together(items[0].Text(), ItemsText(items[1..]), m, rest);
    }
  }

  /** Braces, quotes and escapes inside a string do not count. */
  lemma {:induction false} StringPasses(items: seq<StringItem>, m: Mode, rest: string)
    requires OkItems(items) && !m.inStr && !m.escaped
    ensures Passes(StringText(items), m, rest)
  {
    var inside := m.(inStr := true);
    var body := ItemsText(items);
    OneByte('"', inside, rest);
    ItemsPass(items, inside, "\"" + rest);
    OneByte('"', m, body + ("\"" + rest));
    assert StringText(items) + rest == "\"" + (body + ("\"" + rest));
  }

  lemma {:induction false} ValuePasses(v: Value, m: Mode, rest: string)
    requires OkValue(v) && m.depth >= 1 && !m.inStr && !m.escaped
    ensures Passes(ValueText(v), m, rest)
    decreases v, 0
  {
    match v {
      case Atom(text) => PlainPasses(text, m, rest);
      case Str(items) => StringPasses(items, m, rest);
      case Arr(e) =>
        PlainPasses("]", m, rest);
        ElementsPass(e, m, "]" + rest);
        Together(ElementsText(e), "]", m, rest);
        PlainPasses("[", m, ElementsText(e) + "]" + rest);
        Together("[", ElementsText(e) + "]", m, rest);
        assert ValueText(v) == "[" + (ElementsText(e) + "]");
      case Obj(members) =>
        ObjectBody(members, m, rest);
    }
  }

  /** Something passed over stays so between plain text and a passed-over tail. */
  lemma {:induction false} LayersPass(pre: string, v: string, post: string, tail: string, m: Mode, rest: string)
    requires Plain(pre) && Plain(post) && !m.inStr
    requires Passes(tail, m, rest) && Passes(v, m, post + tail + rest)
    ensures Passes(pre + (v + (post + tail)), m, rest)
  {
    PlainPasses(post, m, tail + rest);
    Together(post, tail, m, rest);
    Together(v, post + tail, m, rest);
    PlainPasses(pre, m, v + (post + tail) + rest);
    Together(pre, v + (post + tail), m, rest);
  }

  lemma {:induction false} ElementsSplit(e: Elements)
    requires e.Element?
    ensures ElementsText(e) == e.pre + (ValueText(e.v) + (e.post + (if e.rest.Element? then "," else "") + ElementsText(e.rest)))
  {
  }

  lemma {:induction false} ElementsPass(e: Elements, m: Mode, rest: string)
    requires OkElements(e) && m.depth >= 1 && !m.inStr && !m.escaped
    ensures Passes(ElementsText(e), m, rest)
    decreases e, 0
  {
    match e {
      case NoElement(ws) => PlainPasses(ws, m, rest);
      case Element(pre, v, post, tail) =>
        var after := post + (if tail.Element? then "," else "");
        ElementsPass(tail, m, rest);
        ValuePasses(v, m, after + ElementsText(tail) + rest);
        LayersPass(pre, ValueText(v), after, ElementsText(tail), m, rest);
        ElementsSplit(e);
    }
  }

  lemma {:induction false} PairPasses(key: seq<StringItem>, mid: string, value: string, m: Mode, rest: string)
    requires OkItems(key) && Plain(mid) && !m.inStr && !m.escaped
    requires Passes(value, m, rest)
    ensures Passes(StringText(key) + (mid + ":" + value), m, rest)
  {
    PlainPasses(mid + ":", m, value + rest);
    Together(mid + ":", value, m, rest);
    StringPasses(key, m, mid + ":" + value + rest);
    Together(StringText(key), mid + ":" + value, m, rest);
  }

  lemma {:induction false} MembersPass(ms: Members, m: Mode, rest: string)
    requires OkMembers(ms) && m.depth >= 1 && !m.inStr && !m.escaped
    ensures Passes(MembersText(ms), m, rest)
    decreases ms, 0
  {
    match ms {
      case NoMember(ws) => PlainPasses(ws, m, rest);
      case Member(pre, key, mid, v, post, tail) =>
        var after := post + (if tail.Member? then "," else "");
        var pair := StringText(key) + (mid + ":" + ValueText(v));
        MembersPass(tail, m, rest);
        ValuePasses(v, m, after + MembersText(tail) + rest);
        PairPasses(key, mid, ValueText(v), m, after + MembersText(tail) + rest);
        LayersPass(pre, pair, after, MembersText(tail), m, rest);
        MembersSplit(ms);
    }
  }

  lemma {:induction false} MembersSplit(ms: Members)
    requires ms.Member?
    ensures MembersText(ms)
         == ms.pre + (StringText(ms.key) + (ms.mid + ":" + ValueText(ms.v))
                      + (ms.post + (if ms.rest.Member? then "," else "") + MembersText(ms.rest)))
  {
  }

  lemma {:induction false} BracesPass(body: string, m: Mode, rest: string)
    requires !m.inStr && !m.escaped && m.depth >= 1 && Passes(body, m.(depth := m.depth + 1), "}" + rest)
    ensures Passes("{" + body + "}", m, rest)
  {
    OneByte('}', m.(depth := m.depth + 1), rest);
    OneByte('{', m, body + ("}" + rest));
    assert "{" + body + "}" + rest == "{" + (body + ("}" + rest));
  }

  /** An object inside another value leaves the depth as it was. */
  lemma {:induction false} ObjectBody(members: Members, m: Mode, rest: string)
    requires OkMembers(members) && m.depth >= 1 && !m.inStr && !m.escaped
    ensures Passes(ValueText(Obj(members)), m, rest)
    decreases members, 1
  {
    MembersPass(members, m.(depth := m.depth + 1), "}" + rest);
    BracesPass(MembersText(members), m, rest);
  }

  /** From the outside, the scan of an object text ends on its last byte, whatever follows. */
  lemma {:induction false} ObjectIsBalanced(members: Members, rest: string)
    requires OkMembers(members)
    ensures Balance(ValueText(Obj(members)) + rest, Mode(0, false, false)) == Some(|ValueText(Obj(members))|)
  {
    var out, inside := Mode(0, false, false), Mode(1, false, false);
    var body := MembersText(members);
    MembersPass(members, inside, "}" + rest);
    OneByte('{', out, body + ("}" + rest));
    assert ValueText(Obj(members)) + rest == "{" + (body + ("}" + rest));
    assert Balance("}" + rest, inside) == Some(1);
  }

  /** The next brace after a stretch without one. */
  lemma {:induction false} NextBrace(s: string, at: nat, objStart: nat)
    requires at <= objStart < |s| && s[objStart] == '{'
    requires forall j :: at <= j < objStart ==> s[j] != '{'
    ensures IndexFrom(s, "{", at) == Some(objStart)
    decreases objStart - at
  {
    assert s[at..at + 1] == [s[at]];
    if at < objStart {
      NextBrace(s, at + 1, objStart);
    }
  }

  lemma {:induction false} NextMarker(s: string, marker: string, from: nat, at: nat)
    requires from <= at <= |s| && OccursAt(s, marker, at)
    requires forall j :: from <= j < at ==> !OccursAt(s, marker, j)
    ensures IndexFrom(s, marker, from) == Some(at)
    decreases at - from
  {
    if from < at {
      NextMarker(s, marker, from + 1, at);
    }
  }

  /** The marker and the brace after it are found where they stand. */
  lemma {:induction false} MarkerThenBrace(s: string, before: string, lead: string, marker: string, rest: string, from: nat)
    requires s == before + lead + rest
    requires marker <= lead && '{' !in lead && |rest| > 0 && rest[0] == '{'
    requires from <= |before| && forall j :: from <= j < |before| ==> !OccursAt(s, marker, j)
    ensures IndexFrom(s, marker, from) == Some(|before|)
    ensures IndexFrom(s, "{", |before|) == Some(|before| + |lead|)
  {
    var at, objStart := |before|, |before| + |lead|;
    assert s[at..at + |marker|] == marker;
    NextMarker(s, marker, from, at);
    assert s[objStart] == rest[0];
    forall j | at <= j < objStart
      ensures s[j] != '{'
    {
      assert s[j] == lead[j - at];
    }
    NextBrace(s, at, objStart);
  }

  /** Whatever text is balanced is returned exactly, with the index just past it. */
  lemma {:induction false} BalancedIsExtracted(s: string, before: string, lead: string, marker: string, text: string, rest: string, from: nat)
    requires s == before + lead + (text + rest)
    requires marker <= lead && '{' !in lead && |text| > 0 && text[0] == '{'
    requires Balance(text + rest, Mode(0, false, false)) == Some(|text|)
    requires from <= |before| && forall j :: from <= j < |before| ==> !OccursAt(s, marker, j)
    ensures Extracted(s, marker, from) == Some((text, |before| + |lead| + |text|))
  {
    MarkerThenBrace(s, before, lead, marker, text + rest, from);
    Cut(before + lead, text, rest);
  }

  lemma {:induction false} Cut(a: string, text: string, rest: string)
    ensures (a + (text + rest))[|a|..] == text + rest
    ensures (a + (text + rest))[|a|..|a| + |text|] == text
  {
  }

  /** For every JSON object, scanning from a marker followed by a brace-free gap and the
      object returns exactly the object and the index just past it. */
  lemma {:induction false} ObjectIsExtracted(s: string, before: string, marker: string, gap: string, members: Members, rest: string, from: nat)
    requires OkMembers(members)
    requires s == before + (marker + gap) + (ValueText(Obj(members)) + rest)
    requires '{' !in marker && '{' !in gap
    requires from <= |before| && forall j :: from <= j < |before| ==> !OccursAt(s, marker, j)
    ensures Extracted(s, marker, from)
         == Some((ValueText(Obj(members)), |before| + |marker + gap| + |ValueText(Obj(members))|))
  {
    ObjectIsBalanced(members, rest);
    BalancedIsExtracted(s, before, marker + gap, marker, ValueText(Obj(members)), rest, from);
  }

  /** The objects a page offers after successive markers. */
  function Offered(html: string, marker: string, from: nat): seq<string>
    requires from <= |html|
    decreases |html| - from
  {
    var r := Extracted(html, marker, from);
    if r.None? then [] else [r.value.0] + Offered(html, marker, r.value.1)
  }

  /** n is the first place in the list that is taken. */
  predicate FirstTaken(objects: seq<string>, takes: string -> bool, n: nat) {
    n < |objects| && takes(objects[n]) && forall k :: 0 <= k < n ==> !takes(objects[k])
  }

  predicate NoneTaken(objects: seq<string>, takes: string -> bool) {
    forall k :: 0 <= k < |objects| ==> !takes(objects[k])
  }

  lemma {:induction false} TakenNext(seen: seq<string>, x: string, rest: seq<string>, takes: string -> bool)
    requires NoneTaken(seen, takes)
    ensures seen + ([x] + rest) == (seen + [x]) + rest && (seen + ([x] + rest))[|seen|] == x
    ensures if takes(x) then FirstTaken(seen + ([x] + rest), takes, |seen|) else NoneTaken(seen + [x], takes)
  {
    var all := seen + ([x] + rest);
    assert forall k :: 0 <= k < |seen| ==> all[k] == seen[k];
  }

  /** findChapterItems: successive objects are tried until one is taken; none means that all
      were rejected. takes stands for decoding an object and finding the player bar in it. */
  method FindObject(html: string, marker: string, takes: string -> bool) returns (obj: Option<string>)
    ensures obj.Some? ==> exists n: nat :: FirstTaken(Offered(html, marker, 0), takes, n) && Offered(html, marker, 0)[n] == obj.value
    ensures obj.None? ==> NoneTaken(Offered(html, marker, 0), takes)
  {
    var start: nat := 0;
    ghost var all := Offered(html, marker, 0);
    ghost var seen, rest := [], all;
    while true
      invariant start <= |html| && all == Offered(html, marker, 0) && rest == Offered(html, marker, start)
      invariant all == seen + rest && NoneTaken(seen, takes)
      decreases |html| - start
    {
      var r := ExtractFrom(html, marker, start);
      if r.None? {
        assert all == seen;
        return None;
      }
      TakenNext(seen, r.value.0, rest[1..], takes);
      assert rest == [r.value.0] + rest[1..];
      if takes(r.value.0) {
        return Some(r.value.0);
      }
      seen, rest := seen + [r.value.0], rest[1..];
      start := r.value.1;
    }
  }
}
