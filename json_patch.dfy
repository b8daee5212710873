/**
 * The JSON documents the webhook emits: an array of RFC 6902 operations, as
 * json.Marshal writes them for the fixed shapes used here, and a decoder for
 * exactly that shape, which lets the round trip be stated and proved.
 *
 * Object keys come out in the order json.Marshal uses: declaration order for
 * a struct, sorted order for a Go map. For the operation objects both orders
 * are `op`, `path`, `value`; inside a resource value they are `limits` before
 * `requests` and `cpu` before `memory`.
 */
module JsonPatch {
  import opened Wrappers
  import opened Ascii

  /** A resource list with the two quantities the webhook sets. */
  datatype Quantities = Quantities(cpu: string, memory: string)

  /** The value of an operation: a plain string, or a requests/limits object. */
  datatype Value = Text(text: string) | Resources(requests: Quantities, limits: Quantities)

  /** One RFC 6902 operation (the Operation struct and the anonymous structs and maps of main.go). */
  datatype Operation = Operation(op: string, path: string, value: Value)

  /**
   * A character json.Marshal copies unchanged into a string literal: printable
   * ASCII other than the quote and backslash (escaped as in every JSON writer)
   * and `<`, `>`, `&` (escaped by Go's default HTML-safe mode).
   */
  predicate PlainChar(c: char) {
    ' ' <= c <= '~' && c != '"' && c != '\\' && c != '<' && c != '>' && c != '&'
  }

  predicate Plain(s: string) {
    forall i :: 0 <= i < |s| ==> PlainChar(s[i])
  }

  predicate PlainQuantities(q: Quantities) {
    Plain(q.cpu) && Plain(q.memory)
  }

  predicate PlainValue(v: Value) {
    match v
    case Text(s) => Plain(s)
    case Resources(rq, lm) => PlainQuantities(rq) && PlainQuantities(lm)
  }

  predicate PlainOperation(o: Operation) {
    Plain(o.op) && Plain(o.path) && PlainValue(o.value)
  }

  predicate PlainOperations(ops: seq<Operation>) {
    forall k :: 0 <= k < |ops| ==> PlainOperation(ops[k])
  }

  lemma PlainConcat(a: string, b: string)
    requires Plain(a) && Plain(b)
    ensures Plain(a + b)
  {
  }

  // ---------------------------------------------------------------- encoder

  /** A JSON string literal for s; no character of s needs an escape. */
  function Quote(s: string): (r: string)
    requires Plain(s)
    ensures IsAscii(r)
    ensures |r| == |s| + 2 && r[0] == '"'
  {
    "\"" + s + "\""
  }

  /** A requests or limits object; json.Marshal sorts a Go map's keys, so `cpu` comes before `memory`. */
  function EncodeQuantities(q: Quantities): (r: string)
    requires PlainQuantities(q)
    ensures IsAscii(r)
  {
    "{\"cpu\":" + Quote(q.cpu) + ",\"memory\":" + Quote(q.memory) + "}"
  }

  /** A string value, or a resources object whose sorted keys put `limits` before `requests`. */
  function EncodeValue(v: Value): (r: string)
    requires PlainValue(v)
    ensures IsAscii(r)
    ensures |r| > 0 && r[0] == (if v.Text? then '"' else '{')
  {
    match v
    case Text(s) => Quote(s)
    case Resources(rq, lm) =>
      "{\"limits\":" + EncodeQuantities(lm) + ",\"requests\":" + EncodeQuantities(rq) + "}"
  }

  function EncodeOperation(o: Operation): (r: string)
    requires PlainOperation(o)
    ensures IsAscii(r)
    ensures |r| > 0 && r[0] == '{'
  {
    "{\"op\":" + Quote(o.op) + ",\"path\":" + Quote(o.path) + ",\"value\":" + EncodeValue(o.value) + "}"
  }

  /** The elements of a non-empty array, separated by commas. */
  function EncodeElements(ops: seq<Operation>): (r: string)
    requires |ops| > 0 && PlainOperations(ops)
    ensures IsAscii(r)
    ensures |r| > 0 && r[0] == '{'
    decreases |ops|
  {
    if |ops| == 1 then EncodeOperation(ops[0])
    else EncodeOperation(ops[0]) + "," + EncodeElements(ops[1..])
  }

  /** json.Marshal of a non-nil slice of operations. */
  function EncodeArray(ops: seq<Operation>): (r: string)
    requires PlainOperations(ops)
    ensures IsAscii(r)
    ensures |r| >= 2 && r[0] == '[' && r[|r| - 1] == ']'
  {
    if ops == [] then "[]" else "[" + EncodeElements(ops) + "]"
  }

  /** json.Marshal of a slice that may be nil: a nil slice is written `null`. */
  function EncodeSlice(slice: Option<seq<Operation>>): (r: string)
    requires slice.Some? ==> PlainOperations(slice.value)
    ensures IsAscii(r)
    ensures r == "null" <==> slice.None?
  {
    match slice
    case None => "null"
    case Some(ops) => EncodeArray(ops)
  }

  // ---------------------------------------------------------------- decoder

  /** Strips the prefix lit from s. */
  function Literal(lit: string, s: string): (r: Option<string>)
    ensures r.Some? <==> lit <= s
    ensures r.Some? ==> s == lit + r.value
  {
    if |lit| <= |s| && s[..|lit|] == lit then Some(s[|lit|..]) else None
  }

  /** The characters before the first quote, and what follows that quote; an escape is rejected. */
  function StringBody(s: string): (r: Option<(string, string)>)
    ensures r.Some? ==> |r.value.1| < |s|
    decreases |s|
  {
    if |s| == 0 || s[0] == '\\' then None
    else if s[0] == '"' then Some(("", s[1..]))
    else
      var p :- StringBody(s[1..]);
      Some(([s[0]] + p.0, p.1))
  }

  function ParseString(s: string): (r: Option<(string, string)>)
    ensures r.Some? ==> |r.value.1| < |s|
  {
    var t :- Literal("\"", s);
    StringBody(t)
  }

  function ParseQuantities(s: string): (r: Option<(Quantities, string)>)
    ensures r.Some? ==> |r.value.1| < |s|
  {
    var s1 :- Literal("{\"cpu\":", s);
    var cpu :- ParseString(s1);
    var s2 :- Literal(",\"memory\":", cpu.1);
    var memory :- ParseString(s2);
    var s3 :- Literal("}", memory.1);
    Some((Quantities(cpu.0, memory.0), s3))
  }

  function ParseValue(s: string): (r: Option<(Value, string)>)
    ensures r.Some? ==> |r.value.1| < |s|
  {
    if |s| > 0 && s[0] == '"' then
      var t :- ParseString(s);
      Some((Text(t.0), t.1))
    else
      var s1 :- Literal("{\"limits\":", s);
      var limits :- ParseQuantities(s1);
      var s2 :- Literal(",\"requests\":", limits.1);
      var requests :- ParseQuantities(s2);
      var s3 :- Literal("}", requests.1);
      Some((Resources(requests.0, limits.0), s3))
  }

  function ParseOperation(s: string): (r: Option<(Operation, string)>)
    ensures r.Some? ==> |r.value.1| < |s|
  {
    var s1 :- Literal("{\"op\":", s);
    var op :- ParseString(s1);
    var s2 :- Literal(",\"path\":", op.1);
    var path :- ParseString(s2);
    var s3 :- Literal(",\"value\":", path.1);
    var value :- ParseValue(s3);
    var s4 :- Literal("}", value.1);
    Some((Operation(op.0, path.0, value.0), s4))
  }

  /** Operations separated by commas, up to and including the closing bracket. */
  function ParseElements(s: string): (r: Option<(seq<Operation>, string)>)
    ensures r.Some? ==> |r.value.1| < |s|
    decreases |s|
  {
    var first :- ParseOperation(s);
    var rest := first.1;
    if |rest| > 0 && rest[0] == ']' then Some(([first.0], rest[1..]))
    else if |rest| > 0 && rest[0] == ',' then
      var more :- ParseElements(rest[1..]);
      Some(([first.0] + more.0, more.1))
    else None
  }

  /** The operations of a whole document; `null` (a nil slice) applies no operation. */
  function Decode(s: string): Option<seq<Operation>> {
    if s == "null" || s == "[]" then Some([])
    else
      var body :- Literal("[", s);
      var elements :- ParseElements(body);
      if elements.1 == "" then Some(elements.0) else None
  }

  function DecodeBytes(b: seq<byte>): Option<seq<Operation>> {
    Decode(FromBytes(b))
  }

  // ---------------------------------------------------------------- round trip

  lemma LiteralOf(lit: string, rest: string)
    ensures Literal(lit, lit + rest) == Some(rest)
  {
    assert (lit + rest)[..|lit|] == lit;
    assert (lit + rest)[|lit|..] == rest;
  }

  lemma {:induction false} StringBodyOf(t: string, rest: string)
    requires Plain(t)
    ensures StringBody(t + "\"" + rest) == Some((t, rest))
    decreases |t|
  {
    var s := t + "\"" + rest;
    if t == [] {
      assert s == "\"" + rest;
      assert s[1..] == rest;
    } else {
      assert PlainChar(t[0]);
      assert s[1..] == t[1..] + "\"" + rest;
      StringBodyOf(t[1..], rest);
      assert [t[0]] + t[1..] == t;
    }
  }

  lemma ParseStringOf(t: string, rest: string)
    requires Plain(t)
    ensures ParseString(Quote(t) + rest) == Some((t, rest))
  {
    assert Quote(t) + rest == "\"" + (t + "\"" + rest);
    LiteralOf("\"", t + "\"" + rest);
    StringBodyOf(t, rest);
  }

  lemma ParseQuantitiesOf(q: Quantities, rest: string)
    requires PlainQuantities(q)
    ensures ParseQuantities(EncodeQuantities(q) + rest) == Some((q, rest))
  {
    var r3 := "}" + rest;
    var r2 := Quote(q.memory) + r3;
    var r1 := ",\"memory\":" + r2;
    var r0 := Quote(q.cpu) + r1;
    assert EncodeQuantities(q) + rest == "{\"cpu\":" + r0;
    LiteralOf("{\"cpu\":", r0);
    ParseStringOf(q.cpu, r1);
    LiteralOf(",\"memory\":", r2);
    ParseStringOf(q.memory, r3);
    LiteralOf("}", rest);
  }

  lemma ParseValueOf(v: Value, rest: string)
    requires PlainValue(v)
    ensures ParseValue(EncodeValue(v) + rest) == Some((v, rest))
  {
    match v
    case Text(t) =>
      ParseStringOf(t, rest);
    case Resources(rq, lm) =>
      var r3 := "}" + rest;
      var r2 := EncodeQuantities(rq) + r3;
      var r1 := ",\"requests\":" + r2;
      var r0 := EncodeQuantities(lm) + r1;
      assert EncodeValue(v) + rest == "{\"limits\":" + r0;
      LiteralOf("{\"limits\":", r0);
      ParseQuantitiesOf(lm, r1);
      LiteralOf(",\"requests\":", r2);
      ParseQuantitiesOf(rq, r3);
      LiteralOf("}", rest);
  }

  lemma ParseOperationOf(o: Operation, rest: string)
    requires PlainOperation(o)
    ensures ParseOperation(EncodeOperation(o) + rest) == Some((o, rest))
  {
    var r5 := "}" + rest;
    var r4 := EncodeValue(o.value) + r5;
    var r3 := ",\"value\":" + r4;
    var r2 := Quote(o.path) + r3;
    var r1 := ",\"path\":" + r2;
    var r0 := Quote(o.op) + r1;
    assert EncodeOperation(o) + rest == "{\"op\":" + r0;
    LiteralOf("{\"op\":", r0);
    ParseStringOf(o.op, r1);
    LiteralOf(",\"path\":", r2);
    ParseStringOf(o.path, r3);
    LiteralOf(",\"value\":", r4);
    ParseValueOf(o.value, r5);
    LiteralOf("}", rest);
  }

  lemma ParseLastElement(o: Operation, rest: string)
    requires PlainOperation(o)
    ensures ParseElements(EncodeOperation(o) + ("]" + rest)) == Some(([o], rest))
  {
    ParseOperationOf(o, "]" + rest);
    assert ("]" + rest)[1..] == rest;
  }

  lemma ParseNextElement(o: Operation, more: string, ops: seq<Operation>, rest: string)
    requires PlainOperation(o)
    requires ParseElements(more) == Some((ops, rest))
    ensures ParseElements(EncodeOperation(o) + ("," + more)) == Some(([o] + ops, rest))
  {
    ParseOperationOf(o, "," + more);
    assert ("," + more)[1..] == more;
  }

  lemma PlainTail(ops: seq<Operation>)
    requires |ops| > 0 && PlainOperations(ops)
    ensures PlainOperation(ops[0]) && PlainOperations(ops[1..])
  {
    forall k | 0 <= k < |ops| - 1 ensures PlainOperation(ops[1..][k]) {
      assert ops[1..][k] == ops[k + 1];
    }
  }

  lemma SplitLast(ops: seq<Operation>, rest: string)
    requires |ops| == 1 && PlainOperations(ops)
    ensures PlainOperation(ops[0])
    ensures EncodeElements(ops) + "]" + rest == EncodeOperation(ops[0]) + ("]" + rest)
  {
    assert PlainOperation(ops[0]);
  }

  lemma SplitNext(ops: seq<Operation>, rest: string)
    requires |ops| > 1 && PlainOperations(ops)
    ensures PlainOperation(ops[0]) && PlainOperations(ops[1..])
    ensures EncodeElements(ops) + "]" + rest
         == EncodeOperation(ops[0]) + ("," + (EncodeElements(ops[1..]) + "]" + rest))
  {
    PlainTail(ops);
    var head, tail := EncodeOperation(ops[0]), EncodeElements(ops[1..]);
    assert EncodeElements(ops) == head + "," + tail;
    Regroup(head, tail, rest);
  }

  lemma Regroup(head: string, tail: string, rest: string)
    ensures head + "," + tail + "]" + rest == head + ("," + (tail + "]" + rest))
  {
  }

  lemma {:induction false} ParseElementsOf(ops: seq<Operation>, rest: string)
    requires |ops| > 0 && PlainOperations(ops)
    ensures ParseElements(EncodeElements(ops) + "]" + rest) == Some((ops, rest))
    decreases |ops|
  {
    if |ops| == 1 {
      SplitLast(ops, rest);
      ParseLastElement(ops[0], rest);
      assert [ops[0]] == ops;
    } else {
      SplitNext(ops, rest);
      ParseElementsOf(ops[1..], rest);
      ParseNextElement(ops[0], EncodeElements(ops[1..]) + "]" + rest, ops[1..], rest);
      assert [ops[0]] + ops[1..] == ops;
    }
  }

  /** Decoding an encoded array gives back its operations, in order. */
  lemma DecodeEncodeArray(ops: seq<Operation>)
    requires PlainOperations(ops)
    ensures Decode(EncodeArray(ops)) == Some(ops)
  {
    if ops != [] {
      var body := EncodeElements(ops) + "]";
      assert EncodeArray(ops) == "[" + body;
      ParseElementsOf(ops, "");
      assert body + "" == body;
      DecodeBracketed(body, ops);
    }
  }

  /** A bracket followed by elements that parse to the end decodes to those elements. */
  lemma DecodeBracketed(body: string, ops: seq<Operation>)
    requires |body| > 0 && body[0] == '{'
    requires ParseElements(body) == Some((ops, ""))
    ensures Decode("[" + body) == Some(ops)
  {
    var s := "[" + body;
    assert s[1] == '{';
    LiteralOf("[", body);
  }

  lemma DecodeEncodeSlice(slice: Option<seq<Operation>>)
    requires slice.Some? ==> PlainOperations(slice.value)
    ensures Decode(EncodeSlice(slice)) == Some(slice.GetOr([]))
  {
    if slice.Some? {
      DecodeEncodeArray(slice.value);
    }
  }
}
