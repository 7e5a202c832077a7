/**
 The canonical JSON text that signatures are computed over (extension-signature.util.ts): object keys
 are printed in the order of their UTF-16 code units, everything else as JSON.stringify prints it.

 Texts are sequences of UTF-16 code units. A number carries the text that number printing gives it.
 */
module CanonicalJson {
  type Unit = u: int | 0 <= u < 0x1_0000
  type Text = seq<Unit>

  datatype Member = Member(key: Text, value: Json)
  datatype Json =
    | Null
    | Bool(b: bool)
    | Num(text: Text)
    | Str(s: Text)
    | Arr(items: seq<Json>)
    | Obj(members: seq<Member>)

  const QUOTE: Unit := 0x22
  const BACKSLASH: Unit := 0x5C
  const COMMA: Unit := 0x2C
  const COLON: Unit := 0x3A
  const OPEN_BRACKET: Unit := 0x5B
  const CLOSE_BRACKET: Unit := 0x5D
  const OPEN_BRACE: Unit := 0x7B
  const CLOSE_BRACE: Unit := 0x7D
  const NULL_TEXT: Text := [0x6E, 0x75, 0x6C, 0x6C]
  const TRUE_TEXT: Text := [0x74, 0x72, 0x75, 0x65]
  const FALSE_TEXT: Text := [0x66, 0x61, 0x6C, 0x73, 0x65]

  // ----- Strings as JSON.stringify quotes them -----

  predicate Lead(u: Unit) { 0xD800 <= u <= 0xDBFF }

  predicate Trail(u: Unit) { 0xDC00 <= u <= 0xDFFF }

  function HexDigit(n: int): Unit
    requires 0 <= n < 16
  {
    if n < 10 then 0x30 + n else 0x61 + (n - 10)
  }

  /** A unit on its own: the short escapes, hexadecimal for other controls and lone surrogates, or itself. */
  function Escape(u: Unit): Text {
    if u == 0x08 then [BACKSLASH, 0x62]
    else if u == 0x09 then [BACKSLASH, 0x74]
    else if u == 0x0A then [BACKSLASH, 0x6E]
    else if u == 0x0C then [BACKSLASH, 0x66]
    else if u == 0x0D then [BACKSLASH, 0x72]
    else if u == QUOTE || u == BACKSLASH then [BACKSLASH, u]
    else if u < 0x20 || Lead(u) || Trail(u) then
      [BACKSLASH, 0x75, HexDigit(u / 0x1000), HexDigit(u / 0x100 % 16), HexDigit(u / 16 % 16), HexDigit(u % 16)]
    else [u]
  }

  function QuoteBody(s: Text): Text {
    if s == [] then []
    else if |s| > 1 && Lead(s[0]) && Trail(s[1]) then [s[0], s[1]] + QuoteBody(s[2..])
    else Escape(s[0]) + QuoteBody(s[1..])
  }

  function Quote(s: Text): Text {
    [QUOTE] + QuoteBody(s) + [QUOTE]
  }

  // ----- The order of keys -----

  /** Lexicographic order by code units, the default order of Array.prototype.sort on strings. */
  predicate Less(a: Text, b: Text) {
    if b == [] then false
    else if a == [] then true
    else a[0] < b[0] || (a[0] == b[0] && Less(a[1..], b[1..]))
  }

  function Insert(m: Member, ms: seq<Member>): seq<Member> {
    if ms == [] || !Less(ms[0].key, m.key) then [m] + ms else [ms[0]] + Insert(m, ms[1..])
  }

  function SortByKey(ms: seq<Member>): (sorted: seq<Member>)
    ensures multiset(sorted) == multiset(ms)
  {
    if ms == [] then []
    else
      InsertKeepsMembers(ms[0], SortByKey(ms[1..]));
      assert ms == [ms[0]] + ms[1..];
      Insert(ms[0], SortByKey(ms[1..]))
  }

  lemma {:induction false} InsertKeepsMembers(m: Member, ms: seq<Member>)
    ensures multiset(Insert(m, ms)) == multiset(ms) + multiset{m}
  {
    if ms != [] && Less(ms[0].key, m.key) {
      InsertKeepsMembers(m, ms[1..]);
      assert ms == [ms[0]] + ms[1..];
    }
  }

  // ----- stableStringify -----

  /** All values of the members are parts of `whole`. */
  ghost predicate PartsOf(ms: seq<Member>, whole: Json) {
    forall k :: 0 <= k < |ms| ==> ms[k].value < whole
  }

  lemma SortedArePartsOf(ms: seq<Member>)
    ensures PartsOf(SortByKey(ms), Obj(ms))
  {
    var sorted := SortByKey(ms);
    forall k | 0 <= k < |sorted| ensures sorted[k].value < Obj(ms) {
      assert sorted[k] in multiset(sorted);
      var i :| 0 <= i < |ms| && ms[i] == sorted[k];
      assert ms[i] < Obj(ms);
    }
  }

  function Stringify(v: Json): Text
    decreases v, 1, 0
  {
    match v
    case Null => NULL_TEXT
    case Bool(b) => if b then TRUE_TEXT else FALSE_TEXT
    case Num(text) => text
    case Str(s) => Quote(s)
    case Arr(items) => [OPEN_BRACKET] + ItemsText(items) + [CLOSE_BRACKET]
    case Obj(members) =>
      SortedArePartsOf(members);
      [OPEN_BRACE] + MembersText(SortByKey(members), v) + [CLOSE_BRACE]
  }

  function ItemsText(items: seq<Json>): Text
    decreases items, 0, |items|
  {
    if items == [] then []
    else if |items| == 1 then Stringify(items[0])
    else Stringify(items[0]) + [COMMA] + ItemsText(items[1..])
  }

  function MembersText(ms: seq<Member>, ghost whole: Json): Text
    requires PartsOf(ms, whole)
    decreases whole, 0, |ms|
  {
    if ms == [] then []
    else
      var first := Quote(ms[0].key) + [COLON] + Stringify(ms[0].value);
      if |ms| == 1 then first else first + [COMMA] + MembersText(ms[1..], whole)
  }
}
