/**
 The canonical text denotes its value: a reader of JSON finds in it the value printed, with the keys of every object in
 order. So two values have the same text exactly when they are equal up to the order of object keys.
 */
module CanonicalJsonProofs {
  import opened Common
  import opened CanonicalJson

  // ----- Values -----

  predicate NumberUnit(u: Unit) {
    0x30 <= u <= 0x39 || u in {0x2D, 0x2B, 0x2E, 0x65, 0x45}
  }

  predicate NumberText(t: Text) {
    t != [] && (0x30 <= t[0] <= 0x39 || t[0] == 0x2D) && forall k :: 0 <= k < |t| ==> NumberUnit(t[k])
  }

  predicate DistinctKeys(ms: seq<Member>) {
    forall i, j :: 0 <= i < j < |ms| ==> ms[i].key != ms[j].key
  }

  /** Numbers carry the text of a finite number, and an object has each key once. */
  predicate WellFormed(v: Json) {
    match v
    case Num(text) => NumberText(text)
    case Arr(items) => forall i :: 0 <= i < |items| ==> WellFormed(items[i])
    case Obj(ms) => DistinctKeys(ms) && forall i :: 0 <= i < |ms| ==> WellFormed(ms[i].value)
    case _ => true
  }

  function Keys(ms: seq<Member>): set<Text> {
    set i | 0 <= i < |ms| :: ms[i].key
  }

  /** Equality up to the order of object keys, at every depth. */
  predicate SameJson(v: Json, w: Json) {
    match v
    case Arr(xs) =>
      w.Arr? && |xs| == |w.items| && forall i :: 0 <= i < |xs| ==> SameJson(xs[i], w.items[i])
    case Obj(ms) =>
      w.Obj? && Keys(ms) == Keys(w.members)
      && forall i, j :: 0 <= i < |ms| && 0 <= j < |w.members| && ms[i].key == w.members[j].key ==>
           SameJson(ms[i].value, w.members[j].value)
    case _ => v == w
  }

  // ----- Reading a quoted string back -----

  function Cons(u: Unit, rest: Option<(Text, Text)>): (r: Option<(Text, Text)>) {
    match rest
    case None => None
    case Some(p) => Some(([u] + p.0, p.1))
  }

  /** The value of a lower-case hexadecimal digit. */
  function HexValue(u: Unit): Option<nat> {
    if 0x30 <= u <= 0x39 then Some(u - 0x30) else if 0x61 <= u <= 0x66 then Some(u - 0x57) else None
  }

  function HexUnit(a: Unit, b: Unit, c: Unit, d: Unit): Option<Unit> {
    var h := [HexValue(a), HexValue(b), HexValue(c), HexValue(d)];
    if None in h then None
    else Some(((h[0].value * 16 + h[1].value) * 16 + h[2].value) * 16 + h[3].value)
  }

  /** The unit that a backslash and this letter stand for. */
  function ShortEscape(letter: Unit): Option<Unit> {
    if letter == 0x22 || letter == 0x5C then Some(letter)
    else if letter == 0x62 then Some(0x08) else if letter == 0x74 then Some(0x09)
    else if letter == 0x6E then Some(0x0A) else if letter == 0x66 then Some(0x0C)
    else if letter == 0x72 then Some(0x0D) else None
  }

  /** The units that may only be written in hexadecimal: controls without a short escape, and surrogates that are not
      part of a pair. */
  predicate HexOnly(u: Unit, rest: Option<(Text, Text)>) {
    || (u < 0x20 && u !in {0x08, 0x09, 0x0A, 0x0C, 0x0D})
    || (0xD800 <= u <= 0xDBFF && (rest.Some? && rest.value.0 != [] ==> !(0xDC00 <= rest.value.0[0] <= 0xDFFF)))
    || 0xDC00 <= u <= 0xDFFF
  }

  /**
   Reads the body of a JSON string up to its closing quote; answers the string and what follows. Only the one way
   is taken to write each unit: itself, a surrogate pair, a short escape, or else hexadecimal.
   */
  function Unquote(x: Text): (r: Option<(Text, Text)>)
    ensures r.Some? ==> |r.value.1| < |x|
  {
    if x == [] then None
    else if x[0] == 0x22 then Some(([], x[1..]))
    else if x[0] == 0x5C then
      if |x| >= 6 && x[1] == 0x75 then
        var u, rest := HexUnit(x[2], x[3], x[4], x[5]), Unquote(x[6..]);
        if u.Some? && HexOnly(u.value, rest) then Cons(u.value, rest) else None
      else if |x| >= 2 && ShortEscape(x[1]).Some? then Cons(ShortEscape(x[1]).value, Unquote(x[2..]))
      else None
    else if 0xD800 <= x[0] <= 0xDBFF then
      if |x| >= 2 && 0xDC00 <= x[1] <= 0xDFFF then Cons(x[0], Cons(x[1], Unquote(x[2..]))) else None
    else if x[0] < 0x20 || 0xDC00 <= x[0] <= 0xDFFF then None
    else Cons(x[0], Unquote(x[1..]))
  }

  lemma HexRoundTrip(u: Unit)
    ensures HexUnit(HexDigit(u / 0x1000), HexDigit(u / 0x100 % 16), HexDigit(u / 16 % 16), HexDigit(u % 16)) == Some(u)
  {
    assert HexValue(HexDigit(u / 0x1000)) == Some(u / 0x1000);
    assert HexValue(HexDigit(u / 0x100 % 16)) == Some(u / 0x100 % 16);
    assert HexValue(HexDigit(u / 16 % 16)) == Some(u / 16 % 16);
    assert HexValue(HexDigit(u % 16)) == Some(u % 16);
    assert u / 0x100 == (u / 0x1000) * 16 + u / 0x100 % 16;
    assert u / 16 == (u / 0x100) * 16 + u / 16 % 16;
  }

  lemma UnquoteHex(u: Unit, x: Text)
    requires HexOnly(u, Unquote(x))
    ensures Escape(u)[..2] == [0x5C, 0x75] && |Escape(u)| == 6 && Unquote(Escape(u) + x) == Cons(u, Unquote(x))
  {
    var e := Escape(u);
    var y := e + x;
    assert y[6..] == x && y[0] == 0x5C && y[1] == 0x75;
    HexRoundTrip(u);
    assert HexUnit(y[2], y[3], y[4], y[5]) == Some(u);
  }

  /** A unit that does not begin a pair with what follows is read back from its escape. */
  lemma UnquoteEscape(u: Unit, x: Text)
    requires Lead(u) && Unquote(x).Some? && Unquote(x).value.0 != [] ==> !Trail(Unquote(x).value.0[0])
    ensures Unquote(Escape(u) + x) == Cons(u, Unquote(x))
  {
    if HexOnly(u, Unquote(x)) {
      UnquoteHex(u, x);
    } else {
      var e := Escape(u);
      assert |e| <= 2 && (e + x)[|e|..] == x;
    }
  }

  lemma UnquotePair(a: Unit, b: Unit, x: Text)
    requires Lead(a) && Trail(b)
    ensures Unquote([a, b] + x) == Cons(a, Cons(b, Unquote(x)))
  {
    assert ([a, b] + x)[2..] == x;
  }

  lemma ConcatIsAssociative(a: Text, b: Text, c: Text)
    ensures a + b + c == a + (b + c)
  {
  }

  predicate StartsWithPair(s: Text) {
    |s| > 1 && Lead(s[0]) && Trail(s[1])
  }

  lemma UnquoteFirst(s: Text, tail: Text, r: Text)
    requires s != [] && !StartsWithPair(s)
    requires Unquote(QuoteBody(s[1..]) + tail) == Some((s[1..], r))
    ensures Unquote(QuoteBody(s) + tail) == Some((s, r))
  {
    var rest := QuoteBody(s[1..]);
    assert QuoteBody(s) == Escape(s[0]) + rest;
    ConcatIsAssociative(Escape(s[0]), rest, tail);
    UnquoteEscape(s[0], rest + tail);
    assert s == [s[0]] + s[1..];
  }

  lemma UnquoteFirstPair(s: Text, tail: Text, r: Text)
    requires StartsWithPair(s)
    requires Unquote(QuoteBody(s[2..]) + tail) == Some((s[2..], r))
    ensures Unquote(QuoteBody(s) + tail) == Some((s, r))
  {
    var rest := QuoteBody(s[2..]);
    assert QuoteBody(s) == [s[0], s[1]] + rest;
    ConcatIsAssociative([s[0], s[1]], rest, tail);
    UnquotePair(s[0], s[1], rest + tail);
    assert s == [s[0]] + ([s[1]] + s[2..]);
  }

  /** Reading undoes quoting, whatever follows the closing quote. */
  lemma {:induction false} UnquoteUndoesQuote(s: Text, r: Text)
    ensures Unquote(QuoteBody(s) + ([0x22] + r)) == Some((s, r))
  {
    var tail := [0x22] + r;
    if s == [] {
      assert QuoteBody(s) + tail == tail && tail[1..] == r;
    } else if StartsWithPair(s) {
      UnquoteUndoesQuote(s[2..], r);
      UnquoteFirstPair(s, tail, r);
    } else {
      UnquoteUndoesQuote(s[1..], r);
      UnquoteFirst(s, tail, r);
    }
  }

  /** A printed string begins with a quote, and reading goes on behind it. */
  lemma ReadsQuoted(s: Text, r: Text)
    ensures (Quote(s) + r)[0] == 0x22 && Unquote((Quote(s) + r)[1..]) == Some((s, r))
  {
    var body := QuoteBody(s);
    assert [QUOTE] + body + [QUOTE] + r == [QUOTE] + (body + ([QUOTE] + r));
    UnquoteUndoesQuote(s, r);
  }

  // ----- Sorted keys -----

  lemma {:induction false} LessIsIrreflexive(a: Text)
    ensures !Less(a, a)
  {
    if a != [] {
      LessIsIrreflexive(a[1..]);
    }
  }

  /** `a` is a proper prefix of `b`, or has the smaller unit where they first differ. */
  predicate Before(a: Text, b: Text) {
    exists k :: 0 <= k <= |a| && k < |b| && a[..k] == b[..k] && (k < |a| ==> a[k] < b[k])
  }

  /** The order of keys is the lexicographic order of their code units. */
  lemma {:induction false} LessIsLexicographic(a: Text, b: Text)
    ensures Less(a, b) <==> Before(a, b)
  {
    if a != [] && b != [] && a[0] == b[0] {
      LessIsLexicographic(a[1..], b[1..]);
      if Before(a[1..], b[1..]) {
        var k :| 0 <= k <= |a[1..]| && k < |b[1..]| && a[1..][..k] == b[1..][..k]
                 && (k < |a[1..]| ==> a[1..][k] < b[1..][k]);
        assert a[..k + 1] == [a[0]] + a[1..][..k] && b[..k + 1] == [b[0]] + b[1..][..k];
      }
      if Before(a, b) {
        var k :| 0 <= k <= |a| && k < |b| && a[..k] == b[..k] && (k < |a| ==> a[k] < b[k]);
        assert k > 0;
        assert a[1..][..k - 1] == a[..k][1..] && b[1..][..k - 1] == b[..k][1..];
      }
    } else if b != [] {
      assert a[..0] == b[..0];
      if a != [] && Before(a, b) {
        var k :| 0 <= k <= |a| && k < |b| && a[..k] == b[..k] && (k < |a| ==> a[k] < b[k]);
        assert k > 0 ==> a[..k][0] == b[..k][0];
      }
    }
  }

  lemma {:induction false} LessIsTotal(a: Text, b: Text)
    ensures Less(a, b) || a == b || Less(b, a)
    ensures !(Less(a, b) && Less(b, a))
  {
    if a != [] && b != [] && a[0] == b[0] {
      LessIsTotal(a[1..], b[1..]);
      assert a == [a[0]] + a[1..] && b == [b[0]] + b[1..];
    }
  }

  lemma {:induction false} LessIsTransitive(a: Text, b: Text, c: Text)
    requires Less(a, b) && Less(b, c)
    ensures Less(a, c)
  {
    if a != [] && a[0] == b[0] && b[0] == c[0] {
      LessIsTransitive(a[1..], b[1..], c[1..]);
    }
  }

  predicate Ascending(ms: seq<Member>) {
    forall i, j :: 0 <= i < j < |ms| ==> Less(ms[i].key, ms[j].key)
  }

  predicate AllAbove(key: Text, ms: seq<Member>) {
    forall k :: 0 <= k < |ms| ==> Less(key, ms[k].key)
  }

  lemma {:induction false} InsertAbove(key: Text, m: Member, ms: seq<Member>)
    requires AllAbove(key, ms) && Less(key, m.key)
    ensures AllAbove(key, Insert(m, ms))
  {
    if ms != [] {
      InsertAbove(key, m, ms[1..]);
    }
  }

  lemma PrependAscending(m: Member, ms: seq<Member>)
    requires Ascending(ms) && AllAbove(m.key, ms)
    ensures Ascending([m] + ms)
  {
  }

  lemma {:induction false} InsertKeepsOrder(m: Member, ms: seq<Member>)
    requires Ascending(ms) && forall k :: 0 <= k < |ms| ==> ms[k].key != m.key
    ensures Ascending(Insert(m, ms))
  {
    if ms != [] {
      LessIsTotal(ms[0].key, m.key);
      if Less(ms[0].key, m.key) {
        InsertKeepsOrder(m, ms[1..]);
        InsertAbove(ms[0].key, m, ms[1..]);
        PrependAscending(ms[0], Insert(m, ms[1..]));
      } else {
        forall k | 0 <= k < |ms| ensures Less(m.key, ms[k].key) {
          if k > 0 {
            LessIsTransitive(m.key, ms[0].key, ms[k].key);
          }
        }
        PrependAscending(m, ms);
      }
    }
  }

  lemma SortedFrom(ms: seq<Member>, k: int) returns (i: int)
    requires 0 <= k < |ms|
    ensures |SortByKey(ms)| == |ms| && 0 <= i < |ms| && ms[i] == SortByKey(ms)[k]
  {
    var sorted := SortByKey(ms);
    assert |multiset(sorted)| == |sorted| && |multiset(ms)| == |ms|;
    assert sorted[k] in multiset(sorted);
    i :| 0 <= i < |ms| && ms[i] == sorted[k];
  }

  lemma SortedTo(ms: seq<Member>, i: int) returns (k: int)
    requires 0 <= i < |ms|
    ensures |SortByKey(ms)| == |ms| && 0 <= k < |ms| && ms[i] == SortByKey(ms)[k]
  {
    var sorted := SortByKey(ms);
    assert |multiset(sorted)| == |sorted| && |multiset(ms)| == |ms|;
    assert ms[i] in multiset(ms);
    k :| 0 <= k < |sorted| && sorted[k] == ms[i];
  }

  lemma {:induction false} SortIsAscending(ms: seq<Member>)
    requires DistinctKeys(ms)
    ensures Ascending(SortByKey(ms))
  {
    if ms != [] {
      SortIsAscending(ms[1..]);
      forall k | 0 <= k < |SortByKey(ms[1..])| ensures SortByKey(ms[1..])[k].key != ms[0].key {
        assert |multiset(SortByKey(ms[1..]))| == |ms[1..]|;
        var i := SortedFrom(ms[1..], k);
        assert ms[1..][i] == ms[i + 1];
      }
      InsertKeepsOrder(ms[0], SortByKey(ms[1..]));
    }
  }

  lemma SortKeepsKeys(ms: seq<Member>)
    ensures Keys(SortByKey(ms)) == Keys(ms) && |SortByKey(ms)| == |ms|
  {
    assert |multiset(SortByKey(ms))| == |SortByKey(ms)| && |multiset(ms)| == |ms|;
    forall key | key in Keys(SortByKey(ms)) ensures key in Keys(ms) {
      var k :| 0 <= k < |SortByKey(ms)| && SortByKey(ms)[k].key == key;
      var i := SortedFrom(ms, k);
    }
    forall key | key in Keys(ms) ensures key in Keys(SortByKey(ms)) {
      var i :| 0 <= i < |ms| && ms[i].key == key;
      var k := SortedTo(ms, i);
    }
  }

  /** An ascending list is determined by its set of keys. */
  lemma {:induction false} AscendingKeysAgree(ms: seq<Member>, ns: seq<Member>)
    requires Ascending(ms) && Ascending(ns) && Keys(ms) == Keys(ns)
    ensures |ms| == |ns| && forall k :: 0 <= k < |ms| ==> ms[k].key == ns[k].key
  {
    assert ms == [] ==> Keys(ms) == {};
    assert ns != [] ==> ns[0].key in Keys(ns);
    if ms != [] {
      assert ms[0].key in Keys(ms);
      var j :| 0 <= j < |ns| && ns[j].key == ms[0].key;
      assert ns != [];
      var i :| 0 <= i < |ms| && ms[i].key == ns[0].key;
      LessIsTotal(ms[0].key, ns[0].key);
      assert ms[0].key == ns[0].key;
      RestOfKeys(ms);
      RestOfKeys(ns);
      AscendingKeysAgree(ms[1..], ns[1..]);
      forall k | 0 <= k < |ms| ensures ms[k].key == ns[k].key {
        if k > 0 {
          assert ms[k] == ms[1..][k - 1] && ns[k] == ns[1..][k - 1];
        }
      }
    }
  }

  lemma RestOfKeys(ms: seq<Member>)
    requires Ascending(ms) && ms != []
    ensures Keys(ms[1..]) == Keys(ms) - {ms[0].key}
  {
    forall key | key in Keys(ms) - {ms[0].key} ensures key in Keys(ms[1..]) {
      var k :| 0 <= k < |ms| && ms[k].key == key;
      assert ms[1..][k - 1].key == key;
    }
    forall key | key in Keys(ms[1..]) ensures key in Keys(ms) - {ms[0].key} {
      var k :| 0 <= k < |ms[1..]| && ms[1..][k].key == key;
      assert ms[k + 1].key == key && Less(ms[0].key, ms[k + 1].key);
      LessIsIrreflexive(key);
    }
  }

  // ----- Equal values print equally -----

  lemma {:induction false} SameItemsPrintEqually(xs: seq<Json>, ys: seq<Json>)
    requires forall k :: 0 <= k < |xs| ==> WellFormed(xs[k])
    requires forall k :: 0 <= k < |ys| ==> WellFormed(ys[k])
    requires |xs| == |ys| && forall k :: 0 <= k < |xs| ==> SameJson(xs[k], ys[k])
    ensures ItemsText(xs) == ItemsText(ys)
    decreases xs, 0, |xs|
  {
    if xs != [] {
      SamePrintEqually(xs[0], ys[0]);
      SameItemsPrintEqually(xs[1..], ys[1..]);
    }
  }

  predicate SoundMembers(ms: seq<Member>) {
    forall k :: 0 <= k < |ms| ==> WellFormed(ms[k].value)
  }

  /** The same keys in the same order, with the same values. */
  predicate SameMembers(ms: seq<Member>, ns: seq<Member>) {
    |ms| == |ns| && forall k :: 0 <= k < |ms| ==> ms[k].key == ns[k].key && SameJson(ms[k].value, ns[k].value)
  }

  lemma {:induction false} SameMembersPrintEqually(ms: seq<Member>, ns: seq<Member>, v: Json, w: Json)
    requires PartsOf(ms, v) && PartsOf(ns, w) && SoundMembers(ms) && SoundMembers(ns) && SameMembers(ms, ns)
    ensures MembersText(ms, v) == MembersText(ns, w)
    decreases v, 0, |ms|
  {
    if ms != [] {
      SamePrintEqually(ms[0].value, ns[0].value);
      SameMembersPrintEqually(ms[1..], ns[1..], v, w);
    }
  }

  lemma SortKeepsSound(ms: seq<Member>)
    requires SoundMembers(ms)
    ensures SoundMembers(SortByKey(ms))
  {
    forall k | 0 <= k < |SortByKey(ms)| ensures WellFormed(SortByKey(ms)[k].value) {
      SortKeepsKeys(ms);
      var i := SortedFrom(ms, k);
    }
  }

  /** Sorting brings the members of two equal objects into one and the same order. */
  lemma SortedMembersAgree(ms: seq<Member>, ns: seq<Member>)
    requires DistinctKeys(ms) && DistinctKeys(ns) && SameJson(Obj(ms), Obj(ns))
    ensures SameMembers(SortByKey(ms), SortByKey(ns))
  {
    SortKeepsKeys(ms);
    SortKeepsKeys(ns);
    SortIsAscending(ms);
    SortIsAscending(ns);
    var S, T := SortByKey(ms), SortByKey(ns);
    AscendingKeysAgree(S, T);
    forall k | 0 <= k < |S| ensures SameJson(S[k].value, T[k].value) {
      var i := SortedFrom(ms, k);
      var j := SortedFrom(ns, k);
      assert ms[i].key == ns[j].key;
    }
  }

  lemma {:induction false} SamePrintEqually(v: Json, w: Json)
    requires WellFormed(v) && WellFormed(w) && SameJson(v, w)
    ensures Stringify(v) == Stringify(w)
    decreases v, 1, 0
  {
    match v
    case Arr(items) => SameItemsPrintEqually(items, w.items);
    case Obj(ms) =>
      var ns := w.members;
      SortedMembersAgree(ms, ns);
      SortKeepsSound(ms);
      SortKeepsSound(ns);
      SortedArePartsOf(ms);
      SortedArePartsOf(ns);
      SameMembersPrintEqually(SortByKey(ms), SortByKey(ns), v, w);
    case _ =>
  }

  // ----- Reading a text -----

  /** What follows a value inside a larger text: nothing that could continue a number. */
  predicate Delimited(r: Text) {
    r == [] || !NumberUnit(r[0])
  }

  function NumberEnd(x: Text): (n: nat)
    ensures n <= |x|
  {
    if x == [] || !NumberUnit(x[0]) then 0 else 1 + NumberEnd(x[1..])
  }

  /**
   Reads a JSON value at the beginning of a text without blanks (RFC 8259); answers the value and what follows:
   the three literal names, a number, a string, items between brackets, members between braces.
   */
  function Read(x: Text): (r: Option<(Json, Text)>)
    ensures r.Some? ==> |r.value.1| < |x|
    decreases |x|, 0
  {
    if x == [] then None
    else if x[0] == 0x6E then
      if [0x6E, 0x75, 0x6C, 0x6C] <= x then Some((Null, x[4..])) else None
    else if x[0] == 0x74 then
      if [0x74, 0x72, 0x75, 0x65] <= x then Some((Bool(true), x[4..])) else None
    else if x[0] == 0x66 then
      if [0x66, 0x61, 0x6C, 0x73, 0x65] <= x then Some((Bool(false), x[5..])) else None
    else if x[0] == 0x22 then
      match Unquote(x[1..])
      case None => None
      case Some(p) => Some((Str(p.0), p.1))
    else if x[0] == 0x5B then
      if |x| >= 2 && x[1] == 0x5D then Some((Arr([]), x[2..]))
      else
        match ReadItems(x[1..])
        case None => None
        case Some(p) => Some((Arr(p.0), p.1))
    else if x[0] == 0x7B then
      if |x| >= 2 && x[1] == 0x7D then Some((Obj([]), x[2..]))
      else
        match ReadMembers(x[1..])
        case None => None
        case Some(p) => Some((Obj(p.0), p.1))
    else if 0x30 <= x[0] <= 0x39 || x[0] == 0x2D then Some((Num(x[..NumberEnd(x)]), x[NumberEnd(x)..]))
    else None
  }

  /** Items with commas between them, up to the closing bracket. */
  function ReadItems(x: Text): (r: Option<(seq<Json>, Text)>)
    ensures r.Some? ==> |r.value.1| < |x|
    decreases |x|, 1
  {
    match Read(x)
    case None => None
    case Some(p) =>
      if p.1 == [] then None
      else if p.1[0] == 0x5D then Some(([p.0], p.1[1..]))
      else if p.1[0] != 0x2C then None
      else
        match ReadItems(p.1[1..])
        case None => None
        case Some(q) => Some(([p.0] + q.0, q.1))
  }

  /** Members, a quoted key, a colon and a value, with commas between them, up to the closing brace. */
  function ReadMembers(x: Text): (r: Option<(seq<Member>, Text)>)
    ensures r.Some? ==> |r.value.1| < |x|
    decreases |x|, 1
  {
    if x == [] || x[0] != 0x22 then None
    else
      match Unquote(x[1..])
      case None => None
      case Some(key) =>
        if key.1 == [] || key.1[0] != 0x3A then None
        else
          match Read(key.1[1..])
          case None => None
          case Some(p) =>
            if p.1 == [] then None
            else if p.1[0] == 0x7D then Some(([Member(key.0, p.0)], p.1[1..]))
            else if p.1[0] != 0x2C then None
            else
              match ReadMembers(p.1[1..])
              case None => None
              case Some(q) => Some(([Member(key.0, p.0)] + q.0, q.1))
  }

  // ----- What the text denotes -----

  /** The value with the keys of every object in order. */
  function Canon(v: Json): Json
    decreases v, 1, 0
  {
    match v
    case Arr(items) => Arr(CanonItems(items))
    case Obj(ms) =>
      SortedArePartsOf(ms);
      Obj(CanonMembers(SortByKey(ms), v))
    case _ => v
  }

  function CanonItems(items: seq<Json>): (r: seq<Json>)
    ensures |r| == |items|
    decreases items, 0, |items|
  {
    if items == [] then [] else [Canon(items[0])] + CanonItems(items[1..])
  }

  function CanonMembers(ms: seq<Member>, ghost whole: Json): (r: seq<Member>)
    requires PartsOf(ms, whole)
    ensures |r| == |ms| && forall k :: 0 <= k < |ms| ==> r[k].key == ms[k].key
    decreases whole, 0, |ms|
  {
    if ms == [] then [] else [Member(ms[0].key, Canon(ms[0].value))] + CanonMembers(ms[1..], whole)
  }

  predicate SoundItems(xs: seq<Json>) {
    forall k :: 0 <= k < |xs| ==> WellFormed(xs[k])
  }

  lemma {:induction false} NumberEnds(t: Text, r: Text)
    requires (forall k :: 0 <= k < |t| ==> NumberUnit(t[k])) && Delimited(r)
    ensures NumberEnd(t + r) == |t|
  {
    if t == [] {
      assert t + r == r;
    } else {
      assert (t + r)[1..] == t[1..] + r;
      NumberEnds(t[1..], r);
    }
  }

  lemma ReadsNumber(t: Text, r: Text)
    requires NumberText(t) && Delimited(r)
    ensures Read(t + r) == Some((Num(t), r))
  {
    NumberEnds(t, r);
    assert (t + r)[..|t|] == t && (t + r)[|t|..] == r;
  }

  /** No value begins with a closing bracket. */
  lemma BeginsOtherwise(v: Json)
    requires WellFormed(v)
    ensures Stringify(v) != [] && Stringify(v)[0] != 0x5D
  {
  }

  lemma {:induction false} ReadsValue(v: Json, r: Text)
    requires WellFormed(v) && Delimited(r)
    ensures Read(Stringify(v) + r) == Some((Canon(v), r))
    decreases v, 1, 0
  {
    var x := Stringify(v) + r;
    match v
    case Null => assert x[4..] == r;
    case Bool(b) => assert x[(if b then 4 else 5)..] == r;
    case Num(text) => ReadsNumber(text, r);
    case Str(s) => ReadsQuoted(s, r);
    case Arr(items) => ReadsArray(items, r);
    case Obj(ms) => ReadsObject(ms, r);
  }

  lemma {:induction false} ReadsArray(xs: seq<Json>, r: Text)
    requires SoundItems(xs)
    ensures Read(Stringify(Arr(xs)) + r) == Some((Canon(Arr(xs)), r))
    decreases Arr(xs), 0, 0
  {
    var x := Stringify(Arr(xs)) + r;
    if xs == [] {
      assert x == [0x5B, 0x5D] + r && x[2..] == r;
    } else {
      assert x[1..] == ItemsText(xs) + ([0x5D] + r);
      ReadsItems(xs, r);
      FirstItem(xs, [0x5D] + r);
      BeginsOtherwise(xs[0]);
      assert x[1] == Stringify(xs[0])[0];
    }
  }

  /** What follows the first item of an array text. */
  function AfterItem(xs: seq<Json>, r: Text): Text
    requires xs != []
  {
    if |xs| == 1 then r else [0x2C] + (ItemsText(xs[1..]) + r)
  }

  lemma FirstItem(xs: seq<Json>, r: Text)
    requires xs != []
    ensures ItemsText(xs) + r == Stringify(xs[0]) + AfterItem(xs, r)
  {
    if |xs| > 1 {
      var rest := ItemsText(xs[1..]);
      ConcatIsAssociative(Stringify(xs[0]) + [COMMA], rest, r);
      ConcatIsAssociative(Stringify(xs[0]), [COMMA], rest + r);
    }
  }

  lemma {:induction false} ReadsItems(xs: seq<Json>, r: Text)
    requires xs != [] && SoundItems(xs)
    ensures ReadItems(ItemsText(xs) + ([0x5D] + r)) == Some((CanonItems(xs), r))
    decreases xs, 0, |xs|
  {
    var tail := [0x5D] + r;
    FirstItem(xs, tail);
    ReadsValue(xs[0], AfterItem(xs, tail));
    if |xs| > 1 {
      ReadsItems(xs[1..], r);
      assert AfterItem(xs, tail)[1..] == ItemsText(xs[1..]) + tail;
    } else {
      assert tail[1..] == r && CanonItems(xs) == [Canon(xs[0])];
    }
  }

  lemma {:induction false} ReadsObject(ms: seq<Member>, r: Text)
    requires WellFormed(Obj(ms))
    ensures Read(Stringify(Obj(ms)) + r) == Some((Canon(Obj(ms)), r))
    decreases Obj(ms), 0, |ms| + 1
  {
    var v, sorted := Obj(ms), SortByKey(ms);
    SortedArePartsOf(ms);
    SortKeepsSound(ms);
    SortKeepsKeys(ms);
    var x := Stringify(v) + r;
    if ms == [] {
      assert x == [0x7B, 0x7D] + r && x[2..] == r;
    } else {
      var body := MembersText(sorted, v) + ([0x7D] + r);
      assert x == [0x7B] + body;
      ReadsMembers(sorted, v, r);
      BeginsWithQuote(sorted, v, [0x7D] + r);
      assert x[1..] == body && x[1] == 0x22;
    }
  }

  function AfterMember(ms: seq<Member>, whole: Json, r: Text): Text
    requires ms != [] && PartsOf(ms, whole)
  {
    if |ms| == 1 then r else [0x2C] + (MembersText(ms[1..], whole) + r)
  }

  /** What follows the first key of an object text. */
  function AfterKey(ms: seq<Member>, whole: Json, r: Text): Text
    requires ms != [] && PartsOf(ms, whole)
  {
    [0x3A] + (Stringify(ms[0].value) + AfterMember(ms, whole, r))
  }

  lemma FirstMember(ms: seq<Member>, whole: Json, r: Text)
    requires ms != [] && PartsOf(ms, whole)
    ensures MembersText(ms, whole) + r == Quote(ms[0].key) + AfterKey(ms, whole, r)
  {
    var first := Quote(ms[0].key) + [COLON] + Stringify(ms[0].value);
    var after := AfterMember(ms, whole, r);
    if |ms| > 1 {
      var rest := MembersText(ms[1..], whole);
      assert MembersText(ms, whole) == first + [COMMA] + rest;
      ConcatIsAssociative(first + [COMMA], rest, r);
      ConcatIsAssociative(first, [COMMA], rest + r);
    }
    assert MembersText(ms, whole) + r == first + after;
    ConcatIsAssociative(Quote(ms[0].key) + [COLON], Stringify(ms[0].value), after);
    ConcatIsAssociative(Quote(ms[0].key), [COLON], Stringify(ms[0].value) + after);
  }

  lemma BeginsWithQuote(ms: seq<Member>, whole: Json, r: Text)
    requires ms != [] && PartsOf(ms, whole)
    ensures MembersText(ms, whole) + r != [] && (MembersText(ms, whole) + r)[0] == 0x22
  {
    FirstMember(ms, whole, r);
    ReadsQuoted(ms[0].key, AfterKey(ms, whole, r));
  }

  lemma {:induction false} ReadsMembers(ms: seq<Member>, whole: Json, r: Text)
    requires ms != [] && PartsOf(ms, whole) && SoundMembers(ms)
    ensures ReadMembers(MembersText(ms, whole) + ([0x7D] + r)) == Some((CanonMembers(ms, whole), r))
    decreases whole, 0, |ms|
  {
    var tail := [0x7D] + r;
    var after := AfterMember(ms, whole, tail);
    FirstMember(ms, whole, tail);
    ReadsQuoted(ms[0].key, AfterKey(ms, whole, tail));
    assert AfterKey(ms, whole, tail)[1..] == Stringify(ms[0].value) + after;
    ReadsValue(ms[0].value, after);
    if |ms| > 1 {
      ReadsMembers(ms[1..], whole, r);
      assert after[1..] == MembersText(ms[1..], whole) + tail;
    } else {
      assert tail[1..] == r && CanonMembers(ms, whole) == [Member(ms[0].key, Canon(ms[0].value))];
    }
  }

  // ----- The value read back is the one printed -----

  /** Every object has its keys in ascending order, at every depth. */
  predicate Ordered(v: Json) {
    match v
    case Arr(items) => forall i :: 0 <= i < |items| ==> Ordered(items[i])
    case Obj(ms) =>
      && (forall i, j :: 0 <= i < j < |ms| ==> Before(ms[i].key, ms[j].key))
      && (forall i :: 0 <= i < |ms| ==> Ordered(ms[i].value))
    case _ => true
  }

  lemma {:induction false} CanonItemsAt(items: seq<Json>, k: nat)
    requires k < |items|
    ensures CanonItems(items)[k] == Canon(items[k])
  {
    if k > 0 {
      CanonItemsAt(items[1..], k - 1);
    }
  }

  lemma {:induction false} CanonMembersAt(ms: seq<Member>, whole: Json, k: nat)
    requires PartsOf(ms, whole) && k < |ms|
    ensures CanonMembers(ms, whole)[k] == Member(ms[k].key, Canon(ms[k].value))
  {
    if k > 0 {
      CanonMembersAt(ms[1..], whole, k - 1);
    }
  }

  lemma {:induction false} CanonIsOrdered(v: Json)
    requires WellFormed(v)
    ensures Ordered(Canon(v))
  {
    match v
    case Arr(items) =>
      forall k | 0 <= k < |items| ensures Ordered(CanonItems(items)[k]) {
        CanonItemsAt(items, k);
        CanonIsOrdered(items[k]);
      }
    case Obj(ms) =>
      var sorted := SortByKey(ms);
      SortedArePartsOf(ms);
      SortIsAscending(ms);
      SortKeepsKeys(ms);
      var canon := CanonMembers(sorted, v);
      forall i, j | 0 <= i < j < |canon| ensures Before(canon[i].key, canon[j].key) {
        LessIsLexicographic(sorted[i].key, sorted[j].key);
      }
      forall k | 0 <= k < |canon| ensures Ordered(canon[k].value) {
        CanonMembersAt(sorted, v, k);
        var i := SortedFrom(ms, k);
        CanonIsOrdered(ms[i].value);
      }
    case _ =>
  }

  lemma {:induction false} CanonIsSame(v: Json)
    requires WellFormed(v)
    ensures SameJson(v, Canon(v))
  {
    match v
    case Arr(items) =>
      forall k | 0 <= k < |items| ensures SameJson(items[k], CanonItems(items)[k]) {
        CanonItemsAt(items, k);
        CanonIsSame(items[k]);
      }
    case Obj(ms) =>
      var sorted := SortByKey(ms);
      SortedArePartsOf(ms);
      SortKeepsKeys(ms);
      var canon := CanonMembers(sorted, v);
      SameKeysInOrder(sorted, canon);
      forall i, j | 0 <= i < |ms| && 0 <= j < |canon| && ms[i].key == canon[j].key
        ensures SameJson(ms[i].value, canon[j].value)
      {
        CanonMembersAt(sorted, v, j);
        var k := SortedFrom(ms, j);
        assert k == i;
        CanonIsSame(ms[i].value);
      }
    case _ =>
  }

  lemma SameKeysInOrder(ms: seq<Member>, ns: seq<Member>)
    requires |ms| == |ns| && forall k :: 0 <= k < |ms| ==> ms[k].key == ns[k].key
    ensures Keys(ms) == Keys(ns)
  {
    forall key | key in Keys(ms) ensures key in Keys(ns) {
      var k :| 0 <= k < |ms| && ms[k].key == key;
      assert ns[k].key == key;
    }
    forall key | key in Keys(ns) ensures key in Keys(ms) {
      var k :| 0 <= k < |ns| && ns[k].key == key;
      assert ms[k].key == key;
    }
  }

  /**
   The canonical text denotes its value: whatever follows, a reader of JSON finds in it the value printed, with the
   keys of every object in ascending order, and goes on right behind it.
   */
  lemma TextDenotesValue(v: Json, r: Text)
    requires WellFormed(v) && Delimited(r)
    ensures var read := Read(Stringify(v) + r);
            && read.Some? && read.value.1 == r
            && SameJson(v, read.value.0) && Ordered(read.value.0)
  {
    ReadsValue(v, r);
    CanonIsSame(v);
    CanonIsOrdered(v);
  }

  // ----- A text tells its value -----

  /** Values of one canonical form are the same. */
  lemma {:induction false} CanonTells(v: Json, w: Json)
    requires WellFormed(v) && WellFormed(w) && Canon(v) == Canon(w)
    ensures SameJson(v, w)
  {
    match v
    case Arr(items) =>
      forall k | 0 <= k < |items| ensures SameJson(items[k], w.items[k]) {
        CanonItemsAt(items, k);
        CanonItemsAt(w.items, k);
        CanonTells(items[k], w.items[k]);
      }
    case Obj(ms) =>
      var ns := w.members;
      var S, T := SortByKey(ms), SortByKey(ns);
      SortedArePartsOf(ms);
      SortedArePartsOf(ns);
      SortKeepsKeys(ms);
      SortKeepsKeys(ns);
      forall k | 0 <= k < |S| ensures S[k].key == T[k].key && SameJson(S[k].value, T[k].value) {
        CanonMembersAt(S, v, k);
        CanonMembersAt(T, w, k);
        var i := SortedFrom(ms, k);
        var j := SortedFrom(ns, k);
        CanonTells(ms[i].value, ns[j].value);
      }
      AgreeingSortedMembers(ms, ns);
    case _ =>
  }

  /** Sorted lists that agree come from objects with the same keys and the same values under them. */
  lemma AgreeingSortedMembers(ms: seq<Member>, ns: seq<Member>)
    requires DistinctKeys(ms) && DistinctKeys(ns) && SameMembers(SortByKey(ms), SortByKey(ns))
    ensures SameJson(Obj(ms), Obj(ns))
  {
    SortKeepsKeys(ms);
    SortKeepsKeys(ns);
    SortIsAscending(ns);
    var S, T := SortByKey(ms), SortByKey(ns);
    SameKeysInOrder(S, T);
    forall i, j | 0 <= i < |ms| && 0 <= j < |ns| && ms[i].key == ns[j].key
      ensures SameJson(ms[i].value, ns[j].value)
    {
      var a := SortedTo(ms, i);
      var b := SortedTo(ns, j);
      assert T[a].key == T[b].key;
      LessIsIrreflexive(T[a].key);
      assert a == b;
    }
  }

  /** Two texts that begin with values, each followed by a delimiter, begin with the same value. */
  lemma TextTellsValue(v: Json, w: Json, r: Text, q: Text)
    requires WellFormed(v) && WellFormed(w) && Delimited(r) && Delimited(q)
    requires Stringify(v) + r == Stringify(w) + q
    ensures SameJson(v, w) && r == q
  {
    ReadsValue(v, r);
    ReadsValue(w, q);
    CanonTells(v, w);
  }

  /** The canonical text identifies a value up to the order of object keys, and nothing else. */
  lemma CanonicalTextIsExact(v: Json, w: Json)
    requires WellFormed(v) && WellFormed(w)
    ensures Stringify(v) == Stringify(w) <==> SameJson(v, w)
  {
    if SameJson(v, w) {
      SamePrintEqually(v, w);
    }
    if Stringify(v) == Stringify(w) {
      TextTellsValue(v, w, [], []);
    }
  }
}
