/** The text a command is fingerprinted by: JSON with the keys of every object in order (section 7 of RFC 8259). */
module StableJson {

  import opened Sequences
  import opened Sorting
  import opened Permutations

  /** Texts are sequences of UTF-16 code units, as in the program. */
  type Unit = u: int | 0 <= u < 0x10000

  type Text = seq<Unit>

  const QUOTE: Unit := 34
  const BACKSLASH: Unit := 92
  const COMMA: Unit := 44
  const COLON: Unit := 58
  const OPEN_LIST: Unit := 91
  const CLOSE_LIST: Unit := 93
  const OPEN_OBJECT: Unit := 123
  const CLOSE_OBJECT: Unit := 125
  const NULL: Text := [110, 117, 108, 108]
  const TRUE: Text := [116, 114, 117, 101]
  const FALSE: Text := [102, 97, 108, 115, 101]

  // Values.

  predicate IsDigit(u: Unit) { 48 <= u <= 57 }

  /** A digit, a sign, the decimal point or the exponent mark. */
  predicate IsNumberUnit(u: Unit) { IsDigit(u) || u == 43 || u == 45 || u == 46 || u == 101 }

  predicate IsNumberText(t: Text) {
    t != [] && (IsDigit(t[0]) || t[0] == 45) && forall i :: 0 <= i < |t| ==> IsNumberUnit(t[i])
  }

  /**
   A finite number is identified with its shortest decimal form, which is the same for two numbers only if they are
   equal.
   */
  type NumberText = t: Text | IsNumberText(t) witness [48]

  /** A value as it comes out of a JSON parser: the fields of an object are in the order in which they came. */
  datatype Json =
    | Null
    | Bool(value: bool)
    | Number(text: NumberText)
    | Infinite(negative: bool)
    | Chars(chars: Text)
    | List(items: seq<Json>)
    | Object(fields: seq<Field>)

  datatype Field = Field(key: Text, value: Json)

  function KeysOf(fields: seq<Field>): seq<Text> { Map((f: Field) => f.key, fields) }

  /** Every object has each of its keys once. */
  ghost predicate WellFormed(a: Json) {
    match a
    case List(items) => forall i :: 0 <= i < |items| ==> WellFormed(items[i])
    case Object(fields) => Distinct(KeysOf(fields)) && forall i :: 0 <= i < |fields| ==> WellFormed(fields[i].value)
    case _ => true
  }

  /** Equality that does not depend on the order of fields. */
  ghost predicate Same(a: Json, b: Json) {
    match (a, b)
    case (List(xs), List(ys)) => |xs| == |ys| && forall i :: 0 <= i < |xs| ==> Same(xs[i], ys[i])
    case (Object(xs), Object(ys)) =>
      && (forall k :: k in KeysOf(xs) <==> k in KeysOf(ys))
      && forall i, j :: 0 <= i < |xs| && 0 <= j < |ys| && xs[i].key == ys[j].key ==> Same(xs[i].value, ys[j].value)
    case _ => a == b
  }

  /** What the text shows of a value: a number beyond the range of the format is written as null. */
  function Shown(a: Json): (r: Json)
    ensures a.Object? ==> r.Object? && KeysOf(r.fields) == KeysOf(a.fields)
  {
    match a
    case Infinite(_) => Null
    case List(items) => List(seq(|items|, i requires 0 <= i < |items| => Shown(items[i])))
    case Object(fields) => Object(seq(|fields|, i
        requires 0 <= i < |fields| => Field(fields[i].key, Shown(fields[i].value))))
    case _ => a
  }

  ghost predicate Finite(a: Json) {
    match a
    case Infinite(_) => false
    case List(items) => forall i :: 0 <= i < |items| ==> Finite(items[i])
    case Object(fields) => forall i :: 0 <= i < |fields| ==> Finite(fields[i].value)
    case _ => true
  }

  // The order of keys.

  predicate Before(a: Text, b: Text) {
    if a == [] then b != []
    else if b == [] then false
    else a[0] < b[0] || (a[0] == b[0] && Before(a[1..], b[1..]))
  }

  lemma {:induction false} BeforeIsTransitive(a: Text, b: Text, c: Text)
    requires Before(a, b) && Before(b, c)
    ensures Before(a, c)
  {
    if a != [] && a[0] == b[0] == c[0] { BeforeIsTransitive(a[1..], b[1..], c[1..]); }
  }

  lemma {:induction false} BeforeIsTotal(a: Text, b: Text)
    ensures Before(a, b) || Before(b, a) || a == b
    ensures !(Before(a, b) && Before(b, a))
  {
    if a != [] && b != [] {
      BeforeIsTotal(a[1..], b[1..]);
      if a[0] == b[0] && a[1..] == b[1..] { assert a == [a[0]] + a[1..] == b; }
    }
  }

  function KeyOrder(): (Text, Text) -> bool { (a: Text, b: Text) => Before(a, b) }

  lemma KeyOrderIsStrict()
    ensures StrictOrder(KeyOrder())
  {
    forall a, b, c | Before(a, b) && Before(b, c) ensures Before(a, c) { BeforeIsTransitive(a, b, c); }
    forall a, b ensures (Before(a, b) ==> !Before(b, a)) && (a != b ==> Before(a, b) || Before(b, a)) {
      BeforeIsTotal(a, b);
    }
  }

  function InOrder(keys: seq<Text>): (r: seq<Text>)
    ensures forall k :: k in r <==> k in keys
  {
    SameMembers(Sorted(KeyOrder(), keys), keys);
    Sorted(KeyOrder(), keys)
  }

  /** The order in which fields came does not matter. */
  lemma InOrderForgetsOrder(a: seq<Text>, b: seq<Text>)
    requires Distinct(a) && Distinct(b) && forall k :: k in a <==> k in b
    ensures InOrder(a) == InOrder(b)
  {
    KeyOrderIsStrict();
    SortingForgetsOrder(KeyOrder(), a, b);
  }

  // Strings.

  function HexDigit(d: nat): (u: Unit)
    requires d < 16
    ensures u != QUOTE
  {
    if d < 10 then 48 + d else 87 + d
  }

  function Hex(u: Unit): Text { [HexDigit(u / 4096), HexDigit(u / 256 % 16), HexDigit(u / 16 % 16), HexDigit(u % 16)] }

  predicate IsHigh(u: Unit) { 0xD800 <= u < 0xDC00 }

  predicate IsLow(u: Unit) { 0xDC00 <= u < 0xE000 }

  /** A surrogate outside a pair. */
  predicate IsLone(t: Text, i: nat)
    requires i < |t|
  {
    || (IsHigh(t[i]) && !(i + 1 < |t| && IsLow(t[i + 1])))
    || (IsLow(t[i]) && !(0 < i && IsHigh(t[i - 1])))
  }

  function ShortEscape(u: Unit): Unit {
    if u == 8 then 98 else if u == 12 then 102 else if u == 10 then 110 else if u == 13 then 114 else if u == 9
        then 116 else u
  }

  function Escaped(u: Unit, lone: bool): Text {
    if u in {8, 9, 10, 12, 13, QUOTE, BACKSLASH} then [BACKSLASH, ShortEscape(u)]
    else if u < 32 || lone then [BACKSLASH, 117] + Hex(u)
    else [u]
  }

  function EscapedFrom(t: Text, i: nat): Text
    requires i <= |t|
    decreases |t| - i
  {
    if i == |t| then [] else Escaped(t[i], IsLone(t, i)) + EscapedFrom(t, i + 1)
  }

  function Quoted(t: Text): Text { [QUOTE] + EscapedFrom(t, 0) + [QUOTE] }

  lemma HexDigitDecides(d: nat, e: nat)
    requires d < 16 && e < 16 && HexDigit(d) == HexDigit(e)
    ensures d == e
  {
  }

  lemma DigitsOf(u: Unit)
    ensures u == 16 * (u / 16) + u % 16 && u / 16 == 16 * (u / 256) + u / 16 % 16
              && u / 256 == 16 * (u / 4096) + u / 256 % 16
    ensures u / 4096 < 16
  {
  }

  lemma HexDecides(u: Unit, v: Unit)
    requires Hex(u) == Hex(v)
    ensures u == v
  {
    assert HexDigit(u / 4096) == Hex(u)[0] == Hex(v)[0] == HexDigit(v / 4096);
    assert HexDigit(u / 256 % 16) == Hex(u)[1] == Hex(v)[1] == HexDigit(v / 256 % 16);
    assert HexDigit(u / 16 % 16) == Hex(u)[2] == Hex(v)[2] == HexDigit(v / 16 % 16);
    assert HexDigit(u % 16) == Hex(u)[3] == Hex(v)[3] == HexDigit(v % 16);
    HexDigitDecides(u / 4096, v / 4096);
    HexDigitDecides(u / 256 % 16, v / 256 % 16);
    HexDigitDecides(u / 16 % 16, v / 16 % 16);
    HexDigitDecides(u % 16, v % 16);
    DigitsOf(u);
    DigitsOf(v);
  }

  /** What stands for a unit is recognised in front of any text, and is never the closing quote. */
  lemma EscapedDecides(u: Unit, lone: bool, more: Text, v: Unit, other: bool, rest: Text)
    requires Escaped(u, lone) + more == Escaped(v, other) + rest
    ensures u == v && more == rest
  {
    var a, b := Escaped(u, lone) + more, Escaped(v, other) + rest;
    assert a[0] == Escaped(u, lone)[0] && b[0] == Escaped(v, other)[0];
    if |Escaped(u, lone)| > 1 {
      assert a[1] == Escaped(u, lone)[1] && b[1] == Escaped(v, other)[1];
      if |Escaped(u, lone)| > 2 {
        assert a[2..6] == Hex(u) && b[2..6] == Hex(v);
        HexDecides(u, v);
      }
    }
    assert |Escaped(u, lone)| == |Escaped(v, other)|;
    assert more == a[|Escaped(u, lone)|..] && rest == b[|Escaped(v, other)|..];
  }

  lemma EscapedStarts(t: Text, i: nat, more: Text)
    requires i <= |t|
    ensures (EscapedFrom(t, i) + ([QUOTE] + more))[0] == QUOTE <==> i == |t|
    ensures i < |t| ==>
              EscapedFrom(t, i) + ([QUOTE] + more) ==
              Escaped(t[i], IsLone(t, i)) + (EscapedFrom(t, i + 1) + ([QUOTE] + more))
  {
    if i < |t| {
      var all := Escaped(t[i], IsLone(t, i)) + (EscapedFrom(t, i + 1) + ([QUOTE] + more));
      assert EscapedFrom(t, i) + ([QUOTE] + more) == all;
      assert all[0] == Escaped(t[i], IsLone(t, i))[0] != QUOTE;
    }
  }

  lemma TailSplits(t: Text, i: nat)
    requires i < |t|
    ensures t[i..] == [t[i]] + t[i + 1..]
  {
  }

  lemma NothingBefore(t: Text)
    ensures [] + t == t
  {
  }

  lemma {:induction false} EscapedTextDecides(s: Text, i: nat, more: Text, t: Text, j: nat, rest: Text)
    requires i <= |s| && j <= |t|
    requires EscapedFrom(s, i) + ([QUOTE] + more) == EscapedFrom(t, j) + ([QUOTE] + rest)
    ensures s[i..] == t[j..] && more == rest
    decreases |s| - i
  {
    EscapedStarts(s, i, more);
    EscapedStarts(t, j, rest);
    if i < |s| {
      var after, other := EscapedFrom(s, i + 1) + ([QUOTE] + more), EscapedFrom(t, j + 1) + ([QUOTE] + rest);
      EscapedDecides(s[i], IsLone(s, i), after, t[j], IsLone(t, j), other);
      EscapedTextDecides(s, i + 1, more, t, j + 1, rest);
      TailSplits(s, i);
      TailSplits(t, j);
    } else {
      assert i == |s| && j == |t|;
      NothingBefore([QUOTE] + more);
      NothingBefore([QUOTE] + rest);
      TailsOfEqual([QUOTE], more, rest);
    }
  }

  lemma QuotedDecides(s: Text, more: Text, t: Text, rest: Text)
    requires Quoted(s) + more == Quoted(t) + rest
    ensures s == t && more == rest
  {
    assert Quoted(s) + more == [QUOTE] + (EscapedFrom(s, 0) + ([QUOTE] + more));
    assert Quoted(t) + rest == [QUOTE] + (EscapedFrom(t, 0) + ([QUOTE] + rest));
    TailsOfEqual([QUOTE], EscapedFrom(s, 0) + ([QUOTE] + more), EscapedFrom(t, 0) + ([QUOTE] + rest));
    EscapedTextDecides(s, 0, more, t, 0, rest);
    assert s[0..] == s && t[0..] == t;
  }

  // The text of a value.

  function IndexOf(fields: seq<Field>, key: Text): (i: nat)
    requires key in KeysOf(fields)
    ensures i < |fields| && fields[i].key == key
  {
    if fields[0].key == key then 0
    else
      assert KeysOf(fields)[1..] == KeysOf(fields[1..]);
      1 + IndexOf(fields[1..], key)
  }

  function Stable(a: Json): Text
    decreases a
  {
    match a
    case Null => NULL
    case Infinite(_) => NULL
    case Bool(value) => if value then TRUE else FALSE
    case Number(text) => text
    case Chars(chars) => Quoted(chars)
    case List(_) => [OPEN_LIST] + StableItems(a, 0) + [CLOSE_LIST]
    case Object(fields) => [OPEN_OBJECT] + StableFields(a, InOrder(KeysOf(fields))) + [CLOSE_OBJECT]
  }

  function StableItems(a: Json, i: nat): Text
    requires a.List? && i <= |a.items|
    decreases a, |a.items| - i + 1
  {
    if i == |a.items| then []
    else (if i == 0 then [] else [COMMA]) + Stable(a.items[i]) + StableItems(a, i + 1)
  }

  /** The fields with the given keys; a comma goes before every field but the first. */
  function StableFields(a: Json, keys: seq<Text>, first: bool := true): Text
    requires a.Object? && forall k :: k in keys ==> k in KeysOf(a.fields)
    decreases a, |keys| + 1
  {
    if keys == [] then []
    else
      (if first then [] else [COMMA]) + Quoted(keys[0]) + [COLON]
      + Stable(a.fields[IndexOf(a.fields, keys[0])].value)
      + StableFields(a, keys[1..], false)
  }

  // The text decides the value.

  /** What can follow a value in a text. */
  predicate Closes(t: Text) { t == [] || t[0] in {COMMA, CLOSE_LIST, CLOSE_OBJECT} }

  datatype Kind = NullKind | TrueKind | FalseKind | NumberKind | CharsKind | ListKind | ObjectKind | NoKind

  function KindOf(a: Json): Kind {
    match a
    case Null => NullKind
    case Infinite(_) => NullKind
    case Bool(value) => if value then TrueKind else FalseKind
    case Number(_) => NumberKind
    case Chars(_) => CharsKind
    case List(_) => ListKind
    case Object(_) => ObjectKind
  }

  function KindAt(u: Unit): Kind {
    if u == 110 then NullKind else if u == 116 then TrueKind else if u == 102 then FalseKind
    else if IsDigit(u) || u == 45 then NumberKind else if u == QUOTE then CharsKind
    else if u == OPEN_LIST then ListKind else if u == OPEN_OBJECT then ObjectKind else NoKind
  }

  lemma KindShows(a: Json)
    ensures Stable(a) != [] && KindAt(Stable(a)[0]) == KindOf(a)
  {
  }

  lemma NumberIsNoLonger(s: NumberText, more: Text, t: NumberText, rest: Text)
    requires s + more == t + rest && Closes(more)
    ensures |t| <= |s|
  {
    forall i | 0 <= i < |t| ensures IsNumberUnit((s + more)[i]) { assert (t + rest)[i] == t[i]; }
    assert more != [] ==> !IsNumberUnit((s + more)[|s|]);
  }

  lemma NumberDecides(s: NumberText, more: Text, t: NumberText, rest: Text)
    requires s + more == t + rest && Closes(more) && Closes(rest)
    ensures s == t && more == rest
  {
    NumberIsNoLonger(s, more, t, rest);
    NumberIsNoLonger(t, rest, s, more);
    assert s == (s + more)[..|s|] && t == (t + rest)[..|t|];
    TailsOfEqual(s, more, rest);
  }

  lemma TailsOfEqual(head: Text, more: Text, rest: Text)
    requires head + more == head + rest
    ensures more == rest
  {
    assert more == (head + more)[|head|..] && rest == (head + rest)[|head|..];
  }

  lemma KindDecides(a: Json, more: Text, b: Json, rest: Text)
    requires Stable(a) + more == Stable(b) + rest
    ensures KindOf(a) == KindOf(b)
  {
    KindShows(a);
    KindShows(b);
    assert (Stable(a) + more)[0] == Stable(a)[0] && (Stable(b) + rest)[0] == Stable(b)[0];
  }

  lemma {:induction false} TextDecides(a: Json, more: Text, b: Json, rest: Text)
    requires WellFormed(a) && WellFormed(b) && Closes(more) && Closes(rest) && Stable(a) + more == Stable(b) + rest
    ensures Same(Shown(a), Shown(b)) && more == rest
    decreases a, 2
  {
    KindDecides(a, more, b, rest);
    match a {
      case Null => TailsOfEqual(NULL, more, rest);
      case Infinite(_) => TailsOfEqual(NULL, more, rest);
      case Bool(value) => TailsOfEqual(Stable(a), more, rest);
      case Number(text) => NumberDecides(text, more, b.text, rest);
      case Chars(chars) => QuotedDecides(chars, more, b.chars, rest);
      case List(items) => ListDecides(a, more, b, rest);
      case Object(fields) => ObjectDecides(a, more, b, rest);
    }
  }

  lemma Unwrap(open: Unit, a: Text, close: Text, more: Text, b: Text, rest: Text)
    requires [open] + a + close + more == [open] + b + close + rest
    ensures a + (close + more) == b + (close + rest)
  {
    assert [open] + a + close + more == [open] + (a + (close + more));
    assert [open] + b + close + rest == [open] + (b + (close + rest));
    TailsOfEqual([open], a + (close + more), b + (close + rest));
  }

  lemma {:induction false} ListDecides(a: Json, more: Text, b: Json, rest: Text)
    requires a.List? && b.List? && WellFormed(a) && WellFormed(b) && Stable(a) + more == Stable(b) + rest
    ensures Same(Shown(a), Shown(b)) && more == rest
    decreases a, 1
  {
    Unwrap(OPEN_LIST, StableItems(a, 0), [CLOSE_LIST], more, StableItems(b, 0), rest);
    ItemsDecide(a, 0, more, b, rest);
  }

  lemma {:induction false} ObjectDecides(a: Json, more: Text, b: Json, rest: Text)
    requires a.Object? && b.Object? && WellFormed(a) && WellFormed(b) && Stable(a) + more == Stable(b) + rest
    ensures Same(Shown(a), Shown(b)) && more == rest
    decreases a, 1
  {
    var keys, others := InOrder(KeysOf(a.fields)), InOrder(KeysOf(b.fields));
    Unwrap(OPEN_OBJECT, StableFields(a, keys), [CLOSE_OBJECT], more, StableFields(b, others), rest);
    FieldsDecide(a, keys, true, more, b, others, rest);
    KeysAreSame(KeysOf(a.fields), KeysOf(b.fields));
    FieldsAreSame(a, b);
  }

  lemma {:induction false} ItemsDecide(a: Json, i: nat, more: Text, b: Json, rest: Text)
    requires a.List? && b.List? && WellFormed(a) && WellFormed(b) && i <= |a.items| && i <= |b.items|
    requires StableItems(a, i) + ([CLOSE_LIST] + more) == StableItems(b, i) + ([CLOSE_LIST] + rest)
    ensures |a.items| == |b.items| && more == rest
    ensures forall j :: i <= j < |a.items| ==> Same(Shown(a.items[j]), Shown(b.items[j]))
    decreases a, 0, |a.items| - i + 1
  {
    ItemStarts(a, i, more);
    ItemStarts(b, i, rest);
    if i < |a.items| {
      ItemDecides(a, i, more, b, rest);
      ItemsDecide(a, i + 1, more, b, rest);
    } else {
      assert StableItems(a, i) + ([CLOSE_LIST] + more) == [CLOSE_LIST] + more;
      assert StableItems(b, i) + ([CLOSE_LIST] + rest) == [CLOSE_LIST] + rest;
      TailsOfEqual([CLOSE_LIST], more, rest);
    }
  }

  lemma ItemSplits(a: Json, i: nat, more: Text)
    requires a.List? && i < |a.items|
    ensures StableItems(a, i) + ([CLOSE_LIST] + more) ==
            (if i == 0 then [] else [COMMA]) + (Stable(a.items[i]) + (StableItems(a, i + 1) + ([CLOSE_LIST] + more)))
  {
    var comma: Text := if i == 0 then [] else [COMMA];
    assert comma + Stable(a.items[i]) + StableItems(a, i + 1) + ([CLOSE_LIST] + more) ==
           comma + (Stable(a.items[i]) + (StableItems(a, i + 1) + ([CLOSE_LIST] + more)));
  }

  lemma {:induction false} ItemDecides(a: Json, i: nat, more: Text, b: Json, rest: Text)
    requires a.List? && b.List? && WellFormed(a) && WellFormed(b) && i < |a.items| && i < |b.items|
    requires StableItems(a, i) + ([CLOSE_LIST] + more) == StableItems(b, i) + ([CLOSE_LIST] + rest)
    ensures Same(Shown(a.items[i]), Shown(b.items[i]))
    ensures StableItems(a, i + 1) + ([CLOSE_LIST] + more) == StableItems(b, i + 1) + ([CLOSE_LIST] + rest)
    decreases a, 0, |a.items| - i
  {
    var after, other := StableItems(a, i + 1) + ([CLOSE_LIST] + more), StableItems(b, i + 1) + ([CLOSE_LIST] + rest);
    ItemSplits(a, i, more);
    ItemSplits(b, i, rest);
    TailsOfEqual(if i == 0 then [] else [COMMA], Stable(a.items[i]) + after, Stable(b.items[i]) + other);
    ItemStarts(a, i + 1, more);
    ItemStarts(b, i + 1, rest);
    TextDecides(a.items[i], after, b.items[i], other);
  }

  lemma ItemStarts(a: Json, i: nat, more: Text)
    requires a.List? && i <= |a.items|
    ensures (StableItems(a, i) + ([CLOSE_LIST] + more))[0] == CLOSE_LIST <==> i == |a.items|
    ensures i > 0 ==> Closes(StableItems(a, i) + ([CLOSE_LIST] + more))
  {
    if i < |a.items| {
      KindShows(a.items[i]);
      ItemSplits(a, i, more);
    }
  }

  ghost predicate Keyed(a: Json, keys: seq<Text>) { a.Object? && forall k :: k in keys ==> k in KeysOf(a.fields) }

  function ValueOf(a: Json, key: Text): (r: Json)
    requires a.Object? && key in KeysOf(a.fields)
    ensures r < a
  {
    a.fields[IndexOf(a.fields, key)].value
  }

  lemma {:induction false} FieldsDecide(a: Json, keys: seq<Text>, first: bool, more: Text, b: Json, others: seq<Text>,
      rest: Text)
    requires Keyed(a, keys) && Keyed(b, others) && WellFormed(a) && WellFormed(b)
    requires StableFields(a, keys, first) + ([CLOSE_OBJECT] + more) == StableFields(b, others, first)
               + ([CLOSE_OBJECT] + rest)
    ensures keys == others && more == rest
    ensures forall k :: k in keys ==> SameAt(a, b, k)
    decreases a, 0, |keys| + 1
  {
    var left, right := StableFields(a, keys, first) + ([CLOSE_OBJECT] + more),
        StableFields(b, others, first) + ([CLOSE_OBJECT] + rest);
    if keys != [] { FieldStarts(a, keys, first); assert left[0] != CLOSE_OBJECT; }
    if others != [] { FieldStarts(b, others, first); assert right[0] != CLOSE_OBJECT; }
    if keys != [] && others != [] {
      FieldDecides(a, keys, first, more, b, others, rest);
      FieldsDecide(a, keys[1..], false, more, b, others[1..], rest);
      assert keys == [keys[0]] + keys[1..] && others == [others[0]] + others[1..];
    } else {
      assert keys == [] && others == [] by { assert left[0] == right[0]; }
      TailsOfEqual([CLOSE_OBJECT], more, rest) by { assert left == [CLOSE_OBJECT] + more
          && right == [CLOSE_OBJECT] + rest; }
    }
  }

  lemma FieldSplits(a: Json, keys: seq<Text>, first: bool, more: Text)
    requires Keyed(a, keys) && keys != []
    ensures StableFields(a, keys, first) + ([CLOSE_OBJECT] + more) ==
            (if first then [] else [COMMA]) + (Quoted(keys[0]) + ([COLON] + (Stable(ValueOf(a, keys[0])) +
              (StableFields(a, keys[1..], false) + ([CLOSE_OBJECT] + more)))))
  {
    Regroup(if first then [] else [COMMA], Quoted(keys[0]), [COLON], Stable(ValueOf(a, keys[0])),
            StableFields(a, keys[1..], false), [CLOSE_OBJECT] + more);
  }

  lemma Regroup(a: Text, b: Text, c: Text, d: Text, e: Text, f: Text)
    ensures (a + b + c + d + e) + f == a + (b + (c + (d + (e + f))))
  {
  }

  lemma {:induction false} FieldDecides(a: Json, keys: seq<Text>, first: bool, more: Text, b: Json, others: seq<Text>,
      rest: Text)
    requires Keyed(a, keys) && Keyed(b, others) && WellFormed(a) && WellFormed(b) && keys != [] && others != []
    requires StableFields(a, keys, first) + ([CLOSE_OBJECT] + more) == StableFields(b, others, first)
               + ([CLOSE_OBJECT] + rest)
    ensures keys[0] == others[0] && Same(Shown(ValueOf(a, keys[0])), Shown(ValueOf(b, others[0])))
    ensures StableFields(a, keys[1..], false) + ([CLOSE_OBJECT] + more) == StableFields(b, others[1..], false)
              + ([CLOSE_OBJECT] + rest)
    decreases a, 0, |keys|
  {
    FieldSplits(a, keys, first, more);
    FieldSplits(b, others, first, rest);
    FieldsClose(a, keys[1..], more);
    FieldsClose(b, others[1..], rest);
    FieldTextDecides(if first then [] else [COMMA], keys[0], ValueOf(a, keys[0]),
        StableFields(a, keys[1..], false) + ([CLOSE_OBJECT] + more),
                     others[0], ValueOf(b, others[0]), StableFields(b, others[1..], false) + ([CLOSE_OBJECT] + rest));
  }

  lemma {:induction false} FieldTextDecides(comma: Text, k: Text, x: Json, after: Text, l: Text, y: Json, other: Text)
    requires comma + (Quoted(k) + ([COLON] + (Stable(x) + after))) == comma
               + (Quoted(l) + ([COLON] + (Stable(y) + other)))
    requires WellFormed(x) && WellFormed(y) && Closes(after) && Closes(other)
    ensures k == l && Same(Shown(x), Shown(y)) && after == other
    decreases x, 3
  {
    TailsOfEqual(comma, Quoted(k) + ([COLON] + (Stable(x) + after)), Quoted(l) + ([COLON] + (Stable(y) + other)));
    QuotedDecides(k, [COLON] + (Stable(x) + after), l, [COLON] + (Stable(y) + other));
    TailsOfEqual([COLON], Stable(x) + after, Stable(y) + other);
    TextDecides(x, after, y, other);
  }

  lemma FieldStarts(a: Json, keys: seq<Text>, first: bool)
    requires Keyed(a, keys) && keys != []
    ensures StableFields(a, keys, first) != [] && StableFields(a, keys, first)[0] == if first then QUOTE else COMMA
  {
  }

  lemma FieldsClose(a: Json, keys: seq<Text>, more: Text)
    requires Keyed(a, keys)
    ensures Closes(StableFields(a, keys, false) + ([CLOSE_OBJECT] + more))
  {
    if keys != [] { FieldStarts(a, keys, false); }
  }

  /** A key of an object stands for one value. */
  lemma IndexIsUnique(fields: seq<Field>, i: nat)
    requires Distinct(KeysOf(fields)) && i < |fields|
    ensures fields[i].key in KeysOf(fields) && IndexOf(fields, fields[i].key) == i
  {
    assert KeysOf(fields)[i] == fields[i].key;
    var j := IndexOf(fields, fields[i].key);
    assert KeysOf(fields)[j] == KeysOf(fields)[i];
  }

  lemma FieldIsSame(a: Json, b: Json, i: nat, j: nat)
    requires a.Object? && b.Object? && WellFormed(a) && WellFormed(b)
    requires i < |a.fields| && j < |b.fields| && a.fields[i].key == b.fields[j].key
    ensures a.fields[i].key in KeysOf(a.fields) && a.fields[i].key in KeysOf(b.fields)
    ensures ValueOf(a, a.fields[i].key) == a.fields[i].value && ValueOf(b, a.fields[i].key) == b.fields[j].value
  {
    IndexIsUnique(a.fields, i);
    IndexIsUnique(b.fields, j);
  }

  lemma KeysAreSame(a: seq<Text>, b: seq<Text>)
    requires InOrder(a) == InOrder(b)
    ensures forall k :: k in a <==> k in b
  {
    forall k ensures k in a <==> k in b { assert k in InOrder(a) <==> k in InOrder(b); }
  }

  ghost predicate SameAt(a: Json, b: Json, k: Text) {
    && a.Object? && b.Object? && k in KeysOf(a.fields) && k in KeysOf(b.fields)
    && Same(Shown(ValueOf(a, k)), Shown(ValueOf(b, k)))
  }

  lemma FieldShowsSame(a: Json, b: Json, i: nat, j: nat)
    requires a.Object? && b.Object? && WellFormed(a) && WellFormed(b)
    requires i < |a.fields| && j < |b.fields| && a.fields[i].key == b.fields[j].key && SameAt(a, b, a.fields[i].key)
    ensures Same(Shown(a).fields[i].value, Shown(b).fields[j].value)
  {
    FieldIsSame(a, b, i, j);
  }

  lemma FieldsAreSame(a: Json, b: Json)
    requires a.Object? && b.Object? && WellFormed(a) && WellFormed(b)
    requires forall k :: k in KeysOf(a.fields) <==> k in KeysOf(b.fields)
    requires forall k :: k in KeysOf(a.fields) ==> SameAt(a, b, k)
    ensures Same(Shown(a), Shown(b))
  {
    forall i, j | 0 <= i < |a.fields| && 0 <= j < |b.fields| && a.fields[i].key == b.fields[j].key
      ensures Same(Shown(a).fields[i].value, Shown(b).fields[j].value)
    {
      assert KeysOf(a.fields)[i] == a.fields[i].key;
      assert a.fields[i].key in KeysOf(a.fields);
      FieldShowsSame(a, b, i, j);
    }
  }

  // The value decides the text.

  lemma {:induction false} ValueDecides(a: Json, b: Json)
    requires WellFormed(a) && WellFormed(b) && Same(Shown(a), Shown(b))
    ensures Stable(a) == Stable(b)
    decreases a, 2
  {
    match a {
      case List(_) =>
        ItemsShowSame(a, b);
        ItemsAgree(a, b, 0);
      case Object(_) =>
        assert forall k :: k in KeysOf(a.fields) <==> k in KeysOf(b.fields);
        InOrderForgetsOrder(KeysOf(a.fields), KeysOf(b.fields));
        FieldsAgree(a, b, InOrder(KeysOf(a.fields)), true);
      case _ =>
    }
  }

  lemma {:induction false} ItemsAgree(a: Json, b: Json, i: nat)
    requires a.List? && b.List? && WellFormed(a) && WellFormed(b) && i <= |a.items| == |b.items|
    requires forall j :: 0 <= j < |a.items| ==> Same(Shown(a.items[j]), Shown(b.items[j]))
    ensures StableItems(a, i) == StableItems(b, i)
    decreases a, 1, |a.items| - i
  {
    if i < |a.items| {
      ValueDecides(a.items[i], b.items[i]);
      ItemsAgree(a, b, i + 1);
    }
  }

  lemma ItemsShowSame(a: Json, b: Json)
    requires a.List? && b.List? && Same(Shown(a), Shown(b))
    ensures |a.items| == |b.items| && forall j :: 0 <= j < |a.items| ==> Same(Shown(a.items[j]), Shown(b.items[j]))
  {
    var xs, ys := Shown(a).items, Shown(b).items;
    forall j | 0 <= j < |a.items| ensures Same(Shown(a.items[j]), Shown(b.items[j])) { assert Same(xs[j], ys[j]); }
  }

  lemma {:induction false} FieldsAgree(a: Json, b: Json, keys: seq<Text>, first: bool)
    requires Keyed(a, keys) && Keyed(b, keys) && WellFormed(a) && WellFormed(b) && Same(Shown(a), Shown(b))
    ensures StableFields(a, keys, first) == StableFields(b, keys, first)
    decreases a, 1, |keys|
  {
    if keys != [] {
      FieldsAgree(a, b, keys[1..], false);
      var i, j := IndexOf(a.fields, keys[0]), IndexOf(b.fields, keys[0]);
      assert Same(Shown(a).fields[i].value, Shown(b).fields[j].value);
      ValueDecides(a.fields[i].value, b.fields[j].value);
    }
  }

  /**
   Two values have the same text exactly when they show the same, whatever the order of the fields anywhere in them.
   */
  lemma TextsAgreeExactlyWhenValuesShowTheSame(a: Json, b: Json)
    requires WellFormed(a) && WellFormed(b)
    ensures Stable(a) == Stable(b) <==> Same(Shown(a), Shown(b))
  {
    if Stable(a) == Stable(b) {
      assert Stable(a) + [] == Stable(b) + [];
      TextDecides(a, [], b, []);
    }
    if Same(Shown(a), Shown(b)) { ValueDecides(a, b); }
  }

  lemma {:induction false} FiniteShowsItself(a: Json)
    requires Finite(a)
    ensures Shown(a) == a
  {
    match a {
      case List(items) =>
        forall i | 0 <= i < |items| ensures Shown(items[i]) == items[i] { FiniteShowsItself(items[i]); }
        assert Shown(a).items == items;
      case Object(fields) =>
        forall i | 0 <= i < |fields| ensures Shown(fields[i].value) == fields[i].value {
          FiniteShowsItself(fields[i].value);
        }
        assert Shown(a).fields == fields;
      case _ =>
    }
  }

  /** Without numbers beyond the range of the format the text is injective up to the order of fields. */
  lemma TextIsInjective(a: Json, b: Json)
    requires WellFormed(a) && WellFormed(b) && Finite(a) && Finite(b)
    ensures Stable(a) == Stable(b) <==> Same(a, b)
  {
    TextsAgreeExactlyWhenValuesShowTheSame(a, b);
    FiniteShowsItself(a);
    FiniteShowsItself(b);
  }

  /**
   Finiteness is needed: the value of 1e999 has the text of null. The schema of commands admits finite numbers only.
   */
  lemma InfinityHasTheTextOfNull()
    ensures !Same(Infinite(false), Null) && Stable(Infinite(false)) == Stable(Null)
  {
  }

  // Fingerprints.

  const BASE_REVISION: Text := [98, 97, 115, 101, 82, 101, 118, 105, 115, 105, 111, 110]
  const COMMAND: Text := [99, 111, 109, 109, 97, 110, 100]

  function Payload(base: NumberText, command: Json): Json {
    Object([Field(BASE_REVISION, Number(base)), Field(COMMAND, command)])
  }

  function CommandFingerprint(digest: Text -> string, base: NumberText, command: Json): string {
    digest(Stable(Payload(base, command)))
  }

  ghost predicate Injective(digest: Text -> string) { forall s, t :: digest(s) == digest(t) ==> s == t }

  lemma PayloadIsWellFormed(base: NumberText, command: Json)
    requires WellFormed(command)
    ensures WellFormed(Payload(base, command))
  {
    assert KeysOf(Payload(base, command).fields) == [BASE_REVISION, COMMAND];
    assert BASE_REVISION[0] != COMMAND[0];
  }

  lemma PayloadsAreSame(base: NumberText, command: Json, other: NumberText, another: Json)
    ensures Same(Payload(base, command), Payload(other, another)) <==> base == other && Same(command, another)
  {
    var xs, ys := Payload(base, command).fields, Payload(other, another).fields;
    assert KeysOf(xs) == KeysOf(ys) == [BASE_REVISION, COMMAND];
    assert BASE_REVISION[0] != COMMAND[0];
    if Same(Payload(base, command), Payload(other, another)) {
      assert Same(xs[0].value, ys[0].value) && Same(xs[1].value, ys[1].value);
    }
  }

  lemma PayloadShows(base: NumberText, command: Json)
    ensures Shown(Payload(base, command)) == Payload(base, Shown(command))
  {
    assert Shown(Payload(base, command)).fields == Payload(base, Shown(command)).fields;
  }

  /** A fingerprint tells apart any two bases and any two commands that show differently, and nothing else. */
  lemma FingerprintsDecideThePayload(digest: Text -> string, base: NumberText, command: Json, other: NumberText,
      another: Json)
    requires Injective(digest) && WellFormed(command) && WellFormed(another)
    ensures CommandFingerprint(digest, base, command) == CommandFingerprint(digest, other, another)
            <==> base == other && Same(Shown(command), Shown(another))
  {
    var a, b := Payload(base, command), Payload(other, another);
    PayloadIsWellFormed(base, command);
    PayloadIsWellFormed(other, another);
    TextsAgreeExactlyWhenValuesShowTheSame(a, b);
    PayloadShows(base, command);
    PayloadShows(other, another);
    assert Stable(a) == Stable(b) <==>
        CommandFingerprint(digest, base, command) == CommandFingerprint(digest, other, another);
    PayloadsAreSame(base, Shown(command), other, Shown(another));
  }

  /** A command that the schema admits is finite; its fingerprint decides the base and the command itself. */
  lemma FingerprintsDecideFiniteCommands(digest: Text -> string, base: NumberText, command: Json, other: NumberText,
      another: Json)
    requires Injective(digest) && WellFormed(command) && WellFormed(another) && Finite(command) && Finite(another)
    ensures CommandFingerprint(digest, base, command) == CommandFingerprint(digest, other, another)
            <==> base == other && Same(command, another)
  {
    FingerprintsDecideThePayload(digest, base, command, other, another);
    FiniteShowsItself(command);
    FiniteShowsItself(another);
  }
}
