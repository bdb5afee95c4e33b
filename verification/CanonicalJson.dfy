/**
 * The canonical text of a command payload, and what it decides: two payloads have the same text
 * exactly when they mean the same, that is, when they agree after undefined fields are dropped and
 * the order of keys is forgotten. Texts are sequences of UTF-16 code units.
 */
module CanonicalJson {
  import opened Common

  type Unit = u: nat | u < 0x1_0000
  type Text = seq<Unit>

  const QUOTE: Unit := 34
  const COMMA: Unit := 44
  const COLON: Unit := 58
  const BACKSLASH: Unit := 92
  const OPEN_ARRAY: Unit := 91
  const CLOSE_ARRAY: Unit := 93
  const OPEN_OBJECT: Unit := 123
  const CLOSE_OBJECT: Unit := 125

  /** A JavaScript value as a payload may hold it; a finite number is named by its shortest decimal text. */
  datatype Value =
    | Undefined | Unsupported | Null | Bool(truth: bool) | NonFinite | Number(lexeme: Text) | String(text: Text)
    | Array(items: seq<Value>) | Object(fields: seq<Field>)

  datatype Field = Field(key: Text, value: Value)

  predicate LexemeUnit(u: Unit) {
    48 <= u <= 57 || u == 45 || u == 43 || u == 46 || u == 101
  }

  predicate IsLexeme(t: Text) {
    t != [] && (48 <= t[0] <= 57 || t[0] == 45) && forall i | 0 <= i < |t| :: LexemeUnit(t[i])
  }

  predicate DistinctKeys(fields: seq<Field>) {
    forall i, j | 0 <= i < j < |fields| :: fields[i].key != fields[j].key
  }

  /** What the language guarantees of every value: number texts are texts of numbers, and keys are distinct. */
  predicate Valid(v: Value) {
    match v
    case Number(lexeme) => IsLexeme(lexeme)
    case Array(items) => forall x | x in items :: Valid(x)
    case Object(fields) => DistinctKeys(fields) && forall f | f in fields :: Valid(f.value)
    case _ => true
  }

  /** No number is infinite, and nothing but the value of a field is undefined. */
  predicate Printable(v: Value) {
    match v
    case Undefined => false
    case Unsupported => false
    case NonFinite => false
    case Array(items) => forall x | x in items :: Printable(x)
    case Object(fields) => forall f | f in fields :: f.value.Undefined? || Printable(f.value)
    case _ => true
  }

  // ---------------------------------------------------------------- strings

  predicate High(u: Unit) {
    0xD800 <= u < 0xDC00
  }

  predicate Low(u: Unit) {
    0xDC00 <= u < 0xE000
  }

  function Hex(digit: nat): Unit
    requires digit < 16
  {
    if digit < 10 then 48 + digit else 87 + digit
  }

  function EscapeUnit(u: Unit): Text {
    if u == 8 then [BACKSLASH, 98]
    else if u == 9 then [BACKSLASH, 116]
    else if u == 10 then [BACKSLASH, 110]
    else if u == 12 then [BACKSLASH, 102]
    else if u == 13 then [BACKSLASH, 114]
    else if u == QUOTE then [BACKSLASH, QUOTE]
    else if u == BACKSLASH then [BACKSLASH, BACKSLASH]
    else if u < 32 || High(u) || Low(u) then [BACKSLASH, 117, Hex(u / 4096), Hex(u / 256 % 16), Hex(u / 16 % 16), Hex(u % 16)]
    else [u]
  }

  /** A surrogate pair stands for itself; a lone surrogate is escaped. */
  function Escape(s: Text): Text {
    if s == [] then []
    else if High(s[0]) && |s| > 1 && Low(s[1]) then [s[0], s[1]] + Escape(s[2..])
    else EscapeUnit(s[0]) + Escape(s[1..])
  }

  function Quoted(s: Text): Text {
    [QUOTE] + Escape(s) + [QUOTE]
  }

  lemma HexIsInjective(a: Unit, b: Unit)
    requires Hex(a / 4096) == Hex(b / 4096) && Hex(a / 256 % 16) == Hex(b / 256 % 16)
    requires Hex(a / 16 % 16) == Hex(b / 16 % 16) && Hex(a % 16) == Hex(b % 16)
    ensures a == b
  {
    HexDigits(a);
    HexDigits(b);
  }

  lemma HexDigits(a: Unit)
    ensures a == 4096 * (a / 4096) + 256 * (a / 256 % 16) + 16 * (a / 16 % 16) + a % 16
  {
    assert a / 256 / 16 == a / 4096 && a / 16 / 16 == a / 256;
  }

  lemma UnitIsReadable(a: Unit, b: Unit, x: Text, y: Text)
    requires EscapeUnit(a) + x == EscapeUnit(b) + y
    ensures a == b && x == y
  {
    var s, t := EscapeUnit(a) + x, EscapeUnit(b) + y;
    assert s[0] == EscapeUnit(a)[0] && t[0] == EscapeUnit(b)[0];
    if s[0] == BACKSLASH {
      assert s[1] == EscapeUnit(a)[1] && t[1] == EscapeUnit(b)[1];
      if s[1] == 117 {
        assert forall i | 2 <= i < 6 :: s[i] == EscapeUnit(a)[i] && t[i] == EscapeUnit(b)[i];
        assert s[2] == t[2] && s[3] == t[3] && s[4] == t[4] && s[5] == t[5];
        HexIsInjective(a, b);
      }
    }
    assert x == s[|EscapeUnit(a)|..] && y == t[|EscapeUnit(b)|..];
  }

  predicate PairFirst(s: Text) {
    |s| > 1 && High(s[0]) && Low(s[1])
  }

  lemma Regroup(a: Text, b: Text, c: Text, d: Text)
    ensures a + b + c + d == a + (b + c + d)
    ensures a + b + c == a + (b + c)
    ensures a != [] ==> (a + b)[0] == a[0] && (a + b + c + d)[0] == a[0]
  {
  }

  lemma Nest(a: Text, b: Text, c: Text, d: Text, e: Text)
    ensures a + b + c + d + e == a + (b + (c + d + e))
  {
  }

  lemma Unnest(a: Text, b: Text, c: Text, d: Text)
    ensures (a + b + c) + d == a + (b + (c + d))
  {
  }

  lemma UnitStarts(u: Unit)
    ensures EscapeUnit(u) != [] && EscapeUnit(u)[0] != QUOTE && !High(EscapeUnit(u)[0])
  {
  }

  /** How the rest of a quoted string begins. */
  lemma StringStarts(s: Text, x: Text)
    ensures var a := Escape(s) + [QUOTE] + x;
            && (s == [] <==> a[0] == QUOTE) && (s == [] ==> a[1..] == x)
            && (PairFirst(s) <==> High(a[0]))
            && (PairFirst(s) ==> a == [s[0], s[1]] + (Escape(s[2..]) + [QUOTE] + x))
            && (s != [] && !PairFirst(s) ==> a == EscapeUnit(s[0]) + (Escape(s[1..]) + [QUOTE] + x))
  {
    hide EscapeUnit;
    if PairFirst(s) {
      Regroup([s[0], s[1]], Escape(s[2..]), [QUOTE], x);
    } else if s != [] {
      Regroup(EscapeUnit(s[0]), Escape(s[1..]), [QUOTE], x);
      UnitStarts(s[0]);
    }
  }

  lemma {:induction false} StringIsReadable(s: Text, t: Text, x: Text, y: Text)
    requires Escape(s) + [QUOTE] + x == Escape(t) + [QUOTE] + y
    ensures s == t && x == y
  {
    hide Escape, EscapeUnit;
    StringStarts(s, x);
    StringStarts(t, y);
    if PairFirst(s) {
      var a, b := [s[0], s[1]] + (Escape(s[2..]) + [QUOTE] + x), [t[0], t[1]] + (Escape(t[2..]) + [QUOTE] + y);
      assert a[0] == b[0] && a[1] == b[1] && a[2..] == b[2..];
      StringIsReadable(s[2..], t[2..], x, y);
      assert s == [s[0], s[1]] + s[2..] && t == [t[0], t[1]] + t[2..];
    } else if s != [] {
      UnitIsReadable(s[0], t[0], Escape(s[1..]) + [QUOTE] + x, Escape(t[1..]) + [QUOTE] + y);
      StringIsReadable(s[1..], t[1..], x, y);
      assert s == [s[0]] + s[1..] && t == [t[0]] + t[1..];
    }
  }

  // ---------------------------------------------------------------- keys in order

  /** The order of texts by code units, as the sort of an array of strings uses it. */
  predicate Before(a: Text, b: Text) {
    b != [] && (a == [] || a[0] < b[0] || (a[0] == b[0] && Before(a[1..], b[1..])))
  }

  lemma {:induction false} OrderIsTotal(a: Text, b: Text)
    ensures a == b || Before(a, b) || Before(b, a)
    ensures !(Before(a, b) && Before(b, a)) && !Before(a, a)
  {
    if a != [] && b != [] && a[0] == b[0] {
      OrderIsTotal(a[1..], b[1..]);
      assert a == [a[0]] + a[1..] && b == [b[0]] + b[1..];
    }
    if a != [] {
      OrderIsTotal(a[1..], a[1..]);
    }
  }

  lemma {:induction false} OrderIsTransitive(a: Text, b: Text, c: Text)
    requires Before(a, b) && Before(b, c)
    ensures Before(a, c)
  {
    if a != [] && a[0] == b[0] && b[0] == c[0] {
      OrderIsTransitive(a[1..], b[1..], c[1..]);
    }
  }

  predicate Ascending(fields: seq<Field>) {
    forall i, j | 0 <= i < j < |fields| :: Before(fields[i].key, fields[j].key)
  }

  function Defined(fields: seq<Field>): (r: seq<Field>)
    ensures forall f :: f in r <==> f in fields && !f.value.Undefined?
    ensures DistinctKeys(fields) ==> DistinctKeys(r)
  {
    if fields == [] then []
    else
      var rest := Defined(fields[1..]);
      if fields[0].value.Undefined? then rest
      else
        assert forall f | f in rest :: f in fields[1..];
        [fields[0]] + rest
  }

  function Inserted(f: Field, fields: seq<Field>): (r: seq<Field>)
    ensures forall g :: g in r <==> g == f || g in fields
    ensures Ascending(fields) && (forall g | g in fields :: g.key != f.key) ==> Ascending(r)
  {
    if fields == [] then [f]
    else if Before(f.key, fields[0].key) then
      assert Ascending(fields) ==> forall g | g in fields :: Before(f.key, g.key) by {
        forall g | Ascending(fields) && g in fields ensures Before(f.key, g.key) {
          if g != fields[0] { OrderIsTransitive(f.key, fields[0].key, g.key); }
        }
      }
      [f] + fields
    else
      assert f.key == fields[0].key || Before(fields[0].key, f.key) by { OrderIsTotal(f.key, fields[0].key); }
      var rest := Inserted(f, fields[1..]);
      assert Ascending(fields) && f.key != fields[0].key ==> forall g | g in rest :: Before(fields[0].key, g.key);
      [fields[0]] + rest
  }

  function Sorted(fields: seq<Field>): (r: seq<Field>)
    ensures forall f :: f in r <==> f in fields
    ensures DistinctKeys(fields) ==> Ascending(r)
  {
    if fields == [] then []
    else
      assert DistinctKeys(fields) ==> forall g | g in fields[1..] :: g.key != fields[0].key;
      Inserted(fields[0], Sorted(fields[1..]))
  }

  // ---------------------------------------------------------------- the canonical text

  const NULL: Text := [110, 117, 108, 108]
  const TRUE: Text := [116, 114, 117, 101]
  const FALSE: Text := [102, 97, 108, 115, 101]

  lemma PartsAreSmaller(v: Value)
    ensures v.Array? ==> forall x | x in v.items :: x < v
    ensures v.Object? ==> forall f | f in v.fields :: f.value < v
  {
    if v.Array? {
      forall x | x in v.items ensures x < v {
        var i :| 0 <= i < |v.items| && v.items[i] == x;
      }
    } else if v.Object? {
      forall f | f in v.fields ensures f.value < v {
        var i :| 0 <= i < |v.fields| && v.fields[i] == f;
      }
    }
  }

  function Canon(v: Value): Text
    requires Printable(v)
    decreases v, 1, 0
  {
    match v
    case Null => NULL
    case Bool(truth) => if truth then TRUE else FALSE
    case Number(lexeme) => lexeme
    case String(text) => Quoted(text)
    case Array(items) => [OPEN_ARRAY] + CanonItems(v, items) + [CLOSE_ARRAY]
    case Object(fields) => [OPEN_OBJECT] + CanonFields(v, Sorted(Defined(fields))) + [CLOSE_OBJECT]
  }

  function CanonItems(v: Value, items: seq<Value>): Text
    requires v.Array? && Printable(v) && forall x | x in items :: x in v.items
    decreases v, 0, |items|
  {
    if items == [] then []
    else
      PartsAreSmaller(v);
      assert items[0] in items;
      var first := Canon(items[0]);
      if |items| == 1 then first else first + [COMMA] + CanonItems(v, items[1..])
  }

  function CanonFields(v: Value, fields: seq<Field>): Text
    requires v.Object? && Printable(v) && forall f | f in fields :: f in v.fields && !f.value.Undefined?
    decreases v, 0, |fields|
  {
    if fields == [] then []
    else
      PartsAreSmaller(v);
      assert fields[0] in fields;
      var first := Quoted(fields[0].key) + [COLON] + Canon(fields[0].value);
      if |fields| == 1 then first else first + [COMMA] + CanonFields(v, fields[1..])
  }

  /** What a payload means: objects are maps, so neither their order nor undefined fields matter. */
  datatype Meaning =
    | MNull | MBool(truth: bool) | MNumber(lexeme: Text) | MString(text: Text) | MArray(items: seq<Meaning>) | MObject(fields: map<Text, Meaning>)

  function MeaningOf(v: Value): Meaning
    requires Printable(v)
  {
    match v
    case Null => MNull
    case Bool(truth) => MBool(truth)
    case Number(lexeme) => MNumber(lexeme)
    case String(text) => MString(text)
    case Array(items) => MArray(seq(|items|, i requires 0 <= i < |items| => MeaningOf(items[i])))
    case Object(fields) => MObject(MeaningOfFields(v, fields))
  }

  function MeaningOfFields(v: Value, fields: seq<Field>): map<Text, Meaning>
    requires v.Object? && Printable(v) && forall f | f in fields :: f in v.fields
    decreases v, |fields|
  {
    if fields == [] then map[]
    else
      PartsAreSmaller(v);
      assert fields[0] in fields;
      var rest := MeaningOfFields(v, fields[1..]);
      if fields[0].value.Undefined? then rest else rest[fields[0].key := MeaningOf(fields[0].value)]
  }

  // ---------------------------------------------------------------- the text determines the meaning

  predicate Delimited(x: Text) {
    x == [] || x[0] == COMMA || x[0] == CLOSE_ARRAY || x[0] == CLOSE_OBJECT
  }

  /** A number's text ends where its units end. */
  lemma NumberEnds(whole: Text, m: nat, n: nat)
    requires m <= |whole| && (forall i | 0 <= i < m :: LexemeUnit(whole[i])) && (m < |whole| ==> !LexemeUnit(whole[m]))
    requires n <= |whole| && (forall i | 0 <= i < n :: LexemeUnit(whole[i])) && (n < |whole| ==> !LexemeUnit(whole[n]))
    ensures m == n
  {
  }

  lemma NumberIsReadable(a: Text, b: Text, x: Text, y: Text)
    requires IsLexeme(a) && IsLexeme(b) && Delimited(x) && Delimited(y) && a + x == b + y
    ensures a == b && x == y
  {
    var whole := a + x;
    assert forall i | 0 <= i < |b| :: whole[i] == b[i];
    assert |b| < |whole| ==> whole[|b|] == y[0];
    NumberEnds(whole, |a|, |b|);
    assert a == whole[..|a|] && b == whole[..|b|] && x == whole[|a|..] && y == whole[|b|..];
  }

  predicate StartsLike(v: Value, u: Unit) {
    match v
    case Null => u == 110
    case Bool(truth) => u == if truth then 116 else 102
    case Number(_) => 48 <= u <= 57 || u == 45
    case String(_) => u == QUOTE
    case Array(_) => u == OPEN_ARRAY
    case Object(_) => u == OPEN_OBJECT
    case _ => false
  }

  /** The first unit tells the kind of a value. */
  lemma ValueStarts(v: Value, x: Text)
    requires Valid(v) && Printable(v)
    ensures Canon(v) != [] && StartsLike(v, (Canon(v) + x)[0])
  {
  }

  /** What follows the first item of an array. */
  function AfterItem(v: Value, items: seq<Value>, x: Text): Text
    requires v.Array? && Printable(v) && items != [] && forall i | i in items :: i in v.items
  {
    if |items| == 1 then [CLOSE_ARRAY] + x else [COMMA] + (CanonItems(v, items[1..]) + [CLOSE_ARRAY] + x)
  }

  lemma ItemsStart(v: Value, items: seq<Value>, x: Text)
    requires v.Array? && Printable(v) && items != [] && forall i | i in items :: i in v.items
    ensures CanonItems(v, items) + [CLOSE_ARRAY] + x == Canon(items[0]) + AfterItem(v, items, x)
  {
    hide Canon;
    if |items| == 1 {
      Regroup(Canon(items[0]), [CLOSE_ARRAY], x, []);
    } else {
      Nest(Canon(items[0]), [COMMA], CanonItems(v, items[1..]), [CLOSE_ARRAY], x);
    }
  }

  lemma {:induction false} ValueIsReadable(v: Value, w: Value, x: Text, y: Text)
    requires Valid(v) && Printable(v) && Valid(w) && Printable(w) && Delimited(x) && Delimited(y)
    requires Canon(v) + x == Canon(w) + y
    ensures MeaningOf(v) == MeaningOf(w) && x == y
    decreases v, 1, 0
  {
    ValueStarts(v, x);
    ValueStarts(w, y);
    match v
    case Null => assert x == (NULL + x)[4..] && y == (NULL + y)[4..];
    case Bool(truth) =>
      var n := if truth then 4 else 5;
      assert x == (Canon(v) + x)[n..] && y == (Canon(w) + y)[n..];
    case Number(lexeme) => NumberIsReadable(lexeme, w.lexeme, x, y);
    case String(text) => QuotedIsReadable(text, w.text, x, y);
    case Array(items) => ArrayIsReadable(v, w, x, y);
    case Object(fields) => ObjectIsReadable(v, w, x, y);
  }

  lemma QuotedIsReadable(s: Text, t: Text, x: Text, y: Text)
    requires Quoted(s) + x == Quoted(t) + y
    ensures s == t && x == y
  {
    hide Escape;
    assert (Quoted(s) + x)[1..] == Escape(s) + [QUOTE] + x;
    assert (Quoted(t) + y)[1..] == Escape(t) + [QUOTE] + y;
    StringIsReadable(s, t, x, y);
  }

  lemma {:induction false} ArrayIsReadable(v: Value, w: Value, x: Text, y: Text)
    requires Valid(v) && Printable(v) && Valid(w) && Printable(w) && Delimited(x) && Delimited(y)
    requires v.Array? && w.Array? && Canon(v) + x == Canon(w) + y
    ensures MeaningOf(v) == MeaningOf(w) && x == y
    decreases v, 0, |v.items| + 1
  {
    hide CanonItems;
    assert (Canon(v) + x)[1..] == CanonItems(v, v.items) + [CLOSE_ARRAY] + x;
    assert (Canon(w) + y)[1..] == CanonItems(w, w.items) + [CLOSE_ARRAY] + y;
    ItemsAreReadable(v, v.items, w, w.items, x, y);
  }

  /** A closing bracket comes first exactly when no item is left. */
  lemma ItemsEnd(v: Value, items: seq<Value>, x: Text)
    requires v.Array? && Valid(v) && Printable(v) && forall i | i in items :: i in v.items
    ensures var t := CanonItems(v, items) + [CLOSE_ARRAY] + x;
            (items == [] <==> t[0] == CLOSE_ARRAY) && (items == [] ==> t[1..] == x)
  {
    hide Canon;
    if items != [] {
      ItemsStart(v, items, x);
      assert items[0] in items;
      ValueStarts(items[0], AfterItem(v, items, x));
    }
  }

  lemma {:induction false} ItemsAreReadable(v: Value, a: seq<Value>, w: Value, b: seq<Value>, x: Text, y: Text)
    requires v.Array? && Valid(v) && Printable(v) && forall i | i in a :: i in v.items
    requires w.Array? && Valid(w) && Printable(w) && forall i | i in b :: i in w.items
    requires CanonItems(v, a) + [CLOSE_ARRAY] + x == CanonItems(w, b) + [CLOSE_ARRAY] + y
    ensures |a| == |b| && x == y && forall i | 0 <= i < |a| :: MeaningOf(a[i]) == MeaningOf(b[i])
    decreases v, 0, |a|
  {
    hide Canon, MeaningOf;
    ItemsEnd(v, a, x);
    ItemsEnd(w, b, y);
    if a != [] && b != [] {
      ItemsStart(v, a, x);
      ItemsStart(w, b, y);
      var s, t := AfterItem(v, a, x), AfterItem(w, b, y);
      PartsAreSmaller(v);
      assert a[0] in a;
      ValueIsReadable(a[0], b[0], s, t);
      assert s[0] == t[0] && s[1..] == t[1..];
      if |a| == 1 {
        assert s[1..] == x && t[1..] == y;
      } else {
        ItemsAreReadable(v, a[1..], w, b[1..], x, y);
        assert forall i | 1 <= i < |a| :: a[i] == a[1..][i - 1] && b[i] == b[1..][i - 1];
      }
    }
  }

  /** What follows the first field of an object. */
  function AfterField(v: Value, fields: seq<Field>, x: Text): Text
    requires v.Object? && Printable(v) && fields != [] && forall f | f in fields :: f in v.fields && !f.value.Undefined?
  {
    if |fields| == 1 then [CLOSE_OBJECT] + x else [COMMA] + (CanonFields(v, fields[1..]) + [CLOSE_OBJECT] + x)
  }

  lemma FieldsStart(v: Value, fields: seq<Field>, x: Text)
    requires v.Object? && Printable(v) && fields != [] && forall f | f in fields :: f in v.fields && !f.value.Undefined?
    ensures CanonFields(v, fields) + [CLOSE_OBJECT] + x
            == Quoted(fields[0].key) + ([COLON] + (Canon(fields[0].value) + AfterField(v, fields, x)))
  {
    hide Canon, Quoted;
    var key, first := Quoted(fields[0].key), Canon(fields[0].value);
    if |fields| == 1 {
      Regroup(key + [COLON] + first, [CLOSE_OBJECT], x, []);
      Unnest(key, [COLON], first, [CLOSE_OBJECT] + x);
    } else {
      var rest := CanonFields(v, fields[1..]);
      Nest(key + [COLON] + first, [COMMA], rest, [CLOSE_OBJECT], x);
      Unnest(key, [COLON], first, [COMMA] + (rest + [CLOSE_OBJECT] + x));
    }
  }

  predicate SameFields(a: seq<Field>, b: seq<Field>)
    requires forall f | f in a :: Printable(f.value)
    requires forall f | f in b :: Printable(f.value)
  {
    |a| == |b| && forall i | 0 <= i < |a| :: a[i].key == b[i].key && MeaningOf(a[i].value) == MeaningOf(b[i].value)
  }

  lemma {:induction false} FieldsAreReadable(v: Value, a: seq<Field>, w: Value, b: seq<Field>, x: Text, y: Text)
    requires v.Object? && Valid(v) && Printable(v) && forall f | f in a :: f in v.fields && !f.value.Undefined?
    requires w.Object? && Valid(w) && Printable(w) && forall f | f in b :: f in w.fields && !f.value.Undefined?
    requires CanonFields(v, a) + [CLOSE_OBJECT] + x == CanonFields(w, b) + [CLOSE_OBJECT] + y
    ensures SameFields(a, b) && x == y
    decreases v, 0, |a|
  {
    hide Canon, MeaningOf, CanonFields, SameFields, Valid;
    FieldsEnd(v, a, x);
    FieldsEnd(w, b, y);
    if a == [] || b == [] {
      NoFieldsAreSame();
    } else {
      FieldIsReadable(v, a, w, b, x, y);
      if |a| > 1 {
        FieldsAreReadable(v, a[1..], w, b[1..], x, y);
      } else {
        NoFieldsAreSame();
        assert a[1..] == [] && b[1..] == [];
      }
      FieldsAreSame(a, b);
    }
  }

  lemma NoFieldsAreSame()
    ensures SameFields([], [])
  {
  }

  lemma FieldsAreSame(a: seq<Field>, b: seq<Field>)
    requires (forall f | f in a :: Printable(f.value)) && (forall f | f in b :: Printable(f.value)) && a != [] && b != []
    requires a[0].key == b[0].key && MeaningOf(a[0].value) == MeaningOf(b[0].value) && SameFields(a[1..], b[1..])
    ensures SameFields(a, b)
  {
    hide MeaningOf, Printable;
    assert a == [a[0]] + a[1..] && b == [b[0]] + b[1..];
    forall i | 0 <= i < |a| ensures a[i].key == b[i].key && MeaningOf(a[i].value) == MeaningOf(b[i].value) {
      if i > 0 {
        assert a[i] == a[1..][i - 1] && b[i] == b[1..][i - 1];
      }
    }
  }

  /** The first fields agree, and either both are the last or the rest agree as texts. */
  lemma {:induction false} FieldIsReadable(v: Value, a: seq<Field>, w: Value, b: seq<Field>, x: Text, y: Text)
    requires v.Object? && Valid(v) && Printable(v) && a != [] && forall f | f in a :: f in v.fields && !f.value.Undefined?
    requires w.Object? && Valid(w) && Printable(w) && b != [] && forall f | f in b :: f in w.fields && !f.value.Undefined?
    requires CanonFields(v, a) + [CLOSE_OBJECT] + x == CanonFields(w, b) + [CLOSE_OBJECT] + y
    ensures a[0].key == b[0].key && MeaningOf(a[0].value) == MeaningOf(b[0].value) && (|a| == 1 <==> |b| == 1)
    ensures if |a| == 1 then x == y else CanonFields(v, a[1..]) + [CLOSE_OBJECT] + x == CanonFields(w, b[1..]) + [CLOSE_OBJECT] + y
    decreases v, 0, 0
  {
    hide Canon, MeaningOf, CanonFields, AfterField;
    PartsAreSmaller(v);
    assert a[0] in a && b[0] in b;
    FirstFieldIsReadable(v, a, w, b, x, y);
    AfterFieldStarts(v, a, x);
    AfterFieldStarts(w, b, y);
    ValueIsReadable(a[0].value, b[0].value, AfterField(v, a, x), AfterField(w, b, y));
  }

  /** A comma follows exactly when another field does. */
  lemma AfterFieldStarts(v: Value, fields: seq<Field>, x: Text)
    requires v.Object? && Printable(v) && fields != [] && forall f | f in fields :: f in v.fields && !f.value.Undefined?
    ensures var t := AfterField(v, fields, x);
            && Delimited(t) && t != [] && (|fields| == 1 <==> t[0] == CLOSE_OBJECT)
            && t[1..] == if |fields| == 1 then x else CanonFields(v, fields[1..]) + [CLOSE_OBJECT] + x
  {
    hide CanonFields;
  }

  /** A closing brace comes first exactly when no field is left. */
  lemma FieldsEnd(v: Value, fields: seq<Field>, x: Text)
    requires v.Object? && Printable(v) && forall f | f in fields :: f in v.fields && !f.value.Undefined?
    ensures var t := CanonFields(v, fields) + [CLOSE_OBJECT] + x;
            (fields == [] <==> t[0] == CLOSE_OBJECT) && (fields == [] ==> t[1..] == x)
  {
    hide Canon;
    if fields != [] {
      FieldsStart(v, fields, x);
    }
  }

  lemma FirstFieldIsReadable(v: Value, a: seq<Field>, w: Value, b: seq<Field>, x: Text, y: Text)
    requires v.Object? && Printable(v) && a != [] && forall f | f in a :: f in v.fields && !f.value.Undefined?
    requires w.Object? && Printable(w) && b != [] && forall f | f in b :: f in w.fields && !f.value.Undefined?
    requires CanonFields(v, a) + [CLOSE_OBJECT] + x == CanonFields(w, b) + [CLOSE_OBJECT] + y
    ensures a[0].key == b[0].key
    ensures Canon(a[0].value) + AfterField(v, a, x) == Canon(b[0].value) + AfterField(w, b, y)
  {
    hide Canon, CanonFields, Quoted, AfterField;
    FieldsStart(v, a, x);
    FieldsStart(w, b, y);
    var s, t := Canon(a[0].value) + AfterField(v, a, x), Canon(b[0].value) + AfterField(w, b, y);
    QuotedIsReadable(a[0].key, b[0].key, [COLON] + s, [COLON] + t);
    assert ([COLON] + s)[1..] == s && ([COLON] + t)[1..] == t;
  }

  lemma {:induction false} ObjectIsReadable(v: Value, w: Value, x: Text, y: Text)
    requires Valid(v) && Printable(v) && Valid(w) && Printable(w) && Delimited(x) && Delimited(y)
    requires v.Object? && w.Object? && Canon(v) + x == Canon(w) + y
    ensures MeaningOf(v) == MeaningOf(w) && x == y
    decreases v, 0, |Sorted(Defined(v.fields))| + 1
  {
    hide CanonFields, MeaningOfFields, Sorted, Defined;
    var a, b := Sorted(Defined(v.fields)), Sorted(Defined(w.fields));
    assert (Canon(v) + x)[1..] == CanonFields(v, a) + [CLOSE_OBJECT] + x;
    assert (Canon(w) + y)[1..] == CanonFields(w, b) + [CLOSE_OBJECT] + y;
    FieldsAreReadable(v, a, w, b, x, y);
    SameFieldsMeanTheSame(v, a, w, b);
  }

  // ---------------------------------------------------------------- fields and maps

  lemma {:induction false} FieldIsMeant(v: Value, fields: seq<Field>, f: Field)
    requires v.Object? && Printable(v) && (forall g | g in fields :: g in v.fields) && DistinctKeys(fields)
    requires f in fields && !f.value.Undefined?
    ensures f.key in MeaningOfFields(v, fields) && MeaningOfFields(v, fields)[f.key] == MeaningOf(f.value)
  {
    if f != fields[0] {
      FieldIsMeant(v, fields[1..], f);
      assert f.key != fields[0].key;
    }
  }

  lemma {:induction false} MeantIsField(v: Value, fields: seq<Field>, key: Text)
    requires v.Object? && Printable(v) && (forall g | g in fields :: g in v.fields)
    requires key in MeaningOfFields(v, fields)
    ensures exists f | f in fields :: !f.value.Undefined? && f.key == key
  {
    if !(fields[0].key == key && !fields[0].value.Undefined?) {
      MeantIsField(v, fields[1..], key);
    }
  }

  /** One object's fields are among those of another with the same sorted fields. */
  lemma SameFieldsAreMeant(v: Value, a: seq<Field>, w: Value, b: seq<Field>, key: Text)
    requires v.Object? && Valid(v) && Printable(v) && a == Sorted(Defined(v.fields))
    requires w.Object? && Valid(w) && Printable(w) && b == Sorted(Defined(w.fields))
    requires SameFields(a, b) && key in MeaningOfFields(v, v.fields)
    ensures key in MeaningOfFields(w, w.fields) && MeaningOfFields(v, v.fields)[key] == MeaningOfFields(w, w.fields)[key]
  {
    hide MeaningOfFields, Sorted, Defined;
    MeantIsField(v, v.fields, key);
    var f :| f in v.fields && !f.value.Undefined? && f.key == key;
    FieldIsMeant(v, v.fields, f);
    assert f in a;
    var i :| 0 <= i < |a| && a[i] == f;
    assert b[i] in b;
    FieldIsMeant(w, w.fields, b[i]);
  }

  lemma SameFieldsMeanTheSame(v: Value, a: seq<Field>, w: Value, b: seq<Field>)
    requires v.Object? && Valid(v) && Printable(v) && a == Sorted(Defined(v.fields))
    requires w.Object? && Valid(w) && Printable(w) && b == Sorted(Defined(w.fields))
    requires SameFields(a, b)
    ensures MeaningOf(v) == MeaningOf(w)
  {
    hide MeaningOfFields, Sorted, Defined;
    forall key | key in MeaningOfFields(v, v.fields)
      ensures key in MeaningOfFields(w, w.fields) && MeaningOfFields(v, v.fields)[key] == MeaningOfFields(w, w.fields)[key]
    {
      SameFieldsAreMeant(v, a, w, b, key);
    }
    forall key | key in MeaningOfFields(w, w.fields) ensures key in MeaningOfFields(v, v.fields) {
      SameFieldsAreMeant(w, b, v, a, key);
    }
    assert MeaningOfFields(v, v.fields) == MeaningOfFields(w, w.fields);
  }

  // ---------------------------------------------------------------- the meaning determines the text

  function Keys(fields: seq<Field>): set<Text> {
    set f | f in fields :: f.key
  }

  lemma FirstKeysAgree(a: seq<Field>, b: seq<Field>)
    requires Ascending(a) && Ascending(b) && a != [] && b != [] && Keys(a) == Keys(b)
    ensures a[0].key == b[0].key
  {
    assert a[0].key in Keys(a) && b[0].key in Keys(b);
    var j :| 0 <= j < |b| && b[j].key == a[0].key;
    var i :| 0 <= i < |a| && a[i].key == b[0].key;
    OrderIsTotal(a[0].key, b[0].key);
  }

  lemma KeysOfRest(a: seq<Field>)
    requires Ascending(a) && a != []
    ensures Keys(a[1..]) == Keys(a) - {a[0].key} && Ascending(a[1..])
  {
    forall f | f in a[1..] ensures f.key != a[0].key {
      OrderIsTotal(a[0].key, f.key);
    }
    forall key | key in Keys(a) && key != a[0].key ensures key in Keys(a[1..]) {
      var i :| 0 <= i < |a| && a[i].key == key;
      assert a[i] in a[1..];
    }
  }

  /** Sorted fields are determined by their keys. */
  lemma {:induction false} SortedKeysAgree(a: seq<Field>, b: seq<Field>)
    requires Ascending(a) && Ascending(b) && Keys(a) == Keys(b)
    ensures |a| == |b| && forall i | 0 <= i < |a| :: a[i].key == b[i].key
  {
    if a == [] || b == [] {
      assert a != [] ==> a[0].key in Keys(a);
      assert b != [] ==> b[0].key in Keys(b);
    } else {
      FirstKeysAgree(a, b);
      KeysOfRest(a);
      KeysOfRest(b);
      SortedKeysAgree(a[1..], b[1..]);
      assert forall i | 1 <= i < |a| :: a[i] == a[1..][i - 1] && b[i] == b[1..][i - 1];
    }
  }

  lemma SortedKeysAreMeant(v: Value)
    requires v.Object? && Valid(v) && Printable(v)
    ensures Keys(Sorted(Defined(v.fields))) == MeaningOfFields(v, v.fields).Keys
  {
    hide MeaningOfFields, Sorted, Defined;
    var a := Sorted(Defined(v.fields));
    forall f | f in a ensures f.key in MeaningOfFields(v, v.fields) {
      FieldIsMeant(v, v.fields, f);
    }
    forall key | key in MeaningOfFields(v, v.fields) ensures key in Keys(a) {
      MeantIsField(v, v.fields, key);
      var f :| f in v.fields && !f.value.Undefined? && f.key == key;
      assert f in a;
    }
  }

  lemma SameMeaningHasSameFields(v: Value, w: Value)
    requires v.Object? && Valid(v) && Printable(v) && w.Object? && Valid(w) && Printable(w)
    requires MeaningOfFields(v, v.fields) == MeaningOfFields(w, w.fields)
    ensures SameFields(Sorted(Defined(v.fields)), Sorted(Defined(w.fields)))
  {
    hide MeaningOfFields, Sorted, Defined, MeaningOf;
    var a, b := Sorted(Defined(v.fields)), Sorted(Defined(w.fields));
    SortedKeysAreMeant(v);
    SortedKeysAreMeant(w);
    SortedKeysAgree(a, b);
    forall i | 0 <= i < |a| ensures MeaningOf(a[i].value) == MeaningOf(b[i].value) {
      assert a[i] in a && b[i] in b;
      FieldIsMeant(v, v.fields, a[i]);
      FieldIsMeant(w, w.fields, b[i]);
    }
  }

  lemma {:induction false} MeaningHasOneText(v: Value, w: Value)
    requires Valid(v) && Printable(v) && Valid(w) && Printable(w) && MeaningOf(v) == MeaningOf(w)
    ensures Canon(v) == Canon(w)
    decreases v, 1, 0
  {
    hide MeaningOfFields, Sorted, Defined;
    if v.Array? {
      forall i | 0 <= i < |v.items| ensures MeaningOf(v.items[i]) == MeaningOf(w.items[i]) {
        assert MeaningOf(v).items[i] == MeaningOf(w).items[i];
      }
      ItemsHaveOneText(v, v.items, w, w.items);
    } else if v.Object? {
      SameMeaningHasSameFields(v, w);
      FieldsHaveOneText(v, Sorted(Defined(v.fields)), w, Sorted(Defined(w.fields)));
    }
  }

  lemma {:induction false} ItemsHaveOneText(v: Value, a: seq<Value>, w: Value, b: seq<Value>)
    requires v.Array? && Valid(v) && Printable(v) && forall i | i in a :: i in v.items
    requires w.Array? && Valid(w) && Printable(w) && forall i | i in b :: i in w.items
    requires |a| == |b| && forall i | 0 <= i < |a| :: MeaningOf(a[i]) == MeaningOf(b[i])
    ensures CanonItems(v, a) == CanonItems(w, b)
    decreases v, 0, |a|
  {
    hide Canon, MeaningOf;
    if a != [] {
      PartsAreSmaller(v);
      assert a[0] in a;
      MeaningHasOneText(a[0], b[0]);
      ItemsHaveOneText(v, a[1..], w, b[1..]);
    }
  }

  lemma {:induction false} FieldsHaveOneText(v: Value, a: seq<Field>, w: Value, b: seq<Field>)
    requires v.Object? && Valid(v) && Printable(v) && forall f | f in a :: f in v.fields && !f.value.Undefined?
    requires w.Object? && Valid(w) && Printable(w) && forall f | f in b :: f in w.fields && !f.value.Undefined?
    requires SameFields(a, b)
    ensures CanonFields(v, a) == CanonFields(w, b)
    decreases v, 0, |a|
  {
    hide Canon, MeaningOf, Quoted;
    if a != [] {
      PartsAreSmaller(v);
      assert a[0] in a;
      MeaningHasOneText(a[0].value, b[0].value);
      FieldsHaveOneText(v, a[1..], w, b[1..]);
    }
  }

  /** Two payloads have the same canonical text exactly when they mean the same. */
  lemma TextDecidesMeaning(v: Value, w: Value)
    requires Valid(v) && Printable(v) && Valid(w) && Printable(w)
    ensures Canon(v) == Canon(w) <==> MeaningOf(v) == MeaningOf(w)
  {
    hide Canon, MeaningOf;
    if Canon(v) == Canon(w) {
      assert Canon(v) + [] == Canon(w) + [];
      ValueIsReadable(v, w, [], []);
    }
    if MeaningOf(v) == MeaningOf(w) {
      MeaningHasOneText(v, w);
    }
  }

  // ---------------------------------------------------------------- the text itself

  /** Keys come in the order of their code units: by the first difference, a prefix before what it begins. */
  lemma {:induction false} OrderIsByFirstDifference(a: Text, b: Text)
    ensures Before(a, b) <==> exists i | 0 <= i <= |a| && i < |b| :: a[..i] == b[..i] && (i == |a| || a[i] < b[i])
  {
    if a != [] && b != [] && a[0] == b[0] {
      OrderIsByFirstDifference(a[1..], b[1..]);
      if Before(a[1..], b[1..]) {
        var i :| 0 <= i <= |a[1..]| && i < |b[1..]| && a[1..][..i] == b[1..][..i] && (i == |a[1..]| || a[1..][i] < b[1..][i]);
        assert a[..i + 1] == [a[0]] + a[1..][..i] && b[..i + 1] == [b[0]] + b[1..][..i];
      }
      if exists i | 0 <= i <= |a| && i < |b| :: a[..i] == b[..i] && (i == |a| || a[i] < b[i]) {
        var i :| 0 <= i <= |a| && i < |b| && a[..i] == b[..i] && (i == |a| || a[i] < b[i]);
        assert i > 0;
        assert a[1..][..i - 1] == a[..i][1..] && b[1..][..i - 1] == b[..i][1..];
      }
    } else if a == [] && b != [] {
      assert a[..0] == b[..0];
    } else if a != [] && b != [] && a[0] < b[0] {
      assert a[..0] == b[..0];
    } else if a != [] && b != [] {
      assert forall i | 0 < i <= |a| && i < |b| :: a[..i][0] == a[0] && b[..i][0] == b[0];
    }
  }

  function HexValue(u: Unit): int {
    if 48 <= u <= 57 then u - 48 else u - 87
  }

  /** The escapes of section 7 of RFC 8259: the short ones where there are any, and lower-case hexadecimal for the rest. */
  lemma EscapesAreStandard(u: Unit)
    ensures var t := EscapeUnit(u);
            var short := u == 8 || u == 9 || u == 10 || u == 12 || u == 13 || u == 34 || u == 92;
            && (|t| == 1 <==> u >= 32 && u != 34 && u != 92 && !(0xD800 <= u < 0xE000)) && (|t| == 1 ==> t == [u])
            && (|t| == 2 <==> short)
            && (|t| == 2 ==> t[0] == 92 && t[1] == (match u case 8 => 98 case 9 => 116 case 10 => 110 case 12 => 102 case 13 => 114 case _ => u))
            && (|t| != 1 && |t| != 2 ==>
                  && |t| == 6 && t[0] == 92 && t[1] == 117 && (forall i | 2 <= i < 6 :: 48 <= t[i] <= 57 || 97 <= t[i] <= 102)
                  && u == 4096 * HexValue(t[2]) + 256 * HexValue(t[3]) + 16 * HexValue(t[4]) + HexValue(t[5]))
  {
    HexDigits(u);
  }

  const ExampleItems: Text :=
    [91] + ([110, 117, 108, 108] + [44] + [116, 114, 117, 101, 44, 102, 97, 108, 115, 101, 44, 49, 46, 53]) + [93]

  /** A small payload, its keys out of order and one of them undefined: {"a":"\"","b":[null,true,false,1.5]}. */
  lemma ExampleText()
    ensures var v := Object([Field([98], Array([Null, Bool(true), Bool(false), Number([49, 46, 53])])), Field([99], Undefined),
                             Field([97], String([34]))]);
            Printable(v) && Canon(v) == [123] + ([34, 97, 34] + [58] + [34, 92, 34, 34] + [44] + ([34, 98, 34] + [58] + ExampleItems)) + [125]
  {
    hide Sorted, Defined, Quoted, CanonItems, CanonFields;
    var fb, fc := Field([98], Array([Null, Bool(true), Bool(false), Number([49, 46, 53])])), Field([99], Undefined);
    var fa := Field([97], String([34]));
    var v := Object([fb, fc, fa]);
    ExampleOrder(fa, fb, fc);
    ExampleArray(fb.value);
    ExampleStrings();
    assert Canon(fa.value) == Quoted([34]);
    ExampleIsPrintable(v, fa, fb, fc);
    ExampleFields(v, fa, fb);
  }

  lemma ExampleIsPrintable(v: Value, fa: Field, fb: Field, fc: Field)
    requires v == Object([fb, fc, fa]) && Printable(fa.value) && Printable(fb.value) && fc.value.Undefined?
    ensures Printable(v) && fa in v.fields && fb in v.fields && !fa.value.Undefined? && !fb.value.Undefined?
    ensures Sorted(Defined(v.fields)) == [fa, fb] ==> Canon(v) == [OPEN_OBJECT] + CanonFields(v, [fa, fb]) + [CLOSE_OBJECT]
  {
    hide Sorted, Defined, CanonFields;
    assert v.fields[0] == fb && v.fields[1] == fc && v.fields[2] == fa;
  }

  lemma ExampleStrings()
    ensures Quoted([97]) == [34, 97, 34] && Quoted([98]) == [34, 98, 34] && Quoted([34]) == [34, 92, 34, 34]
  {
    assert [97][1..] == [] && [98][1..] == [] && [34][1..] == [] && Escape([]) == [];
    assert Escape([97]) == [97] && Escape([98]) == [98] && Escape([34]) == [92, 34];
  }

  lemma ExampleFields(v: Value, fa: Field, fb: Field)
    requires v.Object? && Printable(v) && fa in v.fields && fb in v.fields && !fa.value.Undefined? && !fb.value.Undefined?
    ensures CanonFields(v, [fa, fb]) == Quoted(fa.key) + [COLON] + Canon(fa.value) + [COMMA] + (Quoted(fb.key) + [COLON] + Canon(fb.value))
  {
    hide Canon, Quoted;
    assert [fa, fb][1..] == [fb];
    assert CanonFields(v, [fb]) == Quoted(fb.key) + [COLON] + Canon(fb.value);
  }

  lemma ExampleOrder(fa: Field, fb: Field, fc: Field)
    requires fa.key == [97] && fb.key == [98] && fc.value.Undefined? && !fa.value.Undefined? && !fb.value.Undefined?
    ensures Sorted(Defined([fb, fc, fa])) == [fa, fb]
  {
    assert [fb, fc, fa][1..] == [fc, fa] && [fc, fa][1..] == [fa] && [fa][1..] == [];
    assert Defined([fa]) == [fa] && Defined([fc, fa]) == [fa] && Defined([fb, fc, fa]) == [fb] + [fa];
    assert [fb] + [fa] == [fb, fa] && [fb, fa][1..] == [fa];
    assert Sorted([fa]) == [fa];
    assert Sorted([fb, fa]) == Inserted(fb, [fa]);
    assert Inserted(fb, [fa]) == [fa] + Inserted(fb, [fa][1..]);
  }

  lemma ExampleArray(v: Value)
    requires v == Array([Null, Bool(true), Bool(false), Number([49, 46, 53])])
    ensures Printable(v) && Canon(v) == ExampleItems
  {
    var items := v.items;
    assert items[0] == Null && items[1] == Bool(true) && items[2] == Bool(false) && items[3] == Number([49, 46, 53]);
    assert Printable(v);
    hide Canon, CanonItems, Printable;
    ExampleTail(v, items);
    ExampleHead(v);
  }

  lemma ExampleHead(v: Value)
    requires v.Array? && Printable(v) && |v.items| == 4 && v.items[0] == Null
    ensures Canon(v) == [91] + ([110, 117, 108, 108] + [44] + CanonItems(v, v.items[1..])) + [93]
  {
    assert Canon(v.items[0]) == NULL;
  }

  lemma ExampleTail(v: Value, items: seq<Value>)
    requires v.Array? && v.items == items && Printable(v) && |items| == 4
    requires items[1] == Bool(true) && items[2] == Bool(false) && items[3] == Number([49, 46, 53])
    ensures CanonItems(v, items[1..]) == [116, 114, 117, 101, 44, 102, 97, 108, 115, 101, 44, 49, 46, 53]
  {
    var a, b, c := items[1..], items[2..], items[3..];
    assert a[1..] == b && b[1..] == c && |c| == 1 && a[0] == items[1] && b[0] == items[2] && c[0] == items[3];
    assert CanonItems(v, c) == [49, 46, 53];
    assert CanonItems(v, b) == FALSE + [COMMA] + CanonItems(v, c);
    assert CanonItems(v, a) == TRUE + [COMMA] + CanonItems(v, b);
  }

  // ---------------------------------------------------------------- receipts

  datatype Refusal = NotJson | OtherType | Unbound | OtherRequest

  datatype Receipt<R> = Receipt(commandType: Text, requestHash: Text, hashVersion: nat, result: R)

  const COMMAND_TYPE: Text := [99, 111, 109, 109, 97, 110, 100, 84, 121, 112, 101]
  const PAYLOAD: Text := [112, 97, 121, 108, 111, 97, 100]

  function Request(commandType: Text, payload: Value): Value {
    Object([Field(COMMAND_TYPE, String(commandType)), Field(PAYLOAD, payload)])
  }

  function RequestHash(hash: Text -> Text, commandType: Text, payload: Value): Result<Text, Refusal> {
    if Printable(Request(commandType, payload)) then Ok(hash(Canon(Request(commandType, payload)))) else Err(NotJson)
  }

  function CheckReceipt<R>(receipt: Receipt<R>, commandType: Text, requestHash: Text): Result<R, Refusal> {
    if receipt.commandType != commandType then Err(OtherType)
    else if receipt.hashVersion != 1 then Err(Unbound)
    else if receipt.requestHash != requestHash then Err(OtherRequest)
    else Ok(receipt.result)
  }

  ghost predicate Injective(hash: Text -> Text) {
    forall a, b :: hash(a) == hash(b) ==> a == b
  }

  /** The meaning of a request is its type and the meaning of its payload. */
  lemma RequestsMean(commandType: Text, payload: Value)
    requires Valid(payload) && Printable(payload)
    ensures var v := Request(commandType, payload);
            Valid(v) && Printable(v) && MeaningOf(v) == MObject(map[COMMAND_TYPE := MString(commandType), PAYLOAD := MeaningOf(payload)])
  {
    var v := Request(commandType, payload);
    assert |COMMAND_TYPE| != |PAYLOAD|;
    assert v.fields[1..] == [Field(PAYLOAD, payload)] && v.fields[1..][1..] == [];
    assert MeaningOfFields(v, []) == map[];
    assert MeaningOfFields(v, v.fields[1..]) == map[PAYLOAD := MeaningOf(payload)];
    assert MeaningOf(v.fields[0].value) == MString(commandType);
    assert MeaningOfFields(v, v.fields) == map[PAYLOAD := MeaningOf(payload)][COMMAND_TYPE := MString(commandType)];
  }

  /**
   * A repeated command gets the stored result exactly when its type and the meaning of its payload
   * are those of the first, provided the hash does not collide.
   */
  lemma ReceiptsCompareMeanings<R>(hash: Text -> Text, result: R, firstType: Text, first: Value, commandType: Text, payload: Value)
    requires Injective(hash) && Valid(first) && Printable(first) && Valid(payload) && Printable(payload)
    ensures RequestHash(hash, firstType, first).Ok? && RequestHash(hash, commandType, payload).Ok?
    ensures var receipt := Receipt(firstType, RequestHash(hash, firstType, first).value, 1, result);
            CheckReceipt(receipt, commandType, RequestHash(hash, commandType, payload).value) ==
            if firstType != commandType then Err(OtherType)
            else if MeaningOf(first) == MeaningOf(payload) then Ok(result) else Err(OtherRequest)
  {
    hide Canon, MeaningOf, Printable, Valid;
    RequestsMean(firstType, first);
    RequestsMean(commandType, payload);
    var v, w := Request(firstType, first), Request(commandType, payload);
    TextDecidesMeaning(v, w);
    var m, n := MeaningOf(v).fields, MeaningOf(w).fields;
    assert m == n ==> m[PAYLOAD] == n[PAYLOAD];
  }
}
