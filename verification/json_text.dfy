/** The JSON text that `JSON.stringify` writes (section 25.5.2 of ECMA-262), over UTF-16 code units.

    Every writer takes the text that follows, so `Written(v, [])` is the text of `v` alone. The result
    of the module is unique readability: the written text determines both the value and what follows.
    For strings this makes an escaped string with its closing quote a prefix-free code (section 7 of
    RFC 8259). */
module JsonText {
  import opened Wrappers

  type CodeUnit = x: int | 0 <= x < 0x1_0000
  type Text = seq<CodeUnit>

  const QUOTE: CodeUnit := 34
  const COMMA: CodeUnit := 44
  const COLON: CodeUnit := 58
  const OPEN_BRACKET: CodeUnit := 91
  const BACKSLASH: CodeUnit := 92
  const CLOSE_BRACKET: CodeUnit := 93
  const OPEN_BRACE: CodeUnit := 123
  const CLOSE_BRACE: CodeUnit := 125

  // ----- Strings -----

  predicate IsLeadSurrogate(c: CodeUnit) { 0xD800 <= c <= 0xDBFF }
  predicate IsTrailSurrogate(c: CodeUnit) { 0xDC00 <= c <= 0xDFFF }

  function HexDigit(d: int): CodeUnit
    requires 0 <= d < 16
  {
    if d < 10 then 48 + d else 87 + d
  }

  function HexValue(c: CodeUnit): Option<int> {
    if 48 <= c <= 57 then Some(c - 48) else if 97 <= c <= 102 then Some(c - 87) else None
  }

  /** The letter after the backslash in a two-character escape, `0` for units without one. */
  function ShortEscape(c: CodeUnit): CodeUnit {
    if c == 8 then 98 else if c == 9 then 116 else if c == 10 then 110 else if c == 12 then 102
    else if c == 13 then 114 else if c == QUOTE then QUOTE else if c == BACKSLASH then BACKSLASH else 0
  }

  function UnescapedShort(c: CodeUnit): Option<CodeUnit> {
    if c == 98 then Some(8) else if c == 116 then Some(9) else if c == 110 then Some(10)
    else if c == 102 then Some(12) else if c == 114 then Some(13)
    else if c == QUOTE || c == BACKSLASH then Some(c) else None
  }

  /** One code unit that is not half of a surrogate pair, written in front of `rest`. */
  function WrittenUnit(c: CodeUnit, rest: Text): Text {
    if ShortEscape(c) != 0 then [BACKSLASH, ShortEscape(c)] + rest
    else if c < 0x20 || IsLeadSurrogate(c) || IsTrailSurrogate(c) then
      var c1 := c / 16;
      var c2 := c1 / 16;
      [BACKSLASH, 117, HexDigit(c2 / 16), HexDigit(c2 % 16), HexDigit(c1 % 16), HexDigit(c % 16)] + rest
    else [c] + rest
  }

  /** The characters of `s` and the closing quote. A surrogate pair stands for itself. */
  function WrittenChars(s: Text, rest: Text): Text {
    if s == [] then [QUOTE] + rest
    else if |s| >= 2 && IsLeadSurrogate(s[0]) && IsTrailSurrogate(s[1]) then
      [s[0], s[1]] + WrittenChars(s[2..], rest)
    else WrittenUnit(s[0], WrittenChars(s[1..], rest))
  }

  function WrittenString(s: Text, rest: Text): Text {
    [QUOTE] + WrittenChars(s, rest)
  }

  /** Reads one possibly escaped code unit: the unit and the text after it. */
  function ReadUnit(t: Text): Option<(CodeUnit, Text)> {
    if t == [] || t[0] == QUOTE then None
    else if t[0] != BACKSLASH then Some((t[0], t[1..]))
    else if |t| < 2 then None
    else if t[1] == 117 then
      if |t| < 6 then None
      else
        var a, b, c, d := HexValue(t[2]), HexValue(t[3]), HexValue(t[4]), HexValue(t[5]);
        if a.Some? && b.Some? && c.Some? && d.Some?
        then
          var u := 4096 * a.value + 256 * b.value + 16 * c.value + d.value;
          if 0 <= u < 0x1_0000 then Some((u, t[6..])) else None
        else None
    else
      var u := UnescapedShort(t[1]);
      if u.Some? then Some((u.value, t[2..])) else None
  }

  lemma HexDigitReadsBack(d: int)
    requires 0 <= d < 16
    ensures HexValue(HexDigit(d)) == Some(d)
  {
  }

  lemma UnitReadsBack(c: CodeUnit, rest: Text)
    ensures ReadUnit(WrittenUnit(c, rest)) == Some((c, rest))
  {
    var t := WrittenUnit(c, rest);
    if ShortEscape(c) != 0 {
      assert t[2..] == rest;
    } else if c < 0x20 || IsLeadSurrogate(c) || IsTrailSurrogate(c) {
      var c1 := c / 16;
      var c2 := c1 / 16;
      var d3, d2, d1, d0 := c2 / 16, c2 % 16, c1 % 16, c % 16;
      HexDigitReadsBack(d3);
      HexDigitReadsBack(d2);
      HexDigitReadsBack(d1);
      HexDigitReadsBack(d0);
      hide HexDigit, HexValue, ShortEscape;
      assert t == [BACKSLASH, 117, HexDigit(d3), HexDigit(d2), HexDigit(d1), HexDigit(d0)] + rest;
      assert t[6..] == rest;
    } else {
      assert t[1..] == rest;
    }
  }

  /** The first unit of a written non-empty string is the first one read back. */
  lemma CharsReadBack(s: Text, rest: Text)
    requires s != []
    ensures ReadUnit(WrittenChars(s, rest)) == Some((s[0], AfterFirst(s, rest)))
  {
    if |s| >= 2 && IsLeadSurrogate(s[0]) && IsTrailSurrogate(s[1]) {
      var t := WrittenChars(s, rest);
      assert t == [s[0], s[1]] + WrittenChars(s[2..], rest);
      assert t[1..] == [s[1]] + WrittenChars(s[2..], rest);
    } else {
      UnitReadsBack(s[0], WrittenChars(s[1..], rest));
    }
  }

  /** What is still unread after the first unit. After the first half of a pair this is not
      `WrittenChars(s[1..], rest)`, since a lone trailing surrogate would be escaped. */
  function AfterFirst(s: Text, rest: Text): Text
    requires s != []
  {
    if |s| >= 2 && IsLeadSurrogate(s[0]) && IsTrailSurrogate(s[1]) then [s[1]] + WrittenChars(s[2..], rest)
    else WrittenChars(s[1..], rest)
  }

  lemma {:induction false} CharsAreUniquelyReadable(s: Text, s': Text, rest: Text, rest': Text)
    requires WrittenChars(s, rest) == WrittenChars(s', rest')
    ensures s == s' && rest == rest'
    decreases |s|
  {
    if s == [] || s' == [] {
      if s != [] { CharsReadBack(s, rest); }
      if s' != [] { CharsReadBack(s', rest'); }
      assert WrittenChars(s, rest)[1..] == WrittenChars(s', rest')[1..];
      assert s == [] ==> ([QUOTE] + rest)[1..] == rest;
      assert s' == [] ==> ([QUOTE] + rest')[1..] == rest';
    } else {
      CharsReadBack(s, rest);
      CharsReadBack(s', rest');
      assert s[0] == s'[0] && AfterFirst(s, rest) == AfterFirst(s', rest');
      var paired := |s| >= 2 && IsLeadSurrogate(s[0]) && IsTrailSurrogate(s[1]);
      var paired' := |s'| >= 2 && IsLeadSurrogate(s'[0]) && IsTrailSurrogate(s'[1]);
      if paired != paired' {
        if paired { SecondHalfIsNotWrittenFirst(s, s', rest, rest'); }
        else { SecondHalfIsNotWrittenFirst(s', s, rest', rest); }
      } else if paired {
        assert ([s[1]] + WrittenChars(s[2..], rest))[1..] == WrittenChars(s[2..], rest);
        assert ([s'[1]] + WrittenChars(s'[2..], rest'))[1..] == WrittenChars(s'[2..], rest');
        CharsAreUniquelyReadable(s[2..], s'[2..], rest, rest');
        assert s == [s[0], s[1]] + s[2..] && s' == [s'[0], s'[1]] + s'[2..];
      } else {
        CharsAreUniquelyReadable(s[1..], s'[1..], rest, rest');
        assert s == [s[0]] + s[1..] && s' == [s'[0]] + s'[1..];
      }
    }
  }

  /** After a lead surrogate that is not followed by its trail, no text starts with a bare trail. */
  lemma SecondHalfIsNotWrittenFirst(s: Text, s': Text, rest: Text, rest': Text)
    requires |s| >= 2 && IsLeadSurrogate(s[0]) && IsTrailSurrogate(s[1])
    requires s' != [] && s'[0] == s[0] && !(|s'| >= 2 && IsTrailSurrogate(s'[1]))
    ensures AfterFirst(s, rest) != AfterFirst(s', rest')
  {
    var t := WrittenChars(s'[1..], rest');
    assert AfterFirst(s', rest') == t && AfterFirst(s, rest)[0] == s[1];
    if s'[1..] != [] {
      CharsReadBack(s'[1..], rest');
    }
  }

  lemma StringsAreUniquelyReadable(s: Text, s': Text, rest: Text, rest': Text)
    requires WrittenString(s, rest) == WrittenString(s', rest')
    ensures s == s' && rest == rest'
  {
    assert WrittenString(s, rest)[1..] == WrittenChars(s, rest);
    assert WrittenString(s', rest')[1..] == WrittenChars(s', rest');
    CharsAreUniquelyReadable(s, s', rest, rest');
  }

  lemma UnitPrecedesRest(c: CodeUnit, middle: Text, rest: Text)
    ensures WrittenUnit(c, middle + rest) == WrittenUnit(c, middle) + rest
  {
    hide HexDigit, ShortEscape;
  }

  lemma {:induction false} CharsPrecedeRest(s: Text, rest: Text)
    ensures WrittenChars(s, rest) == WrittenChars(s, []) + rest
    decreases |s|
  {
    hide WrittenUnit;
    if s == [] {
    } else if |s| >= 2 && IsLeadSurrogate(s[0]) && IsTrailSurrogate(s[1]) {
      CharsPrecedeRest(s[2..], rest);
    } else {
      CharsPrecedeRest(s[1..], rest);
      UnitPrecedesRest(s[0], WrittenChars(s[1..], []), rest);
    }
  }

  /** An escaped string with its closing quote starts a text exactly when the text begins with that
      very string: the code is prefix-free. */
  lemma StringIsPrefixIff(s: Text, s': Text, rest': Text)
    ensures WrittenString(s, []) <= WrittenString(s', rest') <==> s == s'
  {
    if s == s' {
      CharsPrecedeRest(s, rest');
      assert WrittenString(s, rest') == WrittenString(s, []) + rest';
    }
    if WrittenString(s, []) <= WrittenString(s', rest') {
      var n := |WrittenString(s, [])|;
      var rest := WrittenString(s', rest')[n..];
      CharsPrecedeRest(s, rest);
      assert WrittenString(s, rest) == WrittenString(s, []) + rest == WrittenString(s', rest');
      StringsAreUniquelyReadable(s, s', rest, rest');
    }
  }

  // ----- Values -----

  predicate IsNumberUnit(c: CodeUnit) { 48 <= c <= 57 || c == 43 || c == 45 || c == 46 || c == 101 }
  predicate IsNumberStart(c: CodeUnit) { 48 <= c <= 57 || c == 45 }

  predicate IsNumberText(t: Text) {
    t != [] && IsNumberStart(t[0]) && forall i :: 0 <= i < |t| ==> IsNumberUnit(t[i])
  }

  /** A finite number is known by the text that `Number.prototype.toString` gives it, so that +0 and
      -0 are one number, as they are in JSON text. */
  type NumberText = t: Text | IsNumberText(t) witness [48]

  /** JavaScript values as far as cache keys tell them apart. An object lists its own enumerable
      properties in property order. */
  datatype Value =
    | Undefined
    | Null
    | NonFinite(name: Text)
    | Bool(b: bool)
    | Number(text: NumberText)
    | Str(s: Text)
    | Arr(items: Values)
    | Obj(fields: Fields)
  datatype Values = NoItems | Item(head: Value, tail: Values)
  datatype Fields = NoFields | Field(key: Text, value: Value, rest: Fields)

  predicate IsJson(v: Value) {
    match v
    case Undefined => false
    case NonFinite(_) => false
    case Arr(items) => AreJson(items)
    case Obj(fields) => HoldJson(fields)
    case _ => true
  }

  predicate AreJson(items: Values) {
    items.Item? ==> IsJson(items.head) && AreJson(items.tail)
  }

  predicate HoldJson(fields: Fields) {
    fields.Field? ==> IsJson(fields.value) && HoldJson(fields.rest)
  }

  function Written(v: Value, rest: Text): Text
    requires IsJson(v)
  {
    match v
    case Null => [110, 117, 108, 108] + rest
    case Bool(b) => (if b then [116, 114, 117, 101] else [102, 97, 108, 115, 101]) + rest
    case Number(text) => text + rest
    case Str(s) => WrittenString(s, rest)
    case Arr(items) => [OPEN_BRACKET] + WrittenItems(items, true, rest)
    case Obj(fields) => [OPEN_BRACE] + WrittenFields(fields, true, rest)
  }

  /** The remaining items, each after the first with its comma, and the closing bracket. */
  function WrittenItems(items: Values, first: bool, rest: Text): Text
    requires AreJson(items)
  {
    match items
    case NoItems => [CLOSE_BRACKET] + rest
    case Item(head, tail) =>
      var text := Written(head, WrittenItems(tail, false, rest));
      if first then text else [COMMA] + text
  }

  function WrittenFields(fields: Fields, first: bool, rest: Text): Text
    requires HoldJson(fields)
  {
    match fields
    case NoFields => [CLOSE_BRACE] + rest
    case Field(key, value, more) =>
      var text := WrittenString(key, [COLON] + Written(value, WrittenFields(more, false, rest)));
      if first then text else [COMMA] + text
  }

  /** What follows a value cannot be read as more of a number. */
  predicate EndsNumber(rest: Text) {
    rest != [] ==> !IsNumberUnit(rest[0])
  }

  /** The first unit of a written value tells its constructor. */
  function Lead(v: Value): CodeUnit
    requires IsJson(v)
  {
    match v
    case Null => 110
    case Bool(b) => if b then 116 else 102
    case Number(text) => text[0]
    case Str(_) => QUOTE
    case Arr(_) => OPEN_BRACKET
    case Obj(_) => OPEN_BRACE
  }

  lemma WrittenStartsWithLead(v: Value, rest: Text)
    requires IsJson(v)
    ensures Written(v, rest) != [] && Written(v, rest)[0] == Lead(v)
  {
  }

  lemma ItemsEndNumber(items: Values, rest: Text)
    requires AreJson(items)
    ensures EndsNumber(WrittenItems(items, false, rest))
  {
  }

  lemma FieldsEndNumber(fields: Fields, rest: Text)
    requires HoldJson(fields)
    ensures EndsNumber(WrittenFields(fields, false, rest))
  {
  }

  function ItemsLead(items: Values, first: bool): CodeUnit
    requires AreJson(items)
  {
    if items.NoItems? then CLOSE_BRACKET else if first then Lead(items.head) else COMMA
  }

  lemma ItemsStartWithLead(items: Values, first: bool, rest: Text)
    requires AreJson(items)
    ensures WrittenItems(items, first, rest) != [] && WrittenItems(items, first, rest)[0] == ItemsLead(items, first)
    ensures items.Item? ==> ItemsLead(items, first) != CLOSE_BRACKET
  {
    if items.Item? {
      WrittenStartsWithLead(items.head, WrittenItems(items.tail, false, rest));
    }
  }

  lemma FieldsStart(fields: Fields, first: bool, rest: Text)
    requires HoldJson(fields)
    ensures WrittenFields(fields, first, rest) != []
    ensures WrittenFields(fields, first, rest)[0] ==
      if fields.NoFields? then CLOSE_BRACE else if first then QUOTE else COMMA
  {
  }

  lemma LongerNumberIsReadFurther(a: NumberText, b: NumberText, rest: Text, rest': Text)
    requires a + rest == b + rest' && EndsNumber(rest)
    ensures |b| <= |a|
  {
    var t := a + rest;
    assert forall i :: 0 <= i < |b| ==> t[i] == (b + rest')[i] == b[i];
    assert |a| < |t| ==> t[|a|] == rest[0];
  }

  lemma NumbersAreUniquelyReadable(a: NumberText, b: NumberText, rest: Text, rest': Text)
    requires a + rest == b + rest' && EndsNumber(rest) && EndsNumber(rest')
    ensures a == b && rest == rest'
  {
    LongerNumberIsReadFurther(a, b, rest, rest');
    LongerNumberIsReadFurther(b, a, rest', rest);
    assert a == (a + rest)[..|a|] == b;
    assert rest == (a + rest)[|a|..] == rest';
  }

  lemma DropUnits(p: Text, x: Text, y: Text)
    requires p + x == p + y
    ensures x == y
  {
    assert x == (p + x)[|p|..] == (p + y)[|p|..] == y;
  }

  /** The text of a value, followed by anything that cannot extend a number, determines the value and
      what follows it. */
  lemma {:induction false} ValuesAreUniquelyReadable(v: Value, v': Value, rest: Text, rest': Text)
    requires IsJson(v) && IsJson(v') && EndsNumber(rest) && EndsNumber(rest')
    requires Written(v, rest) == Written(v', rest')
    ensures v == v' && rest == rest'
    decreases v
  {
    WrittenStartsWithLead(v, rest);
    WrittenStartsWithLead(v', rest');
    match v
    case Null => DropUnits([110, 117, 108, 108], rest, rest');
    case Bool(b) => DropUnits(if b then [116, 114, 117, 101] else [102, 97, 108, 115, 101], rest, rest');
    case Number(text) => NumbersAreUniquelyReadable(text, v'.text, rest, rest');
    case Str(s) => StringsAreUniquelyReadable(s, v'.s, rest, rest');
    case Arr(items) =>
      DropUnits([OPEN_BRACKET], WrittenItems(items, true, rest), WrittenItems(v'.items, true, rest'));
      ItemsAreUniquelyReadable(items, v'.items, true, rest, rest');
    case Obj(fields) =>
      DropUnits([OPEN_BRACE], WrittenFields(fields, true, rest), WrittenFields(v'.fields, true, rest'));
      FieldsAreUniquelyReadable(fields, v'.fields, true, rest, rest');
  }

  lemma {:induction false} ItemsAreUniquelyReadable(items: Values, items': Values, first: bool, rest: Text, rest': Text)
    requires AreJson(items) && AreJson(items')
    requires WrittenItems(items, first, rest) == WrittenItems(items', first, rest')
    ensures items == items' && rest == rest'
    decreases items
  {
    ItemsStartWithLead(items, first, rest);
    ItemsStartWithLead(items', first, rest');
    match items
    case NoItems =>
      DropUnits([CLOSE_BRACKET], rest, rest');
    case Item(head, tail) =>
      var text, text' := WrittenItems(tail, false, rest), WrittenItems(items'.tail, false, rest');
      if !first {
        DropUnits([COMMA], Written(head, text), Written(items'.head, text'));
      }
      ItemsEndNumber(tail, rest);
      ItemsEndNumber(items'.tail, rest');
      ValuesAreUniquelyReadable(head, items'.head, text, text');
      ItemsAreUniquelyReadable(tail, items'.tail, false, rest, rest');
  }

  lemma {:induction false} FieldsAreUniquelyReadable(fields: Fields, fields': Fields, first: bool, rest: Text,
                                                     rest': Text)
    requires HoldJson(fields) && HoldJson(fields')
    requires WrittenFields(fields, first, rest) == WrittenFields(fields', first, rest')
    ensures fields == fields' && rest == rest'
    decreases fields
  {
    FieldsStart(fields, first, rest);
    FieldsStart(fields', first, rest');
    match fields
    case NoFields =>
      DropUnits([CLOSE_BRACE], rest, rest');
    case Field(key, value, more) =>
      var text := WrittenFields(more, false, rest);
      var text' := WrittenFields(fields'.rest, false, rest');
      if !first {
        DropUnits([COMMA], WrittenString(key, [COLON] + Written(value, text)),
                  WrittenString(fields'.key, [COLON] + Written(fields'.value, text')));
      }
      StringsAreUniquelyReadable(key, fields'.key, [COLON] + Written(value, text),
                                 [COLON] + Written(fields'.value, text'));
      DropUnits([COLON], Written(value, text), Written(fields'.value, text'));
      FieldsEndNumber(more, rest);
      FieldsEndNumber(fields'.rest, rest');
      ValuesAreUniquelyReadable(value, fields'.value, text, text');
      FieldsAreUniquelyReadable(more, fields'.rest, false, rest, rest');
  }
}
