/** JSON-like values as the audit core builds and inspects them: Python
    dictionaries keep insertion order, so an object is a sequence of fields.
    The module also gives the Python operations the core applies to such
    values: `d[k] = v`, `d.get(k, default)`, `k in x`, `float(x)` and the
    text `json.dumps(x).lower()` is searched in. */
module Json {
  import opened Wrappers
  import opened Text

  datatype Json =
    | JNull
    | JBool(b: bool)
    | JNum(n: real)
    | JStr(s: string)
    | JArr(items: seq<Json>)
    | JObj(fields: seq<Field>)

  datatype Field = Field(key: string, value: Json)

  const EmptyObject: Json := JObj([])

  // ---------------------------------------------------------------------
  // dictionaries

  function Keys(fields: seq<Field>): (ks: seq<string>)
    ensures |ks| == |fields| && forall i :: 0 <= i < |fields| ==> ks[i] == fields[i].key
  {
    if fields == [] then [] else [fields[0].key] + Keys(fields[1..])
  }

  /** `d[key]` when present. */
  function Get(fields: seq<Field>, key: string): (r: Option<Json>)
    ensures r.None? <==> key !in Keys(fields)
  {
    if fields == [] then None
    else if fields[0].key == key then Some(fields[0].value)
    else Get(fields[1..], key)
  }

  /** The value of the first field carrying a key is the one looked up. */
  lemma {:induction false} GetAt(fields: seq<Field>, i: nat)
    requires i < |fields|
    requires forall j :: 0 <= j < i ==> fields[j].key != fields[i].key
    ensures Get(fields, fields[i].key) == Some(fields[i].value)
  {
    if i > 0 {
      GetAt(fields[1..], i - 1);
    }
  }

  /** The dictionary literal {keys[0]: values[0], keys[1]: values[1], ...}. */
  function Object(keys: seq<string>, values: seq<Json>): (r: seq<Field>)
    requires |keys| == |values|
    ensures |r| == |keys| && Keys(r) == keys
    ensures forall i :: 0 <= i < |keys| ==> r[i] == Field(keys[i], values[i])
  {
    if keys == [] then [] else [Field(keys[0], values[0])] + Object(keys[1..], values[1..])
  }

  lemma GetObject(keys: seq<string>, values: seq<Json>, i: nat)
    requires |keys| == |values| && i < |keys|
    requires forall j :: 0 <= j < i ==> keys[j] != keys[i]
    ensures Get(Object(keys, values), keys[i]) == Some(values[i])
  {
    GetAt(Object(keys, values), i);
  }

  /** Looking up a single key of a dictionary literal. */
  lemma AtObject(keys: seq<string>, values: seq<Json>, i: nat)
    requires |keys| == |values| && i < |keys|
    requires forall j :: 0 <= j < i ==> keys[j] != keys[i]
    ensures At(JObj(Object(keys, values)), [keys[i]]) == Some(values[i])
  {
    GetObject(keys, values, i);
    assert [keys[i]][1..] == [];
  }

  /** `d.get(key, default)`. */
  function GetOr(fields: seq<Field>, key: string, default: Json): (r: Json)
    ensures key !in Keys(fields) ==> r == default
    ensures key in Keys(fields) ==> Some(r) == Get(fields, key)
  {
    match Get(fields, key)
    case Some(v) => v
    case None => default
  }

  /** `d[key] = value`: an existing key keeps its position, a new key goes
      last. */
  function Put(fields: seq<Field>, key: string, value: Json): (r: seq<Field>)
    ensures Get(r, key) == Some(value)
    ensures forall k :: k != key ==> Get(r, k) == Get(fields, k)
  {
    if fields == [] then [Field(key, value)]
    else if fields[0].key == key then [Field(key, value)] + fields[1..]
    else [fields[0]] + Put(fields[1..], key, value)
  }

  /** Assigning keeps the keys in place and appends a new one. */
  lemma {:induction false} PutKeys(fields: seq<Field>, key: string, value: Json)
    ensures Keys(Put(fields, key, value)) == if key in Keys(fields) then Keys(fields) else Keys(fields) + [key]
  {
    if fields != [] && fields[0].key != key {
      PutKeys(fields[1..], key, value);
      assert Keys(fields) == [fields[0].key] + Keys(fields[1..]);
    }
  }

  /** `json[path[0]][path[1]]...` through nested objects. */
  function At(j: Json, path: seq<string>): (r: Option<Json>)
    ensures path == [] ==> r == Some(j)
    decreases |path|
  {
    if path == [] then Some(j)
    else match j
      case JObj(fields) =>
        (match Get(fields, path[0])
         case Some(v) => At(v, path[1..])
         case None => None)
      case _ => None
  }

  /** One step down a path: through the field a dictionary holds under
      the path's first key. */
  lemma StepDown(j: Json, key: string, child: Json, rest: seq<string>)
    requires j.JObj? && Get(j.fields, key) == Some(child)
    ensures At(j, [key] + rest) == At(child, rest)
  {
    assert ([key] + rest)[0] == key && ([key] + rest)[1..] == rest;
  }

  // ---------------------------------------------------------------------
  // Python probes on arbitrary values

  /** Python's `key in x` for a string key: dictionary membership,
      substring test on strings, element test on lists. Numbers, booleans
      and None raise TypeError (None here). */
  function PyIn(key: string, x: Json): (r: Option<bool>)
    ensures r.None? <==> (x.JNull? || x.JBool? || x.JNum?)
    ensures x.JObj? ==> r == Some(key in Keys(x.fields))
  {
    match x
    case JObj(fields) => Some(key in Keys(fields))
    case JStr(s) => Some(Contains(key, s))
    case JArr(items) => Some(JStr(key) in items)
    case _ => None
  }

  /** The outcome of `if key in x: ... x[key]`. */
  datatype Probe = Absent | Present(value: Json) | Raises

  /** Only a dictionary can be subscripted by a string, so a string or list
      for which `key in x` holds raises on `x[key]`. */
  function Lookup(x: Json, key: string): (r: Probe)
    ensures r.Present? <==> x.JObj? && key in Keys(x.fields)
    ensures r.Present? ==> Get(x.fields, key) == Some(r.value)
    ensures r.Absent? <==> PyIn(key, x) == Some(false)
  {
    match x
    case JObj(fields) =>
      (match Get(fields, key)
       case Some(v) => Present(v)
       case None => Absent)
    case JStr(s) => if Contains(key, s) then Raises else Absent
    case JArr(items) => if JStr(key) in items then Raises else Absent
    case _ => Raises
  }

  /** Python's `float(x)`; None stands for ValueError or TypeError. */
  function PyFloat(x: Json): (r: Option<real>)
    ensures x.JNum? ==> r == Some(x.n)
    ensures (x.JNull? || x.JArr? || x.JObj?) ==> r.None?
  {
    match x
    case JNum(n) => Some(n)
    case JBool(b) => Some(if b then 1.0 else 0.0)
    case JStr(s) =>
      var t := Strip(s);
      if UnderscoresBetweenDigits(t) then ParseDecimal(Replace(t, '_', "")) else None
    case _ => None
  }

  /** A digit string reads as the number its digits denote. */
  lemma PyFloatDigits(d: string)
    requires d != [] && AllDigits(d)
    ensures PyFloat(JStr(d)) == Some(DigitsValue(d) as real)
  {
    DigitsHaveNoExponent(d);
    ParseDigits(d);
    assert IsDigit(d[0]) && IsDigit(d[|d| - 1]);
    StripUnchanged(d);
    assert UnderscoresBetweenDigits(d);
  }

  /** Underscores that each sit between two digits group the digits and
      are dropped. */
  lemma PyFloatGrouped(g: string, d: string)
    requires forall i :: 0 <= i < |g| ==> IsDigit(g[i]) || g[i] == '_'
    requires UnderscoresBetweenDigits(g)
    requires d != [] && AllDigits(d) && Replace(g, '_', "") == d
    ensures PyFloat(JStr(g)) == Some(DigitsValue(d) as real)
  {
    ParseDigits(d);
    assert g != [];
    assert IsDigit(g[0]) by { assert g[0] == '_' ==> 0 < 0; }
    assert IsDigit(g[|g| - 1]) by { assert g[|g| - 1] == '_' ==> |g| - 1 < |g| - 1; }
    StripUnchanged(g);
  }

  /** An underscore that ends the text makes float() raise. */
  lemma PyFloatTrailingUnderscore(d: string)
    requires d != [] && AllDigits(d)
    ensures PyFloat(JStr(d + "_")) == None
  {
    var e := d + "_";
    assert e[|e| - 1] == '_';
    StripUnchanged(e);
    assert !UnderscoresBetweenDigits(e);
  }

  // ---------------------------------------------------------------------
  // searching the serialised text

  /** Every key and every string of a value, in serialisation order. */
  function Texts(j: Json): seq<string>
  {
    match j
    case JStr(s) => [s]
    case JArr(items) => ItemTexts(items)
    case JObj(fields) => FieldTexts(fields)
    case _ => []
  }

  function ItemTexts(items: seq<Json>): seq<string>
  {
    if items == [] then [] else ItemTexts(items[..|items| - 1]) + Texts(items[|items| - 1])
  }

  function FieldTexts(fields: seq<Field>): seq<string>
  {
    if fields == [] then []
    else FieldTexts(fields[..|fields| - 1]) + [fields[|fields| - 1].key] + Texts(fields[|fields| - 1].value)
  }

  /** The texts of a dictionary are exactly its keys and the texts of its values. */
  lemma {:induction false} FieldTextsMembers(fields: seq<Field>, t: string)
    ensures t in FieldTexts(fields)
        <==> exists i :: 0 <= i < |fields| && (t == fields[i].key || t in Texts(fields[i].value))
  {
    if fields != [] {
      var init, last := fields[..|fields| - 1], fields[|fields| - 1];
      FieldTextsMembers(init, t);
      assert forall i :: 0 <= i < |init| ==> init[i] == fields[i];
    }
  }

  /** The texts of a list are exactly the texts of its items. */
  lemma {:induction false} ItemTextsMembers(items: seq<Json>, t: string)
    ensures t in ItemTexts(items) <==> exists i :: 0 <= i < |items| && t in Texts(items[i])
  {
    if items != [] {
      var init := items[..|items| - 1];
      ItemTextsMembers(init, t);
      assert forall i :: 0 <= i < |init| ==> init[i] == items[i];
    }
  }

  function HexDigit(d: nat): char
    requires d < 16
  {
    if d < 10 then '0' + d as char else 'a' + (d - 10) as char
  }

  function Hex4(n: nat): string
    requires n < 0x1_0000
  {
    [HexDigit(n / 0x1000), HexDigit(n / 0x100 % 16), HexDigit(n / 16 % 16), HexDigit(n % 16)]
  }

  /** How json.dumps writes one character inside a string literal; with
      ensureAscii every character outside ' '..'~' becomes a \u escape
      (a surrogate pair above U+FFFF). */
  function EscapeChar(c: char, ensureAscii: bool): string
  {
    if c == '"' then "\\\""
    else if c == '\\' then "\\\\"
    else if c == '\n' then "\\n"
    else if c == '\r' then "\\r"
    else if c == '\t' then "\\t"
    else if c == '\U{0008}' then "\\b"
    else if c == '\U{000C}' then "\\f"
    else if c < ' ' then "\\u" + Hex4(c as int)
    else if ensureAscii && c > '~' then
      if c as int < 0x1_0000 then "\\u" + Hex4(c as int)
      else
        var v := c as int - 0x1_0000;
        if v < 0x10_0000 then "\\u" + Hex4(0xD800 + v / 0x400) + "\\u" + Hex4(0xDC00 + v % 0x400)
        else [c]
    else [c]
  }

  function Escape(s: string, ensureAscii: bool): string
  {
    if s == [] then [] else EscapeChar(s[0], ensureAscii) + Escape(s[1..], ensureAscii)
  }

  /** json.dumps escapes character by character. */
  lemma {:induction false} EscapeConcat(a: string, b: string, ensureAscii: bool)
    ensures Escape(a + b, ensureAscii) == Escape(a, ensureAscii) + Escape(b, ensureAscii)
  {
    if a == [] {
      assert a + b == b;
    } else {
      assert (a + b)[0] == a[0];
      assert (a + b)[1..] == a[1..] + b;
      EscapeConcat(a[1..], b, ensureAscii);
    }
  }

  predicate Printable(s: string)
  {
    forall k :: 0 <= k < |s| ==> ' ' <= s[k] <= '~'
  }

  lemma Hex4Printable(n: nat)
    requires n < 0x1_0000
    ensures Printable(Hex4(n))
  {
  }

  /** A \u escape, or a pair of them, is printable ASCII. */
  lemma EscapeUnitPrintable(n: nat)
    requires n < 0x1_0000
    ensures Printable("\\u" + Hex4(n))
  {
    Hex4Printable(n);
  }

  lemma EscapePairPrintable(c: char)
    requires c as int >= 0x1_0000
    ensures Printable("\\u" + Hex4(0xD800 + (c as int - 0x1_0000) / 0x400)
                      + "\\u" + Hex4(0xDC00 + (c as int - 0x1_0000) % 0x400))
  {
    var v := c as int - 0x1_0000;
    EscapeUnitPrintable(0xD800 + v / 0x400);
    EscapeUnitPrintable(0xDC00 + v % 0x400);
  }

  /** With ensure_ascii every character is written in printable ASCII. */
  lemma EscapeCharAscii(c: char)
    ensures Printable(EscapeChar(c, true))
  {
    if c < ' ' && c != '\n' && c != '\r' && c != '\t' && c != '\U{0008}' && c != '\U{000C}' {
      EscapeUnitPrintable(c as int);
    } else if c > '~' {
      if c as int < 0x1_0000 {
        EscapeUnitPrintable(c as int);
      } else {
        EscapePairPrintable(c);
      }
    }
  }

  /** json.dumps(..., ensure_ascii=True) writes printable ASCII only. */
  lemma {:induction false} EscapeAscii(s: string)
    ensures Printable(Escape(s, true))
  {
    if s != [] {
      EscapeCharAscii(s[0]);
      EscapeAscii(s[1..]);
    }
  }

  /** A printable character other than the quote and the backslash is
      written as itself, as is every character from U+007F on without
      ensure_ascii; the quote and the backslash get a backslash before them. */
  lemma EscapeCharKept(c: char, ensureAscii: bool)
    ensures ' ' <= c && c != '"' && c != '\\' && (ensureAscii ==> c <= '~') ==> EscapeChar(c, ensureAscii) == [c]
    ensures c == '"' || c == '\\' ==> EscapeChar(c, ensureAscii) == ['\\', c]
  {
  }

  /** Printable ASCII other than the quote and the backslash. */
  predicate Plain(s: string)
  {
    forall i :: 0 <= i < |s| ==> ' ' <= s[i] <= '~' && s[i] != '"' && s[i] != '\\'
  }

  lemma {:induction false} EscapePlain(s: string, ensureAscii: bool)
    requires Plain(s)
    ensures Escape(s, ensureAscii) == s
  {
    if s != [] {
      EscapePlain(s[1..], ensureAscii);
    }
  }

  /** `phrase in json.dumps(j, ensure_ascii=ensureAscii).lower()` for a
      phrase of lower-case letters and spaces. Such a phrase cannot reach
      across a quote, a separator or a bracket, and the literals true,
      false, null and the numbers hold none of it, so it occurs in the
      serialised text exactly when it occurs in one escaped, lower-cased
      key or string. */
  predicate Mentions(j: Json, phrase: string, ensureAscii: bool)
  {
    TextsMention(Texts(j), phrase, ensureAscii)
  }

  /** One escaped, lower-cased text mentions the phrase or it does not. */
  predicate TextMentions(t: string, phrase: string, ensureAscii: bool)
  {
    Contains(phrase, Lower(Escape(t, ensureAscii)))
  }

  predicate TextsMention(texts: seq<string>, phrase: string, ensureAscii: bool)
  {
    exists i :: 0 <= i < |texts| && TextMentions(texts[i], phrase, ensureAscii)
  }

  lemma {:induction false} TextsMentionConcat(a: seq<string>, b: seq<string>, phrase: string, ensureAscii: bool)
    ensures TextsMention(a + b, phrase, ensureAscii)
        <==> TextsMention(a, phrase, ensureAscii) || TextsMention(b, phrase, ensureAscii)
  {
    var ab := a + b;
    if TextsMention(ab, phrase, ensureAscii) {
      var i :| 0 <= i < |ab| && TextMentions(ab[i], phrase, ensureAscii);
      if i < |a| {
        assert ab[i] == a[i];
      } else {
        assert ab[i] == b[i - |a|];
      }
    }
    if TextsMention(a, phrase, ensureAscii) {
      var i :| 0 <= i < |a| && TextMentions(a[i], phrase, ensureAscii);
      assert ab[i] == a[i];
    }
    if TextsMention(b, phrase, ensureAscii) {
      var i :| 0 <= i < |b| && TextMentions(b[i], phrase, ensureAscii);
      assert ab[|a| + i] == b[i];
    }
  }

  lemma TextsMentionSingle(t: string, phrase: string, ensureAscii: bool)
    ensures TextsMention([t], phrase, ensureAscii) <==> TextMentions(t, phrase, ensureAscii)
  {
    if TextMentions(t, phrase, ensureAscii) {
      assert [t][0] == t;
    }
  }

  /** A string is searched in its escaped, lower-cased form; null, the
      booleans and the numbers mention no phrase. */
  lemma MentionsLeaf(j: Json, phrase: string, ensureAscii: bool)
    requires !j.JArr? && !j.JObj?
    ensures Mentions(j, phrase, ensureAscii) <==> j.JStr? && TextMentions(j.s, phrase, ensureAscii)
  {
    if j.JStr? {
      TextsMentionSingle(j.s, phrase, ensureAscii);
    }
  }

  lemma MentionsObjectLast(fields: seq<Field>, phrase: string, ensureAscii: bool)
    requires fields != []
    ensures Mentions(JObj(fields), phrase, ensureAscii)
        <==> Mentions(JObj(fields[..|fields| - 1]), phrase, ensureAscii)
             || TextMentions(fields[|fields| - 1].key, phrase, ensureAscii)
             || Mentions(fields[|fields| - 1].value, phrase, ensureAscii)
  {
    var init, last := fields[..|fields| - 1], fields[|fields| - 1];
    assert FieldTexts(fields) == FieldTexts(init) + [last.key] + Texts(last.value);
    TextsMentionConcat(FieldTexts(init) + [last.key], Texts(last.value), phrase, ensureAscii);
    TextsMentionConcat(FieldTexts(init), [last.key], phrase, ensureAscii);
    TextsMentionSingle(last.key, phrase, ensureAscii);
  }

  lemma MentionsObjectEmpty(phrase: string, ensureAscii: bool)
    ensures !Mentions(JObj([]), phrase, ensureAscii)
  {
    assert Texts(JObj([])) == [];
  }

  /** A dictionary mentions a phrase exactly when one of its keys or one of
      its values does. */
  lemma {:induction false} MentionsObject(fields: seq<Field>, phrase: string, ensureAscii: bool)
    ensures Mentions(JObj(fields), phrase, ensureAscii)
        <==> exists i :: 0 <= i < |fields| && (TextMentions(fields[i].key, phrase, ensureAscii)
                                               || Mentions(fields[i].value, phrase, ensureAscii))
  {
    if fields == [] {
      MentionsObjectEmpty(phrase, ensureAscii);
    } else {
      var init := fields[..|fields| - 1];
      MentionsObjectLast(fields, phrase, ensureAscii);
      MentionsObject(init, phrase, ensureAscii);
      SomeLast((f: Field) => TextMentions(f.key, phrase, ensureAscii) || Mentions(f.value, phrase, ensureAscii), fields, init);
    }
  }

  lemma MentionsArrayLast(items: seq<Json>, phrase: string, ensureAscii: bool)
    requires items != []
    ensures Mentions(JArr(items), phrase, ensureAscii)
        <==> Mentions(JArr(items[..|items| - 1]), phrase, ensureAscii) || Mentions(items[|items| - 1], phrase, ensureAscii)
  {
    var init, last := items[..|items| - 1], items[|items| - 1];
    assert ItemTexts(items) == ItemTexts(init) + Texts(last);
    TextsMentionConcat(ItemTexts(init), Texts(last), phrase, ensureAscii);
  }

  /** Some element of s satisfies p exactly when one before the last does
      or the last one does. */
  lemma SomeLast<T>(p: T -> bool, s: seq<T>, init: seq<T>)
    requires s != [] && init == s[..|s| - 1]
    ensures (exists i :: 0 <= i < |s| && p(s[i]))
        <==> (exists i :: 0 <= i < |init| && p(init[i])) || p(s[|s| - 1])
  {
    if exists i :: 0 <= i < |init| && p(init[i]) {
      var i :| 0 <= i < |init| && p(init[i]);
      assert init[i] == s[i];
    }
    if exists i :: 0 <= i < |s| && p(s[i]) {
      var i :| 0 <= i < |s| && p(s[i]);
      if i < |init| {
        assert init[i] == s[i];
      }
    }
  }

  lemma MentionsArrayEmpty(phrase: string, ensureAscii: bool)
    ensures !Mentions(JArr([]), phrase, ensureAscii)
  {
    assert Texts(JArr([])) == [];
  }

  /** A list mentions a phrase exactly when one of its items does. */
  lemma {:induction false} MentionsArray(items: seq<Json>, phrase: string, ensureAscii: bool)
    ensures Mentions(JArr(items), phrase, ensureAscii)
        <==> exists i :: 0 <= i < |items| && Mentions(items[i], phrase, ensureAscii)
  {
    if items == [] {
      MentionsArrayEmpty(phrase, ensureAscii);
    } else {
      var n := |items| - 1;
      var init := items[..n];
      MentionsArrayLast(items, phrase, ensureAscii);
      MentionsArray(init, phrase, ensureAscii);
      SomeLast(j => Mentions(j, phrase, ensureAscii), items, init);
    }
  }

  /** A text that is plain and lacks a character of the phrase (in either
      case) does not mention it. */
  lemma PlainTextLacks(t: string, phrase: string, c: char, ensureAscii: bool)
    requires Plain(t) && c in phrase && !('A' <= c <= 'Z')
    requires c !in t && (('a' <= c <= 'z') ==> (c - 32 as char) !in t)
    ensures !Contains(phrase, Lower(Escape(t, ensureAscii)))
  {
    EscapePlain(t, ensureAscii);
    var lt := Lower(t);
    forall i | 0 <= i < |lt|
      ensures lt[i] != c
    {
      assert lt[i] == LowerChar(t[i]) && t[i] in t;
      LowerCharOther(t[i], c);
    }
    MissingCharNotContained(phrase, lt, c);
  }

  lemma LowerCharOther(x: char, c: char)
    requires x != c && !('A' <= c <= 'Z') && (('a' <= c <= 'z') ==> x != c - 32 as char)
    ensures LowerChar(x) != c
  {
  }
}
