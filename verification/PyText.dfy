/** `str` and `repr` of the values that reach the policy's text columns. */
module PyText {
  import opened Text
  import opened Json
  import opened Canonical

  function NumberText(n: int): string {
    if n < 0 then "-" + Decimal(-n) else Decimal(n)
  }

  // ---- repr of a string ----

  function HexDigit(d: nat): char
    requires d < 16
  {
    "0123456789abcdef"[d]
  }

  /** One character between quotes `q`. */
  function Escaped(c: char, q: char): (r: string)
    ensures r != ""
  {
    if c == '\\' then "\\\\"
    else if c == q then ['\\', q]
    else if c == '\n' then "\\n"
    else if c == '\r' then "\\r"
    else if c == '\t' then "\\t"
    else if c as int < 32 || c as int == 127 then ['\\', 'x', HexDigit(c as int / 16), HexDigit(c as int % 16)]
    else [c]
  }

  function Quoted(s: string, q: char): string {
    if s == "" then [q] else Escaped(s[0], q) + Quoted(s[1..], q)
  }

  /** Single quotes, unless the text holds single quotes and no double quotes. */
  function QuoteOf(s: string): char {
    if '\'' in s && '"' !in s then '"' else '\''
  }

  function ReprText(s: string): string {
    [QuoteOf(s)] + Quoted(s, QuoteOf(s))
  }

  // ---- repr of a value ----

  function Repr(v: Value): string
    decreases v, 1
  {
    match v
    case Null => "None"
    case Bool(b) => if b then "True" else "False"
    case Num(n) => NumberText(n)
    case Str(s) => ReprText(s)
    case Arr(items) => "[" + ItemsText(items, "")
    case Obj(fields) => "{" + FieldsText(fields, "")
  }

  /** The remaining items of a list and its closing bracket. */
  function ItemsText(items: seq<Value>, separator: string): string
    decreases items, 0
  {
    if items == [] then "]" else separator + (Repr(items[0]) + ItemsText(items[1..], ", "))
  }

  /** The remaining entries of a dictionary and its closing brace. */
  function FieldsText(fields: seq<Field>, separator: string): string
    decreases fields, 0
  {
    if fields == [] then "}"
    else separator + (ReprText(fields[0].key) + (": " + (Repr(fields[0].value) + FieldsText(fields[1..], ", "))))
  }

  /** `str(v)` */
  function TextOf(v: Value): string {
    if v.Str? then v.s else Repr(v)
  }

  // ---- The text of a container tells the order of its keys ----

  lemma CutPrefix(p: string, a: string, b: string)
    requires p + a == p + b
    ensures a == b
  {
    assert (p + a)[|p|..] == a && (p + b)[|p|..] == b;
  }

  lemma CutParts(p: string, a: string, s: string, b: string, t: string)
    requires (p + a) + s == (p + b) + t
    ensures a + s == b + t
  {
    assert (p + a) + s == p + (a + s) && (p + b) + t == p + (b + t);
    CutPrefix(p, a + s, b + t);
  }

  lemma HexDigitsDiffer(a: nat, b: nat)
    requires a < 16 && b < 16 && HexDigit(a) == HexDigit(b)
    ensures a == b
  {
  }

  /** The letters at a place, if both texts reach it, are the same. */
  predicate AgreeAt(a: string, b: string, n: nat) {
    n < |a| && n < |b| ==> a[n] == b[n]
  }

  lemma SameLetters(c: char, d: char, q: char)
    requires q == '\'' || q == '"'
    requires forall n: nat :: AgreeAt(Escaped(c, q), Escaped(d, q), n)
    ensures c == d
  {
    var a, b := Escaped(c, q), Escaped(d, q);
    assert AgreeAt(a, b, 0) && AgreeAt(a, b, 1) && AgreeAt(a, b, 2) && AgreeAt(a, b, 3);
    if |a| == 4 && |b| == 4 {
      HexDigitsDiffer(c as int / 16, d as int / 16);
      HexDigitsDiffer(c as int % 16, d as int % 16);
    }
  }

  /** Escapes are a prefix code, and none of them begins with the quote. */
  lemma EscapedPrefix(c: char, d: char, q: char, s: string, t: string)
    requires (q == '\'' || q == '"') && Escaped(c, q) + s == Escaped(d, q) + t
    ensures c == d && s == t
  {
    hide Escaped;
    var a, b := Escaped(c, q), Escaped(d, q);
    forall n: nat ensures AgreeAt(a, b, n) {
      if n < |a| && n < |b| {
        assert a[n] == (a + s)[n] == (b + t)[n] == b[n];
      }
    }
    SameLetters(c, d, q);
    CutPrefix(a, s, t);
  }

  lemma EscapedIsNoQuote(c: char, q: char)
    requires q == '\'' || q == '"'
    ensures Escaped(c, q)[0] != q
  {
  }

  lemma {:induction false} QuotedPrefix(x: string, y: string, q: char, s: string, t: string)
    requires (q == '\'' || q == '"') && Quoted(x, q) + s == Quoted(y, q) + t
    ensures x == y && s == t
  {
    hide Escaped;
    var a, b := Quoted(x, q) + s, Quoted(y, q) + t;
    assert a[0] == Quoted(x, q)[0] && b[0] == Quoted(y, q)[0];
    if x != "" {
      EscapedIsNoQuote(x[0], q);
    }
    if y != "" {
      EscapedIsNoQuote(y[0], q);
    }
    if x == "" {
      CutPrefix([q], s, t);
    } else {
      assert a == Escaped(x[0], q) + (Quoted(x[1..], q) + s);
      assert b == Escaped(y[0], q) + (Quoted(y[1..], q) + t);
      EscapedPrefix(x[0], y[0], q, Quoted(x[1..], q) + s, Quoted(y[1..], q) + t);
      QuotedPrefix(x[1..], y[1..], q, s, t);
      assert x == [x[0]] + x[1..] && y == [y[0]] + y[1..];
    }
  }

  lemma ReprTextPrefix(x: string, y: string, s: string, t: string)
    requires ReprText(x) + s == ReprText(y) + t
    ensures x == y && s == t
  {
    var a, b := ReprText(x) + s, ReprText(y) + t;
    assert a[0] == QuoteOf(x) && b[0] == QuoteOf(y);
    CutParts([QuoteOf(x)], Quoted(x, QuoteOf(x)), s, Quoted(y, QuoteOf(x)), t);
    QuotedPrefix(x, y, QuoteOf(x), s, t);
  }

  /** Fields with one key hold values that are equal up to key order. */
  ghost predicate Compatible(xs: seq<Field>, ys: seq<Field>) {
    && (forall i :: 0 <= i < |xs| ==> WellFormed(xs[i].value))
    && (forall j :: 0 <= j < |ys| ==> WellFormed(ys[j].value))
    && (forall i, j :: 0 <= i < |xs| && 0 <= j < |ys| && xs[i].key == ys[j].key ==> SameValue(xs[i].value, ys[j].value))
  }

  /** Among values that are equal up to key order, `repr` is a prefix code. */
  lemma {:induction false} ReprPrefix(v: Value, w: Value, s: string, t: string)
    requires WellFormed(v) && WellFormed(w) && SameValue(v, w)
    requires Repr(v) + s == Repr(w) + t
    ensures v == w && s == t
    decreases v, 1
  {
    if v.Arr? {
      ListPrefix(v.items, w.items, s, t);
    } else if v.Obj? {
      DictPrefix(v.fields, w.fields, s, t);
    } else {
      CutPrefix(Repr(v), s, t);
    }
  }

  lemma {:induction false} ListPrefix(xs: seq<Value>, ys: seq<Value>, s: string, t: string)
    requires WellFormed(Arr(xs)) && WellFormed(Arr(ys)) && SameValue(Arr(xs), Arr(ys))
    requires Repr(Arr(xs)) + s == Repr(Arr(ys)) + t
    ensures xs == ys && s == t
    decreases xs, 1
  {
    CutParts("[", ItemsText(xs, ""), s, ItemsText(ys, ""), t);
    ItemsPrefix(xs, ys, "", s, t);
  }

  lemma {:induction false} DictPrefix(xs: seq<Field>, ys: seq<Field>, s: string, t: string)
    requires WellFormed(Obj(xs)) && WellFormed(Obj(ys)) && SameValue(Obj(xs), Obj(ys))
    requires Repr(Obj(xs)) + s == Repr(Obj(ys)) + t
    ensures xs == ys && s == t
    decreases xs, 1
  {
    hide FieldsText;
    CutParts("{", FieldsText(xs, ""), s, FieldsText(ys, ""), t);
    CompatibleFields(xs, ys);
    FieldsPrefix(xs, ys, "", s, t);
  }

  /** The one field with its key is the one that matches it. */
  lemma MatchedByKey(x: Field, ys: seq<Field>, j: nat)
    requires DistinctKeys(ys) && MatchedIn(x, ys) && j < |ys| && x.key == ys[j].key
    ensures SameValue(x.value, ys[j].value)
  {
    hide SameValue;
    var k :| 0 <= k < |ys| && SameField(x, ys[k]);
  }

  lemma DictParts(xs: seq<Field>)
    requires WellFormed(Obj(xs))
    ensures DistinctKeys(xs) && forall i :: 0 <= i < |xs| ==> WellFormed(xs[i].value)
  {
  }

  lemma AllMatched(xs: seq<Field>, ys: seq<Field>)
    requires SameValue(Obj(xs), Obj(ys))
    ensures forall i :: 0 <= i < |xs| ==> MatchedIn(xs[i], ys)
  {
    hide MatchedIn, MatchesIn;
  }

  lemma CompatibleFields(xs: seq<Field>, ys: seq<Field>)
    requires WellFormed(Obj(xs)) && WellFormed(Obj(ys)) && SameValue(Obj(xs), Obj(ys))
    ensures Compatible(xs, ys)
  {
    hide WellFormed, SameValue, MatchedIn, DistinctKeys;
    DictParts(xs);
    DictParts(ys);
    AllMatched(xs, ys);
    forall i, j | 0 <= i < |xs| && 0 <= j < |ys| && xs[i].key == ys[j].key ensures SameValue(xs[i].value, ys[j].value) {
      MatchedByKey(xs[i], ys, j);
    }
  }

  lemma {:induction false} ItemsPrefix(xs: seq<Value>, ys: seq<Value>, separator: string, s: string, t: string)
    requires |xs| == |ys| && forall i :: 0 <= i < |xs| ==> WellFormed(xs[i]) && WellFormed(ys[i]) && SameValue(xs[i], ys[i])
    requires ItemsText(xs, separator) + s == ItemsText(ys, separator) + t
    ensures xs == ys && s == t
    decreases xs, 0
  {
    if xs == [] {
      CutPrefix("]", s, t);
    } else {
      var a, b := ItemsText(xs[1..], ", "), ItemsText(ys[1..], ", ");
      CutParts(separator, Repr(xs[0]) + a, s, Repr(ys[0]) + b, t);
      assert (Repr(xs[0]) + a) + s == Repr(xs[0]) + (a + s) && (Repr(ys[0]) + b) + t == Repr(ys[0]) + (b + t);
      ReprPrefix(xs[0], ys[0], a + s, b + t);
      ItemsPrefix(xs[1..], ys[1..], ", ", s, t);
      assert xs == [xs[0]] + xs[1..] && ys == [ys[0]] + ys[1..];
    }
  }

  lemma FieldsTextStarts(fields: seq<Field>, separator: string)
    requires fields != [] && (separator == "" || separator == ", ")
    ensures FieldsText(fields, separator) != "" && FieldsText(fields, separator)[0] != '}'
  {
    assert ReprText(fields[0].key)[0] == QuoteOf(fields[0].key);
  }

  lemma {:induction false} FieldsPrefix(xs: seq<Field>, ys: seq<Field>, separator: string, s: string, t: string)
    requires Compatible(xs, ys) && (separator == "" || separator == ", ")
    requires FieldsText(xs, separator) + s == FieldsText(ys, separator) + t
    ensures xs == ys && s == t
    decreases xs, 0
  {
    var a, b := FieldsText(xs, separator) + s, FieldsText(ys, separator) + t;
    assert a[0] == b[0];
    if xs != [] {
      FieldsTextStarts(xs, separator);
    }
    if ys != [] {
      FieldsTextStarts(ys, separator);
    }
    if xs == [] {
      CutPrefix("}", s, t);
    } else {
      FirstFieldPrefix(xs, ys, separator, s, t);
      FieldsPrefix(xs[1..], ys[1..], ", ", s, t);
      assert xs == [xs[0]] + xs[1..] && ys == [ys[0]] + ys[1..];
    }
  }

  lemma EntryPrefix(x: string, y: string, c: string, d: string, s: string, t: string)
    requires (ReprText(x) + (": " + c)) + s == (ReprText(y) + (": " + d)) + t
    ensures x == y && c + s == d + t
  {
    hide ReprText;
    assert (ReprText(x) + (": " + c)) + s == ReprText(x) + ((": " + c) + s);
    assert (ReprText(y) + (": " + d)) + t == ReprText(y) + ((": " + d) + t);
    ReprTextPrefix(x, y, (": " + c) + s, (": " + d) + t);
    CutParts(": ", c, s, d, t);
  }

  lemma FirstFieldText(xs: seq<Field>, separator: string)
    requires xs != []
    ensures FieldsText(xs, separator)
         == separator + (ReprText(xs[0].key) + (": " + (Repr(xs[0].value) + FieldsText(xs[1..], ", "))))
  {
    hide ReprText, Repr;
  }

  lemma CompatibleHeads(xs: seq<Field>, ys: seq<Field>)
    requires Compatible(xs, ys) && xs != [] && ys != []
    ensures WellFormed(xs[0].value) && WellFormed(ys[0].value)
    ensures xs[0].key == ys[0].key ==> SameValue(xs[0].value, ys[0].value)
  {
    hide WellFormed, SameValue;
  }

  lemma {:induction false} FirstFieldPrefix(xs: seq<Field>, ys: seq<Field>, separator: string, s: string, t: string)
    requires Compatible(xs, ys) && xs != [] && ys != []
    requires FieldsText(xs, separator) + s == FieldsText(ys, separator) + t
    ensures xs[0] == ys[0] && FieldsText(xs[1..], ", ") + s == FieldsText(ys[1..], ", ") + t
    decreases xs[0], 2
  {
    hide ReprText, Repr, FieldsText, Compatible, WellFormed, SameValue;
    var x, y := xs[0], ys[0];
    var a, b := FieldsText(xs[1..], ", "), FieldsText(ys[1..], ", ");
    var c, d := Repr(x.value) + a, Repr(y.value) + b;
    FirstFieldText(xs, separator);
    FirstFieldText(ys, separator);
    CompatibleHeads(xs, ys);
    CutParts(separator, ReprText(x.key) + (": " + c), s, ReprText(y.key) + (": " + d), t);
    EntryPrefix(x.key, y.key, c, d, s, t);
    assert c + s == Repr(x.value) + (a + s) && d + t == Repr(y.value) + (b + t);
    ReprPrefix(x.value, y.value, a + s, b + t);
  }

  /** Two values that are equal up to key order have one text exactly when their keys are in one order, at every depth. */
  lemma TextTellsOrder(v: Value, w: Value)
    requires WellFormed(v) && WellFormed(w) && SameValue(v, w)
    ensures TextOf(v) == TextOf(w) <==> v == w
  {
    if TextOf(v) == TextOf(w) && !v.Str? {
      assert Repr(v) + "" == Repr(v) && Repr(w) + "" == Repr(w);
      ReprPrefix(v, w, "", "");
    }
  }

  // ---- What the texts look like ----

  /** Words without quotes, backslashes and control characters stand between single quotes as they are. */
  predicate PlainWord(s: string) {
    forall i :: 0 <= i < |s| ==> s[i] != '\'' && s[i] != '\\' && 32 <= s[i] as int < 127
  }

  lemma {:induction false} PlainQuoted(s: string)
    requires PlainWord(s)
    ensures Quoted(s, '\'') == s + "'"
  {
    if s != "" {
      PlainQuoted(s[1..]);
      assert s == [s[0]] + s[1..];
    }
  }

  lemma WordText(s: string)
    requires PlainWord(s)
    ensures ReprText(s) == "'" + s + "'"
  {
    PlainQuoted(s);
  }

  /** Items stand in brackets, with a comma and a blank between them. */
  lemma ListText(v: Value, w: Value)
    ensures TextOf(Arr([v, w])) == "[" + (Repr(v) + (", " + (Repr(w) + "]")))
    ensures TextOf(Arr([])) == "[]"
  {
    hide NumberText, ReprText;
    assert [v, w][1..] == [w] && [w][1..] == [];
    assert ItemsText([], ", ") == "]";
    assert ItemsText([w], ", ") == ", " + (Repr(w) + "]");
    assert "" + (Repr(v) + ItemsText([w], ", ")) == Repr(v) + ItemsText([w], ", ");
    assert ItemsText([v, w], "") == "" + (Repr(v) + ItemsText([w], ", "));
    assert "[" + "]" == "[]";
  }

  /** Entries stand in braces, with a colon and a blank after the key, and a comma and a blank between them. */
  lemma DictText(f: Field, g: Field)
    ensures TextOf(Obj([f, g]))
         == "{" + (ReprText(f.key) + (": " + (Repr(f.value) + (", " + (ReprText(g.key) + (": " + (Repr(g.value) + "}")))))))
    ensures TextOf(Obj([])) == "{}"
  {
    hide NumberText, ReprText;
    assert [f, g][1..] == [g] && [g][1..] == [];
    var rest := FieldsText([g], ", ");
    assert FieldsText([], ", ") == "}";
    assert rest == ", " + (ReprText(g.key) + (": " + (Repr(g.value) + "}")));
    assert FieldsText([f, g], "") == ReprText(f.key) + (": " + (Repr(f.value) + rest));
    assert "{" + "}" == "{}";
  }

  /** `str` leaves texts as they are, and writes numbers as their numerals. */
  lemma ScalarTexts(s: string, n: nat)
    ensures TextOf(Str(s)) == s && TextOf(Num(n)) == Decimal(n) && TextOf(Num(-(n as int))) == (if n == 0 then "0" else "-" + Decimal(n))
    ensures TextOf(Bool(true)) == "True" && TextOf(Bool(false)) == "False" && TextOf(Null) == "None"
  {
  }

  lemma OneQuoted(c: char, q: char)
    ensures Quoted([c], q) == Escaped(c, q) + [q]
  {
    assert [c][1..] == "";
  }

  /** A single character with a text of its own: white space, the backslash, the quotes and a control character. */
  lemma CharacterTexts()
    ensures ReprText("\t") == "'\\t'" && ReprText("\n") == "'\\n'" && ReprText("\r") == "'\\r'" && ReprText("\\") == "'\\\\'"
    ensures ReprText("'") == "\"'\"" && ReprText("\"") == "'\"'" && ReprText([31 as char]) == "'\\x1f'"
  {
    OneQuoted('\t', '\'');
    OneQuoted('\n', '\'');
    OneQuoted('\r', '\'');
    OneQuoted('\\', '\'');
    OneQuoted('\'', '"');
    OneQuoted('"', '\'');
    OneQuoted(31 as char, '\'');
    hide Quoted;
  }

  /** A text with both quotes is quoted singly, and its single quotes are escaped. */
  lemma BothQuotes(s: string)
    requires '\'' in s && '"' in s
    ensures QuoteOf(s) == '\'' && Escaped('\'', QuoteOf(s)) == "\\'" && Escaped('"', QuoteOf(s)) == "\""
  {
  }
}
