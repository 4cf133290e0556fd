/** Canonical JSON: sorted keys, compact separators, non-ASCII kept, floats refused
    (audit.py, cache.py). */
module Canonical {
  import opened Ascii

  datatype Key = Text(text: string) | OtherKey(code: int)

  /** A Python value on its way to JSON; dicts compare without regard to insertion order. A
      float is its shortest decimal text. */
  datatype Value =
    | Null
    | Bool(b: bool)
    | Num(n: int)
    | Str(s: string)
    | Float(text: string)
    | Other(code: int)
    | Arr(items: seq<Value>)
    | Obj(fields: map<Key, Value>)

  /** _check_details: no floats, no non-string keys, nothing JSON cannot say. */
  predicate CheckDetails(v: Value) {
    match v
    case Float(_) => false
    case Other(_) => false
    case Arr(items) => forall i :: 0 <= i < |items| ==> CheckDetails(items[i])
    case Obj(fields) => forall k :: k in fields ==> k.Text? && CheckDetails(fields[k])
    case _ => true
  }

  predicate IsNumberChar(c: char) {
    IsDigit(c) || c == '-' || c == '+' || c == '.' || c == 'e'
  }

  ghost predicate AllNumberChars(s: string) {
    forall i :: 0 <= i < |s| ==> IsNumberChar(s[i])
  }

  /** The text of a finite float: unlike an integer's, it has a point or an exponent. */
  predicate IsFloatText(s: string) {
    && s != "" && (IsDigit(s[0]) || s[0] == '-') && (forall i :: 0 <= i < |s| ==> IsNumberChar(s[i]))
    && exists i :: 0 <= i < |s| && (s[i] == '.' || s[i] == 'e')
  }

  /** What a jsonb column can hold, floats included. */
  predicate Printable(v: Value) {
    match v
    case Float(text) => IsFloatText(text)
    case Other(_) => false
    case Arr(items) => forall i :: 0 <= i < |items| ==> Printable(items[i])
    case Obj(fields) => forall k :: k in fields ==> k.Text? && Printable(fields[k])
    case _ => true
  }

  /** Whatever is accepted for writing can be stored. */
  lemma {:induction false} AcceptedIsPrintable(v: Value)
    requires CheckDetails(v)
    ensures Printable(v)
  {
    match v {
      case Arr(items) =>
        forall i | 0 <= i < |items|
          ensures Printable(items[i])
        {
          AcceptedIsPrintable(items[i]);
        }
      case Obj(fields) =>
        forall k | k in fields
          ensures Printable(fields[k])
        {
          AcceptedIsPrintable(fields[k]);
        }
      case _ =>
    }
  }

  type Json = v: Value | Printable(v) witness Null

  // ---- Numbers ----

  function Digit(d: nat): char
    requires d < 10
  {
    ('0' as int + d) as char
  }

  function Digits(n: nat): (s: string)
    ensures |s| > 0 && forall i :: 0 <= i < |s| ==> IsDigit(s[i])
  {
    if n < 10 then [Digit(n)] else Digits(n / 10) + [Digit(n % 10)]
  }

  function NumText(n: int): string {
    if n < 0 then "-" + Digits(-n) else Digits(n)
  }

  function ReadDigits(s: string): nat
    requires forall i :: 0 <= i < |s| ==> IsDigit(s[i])
  {
    if s == [] then 0
    else
      assert IsDigit(s[|s| - 1]);
      10 * ReadDigits(s[..|s| - 1]) + DigitValue(s[|s| - 1])
  }

  lemma {:induction false} ReadBack(n: nat)
    ensures ReadDigits(Digits(n)) == n
  {
    if n >= 10 {
      ReadBack(n / 10);
      assert Digits(n)[..|Digits(n)| - 1] == Digits(n / 10);
    } else {
      assert Digits(n)[..0] == [];
    }
  }

  // ---- Strings ----

  function Hex(d: nat): char
    requires d < 16
  {
    if d < 10 then ('0' as int + d) as char else ('a' as int + d - 10) as char
  }

  /** One character between the quotes: the two short escapes JSON requires, the five it
      offers for control characters, \u00xx for the other control characters, or itself. */
  function Escape(c: char): (s: string)
    ensures |s| > 0 && s[0] != '\"'
  {
    if c == '\"' then "\\\""
    else if c == '\\' then "\\\\"
    else if c == '\n' then "\\n"
    else if c == '\r' then "\\r"
    else if c == '\t' then "\\t"
    else if c == 8 as char then "\\b"
    else if c == 12 as char then "\\f"
    else if c < ' ' then "\\u00" + [Hex(c as int / 16), Hex(c as int % 16)]
    else [c]
  }

  function Quoted(s: string): string {
    if s == "" then "\"" else Escape(s[0]) + Quoted(s[1..])
  }

  lemma EscapeReads(c: char, d: char, x: string, y: string)
    requires Escape(c) + x == Escape(d) + y
    ensures c == d && x == y
  {
    var u, v := Escape(c) + x, Escape(d) + y;
    assert u[0] == v[0];
    assert |Escape(c)| == 1 || (u[0] == '\\' && u[1] == Escape(c)[1]);
    assert |Escape(d)| == 1 || (v[0] == '\\' && v[1] == Escape(d)[1]);
    if |Escape(c)| > 2 && |Escape(d)| > 2 {
      assert u[4] == Escape(c)[4] && u[5] == Escape(c)[5] && v[4] == Escape(d)[4] && v[5] == Escape(d)[5];
    }
    assert c == d;
    assert u[|Escape(c)|..] == x && v[|Escape(d)|..] == y;
  }

  // Taking a joined text apart, and regrouping it.
  lemma Joined(a: string, b: string)
    ensures (a + b)[..|a|] == a && (a + b)[|a|..] == b
    ensures a != "" ==> a + b != "" && (a + b)[0] == a[0]
  {
  }

  lemma Regroup(a: string, b: string, c: string)
    ensures (a + b) + c == a + (b + c)
  {
  }

  lemma QuotedHead(s: string, x: string)
    ensures Quoted(s) + x != "" && ((Quoted(s) + x)[0] == '\"' <==> s == "")
    ensures s == "" ==> (Quoted(s) + x)[1..] == x
    ensures s != "" ==> Quoted(s) + x == Escape(s[0]) + (Quoted(s[1..]) + x)
  {
    Joined(Quoted(s), x);
    if s != "" {
      Joined(Escape(s[0]), Quoted(s[1..]));
      Regroup(Escape(s[0]), Quoted(s[1..]), x);
    }
  }

  /** A quoted string says where it ends. */
  lemma {:induction false} QuotedReads(s: string, t: string, x: string, y: string)
    requires Quoted(s) + x == Quoted(t) + y
    ensures s == t && x == y
  {
    QuotedHead(s, x);
    QuotedHead(t, y);
    if s != "" {
      EscapeReads(s[0], t[0], Quoted(s[1..]) + x, Quoted(t[1..]) + y);
      QuotedReads(s[1..], t[1..], x, y);
      assert s == [s[0]] + s[1..] && t == [t[0]] + t[1..];
    }
  }

  // ---- Keys in code-point order ----

  predicate Before(a: string, b: string) {
    if a == "" then b != ""
    else if b == "" then false
    else a[0] < b[0] || (a[0] == b[0] && Before(a[1..], b[1..]))
  }

  lemma {:induction false} BeforeIsTotal(a: string, b: string)
    ensures a == b || Before(a, b) || Before(b, a)
    ensures !(Before(a, b) && Before(b, a)) && !Before(a, a)
  {
    if a != "" && b != "" {
      BeforeIsTotal(a[1..], b[1..]);
      BeforeIsTotal(a[1..], a[1..]);
      assert a == [a[0]] + a[1..] && b == [b[0]] + b[1..];
    } else if a != "" {
      BeforeIsTotal(a[1..], a[1..]);
    }
  }

  lemma {:induction false} BeforeIsTransitive(a: string, b: string, c: string)
    requires Before(a, b) && Before(b, c)
    ensures Before(a, c)
  {
    if a != "" && a[0] == b[0] == c[0] {
      BeforeIsTransitive(a[1..], b[1..], c[1..]);
    }
  }

  predicate IsLeast(keys: set<Key>, k: Key)
    requires forall x :: x in keys ==> x.Text?
  {
    k in keys && forall x :: x in keys && x != k ==> Before(k.text, x.text)
  }

  lemma {:induction false} LeastKey(keys: set<Key>)
    requires keys != {} && forall x :: x in keys ==> x.Text?
    ensures exists k :: IsLeast(keys, k)
    decreases |keys|
  {
    var k :| k in keys;
    if keys == {k} {
      assert IsLeast(keys, k);
    } else {
      var rest := keys - {k};
      LeastKey(rest);
      var m :| IsLeast(rest, m);
      BeforeIsTotal(k.text, m.text);
      if Before(m.text, k.text) {
        assert IsLeast(keys, m);
      } else {
        forall x | x in keys && x != k && x != m
          ensures Before(k.text, x.text)
        {
          BeforeIsTransitive(k.text, m.text, x.text);
        }
        assert IsLeast(keys, k);
      }
    }
  }

  lemma LeastIsUnique(keys: set<Key>)
    requires forall x :: x in keys ==> x.Text?
    ensures forall a, b :: IsLeast(keys, a) && IsLeast(keys, b) ==> a == b
  {
    forall a, b | IsLeast(keys, a) && IsLeast(keys, b)
      ensures a == b
    {
      BeforeIsTotal(a.text, b.text);
    }
  }

  ghost predicate Ascending(keys: seq<Key>) {
    && (forall i :: 0 <= i < |keys| ==> keys[i].Text?)
    && (forall i, j :: 0 <= i < j < |keys| ==> Before(keys[i].text, keys[j].text))
  }

  /** The one listing of a dict's keys in code-point order. */
  function SortedKeys(keys: set<Key>): (r: seq<Key>)
    requires forall x :: x in keys ==> x.Text?
    ensures Ascending(r) && forall x :: x in r <==> x in keys
    decreases |keys|
  {
    if keys == {} then []
    else
      LeastKey(keys);
      LeastIsUnique(keys);
      var k :| k in keys && IsLeast(keys, k);
      [k] + SortedKeys(keys - {k})
  }

  lemma HeadIsIn<T>(r: seq<T>)
    ensures r != [] ==> r[0] in r
  {
  }

  lemma {:induction false} SortedKeysIsTheOnlyOrder(keys: set<Key>, r: seq<Key>)
    requires forall x :: x in keys ==> x.Text?
    requires Ascending(r) && forall x :: x in r <==> x in keys
    ensures r == SortedKeys(keys)
    decreases |keys|
  {
    var s := SortedKeys(keys);
    if keys == {} {
      HeadIsIn(r);
    } else {
      assert s[0] in r && r[0] in s;
      BeforeIsTotal(s[0].text, r[0].text);
      assert r[0] == s[0];
      var rest := keys - {s[0]};
      forall x
        ensures x in r[1..] <==> x in rest
      {
        assert r == [r[0]] + r[1..];
        if x in r[1..] {
          BeforeIsTotal(x.text, r[0].text);
        }
      }
      SortedKeysIsTheOnlyOrder(rest, r[1..]);
      forall x
        ensures x in s[1..] <==> x in rest
      {
        assert s == [s[0]] + s[1..];
        if x in s[1..] {
          BeforeIsTotal(x.text, s[0].text);
        }
      }
      SortedKeysIsTheOnlyOrder(rest, s[1..]);
      assert r == [r[0]] + r[1..] && s == [s[0]] + s[1..];
    }
  }

  // ---- Printing ----

  function Print(v: Value): string
    requires Printable(v)
    decreases v, 1
  {
    match v
    case Null => "null"
    case Bool(b) => if b then "true" else "false"
    case Num(n) => NumText(n)
    case Float(text) => text
    case Str(s) => "\"" + Quoted(s)
    case Arr(items) => "[" + PrintItems(v, 0)
    case Obj(fields) => "{" + PrintFields(v, SortedKeys(fields.Keys), 0)
  }

  // The items from i on, and the closing bracket.
  function PrintItems(v: Value, i: nat): string
    requires v.Arr? && Printable(v) && i <= |v.items|
    decreases v, 0, |v.items| - i
  {
    if i == |v.items| then "]"
    else (if i == 0 then "" else ",") + (Print(v.items[i]) + PrintItems(v, i + 1))
  }

  // The fields of the keys from i on, and the closing brace.
  function PrintFields(v: Value, keys: seq<Key>, i: nat): string
    requires v.Obj? && Printable(v) && i <= |keys| && forall k :: k in keys ==> k in v.fields
    decreases v, 0, |keys| - i
  {
    if i == |keys| then "}"
    else
      (if i == 0 then "" else ",")
        + ("\"" + (Quoted(keys[i].text) + (":" + (Print(v.fields[keys[i]]) + PrintFields(v, keys, i + 1)))))
  }

  // What may follow a value: nothing, or a separator.
  predicate Ends(x: string) {
    x == "" || x[0] == ',' || x[0] == ']' || x[0] == '}'
  }

  lemma LongerNumber(s: string, t: string, x: string, y: string)
    requires AllNumberChars(t) && s + x == t + y
    ensures |s| < |t| ==> x != "" && IsNumberChar(x[0])
  {
    if |s| < |t| {
      assert (s + x)[|s|] == (t + y)[|s|] == t[|s|];
    }
  }

  /** A number ends where its characters do. */
  lemma NumberReads(s: string, t: string, x: string, y: string)
    requires AllNumberChars(s) && AllNumberChars(t) && Ends(x) && Ends(y) && s + x == t + y
    ensures s == t && x == y
  {
    LongerNumber(s, t, x, y);
    LongerNumber(t, s, y, x);
    Joined(s, x);
    Joined(t, y);
  }

  lemma NumTextChars(n: int)
    ensures AllNumberChars(NumText(n)) && !IsFloatText(NumText(n))
    ensures NumText(n) != "" && (IsDigit(NumText(n)[0]) || NumText(n)[0] == '-') && (NumText(n)[0] == '-' <==> n < 0)
  {
  }

  lemma NumTextIsInjective(n: int, m: int)
    ensures NumText(n) == NumText(m) <==> n == m
  {
    NumTextChars(n);
    NumTextChars(m);
    if NumText(n) == NumText(m) {
      if n < 0 {
        Joined("-", Digits(-n));
        Joined("-", Digits(-m));
        ReadBack(-n);
        ReadBack(-m);
      } else {
        ReadBack(n);
        ReadBack(m);
      }
    }
  }

  // The first character tells the kinds of value apart.
  function Lead(v: Value): int
    requires Printable(v)
  {
    match v
    case Null => 1
    case Bool(b) => if b then 2 else 3
    case Num(_) => 4
    case Float(_) => 4
    case Str(_) => 5
    case Arr(_) => 6
    case Obj(_) => 7
  }

  function LeadOf(c: char): int {
    if c == 'n' then 1
    else if c == 't' then 2
    else if c == 'f' then 3
    else if c == '\"' then 5
    else if c == '[' then 6
    else if c == '{' then 7
    else 4
  }

  lemma PrintLeads(v: Value, x: string)
    requires Printable(v)
    ensures Print(v) != "" && (Print(v) + x)[0] == Print(v)[0] && LeadOf(Print(v)[0]) == Lead(v)
    ensures Print(v)[0] != ']' && Print(v)[0] != '}'
  {
    if v.Num? {
      NumTextChars(v.n);
    }
  }

  lemma NumbersRead(v: Value, w: Value, x: string, y: string)
    requires Printable(v) && Printable(w) && (v.Num? || v.Float?) && (w.Num? || w.Float?) && Ends(x) && Ends(y)
    requires Print(v) + x == Print(w) + y
    ensures v == w && x == y
  {
    if v.Num? {
      NumTextChars(v.n);
    }
    if w.Num? {
      NumTextChars(w.n);
    }
    NumberReads(Print(v), Print(w), x, y);
    if v.Num? && w.Num? {
      NumTextIsInjective(v.n, w.n);
    }
  }

  // Dropping the same opening character from both texts.
  lemma Opened(lead: string, a: string, b: string, x: string, y: string)
    requires (lead + a) + x == (lead + b) + y
    ensures a + x == b + y
  {
    Regroup(lead, a, x);
    Regroup(lead, b, y);
    Joined(lead, a + x);
    Joined(lead, b + y);
  }

  /** No printed value is the start of another: whatever separator follows, the text
      determines the value. */
  lemma {:induction false} PrintReads(v: Value, w: Value, x: string, y: string)
    requires Printable(v) && Printable(w) && Ends(x) && Ends(y) && Print(v) + x == Print(w) + y
    ensures v == w && x == y
    decreases v, 1
  {
    PrintLeads(v, x);
    PrintLeads(w, y);
    assert Lead(v) == Lead(w);
    match v {
      case Null => Joined("null", x); Joined("null", y);
      case Bool(b) => Joined(Print(v), x); Joined(Print(w), y);
      case Num(_) => NumbersRead(v, w, x, y);
      case Float(_) => NumbersRead(v, w, x, y);
      case Str(s) =>
        Opened("\"", Quoted(s), Quoted(w.s), x, y);
        QuotedReads(s, w.s, x, y);
      case Arr(_) =>
        Opened("[", PrintItems(v, 0), PrintItems(w, 0), x, y);
        ItemsRead(v, w, 0, x, y);
      case Obj(_) =>
        var ks, ls := SortedKeys(v.fields.Keys), SortedKeys(w.fields.Keys);
        Opened("{", PrintFields(v, ks, 0), PrintFields(w, ls, 0), x, y);
        FieldsRead(v, w, ks, ls, 0, x, y);
        SameFields(v, w, ks);
    }
  }

  lemma SameFields(v: Value, w: Value, keys: seq<Key>)
    requires v.Obj? && w.Obj?
    requires (forall k :: k in keys <==> k in v.fields) && (forall k :: k in keys <==> k in w.fields)
    requires forall i :: 0 <= i < |keys| ==> v.fields[keys[i]] == w.fields[keys[i]]
    ensures v == w
  {
    forall k | k in v.fields
      ensures v.fields[k] == w.fields[k]
    {
      assert k in keys;
    }
    assert v.fields == w.fields;
  }

  lemma ItemsUnfold(v: Value, i: nat, x: string)
    requires v.Arr? && Printable(v) && i <= |v.items|
    ensures i == |v.items| ==> PrintItems(v, i) + x == "]" + x
    ensures 0 == i < |v.items| ==> PrintItems(v, i) + x == Print(v.items[i]) + (PrintItems(v, i + 1) + x)
    ensures 0 < i < |v.items| ==> PrintItems(v, i) + x == "," + (Print(v.items[i]) + (PrintItems(v, i + 1) + x))
    ensures i > 0 ==> Ends(PrintItems(v, i) + x)
  {
  }

  lemma {:induction false} ItemsRead(v: Value, w: Value, i: nat, x: string, y: string)
    requires v.Arr? && w.Arr? && Printable(v) && Printable(w) && Ends(x) && Ends(y)
    requires i <= |v.items| && i <= |w.items| && v.items[..i] == w.items[..i]
    requires PrintItems(v, i) + x == PrintItems(w, i) + y
    ensures v == w && x == y
    decreases v, 0, |v.items| - i
  {
    SameEnd(v, w, i, x, y);
    if i == |v.items| {
      ItemsUnfold(v, i, x);
      ItemsUnfold(w, i, y);
      Joined("]", x);
      Joined("]", y);
      assert v.items == v.items[..i] && w.items == w.items[..i];
    } else {
      var restV, restW := PrintItems(v, i + 1) + x, PrintItems(w, i + 1) + y;
      ItemReads(v, w, i, x, y);
      PrintReads(v.items[i], w.items[i], restV, restW);
      SamePrefix(v.items, w.items, i);
      ItemsRead(v, w, i + 1, x, y);
    }
  }

  // The comma, if any, put aside.
  lemma ItemReads(v: Value, w: Value, i: nat, x: string, y: string)
    requires v.Arr? && w.Arr? && Printable(v) && Printable(w) && i < |v.items| && i < |w.items|
    requires PrintItems(v, i) + x == PrintItems(w, i) + y
    ensures Print(v.items[i]) + (PrintItems(v, i + 1) + x) == Print(w.items[i]) + (PrintItems(w, i + 1) + y)
    ensures Ends(PrintItems(v, i + 1) + x) && Ends(PrintItems(w, i + 1) + y)
  {
    ItemsUnfold(v, i, x);
    ItemsUnfold(w, i, y);
    ItemsUnfold(v, i + 1, x);
    ItemsUnfold(w, i + 1, y);
    if i > 0 {
      Joined(",", Print(v.items[i]) + (PrintItems(v, i + 1) + x));
      Joined(",", Print(w.items[i]) + (PrintItems(w, i + 1) + y));
    }
  }

  lemma SameEnd(v: Value, w: Value, i: nat, x: string, y: string)
    requires v.Arr? && w.Arr? && Printable(v) && Printable(w) && i <= |v.items| && i <= |w.items|
    requires PrintItems(v, i) + x == PrintItems(w, i) + y
    ensures i == |v.items| <==> i == |w.items|
  {
    ItemsHead(v, i, x);
    ItemsHead(w, i, y);
  }

  lemma ItemsHead(v: Value, i: nat, x: string)
    requires v.Arr? && Printable(v) && i <= |v.items|
    ensures PrintItems(v, i) + x != "" && ((PrintItems(v, i) + x)[0] == ']' <==> i == |v.items|)
  {
    ItemsUnfold(v, i, x);
    if i < |v.items| {
      PrintLeads(v.items[i], PrintItems(v, i + 1) + x);
    }
  }

  // What field i prints after its separator and opening quote.
  function FieldTail(v: Value, keys: seq<Key>, i: nat, x: string): string
    requires v.Obj? && Printable(v) && i < |keys| && forall k :: k in keys ==> k in v.fields
  {
    Quoted(keys[i].text) + (":" + (Print(v.fields[keys[i]]) + (PrintFields(v, keys, i + 1) + x)))
  }

  function FieldLead(i: nat): string {
    if i == 0 then "\"" else ",\""
  }

  lemma FieldsUnfold(v: Value, keys: seq<Key>, i: nat, x: string)
    requires v.Obj? && Printable(v) && i <= |keys| && forall k :: k in keys ==> k in v.fields
    ensures i == |keys| ==> PrintFields(v, keys, i) + x == "}" + x
    ensures i < |keys| ==> PrintFields(v, keys, i) + x == FieldLead(i) + FieldTail(v, keys, i, x)
  {
    if i < |keys| {
      var rest := PrintFields(v, keys, i + 1);
      var value, name := Print(v.fields[keys[i]]), Quoted(keys[i].text);
      Regroup(value, rest, x);
      Regroup(":", value + rest, x);
      Regroup(name, ":" + (value + rest), x);
      Regroup("\"", name + (":" + (value + rest)), x);
      if i > 0 {
        Regroup(",", "\"" + (name + (":" + (value + rest))), x);
        Regroup(",", "\"", FieldTail(v, keys, i, x));
        assert "," + "\"" == ",\"";
      }
      FirstField(v, keys, i);
    }
  }

  lemma FirstField(v: Value, keys: seq<Key>, i: nat)
    requires v.Obj? && Printable(v) && i < |keys| && forall k :: k in keys ==> k in v.fields
    ensures var tail := ":" + (Print(v.fields[keys[i]]) + PrintFields(v, keys, i + 1));
            var body := "\"" + (Quoted(keys[i].text) + tail);
            PrintFields(v, keys, i) == if i == 0 then body else "," + body
  {
  }

  lemma FieldsHead(v: Value, keys: seq<Key>, i: nat, x: string)
    requires v.Obj? && Printable(v) && i <= |keys| && forall k :: k in keys ==> k in v.fields
    ensures PrintFields(v, keys, i) + x != "" && ((PrintFields(v, keys, i) + x)[0] == '}' <==> i == |keys|)
    ensures i > 0 ==> Ends(PrintFields(v, keys, i) + x)
  {
    FieldsUnfold(v, keys, i, x);
    if i < |keys| {
      Joined(FieldLead(i), FieldTail(v, keys, i, x));
    } else {
      Joined("}", x);
    }
  }

  lemma {:induction false} FieldsRead(v: Value, w: Value, ks: seq<Key>, ls: seq<Key>, i: nat, x: string, y: string)
    requires v.Obj? && w.Obj? && Printable(v) && Printable(w) && Ends(x) && Ends(y)
    requires i <= |ks| && i <= |ls| && (forall k :: k in ks ==> k in v.fields)
      && (forall k :: k in ls ==> k in w.fields)
    requires ks[..i] == ls[..i]
    requires PrintFields(v, ks, i) + x == PrintFields(w, ls, i) + y
    ensures ks == ls && x == y && forall j :: i <= j < |ks| ==> v.fields[ks[j]] == w.fields[ks[j]]
    decreases v, 0, |ks| - i
  {
    FieldsHead(v, ks, i, x);
    FieldsHead(w, ls, i, y);
    FieldsUnfold(v, ks, i, x);
    FieldsUnfold(w, ls, i, y);
    if i == |ks| {
      Joined("}", x);
      Joined("}", y);
      assert ks == ks[..i] && ls == ls[..i];
    } else {
      var restV, restW := PrintFields(v, ks, i + 1) + x, PrintFields(w, ls, i + 1) + y;
      FieldReads(v.fields[ks[i]], w.fields[ls[i]], ks[i], ls[i], FieldLead(i), restV, restW);
      FieldsHead(v, ks, i + 1, x);
      FieldsHead(w, ls, i + 1, y);
      PrintReads(v.fields[ks[i]], w.fields[ls[i]], restV, restW);
      SamePrefix(ks, ls, i);
      FieldsRead(v, w, ks, ls, i + 1, x, y);
    }
  }

  lemma SamePrefix<T>(ks: seq<T>, ls: seq<T>, i: nat)
    requires i < |ks| && i < |ls| && ks[..i] == ls[..i] && ks[i] == ls[i]
    ensures ks[..i + 1] == ls[..i + 1]
  {
    assert ks[..i + 1] == ks[..i] + [ks[i]] && ls[..i + 1] == ls[..i] + [ls[i]];
  }

  // A separator, a quoted key, a colon.
  lemma FieldReads(a: Value, b: Value, k: Key, l: Key, lead: string, restV: string, restW: string)
    requires Printable(a) && Printable(b) && k.Text? && l.Text?
    requires lead + (Quoted(k.text) + (":" + (Print(a) + restV)))
      == lead + (Quoted(l.text) + (":" + (Print(b) + restW)))
    ensures k == l && Print(a) + restV == Print(b) + restW
  {
    var u, v := ":" + (Print(a) + restV), ":" + (Print(b) + restW);
    Joined(lead, Quoted(k.text) + u);
    Joined(lead, Quoted(l.text) + v);
    QuotedReads(k.text, l.text, u, v);
    Joined(":", Print(a) + restV);
    Joined(":", Print(b) + restW);
  }

  /** Canonical printing is injective: two values print alike exactly when they are
      the same tree. */
  lemma PrintIsInjective(v: Value, w: Value)
    requires Printable(v) && Printable(w)
    ensures Print(v) == Print(w) <==> v == w
  {
    if Print(v) == Print(w) {
      assert Print(v) + "" == Print(w) + "";
      PrintReads(v, w, "", "");
    }
  }
}
