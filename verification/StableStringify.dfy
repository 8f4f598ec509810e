/** The text of a cache identity: JSON with the keys of every object in order. */
module StableStringify {
  import opened Common

  /**
   * A value to be written. A number is given by the platform's decimal writing
   * of it, so equal numbers are equal texts; the entries of an object stand in
   * the order in which the object lists them.
   */
  datatype Json =
    | Null
    | Undefined
    | Bool(value: bool)
    | Num(text: string)
    | Str(text: string)
    | Arr(items: seq<Json>)
    | Obj(entries: seq<Entry>)

  datatype Entry = Entry(key: string, value: Json)

  /** The order used for the keys of an object. */
  ghost predicate TotalOrder(leq: (string, string) -> bool) {
    && (forall a :: leq(a, a))
    && (forall a, b :: leq(a, b) || leq(b, a))
    && (forall a, b :: leq(a, b) && leq(b, a) ==> a == b)
    && (forall a, b, c :: leq(a, b) && leq(b, c) ==> leq(a, c))
  }

  const NUMBER_CHARS: string := "0123456789+-.e"

  predicate IsNumberText(text: string) {
    && text != [] && text[0] in "0123456789-"
    && forall i :: 0 <= i < |text| ==> text[i] in NUMBER_CHARS
  }

  predicate DistinctKeys(entries: seq<Entry>) {
    forall i, j :: 0 <= i < j < |entries| ==> entries[i].key != entries[j].key
  }

  predicate WellFormed(v: Json) {
    match v
    case Num(text) => IsNumberText(text)
    case Arr(items) => forall i :: 0 <= i < |items| ==> WellFormed(items[i])
    case Obj(entries) =>
      DistinctKeys(entries) && forall i :: 0 <= i < |entries| ==> WellFormed(entries[i].value)
    case _ => true
  }

  /** Equal up to the order in which objects list their entries. */
  ghost predicate Same(a: Json, b: Json)
    decreases a, 2
  {
    if a.Arr? && b.Arr? then
      |a.items| == |b.items| && forall i :: 0 <= i < |a.items| ==> Same(a.items[i], b.items[i])
    else if a.Obj? && b.Obj? then SameEntries(a.entries, b.entries)
    else a == b
  }

  ghost predicate SameEntries(es: seq<Entry>, fs: seq<Entry>)
    decreases es, 1
  {
    && (forall i :: 0 <= i < |es| ==> IsAmong(es[i], fs))
    && (forall j :: 0 <= j < |fs| ==> Holds(es, fs[j]))
  }

  /** Some entry on the right is the same as e. */
  ghost predicate IsAmong(e: Entry, fs: seq<Entry>)
    decreases e, 1
  {
    exists j :: 0 <= j < |fs| && Matches(e, fs[j])
  }

  /** Some entry on the left is the same as f. */
  ghost predicate Holds(es: seq<Entry>, f: Entry)
    decreases es, 0
  {
    exists i :: 0 <= i < |es| && Matches(es[i], f)
  }

  ghost predicate Matches(e: Entry, f: Entry)
    decreases e, 0
  {
    e.key == f.key && Same(e.value, f.value)
  }

  // ---- Writing ----

  function HexDigit(n: nat): char
    requires n < 16
  {
    "0123456789abcdef"[n]
  }

  /** One character between quotes. */
  function EscapeChar(c: char): string {
    if c == '\"' then "\\\""
    else if c == '\\' then "\\\\"
    else if c == '\U{0008}' then "\\b"
    else if c == '\t' then "\\t"
    else if c == '\n' then "\\n"
    else if c == '\U{000C}' then "\\f"
    else if c == '\r' then "\\r"
    else if c < ' ' then "\\u00" + [HexDigit(c as int / 16), HexDigit(c as int % 16)]
    else [c]
  }

  /** The short forms of section 7 of RFC 8259, save the one for the slash, which need not be escaped. */
  const SHORT_FORMS: map<char, char> := map['\"' := '\"', '\\' := '\\', '\U{0008}' := 'b', '\t' := 't', '\n' := 'n',
                                            '\U{000C}' := 'f', '\r' := 'r']

  /** A quotation mark, a backslash or a control character is escaped, shortly if that can be; others are not. */
  lemma EscapedAsNeeded(c: char)
    ensures EscapeChar(c) ==
            if c in SHORT_FORMS then ['\\', SHORT_FORMS[c]]
            else if 32 <= c as int then [c]
            else ['\\', 'u', '0', '0', "0123456789abcdef"[c as int / 16], "0123456789abcdef"[c as int % 16]]
  {
  }

  function Escape(s: string): string {
    if s == [] then [] else EscapeChar(s[0]) + Escape(s[1..])
  }

  function Quote(s: string): string {
    "\"" + (Escape(s) + "\"")
  }

  /** The items with commas between them, closed by the given bracket. */
  function WriteItems(items: seq<Json>): string {
    if items == [] then "]"
    else Write(items[0]) + (if |items| == 1 then "]" else "," + WriteItems(items[1..]))
  }

  function WriteEntries(entries: seq<Entry>): string {
    if entries == [] then "}"
    else Quote(entries[0].key) + (":" + (Write(entries[0].value)
           + (if |entries| == 1 then "}" else "," + WriteEntries(entries[1..]))))
  }

  /** The text of a value whose objects are already in order. */
  function Write(v: Json): string {
    match v
    case Null => "null"
    case Undefined => "undefined"
    case Bool(b) => if b then "true" else "false"
    case Num(text) => text
    case Str(text) => Quote(text)
    case Arr(items) => "[" + WriteItems(items)
    case Obj(entries) => "{" + WriteEntries(entries)
  }

  function InsertEntry(e: Entry, sorted: seq<Entry>, leq: (string, string) -> bool): seq<Entry> {
    if sorted == [] || leq(e.key, sorted[0].key) then [e] + sorted
    else [sorted[0]] + InsertEntry(e, sorted[1..], leq)
  }

  function SortEntries(entries: seq<Entry>, leq: (string, string) -> bool): seq<Entry> {
    if entries == [] then [] else InsertEntry(entries[0], SortEntries(entries[1..], leq), leq)
  }

  function InOrderItems(items: seq<Json>, leq: (string, string) -> bool): (r: seq<Json>)
    ensures |r| == |items|
    ensures forall i :: 0 <= i < |items| ==> r[i] == InOrder(items[i], leq)
  {
    if items == [] then [] else [InOrder(items[0], leq)] + InOrderItems(items[1..], leq)
  }

  function InOrderEntries(entries: seq<Entry>, leq: (string, string) -> bool): (r: seq<Entry>)
    ensures |r| == |entries|
    ensures forall i :: 0 <= i < |entries| ==> r[i] == Entry(entries[i].key, InOrder(entries[i].value, leq))
  {
    if entries == [] then []
    else [Entry(entries[0].key, InOrder(entries[0].value, leq))] + InOrderEntries(entries[1..], leq)
  }

  /** The value with the entries of every object, at every depth, in order of their keys. */
  function InOrder(v: Json, leq: (string, string) -> bool): Json {
    match v
    case Arr(items) => Arr(InOrderItems(items, leq))
    case Obj(entries) => Obj(SortEntries(InOrderEntries(entries, leq), leq))
    case _ => v
  }

  function Stringify(v: Json, leq: (string, string) -> bool): string {
    Write(InOrder(v, leq))
  }

  // ---- Reading back what was written ----

  /** What may follow a value: nothing, a comma or a closing bracket. */
  predicate Stops(rest: string) {
    rest == [] || rest[0] in ",]}"
  }

  function HexValue(c: char): nat {
    if '0' <= c <= '9' then c as int - '0' as int
    else if 'a' <= c <= 'f' then c as int - 'a' as int + 10
    else 0
  }

  /** Reads one character of a quoted text; None at the closing quote. */
  function ReadChar(s: string): Option<(char, string)> {
    if s == [] || s[0] == '\"' then None
    else if s[0] != '\\' then Some((s[0], s[1..]))
    else if |s| < 2 then None
    else if s[1] == 'u' then
      if |s| < 6 then None else Some(((16 * HexValue(s[4]) + HexValue(s[5])) as char, s[6..]))
    else
      Some((if s[1] == 'b' then '\U{0008}' else if s[1] == 't' then '\t' else if s[1] == 'n' then '\n'
            else if s[1] == 'f' then '\U{000C}' else if s[1] == 'r' then '\r' else s[1], s[2..]))
  }

  lemma ReadsEscaped(c: char, rest: string)
    ensures ReadChar(EscapeChar(c) + rest) == Some((c, rest))
  {
    var e := EscapeChar(c);
    assert (e + rest)[|e|..] == rest;
    if |e| == 6 {
      assert HexValue(e[4]) == c as int / 16 && HexValue(e[5]) == c as int % 16;
    }
  }

  lemma {:induction false} ReadsFirstOf(s: string, x: string)
    requires s != []
    ensures ReadChar(Escape(s) + "\"" + x) == Some((s[0], Escape(s[1..]) + "\"" + x))
  {
    hide ReadChar, EscapeChar;
    var e, rest := EscapeChar(s[0]), Escape(s[1..]);
    assert Escape(s) == e + rest;
    assert (e + rest) + "\"" + x == e + (rest + "\"" + x);
    ReadsEscaped(s[0], rest + "\"" + x);
  }

  lemma ReadsClosingQuote(x: string)
    ensures ReadChar(Escape("") + "\"" + x) == None
    ensures (Escape("") + "\"" + x)[1..] == x
  {
  }

  /** A quoted text ends where its closing quote is, so it determines the text and what follows. */
  lemma {:induction false} QuotedPrefix(s: string, t: string, x: string, y: string)
    requires Escape(s) + "\"" + x == Escape(t) + "\"" + y
    ensures s == t && x == y
  {
    hide ReadChar, Escape;
    ReadsClosingQuote(x);
    ReadsClosingQuote(y);
    if s != [] { ReadsFirstOf(s, x); }
    if t != [] { ReadsFirstOf(t, y); }
    if s != [] && t != [] {
      QuotedPrefix(s[1..], t[1..], x, y);
    }
  }

  lemma QuotePrefix(s: string, t: string, x: string, y: string)
    requires Quote(s) + x == Quote(t) + y
    ensures s == t && x == y
  {
    hide Escape;
    assert (Quote(s) + x)[1..] == Escape(s) + "\"" + x;
    assert (Quote(t) + y)[1..] == Escape(t) + "\"" + y;
    QuotedPrefix(s, t, x, y);
  }

  /** How far the characters of a number reach. */
  function NumberLength(s: string): nat {
    if s != [] && s[0] in NUMBER_CHARS then 1 + NumberLength(s[1..]) else 0
  }

  lemma {:induction false} NumberEnds(s: string, x: string)
    requires Stops(x) && forall i :: 0 <= i < |s| ==> s[i] in NUMBER_CHARS
    ensures NumberLength(s + x) == |s|
  {
    if s == [] {
      assert s + x == x;
    } else {
      NumberEnds(s[1..], x);
      assert (s + x)[1..] == s[1..] + x;
    }
  }

  lemma NumberPrefix(s: string, t: string, x: string, y: string)
    requires IsNumberText(s) && IsNumberText(t) && Stops(x) && Stops(y)
    requires s + x == t + y
    ensures s == t && x == y
  {
    NumberEnds(s, x);
    NumberEnds(t, y);
    assert s == (s + x)[..|s|] == t;
    assert x == (s + x)[|s|..] == y;
  }

  /** What the first character of a written value tells about it. */
  predicate StartsAs(v: Json, c: char) {
    match v
    case Null => c == 'n'
    case Undefined => c == 'u'
    case Bool(b) => c == if b then 't' else 'f'
    case Num(_) => c in "0123456789-"
    case Str(_) => c == '\"'
    case Arr(_) => c == '['
    case Obj(_) => c == '{'
  }

  lemma FirstChar(v: Json)
    requires WellFormed(v)
    ensures Write(v) != [] && StartsAs(v, Write(v)[0])
  {
  }

  lemma DifferentStarts(v: Json, w: Json, c: char)
    requires StartsAs(v, c) && StartsAs(w, c)
    ensures v.Null? == w.Null? && v.Undefined? == w.Undefined? && v.Bool? == w.Bool? && v.Num? == w.Num?
    ensures v.Str? == w.Str? && v.Arr? == w.Arr? && v.Obj? == w.Obj?
    ensures v.Bool? ==> v == w
  {
  }

  /** Texts that agree after the same first character agree without it. */
  lemma DropFirst(c: char, s: string, t: string, x: string, y: string)
    requires ([c] + s) + x == ([c] + t) + y
    ensures s + x == t + y
  {
    assert (([c] + s) + x)[1..] == s + x;
    assert (([c] + t) + y)[1..] == t + y;
  }

  lemma SameStart(v: Json, w: Json, x: string, y: string)
    requires WellFormed(v) && WellFormed(w) && Write(v) + x == Write(w) + y
    ensures v.Null? == w.Null? && v.Undefined? == w.Undefined? && v.Bool? == w.Bool? && v.Num? == w.Num?
    ensures v.Str? == w.Str? && v.Arr? == w.Arr? && v.Obj? == w.Obj?
    ensures v.Bool? ==> v == w
  {
    FirstChar(v);
    FirstChar(w);
    assert (Write(v) + x)[0] == Write(v)[0] && (Write(w) + y)[0] == Write(w)[0];
    DifferentStarts(v, w, Write(v)[0]);
  }

  /** The text of a value determines the value and where its text ends. */
  lemma {:induction false} WritePrefix(v: Json, w: Json, x: string, y: string)
    requires WellFormed(v) && WellFormed(w) && Stops(x) && Stops(y)
    requires Write(v) + x == Write(w) + y
    ensures v == w && x == y
    decreases v, 1
  {
    hide Quote, IsNumberText, Stops, WriteItems, WriteEntries;
    SameStart(v, w, x, y);
    match v {
      case Num(_) => NumberPrefix(v.text, w.text, x, y);
      case Str(_) => QuotePrefix(v.text, w.text, x, y);
      case Arr(items) =>
        DropFirst('[', WriteItems(items), WriteItems(w.items), x, y);
        ItemsPrefix(items, w.items, x, y);
      case Obj(entries) =>
        DropFirst('{', WriteEntries(entries), WriteEntries(w.entries), x, y);
        EntriesPrefix(entries, w.entries, x, y);
      case _ =>
        assert Write(v) == Write(w);
        assert x == (Write(v) + x)[|Write(v)|..] == y;
    }
  }

  lemma ClosingBrackets()
    ensures WriteItems([]) == "]" && WriteEntries([]) == "}"
  {
  }

  /** What stands after the first item. */
  function AfterItem(xs: seq<Json>, x: string): string
    requires xs != []
  {
    if |xs| == 1 then "]" + x else "," + (WriteItems(xs[1..]) + x)
  }

  lemma {:induction false} ItemSplit(xs: seq<Json>, x: string)
    requires xs != []
    ensures WriteItems(xs) + x == Write(xs[0]) + AfterItem(xs, x)
    ensures Stops(AfterItem(xs, x))
  {
    hide Write;
    var close := if |xs| == 1 then "]" else "," + WriteItems(xs[1..]);
    assert close + x == AfterItem(xs, x);
    assert (Write(xs[0]) + close) + x == Write(xs[0]) + (close + x);
  }

  lemma FirstCharOfItems(xs: seq<Json>, x: string)
    requires xs != [] ==> WellFormed(xs[0])
    ensures WriteItems(xs) != [] && (WriteItems(xs) + x)[0] == WriteItems(xs)[0]
    ensures WriteItems(xs)[0] == ']' <==> xs == []
  {
    if xs != [] {
      FirstChar(xs[0]);
    }
  }

  lemma NotEmptyList(xs: seq<Json>, x: string, y: string)
    requires xs != [] ==> WellFormed(xs[0])
    requires WriteItems(xs) + x == "]" + y
    ensures xs == [] && x == y
  {
    FirstCharOfItems(xs, x);
    assert ("]" + y)[0] == ']' && ("]" + y)[1..] == y;
    assert ("]" + x)[1..] == x;
  }

  lemma {:induction false} ItemsPrefix(xs: seq<Json>, ys: seq<Json>, x: string, y: string)
    requires forall i :: 0 <= i < |xs| ==> WellFormed(xs[i])
    requires forall i :: 0 <= i < |ys| ==> WellFormed(ys[i])
    requires WriteItems(xs) + x == WriteItems(ys) + y
    ensures xs == ys && x == y
    decreases xs, 0
  {
    hide Write, WellFormed, WriteItems, Stops;
    if xs == [] || ys == [] {
      ClosingBrackets();
      if xs == [] { NotEmptyList(ys, y, x); } else { NotEmptyList(xs, x, y); }
    } else {
      ItemSplit(xs, x);
      ItemSplit(ys, y);
      var after, after' := AfterItem(xs, x), AfterItem(ys, y);
      WritePrefix(xs[0], ys[0], after, after');
      assert after[0] == (if |xs| == 1 then ']' else ',') && after'[0] == (if |ys| == 1 then ']' else ',');
      if |xs| == 1 {
        assert after[1..] == x && after'[1..] == y;
      } else {
        assert after[1..] == WriteItems(xs[1..]) + x && after'[1..] == WriteItems(ys[1..]) + y;
        ItemsPrefix(xs[1..], ys[1..], x, y);
        assert xs == [xs[0]] + xs[1..] && ys == [ys[0]] + ys[1..];
      }
    }
  }

  /** What stands after the first entry. */
  function AfterEntry(es: seq<Entry>, x: string): string
    requires es != []
  {
    if |es| == 1 then "}" + x else "," + (WriteEntries(es[1..]) + x)
  }

  lemma {:induction false} EntrySplit(es: seq<Entry>, x: string)
    requires es != []
    ensures WriteEntries(es) + x == Quote(es[0].key) + (":" + (Write(es[0].value) + AfterEntry(es, x)))
    ensures Stops(AfterEntry(es, x))
  {
    hide Write, Quote;
    var close := if |es| == 1 then "}" else "," + WriteEntries(es[1..]);
    var value := Write(es[0].value);
    assert close + x == AfterEntry(es, x);
    assert (value + close) + x == value + (close + x);
    assert (":" + (value + close)) + x == ":" + ((value + close) + x);
  }

  lemma FirstCharOfEntries(es: seq<Entry>, x: string)
    ensures WriteEntries(es) != [] && (WriteEntries(es) + x)[0] == WriteEntries(es)[0]
    ensures WriteEntries(es)[0] == '}' <==> es == []
  {
  }

  lemma NotEmptyObject(es: seq<Entry>, x: string, y: string)
    requires WriteEntries(es) + x == "}" + y
    ensures es == [] && x == y
  {
    FirstCharOfEntries(es, x);
    assert ("}" + y)[0] == '}' && ("}" + y)[1..] == y;
    assert ("}" + x)[1..] == x;
  }

  lemma {:induction false} EntriesPrefix(es: seq<Entry>, fs: seq<Entry>, x: string, y: string)
    requires forall i :: 0 <= i < |es| ==> WellFormed(es[i].value)
    requires forall i :: 0 <= i < |fs| ==> WellFormed(fs[i].value)
    requires WriteEntries(es) + x == WriteEntries(fs) + y
    ensures es == fs && x == y
    decreases es, 0
  {
    hide Write, WellFormed, WriteEntries, Quote, Stops;
    if es == [] || fs == [] {
      ClosingBrackets();
      if es == [] { NotEmptyObject(fs, y, x); } else { NotEmptyObject(es, x, y); }
    } else {
      EntrySplit(es, x);
      EntrySplit(fs, y);
      var after, after' := AfterEntry(es, x), AfterEntry(fs, y);
      QuotePrefix(es[0].key, fs[0].key, ":" + (Write(es[0].value) + after), ":" + (Write(fs[0].value) + after'));
      assert (":" + (Write(es[0].value) + after))[1..] == Write(es[0].value) + after;
      assert (":" + (Write(fs[0].value) + after'))[1..] == Write(fs[0].value) + after';
      WritePrefix(es[0].value, fs[0].value, after, after');
      assert after[0] == (if |es| == 1 then '}' else ',') && after'[0] == (if |fs| == 1 then '}' else ',');
      if |es| == 1 {
        assert after[1..] == x && after'[1..] == y;
      } else {
        assert after[1..] == WriteEntries(es[1..]) + x && after'[1..] == WriteEntries(fs[1..]) + y;
        EntriesPrefix(es[1..], fs[1..], x, y);
        assert es == [es[0]] + es[1..] && fs == [fs[0]] + fs[1..];
      }
    }
  }

  // ---- Ordering the entries ----

  ghost predicate Ascending(s: seq<Entry>, leq: (string, string) -> bool) {
    forall i, j :: 0 <= i < j < |s| ==> leq(s[i].key, s[j].key) && s[i].key != s[j].key
  }

  lemma {:induction false} InsertAscending(e: Entry, sorted: seq<Entry>, leq: (string, string) -> bool)
    requires TotalOrder(leq) && Ascending(sorted, leq)
    requires forall i :: 0 <= i < |sorted| ==> sorted[i].key != e.key
    ensures Ascending(InsertEntry(e, sorted, leq), leq)
    ensures forall f :: f in InsertEntry(e, sorted, leq) <==> f == e || f in sorted
  {
    if sorted != [] && !leq(e.key, sorted[0].key) {
      InsertAscending(e, sorted[1..], leq);
      var rest := InsertEntry(e, sorted[1..], leq);
      assert sorted == [sorted[0]] + sorted[1..];
      forall i | 0 <= i < |rest| ensures leq(sorted[0].key, rest[i].key) && sorted[0].key != rest[i].key {
        assert rest[i] in rest;
        if rest[i] != e {
          assert rest[i] in sorted[1..];
        }
      }
    }
  }

  lemma {:induction false} SortAscending(entries: seq<Entry>, leq: (string, string) -> bool)
    requires TotalOrder(leq) && DistinctKeys(entries)
    ensures Ascending(SortEntries(entries, leq), leq)
    ensures forall f :: f in SortEntries(entries, leq) <==> f in entries
  {
    if entries != [] {
      var rest := entries[1..];
      SortAscending(rest, leq);
      var sorted := SortEntries(rest, leq);
      forall i | 0 <= i < |sorted| ensures sorted[i].key != entries[0].key {
        assert sorted[i] in sorted;
        assert sorted[i] in rest;
      }
      InsertAscending(entries[0], sorted, leq);
      assert entries == [entries[0]] + rest;
    }
  }

  lemma LeastFirst(s: seq<Entry>, k: nat, leq: (string, string) -> bool)
    requires TotalOrder(leq) && Ascending(s, leq) && k < |s|
    ensures leq(s[0].key, s[k].key)
    ensures s[k].key == s[0].key ==> k == 0
  {
  }

  /** Lists in order with the same entries are the same list. */
  lemma {:induction false} AscendingUnique(s: seq<Entry>, t: seq<Entry>, leq: (string, string) -> bool)
    requires TotalOrder(leq) && Ascending(s, leq) && Ascending(t, leq)
    requires forall f :: f in s <==> f in t
    ensures s == t
  {
    assert s != [] ==> s[0] in s;
    assert t != [] ==> t[0] in t;
    if s != [] && t != [] {
      var k :| 0 <= k < |t| && t[k] == s[0];
      var m :| 0 <= m < |s| && s[m] == t[0];
      LeastFirst(t, k, leq);
      LeastFirst(s, m, leq);
      assert s[0] == t[0];
      forall f ensures f in s[1..] <==> f in t[1..] {
        assert f in s[1..] <==> f in s && f != s[0] by { TailOf(s, f, leq); }
        assert f in t[1..] <==> f in t && f != t[0] by { TailOf(t, f, leq); }
      }
      AscendingUnique(s[1..], t[1..], leq);
      assert s == [s[0]] + s[1..] && t == [t[0]] + t[1..];
    }
  }

  lemma TailOf(s: seq<Entry>, f: Entry, leq: (string, string) -> bool)
    requires s != [] && Ascending(s, leq)
    ensures f in s[1..] <==> f in s && f != s[0]
  {
    if f in s[1..] {
      var k :| 0 <= k < |s[1..]| && s[1..][k] == f;
      assert s[k + 1] == f;
    }
    if f in s && f != s[0] {
      var k :| 0 <= k < |s| && s[k] == f;
      assert s[1..][k - 1] == f;
    }
  }

  // ---- The main result ----

  lemma {:induction false} InOrderWellFormed(v: Json, leq: (string, string) -> bool)
    requires TotalOrder(leq) && WellFormed(v)
    ensures WellFormed(InOrder(v, leq))
  {
    match v {
      case Arr(items) =>
        forall i | 0 <= i < |items| ensures WellFormed(InOrderItems(items, leq)[i]) {
          InOrderWellFormed(items[i], leq);
        }
      case Obj(entries) =>
        var es := InOrderEntries(entries, leq);
        SortAscending(es, leq);
        var sorted := SortEntries(es, leq);
        forall i | 0 <= i < |sorted| ensures WellFormed(sorted[i].value) {
          assert sorted[i] in sorted;
          var k :| 0 <= k < |es| && es[k] == sorted[i];
          InOrderWellFormed(entries[k].value, leq);
        }
      case _ =>
    }
  }

  /** Ordering makes exactly the values equal that were equal up to key order. */
  lemma {:induction false} InOrderCanonical(a: Json, b: Json, leq: (string, string) -> bool)
    requires TotalOrder(leq) && WellFormed(a) && WellFormed(b)
    ensures InOrder(a, leq) == InOrder(b, leq) <==> Same(a, b)
  {
    match (a, b) {
      case (Arr(xs), Arr(ys)) =>
        forall i | 0 <= i < |xs| && i < |ys|
          ensures InOrder(xs[i], leq) == InOrder(ys[i], leq) <==> Same(xs[i], ys[i])
        {
          InOrderCanonical(xs[i], ys[i], leq);
        }
        var p, q := InOrderItems(xs, leq), InOrderItems(ys, leq);
        assert p == q <==> |p| == |q| && forall i :: 0 <= i < |p| ==> p[i] == q[i];
      case (Obj(es), Obj(fs)) =>
        forall i, j | 0 <= i < |es| && 0 <= j < |fs|
          ensures InOrder(es[i].value, leq) == InOrder(fs[j].value, leq) <==> Same(es[i].value, fs[j].value)
        {
          InOrderCanonical(es[i].value, fs[j].value, leq);
        }
        EntriesCanonical(es, fs, leq);
      case _ =>
    }
  }

  lemma {:induction false} EntriesCanonical(es: seq<Entry>, fs: seq<Entry>, leq: (string, string) -> bool)
    requires TotalOrder(leq) && DistinctKeys(es) && DistinctKeys(fs)
    requires forall i, j :: 0 <= i < |es| && 0 <= j < |fs| ==>
        (InOrder(es[i].value, leq) == InOrder(fs[j].value, leq) <==> Same(es[i].value, fs[j].value))
    ensures SortEntries(InOrderEntries(es, leq), leq) == SortEntries(InOrderEntries(fs, leq), leq)
        <==> SameEntries(es, fs)
  {
    hide InOrder;
    var p, q := InOrderEntries(es, leq), InOrderEntries(fs, leq);
    SortAscending(p, leq);
    SortAscending(q, leq);
    assert forall i, j :: 0 <= i < |es| && 0 <= j < |fs| ==> (p[i] == q[j] <==> Matches(es[i], fs[j]));
    if SortEntries(p, leq) == SortEntries(q, leq) {
      assert forall f :: f in p <==> f in q;
      SameMembersMatch(es, fs, p, q);
    }
    if SameEntries(es, fs) {
      MatchSameMembers(es, fs, p, q);
      AscendingUnique(SortEntries(p, leq), SortEntries(q, leq), leq);
    }
  }

  lemma {:induction false} SameMembersMatch(es: seq<Entry>, fs: seq<Entry>, p: seq<Entry>, q: seq<Entry>)
    requires |es| == |p| && |fs| == |q|
    requires forall i, j :: 0 <= i < |es| && 0 <= j < |fs| ==> (p[i] == q[j] <==> Matches(es[i], fs[j]))
    requires forall f :: f in p <==> f in q
    ensures SameEntries(es, fs)
  {
    forall i | 0 <= i < |es|
      ensures IsAmong(es[i], fs)
    {
      assert p[i] in q;
      var j :| 0 <= j < |q| && q[j] == p[i];
      assert Matches(es[i], fs[j]);
    }
    forall j | 0 <= j < |fs|
      ensures Holds(es, fs[j])
    {
      assert q[j] in p;
      var i :| 0 <= i < |p| && p[i] == q[j];
      assert Matches(es[i], fs[j]);
    }
  }

  lemma {:induction false} MatchSameMembers(es: seq<Entry>, fs: seq<Entry>, p: seq<Entry>, q: seq<Entry>)
    requires |es| == |p| && |fs| == |q|
    requires forall i, j :: 0 <= i < |es| && 0 <= j < |fs| ==> (p[i] == q[j] <==> Matches(es[i], fs[j]))
    requires SameEntries(es, fs)
    ensures forall f :: f in p <==> f in q
  {
    forall f ensures f in p <==> f in q {
      if f in p {
        var i :| 0 <= i < |p| && p[i] == f;
        assert IsAmong(es[i], fs);
        var j :| 0 <= j < |fs| && Matches(es[i], fs[j]);
        assert q[j] == f;
      }
      if f in q {
        var j :| 0 <= j < |q| && q[j] == f;
        assert Holds(es, fs[j]);
        var i :| 0 <= i < |es| && Matches(es[i], fs[j]);
        assert p[i] == f;
      }
    }
  }

  /** Two identities have the same text exactly when they are equal up to the order of object keys. */
  lemma SameTextSameValue(a: Json, b: Json, leq: (string, string) -> bool)
    requires TotalOrder(leq) && WellFormed(a) && WellFormed(b)
    ensures Stringify(a, leq) == Stringify(b, leq) <==> Same(a, b)
  {
    InOrderCanonical(a, b, leq);
    InOrderWellFormed(a, leq);
    InOrderWellFormed(b, leq);
    if Stringify(a, leq) == Stringify(b, leq) {
      WritePrefix(InOrder(a, leq), InOrder(b, leq), "", "");
    }
  }

  /** The order of the source: sort the entries, then write each key and the text of its value. */
  lemma {:induction false} ObjectText(entries: seq<Entry>, leq: (string, string) -> bool)
    ensures Stringify(Obj(entries), leq) == "{" + WriteEntries(InOrderEntries(SortEntries(entries, leq), leq))
  {
    SortThenRewrite(entries, leq);
  }

  lemma {:induction false} SortThenRewrite(entries: seq<Entry>, leq: (string, string) -> bool)
    ensures SortEntries(InOrderEntries(entries, leq), leq) == InOrderEntries(SortEntries(entries, leq), leq)
  {
    if entries != [] {
      SortThenRewrite(entries[1..], leq);
      InsertThenRewrite(entries[0], SortEntries(entries[1..], leq), leq);
    }
  }

  lemma {:induction false} InsertThenRewrite(e: Entry, sorted: seq<Entry>, leq: (string, string) -> bool)
    ensures InsertEntry(Entry(e.key, InOrder(e.value, leq)), InOrderEntries(sorted, leq), leq)
         == InOrderEntries(InsertEntry(e, sorted, leq), leq)
  {
    if sorted != [] && !leq(e.key, sorted[0].key) {
      InsertThenRewrite(e, sorted[1..], leq);
    }
  }
}
