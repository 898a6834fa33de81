/**
 * Decoded JSON values as the Python code sees them after `json.loads`, and the
 * few pieces of Python semantics the core applies to them: `dict.get`, item
 * assignment, truthiness, `str()` and `str.lower()`.
 */
module Json {

  datatype Option<+T> = None | Some(value: T)

  /** A JSON value; an object keeps its entries in iteration (insertion) order. */
  datatype Json =
    | JNull
    | JBool(b: bool)
    | JNum(n: int)
    | JStr(s: string)
    | JArr(items: seq<Json>)
    | JObj(entries: seq<Entry>)

  datatype Entry = Entry(key: string, value: Json)

  /** `d.get(key)`: the value of the first entry carrying `key`, if any. */
  function Lookup(entries: seq<Entry>, key: string): (r: Option<Json>)
  {
    if entries == [] then None
    else if entries[0].key == key then Some(entries[0].value)
    else Lookup(entries[1..], key)
  }

  /** `d.get(key, default)` on a dictionary. */
  function GetOr(entries: seq<Entry>, key: string, default: Json): Json
  {
    match Lookup(entries, key)
    case Some(v) => v
    case None => default
  }

  /** `d[key] = v`: replaces the value of an existing key in place, or appends a new entry. */
  function Set(entries: seq<Entry>, key: string, v: Json): (r: seq<Entry>)
    ensures Lookup(r, key) == Some(v)
    ensures forall k | k != key :: Lookup(r, k) == Lookup(entries, k)
    ensures Lookup(entries, key).Some? ==> |r| == |entries|
    ensures Lookup(entries, key).None? ==> r == entries + [Entry(key, v)]
  {
    if entries == [] then [Entry(key, v)]
    else if entries[0].key == key then [Entry(key, v)] + entries[1..]
    else
      var rest := Set(entries[1..], key, v);
      assert entries == [entries[0]] + entries[1..];
      [entries[0]] + rest
  }

  /** Assigning the value a key already has changes nothing. */
  lemma {:induction false} SetExisting(entries: seq<Entry>, key: string, v: Json)
    requires Lookup(entries, key) == Some(v)
    ensures Set(entries, key, v) == entries
  {
    if entries != [] && entries[0].key != key {
      SetExisting(entries[1..], key, v);
    }
  }

  /** Python truthiness: None, False, 0, "", [] and {} are false. */
  predicate Truthy(j: Json)
  {
    match j
    case JNull => false
    case JBool(b) => b
    case JNum(n) => n != 0
    case JStr(s) => s != ""
    case JArr(items) => items != []
    case JObj(entries) => entries != []
  }

  /** `str.lower()` on one character (ASCII letters only). */
  function LowerChar(c: char): char
  {
    if 'A' <= c <= 'Z' then (c as int + 32) as char else c
  }

  /** `str.lower()`. */
  function Lower(s: string): (r: string)
    ensures |r| == |s|
    ensures forall i | 0 <= i < |s| :: r[i] == LowerChar(s[i])
  {
    if s == [] then [] else [LowerChar(s[0])] + Lower(s[1..])
  }

  lemma {:induction false} LowerConcat(a: string, b: string)
    ensures Lower(a + b) == Lower(a) + Lower(b)
  {
    var l, r := Lower(a + b), Lower(a) + Lower(b);
    assert |l| == |r|;
    forall i | 0 <= i < |l| ensures l[i] == r[i] {
      if i < |a| { assert (a + b)[i] == a[i]; } else { assert (a + b)[i] == b[i - |a|]; }
    }
  }

  /** Python's `sub in s` on strings. */
  predicate Contains(s: string, sub: string)
  {
    exists i | 0 <= i <= |s| - |sub| :: sub <= s[i..]
  }

  /** A substring of a part is a substring of the whole. */
  lemma ContainsInfix(a: string, s: string, b: string, sub: string)
    requires Contains(s, sub)
    ensures Contains(a + s + b, sub)
  {
    var i :| 0 <= i <= |s| - |sub| && sub <= s[i..];
    var t := a + s + b;
    assert t[|a| + i..][..|sub|] == s[i..][..|sub|];
    assert sub <= t[|a| + i..];
  }

  /** Decimal digits of a natural number, as `str(n)` prints them. */
  function NatToString(n: nat): (r: string)
    ensures |r| >= 1
    ensures forall i | 0 <= i < |r| :: '0' <= r[i] <= '9'
  {
    if n < 10 then [('0' as int + n) as char]
    else NatToString(n / 10) + [('0' as int + n % 10) as char]
  }

  /** `str(n)` for an integer. */
  function IntToString(n: int): string
  {
    if n < 0 then "-" + NatToString(-n) else NatToString(n)
  }

  /** `repr(j)`: what Python prints for the value inside a container. */
  function Repr(j: Json): string
    decreases j, 1
  {
    match j
    case JNull => "None"
    case JBool(b) => if b then "True" else "False"
    case JNum(n) => IntToString(n)
    case JStr(s) => "'" + s + "'"
    case JArr(items) => "[" + ReprItems(j, items) + "]"
    case JObj(entries) => "{" + ReprEntries(j, entries) + "}"
  }

  function ReprItems(ghost parent: Json, items: seq<Json>): string
    requires forall x | x in items :: x < parent
    decreases parent, 0, |items|
  {
    if items == [] then ""
    else
      assert items[0] in items;
      if |items| == 1 then Repr(items[0])
      else
        assert forall x | x in items[1..] :: x in items;
        Repr(items[0]) + ", " + ReprItems(parent, items[1..])
  }

  function ReprEntries(ghost parent: Json, entries: seq<Entry>): string
    requires forall e | e in entries :: e.value < parent
    decreases parent, 0, |entries|
  {
    if entries == [] then ""
    else
      assert entries[0] in entries;
      assert forall e | e in entries[1..] :: e in entries;
      var head := "'" + entries[0].key + "': " + Repr(entries[0].value);
      if |entries| == 1 then head else head + ", " + ReprEntries(parent, entries[1..])
  }

  /** Python's name for the type of a value, as error messages print it. */
  function TypeName(j: Json): string
  {
    match j
    case JNull => "NoneType"
    case JBool(_) => "bool"
    case JNum(_) => "int"
    case JStr(_) => "str"
    case JArr(_) => "list"
    case JObj(_) => "dict"
  }

  /** `str(j)`: a string is itself, anything else prints as its repr. */
  function Str(j: Json): string
  {
    if j.JStr? then j.s else Repr(j)
  }

  /** A phrase found in the lower-cased middle part is found in the lower-cased whole. */
  lemma ContainsLowerInfix(a: string, x: string, b: string, sub: string)
    requires Contains(Lower(x), sub)
    ensures Contains(Lower(a + x + b), sub)
  {
    LowerConcat(a, x);
    LowerConcat(a + x, b);
    ContainsInfix(Lower(a), Lower(x), Lower(b), sub);
  }

  /**
   * A string stored under any key of a dictionary shows up verbatim in the
   * dictionary's `str()`, so a phrase in it is found by a search of the
   * whole text.
   */
  lemma {:induction false} StrShowsEntryString(parent: Json, entries: seq<Entry>, key: string, s: string, sub: string)
    requires forall e | e in entries :: e.value < parent
    requires Lookup(entries, key) == Some(JStr(s))
    requires Contains(Lower(s), sub)
    ensures Contains(Lower(ReprEntries(parent, entries)), sub)
  {
    assert entries[0] in entries;
    var head := "'" + entries[0].key + "': " + Repr(entries[0].value);
    var tail := if |entries| == 1 then "" else ", " + ReprEntries(parent, entries[1..]);
    assert ReprEntries(parent, entries) == head + tail;
    if entries[0].key == key {
      EntryShowsString(key, s, tail, sub);
    } else {
      assert forall e | e in entries[1..] :: e in entries;
      var rest := ReprEntries(parent, entries[1..]);
      StrShowsEntryString(parent, entries[1..], key, s, sub);
      assert head + tail == (head + ", ") + rest + "";
      ContainsLowerInfix(head + ", ", rest, "", sub);
    }
  }

  lemma EntryShowsString(key: string, s: string, tail: string, sub: string)
    requires Contains(Lower(s), sub)
    ensures Contains(Lower("'" + key + "': " + Repr(JStr(s)) + tail), sub)
  {
    var pre := "'" + key + "': '";
    calc {
      "'" + key + "': " + Repr(JStr(s)) + tail;
      "'" + key + "': " + ("'" + s + "'") + tail;
      { assert "'" + key + "': " + ("'" + s + "'") == pre + s + "'"; }
      pre + s + "'" + tail;
      pre + s + ("'" + tail);
    }
    ContainsLowerInfix(pre, s, "'" + tail, sub);
  }

  /** The same fact for the printed dictionary itself. */
  lemma DictStrShowsEntryString(entries: seq<Entry>, key: string, s: string, sub: string)
    requires Lookup(entries, key) == Some(JStr(s))
    requires Contains(Lower(s), sub)
    ensures Contains(Lower(Str(JObj(entries))), sub)
  {
    var j := JObj(entries);
    StrShowsEntryString(j, entries, key, s, sub);
    ContainsLowerInfix("{", ReprEntries(j, entries), "}", sub);
  }
}
