/**
 * Shared vocabulary: failure-carrying datatypes, the JSON values that request
 * bodies and configuration files carry, and the small string operations the
 * Python code relies on (str.strip, str.lower, `in` on strings, str.split,
 * str.join, str(int) and int(str)), restricted to ASCII.
 */
module Common {

  datatype Option<T> = None | Some(value: T)

  /** An operation that either yields a value or raises with a message. */
  datatype Result<T> = Ok(value: T) | Err(error: string)

  /**
   * A decoded JSON value. Numbers are kept as an exact decimal
   * `units / 10^scale` (`JNum(45000, 2)` is 450.00, `JNum(7, 0)` is 7);
   * objects keep their keys in document order.
   */
  datatype Json =
    | JNull
    | JBool(b: bool)
    | JNum(units: int, scale: nat)
    | JStr(s: string)
    | JList(items: seq<Json>)
    | JObject(entries: seq<(string, Json)>)

  /**
   * `obj.get(key)` on a decoded JSON object: the value of the last entry
   * with that key (the decoder keeps the last of duplicate keys), or None.
   */
  function Get(data: seq<(string, Json)>, key: string): (r: Option<Json>)
    ensures r.Some? <==> exists i :: 0 <= i < |data| && data[i].0 == key
    ensures r.Some? ==> exists i :: 0 <= i < |data| && data[i] == (key, r.value)
  {
    if data == [] then None
    else if data[|data| - 1].0 == key then Some(data[|data| - 1].1)
    else
      var r := Get(data[..|data| - 1], key);
      assert forall i :: 0 <= i < |data| - 1 ==> data[..|data| - 1][i] == data[i];
      r
  }

  /**
   * The items of the dict the JSON decoder builds from an object's entries:
   * each key once, at the place of its first entry, with its last value.
   */
  function DictItems(entries: seq<(string, Json)>): (r: seq<(string, Json)>)
  {
    if entries == [] then []
    else
      var n := |entries| - 1;
      Put(DictItems(entries[..n]), entries[n].0, entries[n].1)
  }

  /** `d[key] = value` on dict items: replaced in place, or appended when new. */
  function Put(items: seq<(string, Json)>, key: string, value: Json): (r: seq<(string, Json)>)
  {
    if items == [] then [(key, value)]
    else
      var n := |items| - 1;
      if items[n].0 == key then items[..n] + [(key, value)]
      else Put(items[..n], key, value) + [items[n]]
  }

  lemma {:induction false} GetPut(items: seq<(string, Json)>, key: string, value: Json, k: string)
    ensures Get(Put(items, key, value), k) == if k == key then Some(value) else Get(items, k)
    decreases |items|
  {
    if items != [] {
      var n := |items| - 1;
      if items[n].0 == key {
        assert (items[..n] + [(key, value)])[..n] == items[..n];
      } else {
        GetPut(items[..n], key, value, k);
        var p := Put(items[..n], key, value);
        assert (p + [items[n]])[..|p|] == p;
      }
    }
  }

  /** `get` on the decoder's dict is `get` on the entries. */
  lemma {:induction false} DictItemsSpec(entries: seq<(string, Json)>)
    ensures forall k :: Get(DictItems(entries), k) == Get(entries, k)
    decreases |entries|
  {
    if entries != [] {
      var n := |entries| - 1;
      DictItemsSpec(entries[..n]);
      forall k
        ensures Get(DictItems(entries), k) == Get(entries, k)
      {
        GetPut(DictItems(entries[..n]), entries[n].0, entries[n].1, k);
      }
    }
  }

  /** Python truthiness of a decoded JSON value. */
  predicate Truthy(v: Json)
  {
    match v
    case JNull => false
    case JBool(b) => b
    case JNum(u, _) => u != 0
    case JStr(s) => s != ""
    case JList(xs) => xs != []
    case JObject(es) => es != []
  }

  function Pow10(n: nat): (r: nat)
    ensures r >= 1
  {
    if n == 0 then 1 else 10 * Pow10(n - 1)
  }

  // ---------------------------------------------------------------------------
  // Characters

  function Abs(x: int): (r: int)
    ensures r >= 0 && (r == x || r == -x)
  {
    if x < 0 then -x else x
  }

  predicate IsAsciiDigit(c: char) { '0' <= c <= '9' }

  predicate IsAsciiLetter(c: char) { ('a' <= c <= 'z') || ('A' <= c <= 'Z') }

  /** The ASCII characters for which Python's str.isspace() holds. */
  predicate IsSpace(c: char)
  {
    c == ' ' || c == '\t' || c == '\n' || c == '\r' || c == '\U{B}' || c == '\U{C}'
    || ('\U{1C}' <= c <= '\U{1F}')
  }

  function LowerChar(c: char): (r: char)
    ensures 'A' <= c <= 'Z' ==> 'a' <= r <= 'z'
    ensures !('A' <= c <= 'Z') ==> r == c
  {
    if 'A' <= c <= 'Z' then (c as int + 32) as char else c
  }

  /** str.lower() on ASCII letters; every other character is kept. */
  function Lower(s: string): (r: string)
    ensures |r| == |s|
    ensures forall i :: 0 <= i < |s| ==> r[i] == LowerChar(s[i])
  {
    if s == [] then [] else [LowerChar(s[0])] + Lower(s[1..])
  }

  lemma {:induction false} LowerIdempotent(s: string)
    ensures Lower(Lower(s)) == Lower(s)
  {
    if s != [] {
      LowerIdempotent(s[1..]);
      assert Lower(s)[1..] == Lower(s[1..]);
    }
  }

  // ---------------------------------------------------------------------------
  // Prefixes and substrings

  predicate StartsWith(s: string, prefix: string)
  {
    |prefix| <= |s| && s[..|prefix|] == prefix
  }

  /** A character in neither part is not in their concatenation. */
  lemma CharNotInConcat(c: char, a: string, b: string)
    requires c !in a && c !in b
    ensures c !in a + b
  {
    forall i | 0 <= i < |a + b|
      ensures (a + b)[i] != c
    {
      if i < |a| { assert (a + b)[i] == a[i]; } else { assert (a + b)[i] == b[i - |a|]; }
    }
  }

  /** `needle in hay` for Python strings, as a specification. */
  ghost predicate OccursIn(needle: string, hay: string)
  {
    exists i :: OccursAt(needle, hay, i)
  }

  predicate OccursAt(needle: string, hay: string, i: int)
  {
    0 <= i <= |hay| - |needle| && hay[i..i + |needle|] == needle
  }

  /** `needle in hay`, computed by trying every start position. */
  function Contains(hay: string, needle: string): bool
    decreases |hay|
  {
    if StartsWith(hay, needle) then true
    else if hay == [] then false
    else Contains(hay[1..], needle)
  }

  lemma {:induction false} ContainsCorrect(hay: string, needle: string)
    ensures Contains(hay, needle) <==> OccursIn(needle, hay)
    decreases |hay|
  {
    if StartsWith(hay, needle) {
      assert OccursAt(needle, hay, 0);
    } else if hay == [] {
      assert |needle| > 0;
    } else {
      ContainsCorrect(hay[1..], needle);
      OccursShift(hay, needle);
    }
  }

  /** An occurrence is at the front or in the tail. */
  lemma OccursShift(hay: string, needle: string)
    requires hay != []
    ensures OccursIn(needle, hay) <==> StartsWith(hay, needle) || OccursIn(needle, hay[1..])
  {
    if StartsWith(hay, needle) {
      assert OccursAt(needle, hay, 0);
    }
    if OccursIn(needle, hay[1..]) {
      var i :| OccursAt(needle, hay[1..], i);
      assert hay[i + 1..i + 1 + |needle|] == hay[1..][i..i + |needle|];
      assert OccursAt(needle, hay, i + 1);
    }
    if OccursIn(needle, hay) && !StartsWith(hay, needle) {
      var i :| OccursAt(needle, hay, i);
      assert hay[0..|needle|] == hay[..|needle|];
      assert hay[i..i + |needle|] == hay[1..][i - 1..i - 1 + |needle|];
      assert OccursAt(needle, hay[1..], i - 1);
    }
  }

  /** The index of the first `c` or `C` in `s`, or |s| when there is none. */
  function FindEither(s: string, c: char, C: char): (r: nat)
    ensures r <= |s|
    ensures r < |s| ==> s[r] == c || s[r] == C
    ensures forall i :: 0 <= i < r ==> s[i] != c && s[i] != C
  {
    if s == [] then 0
    else if s[0] == c || s[0] == C then 0
    else 1 + FindEither(s[1..], c, C)
  }

  // ---------------------------------------------------------------------------
  // str.strip()

  predicate AllSpace(t: string)
  {
    forall i :: 0 <= i < |t| ==> IsSpace(t[i])
  }

  function LStrip(s: string): (r: string)
    ensures |r| <= |s| && r == s[|s| - |r|..]
    ensures r == [] || !IsSpace(r[0])
    ensures AllSpace(s[..|s| - |r|])
  {
    if s != [] && IsSpace(s[0]) then
      var r := LStrip(s[1..]);
      assert s[..|s| - |r|] == [s[0]] + s[1..][..|s| - 1 - |r|];
      r
    else s
  }

  function RStrip(s: string): (r: string)
    ensures |r| <= |s| && r == s[..|r|]
    ensures r == [] || !IsSpace(r[|r| - 1])
    ensures AllSpace(s[|r|..])
  {
    if s != [] && IsSpace(s[|s| - 1]) then
      var r := RStrip(s[..|s| - 1]);
      assert s[|r|..] == s[..|s| - 1][|r|..] + [s[|s| - 1]];
      r
    else s
  }

  /** str.strip(). */
  function Strip(s: string): string
  {
    RStrip(LStrip(s))
  }

  /**
   * What str.strip() returns: an infix of `s` with no whitespace at either
   * end, empty exactly when `s` is all whitespace.
   */
  lemma StripSpec(s: string)
    ensures OccursIn(Strip(s), s)
    ensures Strip(s) == [] || (!IsSpace(Strip(s)[0]) && !IsSpace(Strip(s)[|Strip(s)| - 1]))
    ensures Strip(s) == [] <==> AllSpace(s)
  {
    StripInfix(s);
    StripEnds(s);
    StripEmpty(s);
  }

  lemma StripInfix(s: string)
    ensures OccursIn(Strip(s), s)
  {
    var l := LStrip(s);
    var r := RStrip(l);
    var k := |s| - |l|;
    assert s[k..][..|r|] == s[k..k + |r|];
    assert OccursAt(r, s, k);
  }

  lemma StripEnds(s: string)
    ensures Strip(s) == [] || (!IsSpace(Strip(s)[0]) && !IsSpace(Strip(s)[|Strip(s)| - 1]))
  {
    var l := LStrip(s);
    var r := RStrip(l);
    if r != [] {
      assert r[0] == l[0];
    }
  }

  lemma StripEmpty(s: string)
    ensures Strip(s) == [] <==> AllSpace(s)
  {
    var l := LStrip(s);
    var r := RStrip(l);
    var k := |s| - |l|;
    if r == [] {
      assert s == s[..k] + l;
      assert l == l[|r|..];
    } else {
      assert r[0] == l[0] == s[k];
    }
  }

  /** Stripping twice is stripping once. */
  lemma StripIdempotent(s: string)
    ensures Strip(Strip(s)) == Strip(s)
  {
    var t := Strip(s);
    StripSpec(s);
    if t != [] {
      assert LStrip(t) == t;
      assert RStrip(t) == t;
    }
  }

  // ---------------------------------------------------------------------------
  // str.split(sep) and sep.join(parts) for a one-character separator

  /** The pieces of `s` between occurrences of `sep`; never empty, like Python. */
  function Split(s: string, sep: char): (r: seq<string>)
    ensures |r| >= 1
    ensures forall k :: 0 <= k < |r| ==> sep !in r[k]
    decreases |s|
  {
    if s == [] then [[]]
    else
      var rest := Split(s[1..], sep);
      if s[0] == sep then [[]] + rest else [[s[0]] + rest[0]] + rest[1..]
  }

  function Join(parts: seq<string>, sep: char): (r: string)
  {
    if parts == [] then []
    else if |parts| == 1 then parts[0]
    else parts[0] + [sep] + Join(parts[1..], sep)
  }

  /** Joining the pieces of a split puts the text back together. */
  lemma {:induction false} JoinSplit(s: string, sep: char)
    ensures Join(Split(s, sep), sep) == s
    decreases |s|
  {
    if s != [] {
      var rest := Split(s[1..], sep);
      JoinSplit(s[1..], sep);
      if s[0] == sep {
        assert Split(s, sep) == [[]] + rest;
        assert Split(s, sep)[1..] == rest;
      } else {
        var r := Split(s, sep);
        assert r == [[s[0]] + rest[0]] + rest[1..];
        if |rest| == 1 {
          assert r == [[s[0]] + rest[0]];
        } else {
          assert r[1..] == rest[1..];
          assert Join(rest, sep) == rest[0] + [sep] + Join(rest[1..], sep);
        }
      }
    }
  }

  /** Splitting a join of separator-free pieces gives the pieces back. */
  lemma {:induction false} SplitJoin(parts: seq<string>, sep: char)
    requires |parts| >= 1
    requires forall k :: 0 <= k < |parts| ==> sep !in parts[k]
    ensures Split(Join(parts, sep), sep) == parts
    decreases |parts|, |parts[0]|
  {
    if |parts| == 1 {
      SplitFree(parts[0], sep);
    } else if parts[0] == [] {
      SplitJoin(parts[1..], sep);
      var j := Join(parts, sep);
      assert j == [sep] + Join(parts[1..], sep);
      assert j[1..] == Join(parts[1..], sep);
      assert parts == [[]] + parts[1..];
    } else {
      var c := parts[0][0];
      var tail := [parts[0][1..]] + parts[1..];
      assert sep !in parts[0][1..];
      forall k | 0 <= k < |tail| ensures sep !in tail[k] {
        if k > 0 { assert tail[k] == parts[k]; }
      }
      SplitJoin(tail, sep);
      var j := Join(parts, sep);
      assert tail[1..] == parts[1..];
      assert Join(tail, sep) == parts[0][1..] + [sep] + Join(parts[1..], sep);
      assert j == [c] + Join(tail, sep);
      assert j[1..] == Join(tail, sep);
      assert [c] + parts[0][1..] == parts[0];
    }
  }

  lemma {:induction false} SplitFree(s: string, sep: char)
    requires sep !in s
    ensures Split(s, sep) == [s]
    decreases |s|
  {
    if s != [] {
      assert sep !in s[1..];
      SplitFree(s[1..], sep);
      assert [s[0]] + s[1..] == s;
    }
  }

  // ---------------------------------------------------------------------------
  // str(n) and int(s) for non-negative decimal numerals

  function DigitChar(d: nat): (c: char)
    requires d < 10
    ensures IsAsciiDigit(c)
  {
    ('0' as int + d) as char
  }

  /** str(n) for n >= 0. */
  function NatToString(n: nat): (r: string)
    ensures |r| >= 1 && forall i :: 0 <= i < |r| ==> IsAsciiDigit(r[i])
    decreases n
  {
    if n < 10 then [DigitChar(n)] else NatToString(n / 10) + [DigitChar(n % 10)]
  }

  /** The value of a string of ASCII digits, most significant first. */
  function DigitsValue(s: string): (n: nat)
    requires forall i :: 0 <= i < |s| ==> IsAsciiDigit(s[i])
  {
    if s == [] then 0
    else
      var last := s[|s| - 1];
      assert IsAsciiDigit(last);
      10 * DigitsValue(s[..|s| - 1]) + (last as int - '0' as int)
  }

  predicate AllDigits(s: string)
  {
    s != [] && forall i :: 0 <= i < |s| ==> IsAsciiDigit(s[i])
  }

  /** int(s) for an unsigned ASCII numeral: None when Python would raise. */
  function ParseNat(s: string): (r: Option<nat>)
    ensures r.Some? <==> AllDigits(s)
  {
    if AllDigits(s) then Some(DigitsValue(s)) else None
  }

  /** int(str(n)) == n. */
  lemma {:induction false} ParseNatToString(n: nat)
    ensures ParseNat(NatToString(n)) == Some(n)
    decreases n
  {
    var s := NatToString(n);
    if n < 10 {
      assert s[..|s| - 1] == [];
    } else {
      ParseNatToString(n / 10);
      assert s[..|s| - 1] == NatToString(n / 10);
      assert DigitsValue(s) == 10 * (n / 10) + n % 10;
    }
  }

  /** int(s) for a signed ASCII numeral (an optional '+' or '-' first). */
  function ParseInt(s: string): (r: Option<int>)
    ensures r.Some? ==> s != []
  {
    if |s| >= 1 && (s[0] == '-' || s[0] == '+') then
      match ParseNat(s[1..])
      case Some(n) => var v: int := n; Some(if s[0] == '-' then -v else v)
      case None => None
    else
      match ParseNat(s)
      case Some(n) => Some(n)
      case None => None
  }
}
