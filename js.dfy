/**
 * The slice of JavaScript value semantics the service relies on: nullable values, `??`, `||`,
 * `typeof x === 'number'`, `String(x)`, and the string methods `trim` and `toUpperCase`.
 */
module Js {

  datatype Option<+T> = None | Some(value: T)

  datatype Result<+T, +E> = Ok(value: T) | Err(error: E)

  /** A JavaScript value as it reaches the service: numbers are reals, plus NaN and the infinities. */
  datatype JsValue =
    | Undefined
    | Null
    | Bool(b: bool)
    | Num(x: real)
    | NaN
    | Inf(negative: bool)
    | Str(s: string)
    | Obj

  /** `typeof v === 'number'` */
  predicate IsNumber(v: JsValue) {
    v.Num? || v.NaN? || v.Inf?
  }

  /** A value of type number: finite, NaN or an infinity. */
  type Number = v: JsValue | IsNumber(v) witness NaN

  /**
   * The host's number and date conversions, which the model does not define:
   * `String(x)` for a finite number, `Number(s)` for a string (NaN for text that is not a
   * number, an infinity for `"Infinity"` or `"1e999"`), and `new Date(ms).toISOString()` for
   * a valid (whole, in range) time value.
   */
  datatype Host = Host(numberText: real -> string, parseNumber: string -> Number, isoString: int -> string)

  /** `v === null || v === undefined` */
  predicate Nullish(v: JsValue) {
    v.Undefined? || v.Null?
  }

  /** JavaScript truthiness. */
  predicate Truthy(v: JsValue) {
    match v
    case Undefined => false
    case Null => false
    case Bool(b) => b
    case Num(x) => x != 0.0
    case NaN => false
    case Inf(_) => true
    case Str(s) => s != ""
    case Obj => true
  }

  /** `a ?? b` */
  function Coalesce(a: JsValue, b: JsValue): (r: JsValue)
    ensures !Nullish(a) ==> r == a
    ensures Nullish(a) ==> r == b
  {
    if Nullish(a) then b else a
  }

  /** `a || b` */
  function Or(a: JsValue, b: JsValue): (r: JsValue)
    ensures Truthy(a) ==> r == a
    ensures !Truthy(a) ==> r == b
  {
    if Truthy(a) then a else b
  }

  /** `String(v)` for the values above (a plain object prints as `[object Object]`). */
  function ToText(v: JsValue, host: Host): string {
    match v
    case Undefined => "undefined"
    case Null => "null"
    case Bool(b) => if b then "true" else "false"
    case Num(x) => host.numberText(x)
    case NaN => "NaN"
    case Inf(negative) => if negative then "-Infinity" else "Infinity"
    case Str(s) => s
    case Obj => "[object Object]"
  }

  /** `Number(v)`, as the `*` operator applies it to its operands. */
  function ToNumber(v: JsValue, host: Host): (r: JsValue)
    ensures IsNumber(r)
  {
    match v
    case Undefined => NaN
    case Null => Num(0.0)
    case Bool(b) => Num(if b then 1.0 else 0.0)
    case Num(x) => v
    case NaN => NaN
    case Inf(_) => v
    case Str(s) => host.parseNumber(s)
    case Obj => NaN
  }

  /** The characters JavaScript's `trim` removes and `\s` matches. */
  predicate IsSpace(c: char) {
    c == ' ' || c == '\t' || c == '\n' || c == '\r' || c == '\U{000B}' || c == '\U{000C}'
    || c == '\U{00A0}' || c == '\U{1680}' || ('\U{2000}' <= c <= '\U{200A}')
    || c == '\U{2028}' || c == '\U{2029}' || c == '\U{202F}' || c == '\U{205F}'
    || c == '\U{3000}' || c == '\U{FEFF}'
  }

  predicate IsLineBreak(c: char) {
    c == '\r' || c == '\n'
  }

  /** No leading and no trailing white space. */
  predicate Trimmed(s: string) {
    s == [] || (!IsSpace(s[0]) && !IsSpace(s[|s| - 1]))
  }

  /** The leading white space of `s` removed: a suffix of `s`, and only white space is gone. */
  function TrimStart(s: string): (r: string)
    ensures |r| <= |s|
    ensures r == s[|s| - |r|..]
    ensures forall i :: 0 <= i < |s| - |r| ==> IsSpace(s[i])
    ensures r == [] || !IsSpace(r[0])
  {
    if |s| > 0 && IsSpace(s[0]) then
      var r := TrimStart(s[1..]);
      assert s[1..][|s| - 1 - |r|..] == s[|s| - |r|..];
      assert forall i :: 1 <= i < |s| ==> s[i] == s[1..][i - 1];
      r
    else s
  }

  /** The trailing white space of `s` removed: a prefix of `s`, and only white space is gone. */
  function TrimEnd(s: string): (r: string)
    ensures |r| <= |s|
    ensures r == s[..|r|]
    ensures forall i :: |r| <= i < |s| ==> IsSpace(s[i])
    ensures r == [] || !IsSpace(r[|r| - 1])
  {
    if |s| > 0 && IsSpace(s[|s| - 1]) then TrimEnd(s[..|s| - 1]) else s
  }

  /** `r` is the slice of `s` that starts at `k`, and every character of `s` around it is of the class `p`. */
  predicate Framed(s: string, r: string, k: nat, p: char -> bool) {
    && k + |r| <= |s|
    && r == s[k..k + |r|]
    && (forall i :: 0 <= i < k ==> p(s[i]))
    && (forall i :: k + |r| <= i < |s| ==> p(s[i]))
  }

  /** `s.trim()` */
  function Trim(s: string): (r: string)
    ensures Trimmed(r)
    ensures |r| <= |s|
  {
    TrimEnd(TrimStart(s))
  }

  /** A prefix `r` of a suffix `a` of `s`, where only characters of the class `p` were cut, is framed by them. */
  lemma FramedSlices(s: string, a: string, r: string, p: char -> bool)
    requires |a| <= |s| && a == s[|s| - |a|..]
    requires forall i :: 0 <= i < |s| - |a| ==> p(s[i])
    requires |r| <= |a| && r == a[..|r|]
    requires forall i :: |r| <= i < |a| ==> p(a[i])
    ensures Framed(s, r, |s| - |a|, p)
  {
    var k := |s| - |a|;
    assert r == s[k..k + |r|];
    forall i | k + |r| <= i < |s|
      ensures p(s[i])
    {
      assert s[i] == a[i - k];
    }
  }

  /** `trim` keeps the interior of `s` as it is and removes only white space, at both ends. */
  lemma TrimFrames(s: string)
    ensures Framed(s, Trim(s), |s| - |TrimStart(s)|, IsSpace)
  {
    FramedSlices(s, TrimStart(s), Trim(s), IsSpace);
  }

  /**
   * `String(v).trim()`, by cases: only a string or the text of a number can carry white space;
   * every other value prints as a fixed word.
   */
  function TrimmedText(v: JsValue, host: Host): (r: string)
    ensures Trimmed(r)
  {
    match v
    case Str(s) => Trim(s)
    case Num(x) => Trim(host.numberText(x))
    case _ => ToText(v, host)
  }

  lemma TrimmedTextIsTrimOfText(v: JsValue, host: Host)
    ensures TrimmedText(v, host) == Trim(ToText(v, host))
  {
    if !v.Str? && !v.Num? {
      TrimOfTrimmed(ToText(v, host));
    }
  }

  /** No character of `s` satisfies `p`. */
  predicate NoneMatch(s: string, p: char -> bool) {
    forall j :: 0 <= j < |s| ==> !p(s[j])
  }

  /** No two characters satisfying `p` sit side by side in `s`. */
  predicate NoAdjacent(s: string, p: char -> bool) {
    forall j :: 0 <= j < |s| - 1 ==> !p(s[j]) || !p(s[j + 1])
  }

  /** Every character of `s` satisfying `p` is a plain space. */
  predicate OnlyBlanks(s: string, p: char -> bool) {
    forall j :: 0 <= j < |s| && p(s[j]) ==> s[j] == ' '
  }

  /** A suffix keeps these properties, whatever the character class. */
  lemma SuffixKeeps(s: string, k: nat, p: char -> bool)
    requires k <= |s|
    ensures NoneMatch(s, p) ==> NoneMatch(s[k..], p)
    ensures NoAdjacent(s, p) ==> NoAdjacent(s[k..], p)
    ensures OnlyBlanks(s, p) ==> OnlyBlanks(s[k..], p)
  {
    assert forall j :: 0 <= j < |s| - k ==> s[k..][j] == s[k + j];
  }

  /** A prefix keeps these properties, whatever the character class. */
  lemma PrefixKeeps(s: string, n: nat, p: char -> bool)
    requires n <= |s|
    ensures NoneMatch(s, p) ==> NoneMatch(s[..n], p)
    ensures NoAdjacent(s, p) ==> NoAdjacent(s[..n], p)
    ensures OnlyBlanks(s, p) ==> OnlyBlanks(s[..n], p)
  {
    assert forall j :: 0 <= j < n ==> s[..n][j] == s[j];
  }

  /** Trimming keeps these properties: the trimmed string is a slice of the original. */
  lemma TrimKeeps(s: string, p: char -> bool)
    ensures NoneMatch(s, p) ==> NoneMatch(Trim(s), p)
    ensures NoAdjacent(s, p) ==> NoAdjacent(Trim(s), p)
    ensures OnlyBlanks(s, p) ==> OnlyBlanks(Trim(s), p)
  {
    var a := TrimStart(s);
    SuffixKeeps(s, |s| - |a|, p);
    PrefixKeeps(a, |TrimEnd(a)|, p);
  }

  lemma TrimEndKeepsFirst(s: string)
    requires s != [] && !IsSpace(s[0])
    ensures TrimEnd(s) != [] && TrimEnd(s)[0] == s[0]
  {
  }

  /** Trimming a string that has no white space at either end leaves it as it is. */
  lemma {:induction false} TrimOfTrimmed(s: string)
    requires Trimmed(s)
    ensures Trim(s) == s
  {
  }

  /** `trim` is idempotent. */
  lemma {:induction false} TrimIdempotent(s: string)
    ensures Trim(Trim(s)) == Trim(s)
  {
    var t := Trim(s);
    if t != [] {
      assert !IsSpace(t[0]);
      assert !IsSpace(t[|t| - 1]);
    }
    TrimOfTrimmed(t);
  }

  /** `toUpperCase` on one character; only the ASCII letters are mapped. */
  function UpperChar(c: char): char {
    if 'a' <= c <= 'z' then (c as int - 32) as char else c
  }

  /** `s.toUpperCase()` */
  function Upper(s: string): (r: string)
    ensures |r| == |s|
    ensures forall i :: 0 <= i < |s| ==> r[i] == UpperChar(s[i])
  {
    seq(|s|, i requires 0 <= i < |s| => UpperChar(s[i]))
  }

  predicate IsUpper(s: string) {
    forall i :: 0 <= i < |s| ==> UpperChar(s[i]) == s[i]
  }

  /** Upper-casing never turns white space into something else, nor the reverse. */
  lemma UpperCharKeepsSpace(c: char)
    ensures IsSpace(UpperChar(c)) <==> IsSpace(c)
  {
  }

  lemma UpperIsUpper(s: string)
    ensures IsUpper(Upper(s))
  {
  }

  lemma UpperOfUpper(s: string)
    requires IsUpper(s)
    ensures Upper(s) == s
  {
  }

  lemma UpperAppend(a: string, b: string)
    ensures Upper(a + b) == Upper(a) + Upper(b)
  {
  }

  predicate EndsWith(s: string, suffix: string) {
    |suffix| <= |s| && s[|s| - |suffix|..] == suffix
  }

  predicate StartsWith(s: string, prefix: string) {
    |prefix| <= |s| && s[..|prefix|] == prefix
  }

  predicate IsDigit(c: char) {
    '0' <= c <= '9'
  }

  /** `/^\d+$/.test(s)` */
  predicate AllDigits(s: string) {
    |s| > 0 && forall i :: 0 <= i < |s| ==> IsDigit(s[i])
  }

  function Digit(d: nat): (c: char)
    requires d < 10
    ensures IsDigit(c) && c as int - '0' as int == d
  {
    "0123456789"[d]
  }

  /** The number a text of decimal digits denotes, most significant digit first. */
  function DecimalValue(s: string): int {
    if s == [] then 0 else DecimalValue(s[..|s| - 1]) * 10 + (s[|s| - 1] as int - '0' as int)
  }

  /** The decimal text of a natural number, as a template literal prints it: no leading zero, and it reads back as `n`. */
  function NatText(n: nat): (r: string)
    ensures AllDigits(r)
    ensures DecimalValue(r) == n
    ensures |r| > 1 ==> r[0] != '0'
  {
    if n < 10 then [Digit(n)]
    else
      var r := NatText(n / 10) + [Digit(n % 10)];
      assert r[..|r| - 1] == NatText(n / 10);
      r
  }

  /** `s.replace(/,/g, '')` */
  function RemoveCommas(s: string): (r: string)
    ensures forall i :: 0 <= i < |r| ==> r[i] != ','
    ensures (forall i :: 0 <= i < |s| ==> s[i] != ',') ==> r == s
    ensures |r| <= |s|
  {
    if s == [] then []
    else
      assert s == [s[0]] + s[1..];
      (if s[0] == ',' then [] else [s[0]]) + RemoveCommas(s[1..])
  }

  /** Removing commas works piece by piece, so the other characters keep their order. */
  lemma {:induction false} RemoveCommasAppend(a: string, b: string)
    ensures RemoveCommas(a + b) == RemoveCommas(a) + RemoveCommas(b)
  {
    if a == [] {
      assert a + b == b;
    } else {
      assert (a + b)[0] == a[0] && (a + b)[1..] == a[1..] + b;
      RemoveCommasAppend(a[1..], b);
    }
  }

  /** Removing commas keeps every other character as often as it occurs. */
  lemma {:induction false} RemoveCommasKeepsOthers(s: string)
    ensures forall c :: c != ',' ==> multiset(RemoveCommas(s))[c] == multiset(s)[c]
  {
    if s != [] {
      assert s == [s[0]] + s[1..];
      RemoveCommasKeepsOthers(s[1..]);
    }
  }

  /** Drops the run of characters satisfying `p` at the front of `s`: a suffix of `s`, and only such characters are gone. */
  function DropRun(s: string, p: char -> bool): (r: string)
    ensures |r| <= |s|
    ensures r == s[|s| - |r|..]
    ensures forall i :: 0 <= i < |s| - |r| ==> p(s[i])
    ensures r == [] || !p(r[0])
    ensures s != [] && p(s[0]) ==> |r| < |s|
  {
    if s != [] && p(s[0]) then
      var r := DropRun(s[1..], p);
      assert s[1..][|s| - 1 - |r|..] == s[|s| - |r|..];
      assert forall i :: 1 <= i < |s| ==> s[i] == s[1..][i - 1];
      r
    else s
  }

  /** `s.replace(/[class]+/g, ' ')`, where `p` is the character class. */
  function Collapse(s: string, p: char -> bool): (r: string)
    ensures r == [] <==> s == []
    ensures s != [] && p(s[0]) ==> r[0] == ' '
    ensures s != [] && !p(s[0]) ==> r[0] == s[0]
    ensures forall i :: 0 <= i < |r| && p(r[i]) ==> r[i] == ' '
    ensures forall i :: 0 <= i < |r| - 1 ==> !p(r[i]) || !p(r[i + 1])
    decreases |s|
  {
    if s == [] then []
    else
      var c := if p(s[0]) then Collapse(DropRun(s, p), p) else Collapse(s[1..], p);
      var r := [if p(s[0]) then ' ' else s[0]] + c;
      assert forall i :: 1 <= i < |r| ==> r[i] == c[i - 1];
      r
  }

  /** A text made of class characters only collapses to one space. */
  lemma RunCollapses(s: string, p: char -> bool)
    requires s != [] && forall i :: 0 <= i < |s| ==> p(s[i])
    ensures Collapse(s, p) == [' ']
  {
    assert DropRun(s, p) == [];
  }

  /** Dropping a run from `a + b` when `a` does not end inside it. */
  lemma {:induction false} DropRunAppend(a: string, b: string, p: char -> bool)
    requires a != [] && exists i :: 0 <= i < |a| && !p(a[i])
    ensures DropRun(a + b, p) == DropRun(a, p) + b
    decreases |a|
  {
    assert (a + b)[0] == a[0];
    if p(a[0]) {
      assert (a + b)[1..] == a[1..] + b;
      var i :| 0 <= i < |a| && !p(a[i]);
      assert a[1..][i - 1] == a[i];
      DropRunAppend(a[1..], b, p);
    }
  }

  /**
   * Collapsing works piece by piece wherever the cut does not split a run of class characters;
   * with `RunCollapses` and the unchanged characters outside the class, this determines the
   * collapse of any text.
   */
  lemma {:induction false} CollapseAppend(a: string, b: string, p: char -> bool)
    requires a == [] || b == [] || !p(a[|a| - 1]) || !p(b[0])
    ensures Collapse(a + b, p) == Collapse(a, p) + Collapse(b, p)
    decreases |a|
  {
    if a == [] {
      assert a + b == b;
    } else if b == [] {
      assert a + b == a;
    } else if p(a[0]) {
      CollapseAppendRun(a, b, p);
    } else {
      var ab := a + b;
      assert ab[0] == a[0] && ab[1..] == a[1..] + b;
      assert Collapse(ab, p) == [a[0]] + Collapse(a[1..] + b, p);
      if |a| > 1 {
        assert a[1..][|a| - 2] == a[|a| - 1];
      }
      CollapseAppend(a[1..], b, p);
    }
  }

  /** `CollapseAppend` when `a` starts with a class character. */
  lemma {:induction false} CollapseAppendRun(a: string, b: string, p: char -> bool)
    requires a != [] && b != [] && p(a[0])
    requires !p(a[|a| - 1]) || !p(b[0])
    ensures Collapse(a + b, p) == Collapse(a, p) + Collapse(b, p)
    decreases |a|, 0
  {
    var rest := DropRun(a, p);
    CollapseUnfoldsRun(a, p);
    if rest == [] {
      RunThenText(a, b, p);
    } else {
      RunThenRest(a, b, p);
      assert rest[|rest| - 1] == a[|a| - 1];
      CollapseAppend(rest, b, p);
      ConsAssoc(' ', Collapse(rest, p), Collapse(b, p), Collapse(a + b, p), Collapse(a, p));
    }
  }

  lemma CollapseUnfoldsRun(s: string, p: char -> bool)
    requires s != [] && p(s[0])
    ensures Collapse(s, p) == [' '] + Collapse(DropRun(s, p), p)
  {
  }

  lemma ConsAssoc(c: char, x: string, y: string, l: string, r: string)
    requires l == [c] + (x + y) && r == [c] + x
    ensures l == r + y
  {
  }

  /** A run that is all of `a` gives one space in front of the collapse of `b`. */
  lemma RunThenText(a: string, b: string, p: char -> bool)
    requires a != [] && b != [] && p(a[0]) && DropRun(a, p) == []
    requires !p(a[|a| - 1]) || !p(b[0])
    ensures Collapse(a + b, p) == [' '] + Collapse(b, p)
  {
    var ab := a + b;
    assert ab[0] == a[0];
    CollapseUnfoldsRun(ab, p);
    DropRunOfRun(a, b, p);
  }

  /** A run that ends inside `a` is dropped from `a + b` as from `a`. */
  lemma RunThenRest(a: string, b: string, p: char -> bool)
    requires a != [] && p(a[0]) && DropRun(a, p) != []
    ensures Collapse(a + b, p) == [' '] + Collapse(DropRun(a, p) + b, p)
  {
    var ab := a + b;
    assert ab[0] == a[0];
    CollapseUnfoldsRun(ab, p);
    var rest := DropRun(a, p);
    assert !p(a[|a| - |rest|]);
    DropRunAppend(a, b, p);
  }

  /** A run followed by a text that does not start with a class character drops to that text. */
  lemma {:induction false} DropRunOfRun(a: string, b: string, p: char -> bool)
    requires forall i :: 0 <= i < |a| ==> p(a[i])
    requires b == [] || !p(b[0])
    ensures DropRun(a + b, p) == b
    decreases |a|
  {
    if a == [] {
      assert a + b == b;
    } else {
      assert (a + b)[1..] == a[1..] + b;
      assert forall i :: 0 <= i < |a[1..]| ==> a[1..][i] == a[i + 1];
      DropRunOfRun(a[1..], b, p);
    }
  }

  /** The characters of `s` outside the class `p`, in order. */
  function Outside(s: string, p: char -> bool): (r: string)
    ensures forall i :: 0 <= i < |r| ==> !p(r[i])
    ensures |r| <= |s|
  {
    if s == [] then [] else (if p(s[0]) then [] else [s[0]]) + Outside(s[1..], p)
  }

  lemma {:induction false} OutsideAppend(a: string, b: string, p: char -> bool)
    ensures Outside(a + b, p) == Outside(a, p) + Outside(b, p)
  {
    if a == [] {
      assert a + b == b;
    } else {
      assert (a + b)[1..] == a[1..] + b;
      OutsideAppend(a[1..], b, p);
    }
  }

  /** A text of class characters only has nothing outside the class. */
  lemma {:induction false} OutsideOfRun(s: string, p: char -> bool)
    requires forall i :: 0 <= i < |s| ==> p(s[i])
    ensures Outside(s, p) == []
  {
    if s != [] {
      assert forall i :: 0 <= i < |s[1..]| ==> s[1..][i] == s[i + 1];
      OutsideOfRun(s[1..], p);
    }
  }

  /**
   * Replacing runs of the class `p` by a space keeps every character outside a wider class `q`
   * that holds the space, in order.
   */
  lemma {:induction false} CollapseKeepsOutside(s: string, p: char -> bool, q: char -> bool)
    requires forall c :: p(c) ==> q(c)
    requires q(' ')
    ensures Outside(Collapse(s, p), q) == Outside(s, q)
    decreases |s|
  {
    if s != [] {
      if p(s[0]) {
        var rest := DropRun(s, p);
        var r := [' '] + Collapse(rest, p);
        assert r[1..] == Collapse(rest, p);
        CollapseKeepsOutside(rest, p, q);
        assert s == s[..|s| - |rest|] + rest;
        OutsideAppend(s[..|s| - |rest|], rest, q);
        OutsideOfRun(s[..|s| - |rest|], q);
      } else {
        var r := [s[0]] + Collapse(s[1..], p);
        assert r[1..] == Collapse(s[1..], p);
        CollapseKeepsOutside(s[1..], p, q);
      }
    }
  }

  /** Text of the class `p` around `r` leaves nothing outside the class but what `r` has. */
  lemma Surrounded(x: string, r: string, t: string, p: char -> bool)
    requires forall i :: 0 <= i < |x| ==> p(x[i])
    requires forall i :: 0 <= i < |t| ==> p(t[i])
    ensures Outside(x + r + t, p) == Outside(r, p)
  {
    OutsideAppend(x + r, t, p);
    OutsideAppend(x, r, p);
    OutsideOfRun(x, p);
    OutsideOfRun(t, p);
  }

  /** A slice framed by characters of the class `p` has the same characters outside the class as the whole. */
  lemma FramedKeepsOutside(s: string, r: string, k: nat, p: char -> bool)
    requires Framed(s, r, k, p)
    ensures Outside(r, p) == Outside(s, p)
  {
    var x, t := s[..k], s[k + |r|..];
    assert s == x + r + t;
    assert forall i :: 0 <= i < |t| ==> t[i] == s[k + |r| + i];
    Surrounded(x, r, t, p);
  }

  /** Trimming removes white space only, so the characters outside white space are kept, in order. */
  lemma TrimKeepsOutside(s: string)
    ensures Outside(Trim(s), IsSpace) == Outside(s, IsSpace)
  {
    TrimFrames(s);
    FramedKeepsOutside(s, Trim(s), |s| - |TrimStart(s)|, IsSpace);
  }
}
