/** Python runtime notions the weather display's core relies on: optional
    values, exceptions as values, `str()` of integers, the string methods
    `lstrip`, `replace` and `upper`, and subscripting of decoded JSON. */
module Py {

  datatype Option<+T> = None | Some(value: T)

  /** The Python exceptions the core raises, catches or lets escape. */
  datatype Error =
    | KeyError(key: string)
    | IndexError
    | TypeError
    | AttributeError(name: string)
    | UnboundLocalError(name: string)
    | OSError
    | JSONDecodeError

  /** A call that either returns a value or raises an exception. */
  datatype Result<+T> = Ok(value: T) | Err(error: Error) {
    predicate IsFailure() { Err? }
    function PropagateFailure<U>(): Result<U> requires Err? { Err(error) }
    function Extract(): T requires Ok? { value }
  }

  /** A call whose only result is whether it raised. */
  datatype Outcome = Pass | Fail(error: Error)

  /** A decoded JSON document, as `json.load` returns it (numbers are whole). */
  datatype Json =
    | JNull
    | JBool(b: bool)
    | JNum(n: int)
    | JStr(s: string)
    | JArr(items: seq<Json>)
    | JObj(fields: map<string, Json>)

  /** One subscript in a chain like `weather["daily"][0]`. */
  datatype Key = Name(name: string) | Pos(index: nat)

  // ---------------------------------------------------------------------------
  // str() of integers

  function DigitChar(d: nat): (c: char)
    requires d < 10
    ensures '0' <= c <= '9' && DigitValue(c) == d
  {
    ('0' as int + d) as char
  }

  function DigitValue(c: char): nat
  {
    if '0' <= c <= '9' then (c - '0') as nat else 0
  }

  /** Decimal digits of a natural number, without leading zeros. */
  function Digits(n: nat): (s: string)
    ensures |s| >= 1
    ensures forall i :: 0 <= i < |s| ==> '0' <= s[i] <= '9'
    ensures n > 0 ==> s[0] != '0'
    decreases n
  {
    if n < 10 then [DigitChar(n)] else Digits(n / 10) + [DigitChar(n % 10)]
  }

  /** Python's `str(i)` for an integer. */
  function IntToString(i: int): (s: string)
    ensures |s| >= 1
    ensures i >= 0 <==> s[0] != '-'
  {
    if i < 0 then "-" + Digits(-i) else Digits(i)
  }

  /** Reads a string of decimal digits back as a number. */
  function ParseNat(s: string): nat
    decreases |s|
  {
    if s == [] then 0 else ParseNat(s[..|s| - 1]) * 10 + DigitValue(s[|s| - 1])
  }

  /** `str()` of a natural number can be read back. */
  lemma {:induction false} ParseDigits(n: nat)
    ensures ParseNat(Digits(n)) == n
    decreases n
  {
    if n >= 10 {
      var s := Digits(n);
      assert s[..|s| - 1] == Digits(n / 10);
      ParseDigits(n / 10);
    }
  }

  /** `"%02d" % n` for a number below 100. */
  function Pad2(n: nat): (s: string)
    requires n < 100
    ensures |s| == 2 && ParseNat(s) == n
    ensures forall i :: 0 <= i < |s| ==> '0' <= s[i] <= '9'
  {
    var s := [DigitChar(n / 10), DigitChar(n % 10)];
    assert s[..1][..0] == [];
    assert ParseNat(s[..1]) == n / 10;
    s
  }

  // ---------------------------------------------------------------------------
  // String methods

  /** `s.lstrip(c)`: drops every leading occurrence of `c`. */
  function LStrip(s: string, c: char): (r: string)
    ensures |r| <= |s|
    ensures r != [] ==> r[0] != c
    decreases |s|
  {
    if s != [] && s[0] == c then LStrip(s[1..], c) else s
  }

  /** True when `pat` starts at position `i` of `s`. */
  predicate OccursAt(s: string, pat: string, i: nat)
  {
    i + |pat| <= |s| && s[i..i + |pat|] == pat
  }

  /** `s.replace(pat, rep)`: every non-overlapping occurrence of `pat`,
      scanning left to right, is replaced by `rep`. */
  function Replace(s: string, pat: string, rep: string): string
    requires pat != []
    decreases |s|
  {
    if s == [] then []
    else if OccursAt(s, pat, 0) then rep + Replace(s[|pat|..], pat, rep)
    else [s[0]] + Replace(s[1..], pat, rep)
  }

  /** Replacing a pattern that does not occur leaves the string unchanged. */
  lemma {:induction false} ReplaceAbsent(s: string, pat: string, rep: string)
    requires pat != []
    requires forall i :: 0 <= i < |s| ==> !OccursAt(s, pat, i)
    ensures Replace(s, pat, rep) == s
    decreases |s|
  {
    if s != [] {
      assert !OccursAt(s, pat, 0);
      forall i | 0 <= i < |s| - 1 ensures !OccursAt(s[1..], pat, i) {
        assert !OccursAt(s, pat, i + 1);
        if i + |pat| <= |s| - 1 {
          assert s[1..][i..i + |pat|] == s[i + 1..i + 1 + |pat|];
        }
      }
      ReplaceAbsent(s[1..], pat, rep);
    }
  }

  /** `c.upper()` for one character; only ASCII letters change case. */
  function Upper(c: char): (u: char)
    ensures 'a' <= c <= 'z' ==> 'A' <= u <= 'Z' && u as int == c as int - 32
    ensures !('a' <= c <= 'z') ==> u == c
  {
    if 'a' <= c <= 'z' then (c as int - 32) as char else c
  }

  // ---------------------------------------------------------------------------
  // Subscripting decoded JSON

  /** `j[k]` on a decoded JSON value: a dict is indexed by its string keys, a
      list or a string by position; anything else is not subscriptable. */
  function Subscript(j: Json, k: Key): (r: Result<Json>)
    ensures r.Ok? ==>
              || (j.JObj? && k.Name? && k.name in j.fields && r.value == j.fields[k.name])
              || (j.JArr? && k.Pos? && k.index < |j.items| && r.value == j.items[k.index])
              || (j.JStr? && k.Pos? && k.index < |j.s| && r.value == JStr([j.s[k.index]]))
    ensures j.JObj? && k.Name? ==> (r.Ok? <==> k.name in j.fields)
    ensures j.JArr? && k.Pos? ==> (r.Ok? <==> k.index < |j.items|)
    ensures j.JStr? && k.Pos? ==> (r.Ok? <==> k.index < |j.s|)
  {
    match j
    case JObj(fields) =>
      (match k
       case Name(n) => if n in fields then Ok(fields[n]) else Err(KeyError(n))
       case Pos(i) => Err(KeyError(IntToString(i))))
    case JArr(items) =>
      (match k
       case Pos(i) => if i < |items| then Ok(items[i]) else Err(IndexError)
       case Name(_) => Err(TypeError))
    case JStr(s) =>
      (match k
       case Pos(i) => if i < |s| then Ok(JStr([s[i]])) else Err(IndexError)
       case Name(_) => Err(TypeError))
    case _ => Err(TypeError)
  }

  /** A chain of subscripts `j[k0][k1]...`, stopping at the first exception. */
  function Path(j: Json, ks: seq<Key>): Result<Json>
    decreases |ks|
  {
    if ks == [] then Ok(j)
    else
      match Subscript(j, ks[0])
      case Ok(v) => Path(v, ks[1..])
      case Err(e) => Err(e)
  }
}
