/**
 * The Python values the pipeline passes around: JSON-like dictionary values, their
 * truthiness, `dict.get`, and the few string operations the source applies
 * (`str.lower`, `str.strip`, `in` on strings, `split(".")[-1]`, slicing).
 */
module PyValues {
  import opened Wrappers

  /** A Python value as it appears in a project state or a stage patch. */
  datatype Value =
    | Null
    | Bool(b: bool)
    | Int(i: int)
    | Real(r: real)
    | Str(s: string)
    | List(items: seq<Value>)
    | Dict(fields: map<string, Value>)

  /** Python truthiness: `None`, `False`, zero and empty containers are false. */
  predicate Truthy(v: Value) {
    match v
    case Null => false
    case Bool(b) => b
    case Int(i) => i != 0
    case Real(r) => r != 0.0
    case Str(s) => s != ""
    case List(items) => items != []
    case Dict(fields) => fields != map[]
  }

  /** `d.get(key, default)` */
  function Get(d: map<string, Value>, key: string, default: Value): Value {
    if key in d then d[key] else default
  }

  /** `a or b` */
  function Or(a: Value, b: Value): Value {
    if Truthy(a) then a else b
  }

  /**
   * The number a value stands for in Python arithmetic and comparisons: integers, floats,
   * and booleans as 0 and 1; `None` for the rest.
   */
  function AsReal(v: Value): Option<real> {
    match v
    case Int(i) => Some(i as real)
    case Real(r) => Some(r)
    case Bool(b) => Some(if b then 1.0 else 0.0)
    case _ => None
  }

  /** `v + 1`, or `None` when Python raises `TypeError` (the operand is not a number). */
  function PlusOne(v: Value): (r: Option<Value>)
    ensures r.Some? <==> AsReal(v).Some?
    ensures r.Some? ==> AsReal(r.value) == Some(AsReal(v).value + 1.0) && !r.value.Bool?
    ensures v.Int? || v.Bool? ==> r.Some? && r.value.Int?
  {
    match v
    case Int(i) => Some(Int(i + 1))
    case Bool(b) => Some(Int(if b then 2 else 1))
    case Real(r) => Some(Real(r + 1.0))
    case _ => None
  }

  // ---------------------------------------------------------------------------
  // Strings (ASCII case mapping and whitespace)

  function LowerChar(c: char): char {
    if 'A' <= c <= 'Z' then (c as int + 32) as char else c
  }

  /** `s.lower()` on ASCII letters. */
  function Lower(s: string): (r: string)
    ensures |r| == |s|
    ensures forall i :: 0 <= i < |s| ==> r[i] == LowerChar(s[i])
  {
    seq(|s|, i requires 0 <= i < |s| => LowerChar(s[i]))
  }

  /** The characters `str.strip()` removes that the model knows: space, \t \n \v \f \r and \x1c-\x1f. */
  predicate IsSpace(c: char) {
    c == ' ' || 9 <= c as int <= 13 || 28 <= c as int <= 31
  }

  function StripLeft(s: string): (r: string)
    ensures |r| <= |s| && r == s[|s| - |r|..]
    ensures r == "" || !IsSpace(r[0])
    ensures forall i :: 0 <= i < |s| - |r| ==> IsSpace(s[i])
  {
    if |s| > 0 && IsSpace(s[0]) then StripLeft(s[1..]) else s
  }

  function StripRight(s: string): (r: string)
    ensures |r| <= |s| && r == s[..|r|]
    ensures r == "" || !IsSpace(r[|r| - 1])
    ensures forall i :: |r| <= i < |s| ==> IsSpace(s[i])
  {
    if |s| > 0 && IsSpace(s[|s| - 1]) then StripRight(s[..|s| - 1]) else s
  }

  /** `s.strip()` */
  function Strip(s: string): string {
    StripRight(StripLeft(s))
  }

  /**
   * What `strip()` keeps is a piece of the string that neither starts nor ends with a
   * blank, empty exactly when the string is all blanks.
   */
  lemma StripShape(s: string)
    ensures var r := Strip(s);
      && Contains(s, r)
      && (r == "" || (!IsSpace(r[0]) && !IsSpace(r[|r| - 1])))
      && (r == "" <==> forall j :: 0 <= j < |s| ==> IsSpace(s[j]))
  {
    var left := StripLeft(s);
    var r := StripRight(left);
    assert s[|s| - |left|..][..|r|] == s[|s| - |left|..|s| - |left| + |r|];
    assert OccursAt(s, r, |s| - |left|);
    assert r != "" ==> !IsSpace(left[0]);
  }

  /** Lower-casing a string without ASCII capitals changes nothing. */
  lemma LowerOfLower(s: string)
    requires forall i :: 0 <= i < |s| ==> !('A' <= s[i] <= 'Z')
    ensures Lower(s) == s
  {
  }

  /** Stripping a string that neither starts nor ends with a blank changes nothing. */
  lemma StripOfStripped(s: string)
    requires s == "" || (!IsSpace(s[0]) && !IsSpace(s[|s| - 1]))
    ensures Strip(s) == s
  {
    assert StripLeft(s) == s;
  }

  /** A lower-case string without surrounding blanks is its own normal form. */
  lemma NormalFormOfNormal(s: string)
    requires forall i :: 0 <= i < |s| ==> !('A' <= s[i] <= 'Z')
    requires s == "" || (!IsSpace(s[0]) && !IsSpace(s[|s| - 1]))
    ensures Strip(Lower(s)) == s
  {
    LowerOfLower(s);
    StripOfStripped(s);
  }

  lemma {:induction false} StripLeftAppendBlank(x: string)
    ensures StripLeft(x + " ") == if StripLeft(x) == "" then "" else StripLeft(x) + " "
  {
    if |x| > 0 && IsSpace(x[0]) {
      assert (x + " ")[1..] == x[1..] + " ";
      StripLeftAppendBlank(x[1..]);
    } else if |x| == 0 {
      assert x + " " == " ";
      assert StripLeft(" ") == StripLeft(" "[1..]);
    }
  }

  /** Blanks around a string do not change what `strip()` makes of it. */
  lemma StripIgnoresSurroundingBlanks(x: string)
    ensures Strip(" " + x + " ") == Strip(x)
  {
    assert (" " + x + " ")[1..] == x + " ";
    assert StripLeft(" " + x + " ") == StripLeft(x + " ");
    StripLeftAppendBlank(x);
    var y := StripLeft(x);
    if y != "" {
      assert (y + " ")[..|y|] == y;
    }
  }

  /** Lower-casing commutes with adding blanks around a string. */
  lemma LowerOfSurrounded(x: string)
    ensures Lower(" " + x + " ") == " " + Lower(x) + " "
  {
    assert forall i :: 0 <= i < |x| + 2 ==> (" " + x + " ")[i] == if i == 0 || i == |x| + 1 then ' ' else x[i - 1];
  }

  /** `sub` occurs in `s` starting at index `i`. */
  predicate OccursAt(s: string, sub: string, i: nat) {
    i + |sub| <= |s| && s[i..i + |sub|] == sub
  }

  /** Python's `sub in s`. */
  function Contains(s: string, sub: string): (b: bool)
    ensures b <==> exists i: nat :: OccursAt(s, sub, i)
    decreases |s|
  {
    if |sub| > |s| then false
    else if s[..|sub|] == sub then
      assert OccursAt(s, sub, 0);
      true
    else
      var b := Contains(s[1..], sub);
      if b then
        var i: nat :| OccursAt(s[1..], sub, i);
        assert s[1..][i..i + |sub|] == s[i + 1..i + 1 + |sub|];
        assert OccursAt(s, sub, i + 1);
        b
      else
        assert forall i: nat :: !OccursAt(s, sub, i) by {
          forall i: nat ensures !OccursAt(s, sub, i) {
            if i > 0 && OccursAt(s, sub, i) {
              OccursShift(s, sub, i - 1);
            }
          }
        }
        b
  }

  lemma OccursShift(s: string, sub: string, i: nat)
    requires |s| > 0 && OccursAt(s, sub, i + 1)
    ensures OccursAt(s[1..], sub, i)
  {
    assert s[1..][i..i + |sub|] == s[i + 1..i + 1 + |sub|];
  }

  /** A string occurs in any string built around it. */
  lemma ContainsMiddle(a: string, sub: string, b: string)
    ensures Contains(a + sub + b, sub)
  {
    assert (a + sub + b)[|a|..|a| + |sub|] == sub;
    assert OccursAt(a + sub + b, sub, |a|);
  }

  /** What occurs in a piece of a string occurs in the whole. */
  lemma ContainsInside(pre: string, mid: string, post: string, sub: string)
    requires Contains(mid, sub)
    ensures Contains(pre + mid + post, sub)
  {
    var k: nat :| OccursAt(mid, sub, k);
    assert (pre + mid + post)[|pre| + k..|pre| + k + |sub|] == mid[k..k + |sub|];
    assert OccursAt(pre + mid + post, sub, |pre| + k);
  }

  /** A string built of three pieces starts with the first and ends with the last. */
  lemma Ends(a: string, m: string, z: string)
    ensures (a + m + z)[..|a|] == a && (a + m + z)[|a + m + z| - |z|..] == z
  {
  }

  lemma ContainsItself(s: string)
    ensures Contains(s, s)
  {
    assert OccursAt(s, s, 0);
  }

  /** The text after the last `sep`: Python's `s.split(sep)[-1]`. */
  function AfterLast(s: string, sep: char): (r: string)
    ensures |r| <= |s| && r == s[|s| - |r|..]
    ensures sep !in r
    ensures |r| < |s| ==> s[|s| - |r| - 1] == sep
  {
    if |s| == 0 then ""
    else if s[|s| - 1] == sep then ""
    else AfterLast(s[..|s| - 1], sep) + [s[|s| - 1]]
  }

  /** `s[:n]` */
  function Prefix(s: string, n: nat): (r: string)
    ensures |r| == if n < |s| then n else |s|
    ensures r == s[..|r|]
  {
    if n < |s| then s[..n] else s
  }

  /** The decimal digit for `d`. */
  function DigitChar(d: nat): (c: char)
    requires d < 10
    ensures '0' <= c <= '9' && c as int - '0' as int == d
  {
    ('0' as int + d) as char
  }

  predicate IsDigit(c: char) {
    '0' <= c <= '9'
  }

  /** The number a string of decimal digits denotes. */
  function DecimalValue(s: string): (n: nat)
    requires forall i :: 0 <= i < |s| ==> IsDigit(s[i])
  {
    if s == [] then 0
    else
      assert IsDigit(s[|s| - 1]);
      DecimalValue(s[..|s| - 1]) * 10 + (s[|s| - 1] as int - '0' as int)
  }

  /** `str(n)` for a natural number: its decimal digits, without leading zeros. */
  function NatDigits(n: nat): (r: string)
    ensures |r| > 0 && forall i :: 0 <= i < |r| ==> IsDigit(r[i])
    ensures |r| > 1 ==> r[0] != '0'
    ensures DecimalValue(r) == n
    decreases n
  {
    if n < 10 then [DigitChar(n)]
    else
      var front := NatDigits(n / 10);
      var r := front + [DigitChar(n % 10)];
      assert r[..|r| - 1] == front;
      r
  }

  /** `str(i)` for an integer. */
  function IntStr(i: int): (r: string)
    ensures i >= 0 ==> r == NatDigits(i)
    ensures i < 0 ==> r == "-" + NatDigits(-i)
  {
    if i < 0 then "-" + NatDigits(-i) else NatDigits(i)
  }

  /**
   * `str(v)` (what an f-string inserts) for the values whose text the model renders:
   * `None`, booleans, integers and strings. Floats, lists and dictionaries are rendered by
   * their `repr`, which the model does not write out: `None` there.
   */
  function StrOf(v: Value): (r: Option<string>)
    ensures r.Some? <==> v.Null? || v.Bool? || v.Int? || v.Str?
    ensures v.Str? ==> r == Some(v.s)
    ensures v.Int? ==> r == Some(IntStr(v.i))
  {
    match v
    case Null => Some("None")
    case Bool(b) => Some(if b then "True" else "False")
    case Int(i) => Some(IntStr(i))
    case Str(s) => Some(s)
    case _ => None
  }
}
