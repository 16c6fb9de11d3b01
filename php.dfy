/** PHP values as the plugin sees them, and the two built-ins its logic leans on:
    truthiness (`empty($v)`, `! $v`, `?:`) and `strtoupper`. */
module Php {

  datatype Option<T> = None | Some(value: T)

  /** A PHP scalar held in an array entry or in meta; `Null` also stands for a missing key. */
  datatype Value = Null | Bool(b: bool) | Int(i: int) | Str(s: string)

  /** Truthiness of a PHP string: only "" and "0" are falsy. */
  predicate TruthyString(s: string)
  {
    s != "" && s != "0"
  }

  /** `empty($v)`: the value is falsy (or the key is missing). */
  predicate IsEmpty(v: Value)
  {
    match v
    case Null => true
    case Bool(b) => !b
    case Int(i) => i == 0
    case Str(s) => !TruthyString(s)
  }

  function Lookup<K, V>(m: map<K, V>, k: K): Option<V>
  {
    if k in m then Some(m[k]) else None
  }

  predicate IsLowerAscii(c: char)
  {
    'a' <= c <= 'z'
  }

  /** Upper-casing of one character by `strtoupper`: only ASCII letters change. */
  function UpperChar(c: char): (u: char)
    ensures !IsLowerAscii(u)
    ensures IsLowerAscii(c) ==> u as int == c as int - 32
    ensures !IsLowerAscii(c) ==> u == c
  {
    if IsLowerAscii(c) then (c as int - 32) as char else c
  }

  /** `strtoupper($s)`: only ASCII `a`-`z` change. PHP 8.2 and later do this in every
      locale; earlier versions do it in the default "C" locale. */
  function Upper(s: string): (r: string)
    ensures |r| == |s|
    ensures forall i :: 0 <= i < |s| ==> r[i] == UpperChar(s[i])
  {
    if s == [] then [] else [UpperChar(s[0])] + Upper(s[1..])
  }

  /** Upper-casing twice is upper-casing once. */
  lemma UpperIdempotent(s: string)
    ensures Upper(Upper(s)) == Upper(s)
  {
    var u := Upper(s);
    assert forall i :: 0 <= i < |u| ==> Upper(u)[i] == u[i];
  }
}
