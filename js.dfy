/**
 * The slice of JavaScript value semantics that the modelled code relies on:
 * JSON-like values, truthiness, the `||` operator, property reads and
 * `hasOwnProperty`, and the ASCII part of `toLowerCase` / `includes`.
 *
 * `null` and `undefined` are one value here (`Null`): every expression in the
 * modelled code treats them alike (both are falsy, both make a property read throw,
 * and `||` skips both). A missing property reads as `Null`.
 */
module Js {

  datatype Json =
    | Null
    | Bool(b: bool)
    | Num(n: real)
    | Str(s: string)
    | Arr(items: seq<Json>)
    | Obj(fields: map<string, Json>)

  /** JavaScript truthiness (NaN is not modelled, so the only falsy number is 0). */
  predicate Truthy(v: Json) {
    match v
    case Null => false
    case Bool(b) => b
    case Num(n) => n != 0.0
    case Str(s) => s != ""
    case Arr(_) => true
    case Obj(_) => true
  }

  /** `a || b`. */
  function Or(a: Json, b: Json): Json {
    if Truthy(a) then a else b
  }

  /**
   * `v.key` for a value that is not null or undefined (reading a property of
   * those throws a TypeError, so every caller decides that case first).
   * Arrays and primitives have none of the keys the modelled code reads.
   */
  function Prop(v: Json, key: string): Json
    requires !v.Null?
  {
    if v.Obj? && key in v.fields then v.fields[key] else Null
  }

  /** `v.hasOwnProperty(key)`. */
  predicate HasOwn(v: Json, key: string) {
    v.Obj? && key in v.fields
  }

  /** `String.prototype.toLowerCase` on one character (ASCII letters only). */
  function LowerChar(c: char): char {
    if 'A' <= c <= 'Z' then (c as int + 32) as char else c
  }

  /** `String.prototype.toLowerCase` (ASCII letters only). */
  function Lower(s: string): (r: string)
    ensures |r| == |s|
    ensures forall i :: 0 <= i < |s| ==> r[i] == LowerChar(s[i])
  {
    if s == [] then [] else [LowerChar(s[0])] + Lower(s[1..])
  }

  /** needle occurs in hay starting at offset i. */
  predicate OccursAt(hay: string, needle: string, i: int) {
    0 <= i <= |hay| - |needle| && hay[i..i + |needle|] == needle
  }

  /** `hay.includes(needle)`: needle occurs in hay at some offset. */
  predicate Includes(hay: string, needle: string) {
    exists i | 0 <= i <= |hay| - |needle| :: OccursAt(hay, needle, i)
  }

  /** One decimal digit. */
  function DigitChar(d: nat): (c: char)
    requires d < 10
    ensures '0' <= c <= '9'
  {
    (48 + d) as char
  }

  /** `${n}` for a non-negative integer: its decimal digits, most significant first. */
  function Decimal(n: nat): (s: string)
    ensures |s| >= 1
    ensures forall i :: 0 <= i < |s| ==> '0' <= s[i] <= '9'
  {
    if n < 10 then [DigitChar(n)] else Decimal(n / 10) + [DigitChar(n % 10)]
  }
}
