/**
 * The JavaScript values the client pages compare and print: record ids,
 * which arrive as numbers or as strings depending on the producer, their
 * `String(...)` coercion, and the truthiness tests behind `x || d` and `!x`.
 */
module Js {
  import opened Wrappers
  import opened Text

  /** A record id: a JSON number (an integer) or a string. */
  datatype Key = Num(n: int) | Str(s: string)

  /** `String(k)` (and `${k}` in a template literal). */
  function StringOf(k: Key): string {
    match k
    case Num(n) => IntToString(n)
    case Str(s) => s
  }

  /** JavaScript truthiness of an optional id: `null`, `undefined`, `0` and `""` are falsy. */
  predicate Truthy(k: Option<Key>) {
    match k
    case None => false
    case Some(Num(n)) => n != 0
    case Some(Str(s)) => s != ""
  }

  /** JavaScript truthiness of an optional string. */
  predicate TruthyText(v: Option<string>) {
    v.Some? && v.value != ""
  }

  /** `v || d` for an optional string. */
  function OrElse(v: Option<string>, d: string): (r: string)
    ensures TruthyText(v) ==> r == v.value
    ensures !TruthyText(v) ==> r == d
  {
    if TruthyText(v) then v.value else d
  }

  /**
   * `===` on ids is equality of the values; comparing `String(a) === String(b)`
   * agrees with it on two numbers and on two strings, and differs from it
   * exactly on a number and the string of its digits.
   */
  lemma StringOfAgrees(a: Key, b: Key)
    ensures a.Num? == b.Num? ==> (StringOf(a) == StringOf(b) <==> a == b)
    ensures a.Num? && b.Str? ==> (StringOf(a) == StringOf(b) <==> b.s == IntToString(a.n))
  {
    if a.Num? && b.Num? {
      IntToStringInjective(a.n, b.n);
    }
  }

  /** The id 7 and the id "7" are different under `===` and the same after `String(...)`. */
  lemma SevenAndStringSeven()
    ensures Num(7) != Str("7")
    ensures StringOf(Num(7)) == StringOf(Str("7"))
  {
    assert NatToString(7) == "7";
  }
}
