/**
 * The Java vocabulary the logger code is written in: references that may be
 * null, the unchecked exceptions it throws, fixed-width integers and the few
 * `String` methods it calls.
 */
module JavaLang {

  /** A Java reference that may be `null`. */
  datatype Option<+T> = None | Some(value: T)

  /** A `String` reference that may be `null`. */
  type JString = Option<string>

  /** The unchecked exceptions thrown by the modelled code. */
  datatype JavaException =
    | IllegalArgumentException
    | NullPointerException
    | RuntimeException

  /** What a value-returning Java method does: return a value or throw. */
  datatype Result<+T> = Ok(value: T) | Throw(exception: JavaException)

  /** What a `void` Java method does: return normally or throw. */
  datatype Outcome = Done | Threw(exception: JavaException)

  /** `Integer.MAX_VALUE`. */
  const IntMaxValue: int := 0x7fff_ffff

  /** `Integer.MIN_VALUE`. */
  const IntMinValue: int := -0x8000_0000

  /** Java `int`. */
  type Int32 = x: int | -0x8000_0000 <= x <= 0x7fff_ffff

  /** Java `long`. */
  type Int64 = x: int | -0x8000_0000_0000_0000 <= x <= 0x7fff_ffff_ffff_ffff

  /** `s.startsWith(prefix)`. */
  predicate StartsWith(s: string, prefix: string) {
    prefix <= s
  }

  /** `s.endsWith(suffix)`. */
  predicate EndsWith(s: string, suffix: string) {
    |suffix| <= |s| && s[|s| - |suffix|..] == suffix
  }

  /** `Character.toLowerCase` restricted to ASCII letters; every other character is kept. */
  function ToLowerChar(c: char): (r: char)
    ensures 'A' <= c <= 'Z' ==> 'a' <= r <= 'z'
    ensures !('A' <= c <= 'Z') ==> r == c
  {
    if 'A' <= c <= 'Z' then (c as int + ('a' as int - 'A' as int)) as char else c
  }

  /** `s.toLowerCase()` on ASCII letters. */
  function ToLowerCase(s: string): (r: string)
    ensures |r| == |s|
    ensures forall i :: 0 <= i < |s| ==> r[i] == ToLowerChar(s[i])
  {
    seq(|s|, i requires 0 <= i < |s| => ToLowerChar(s[i]))
  }

  /** Lower-casing twice is lower-casing once. */
  lemma ToLowerCaseIdempotent(s: string)
    ensures ToLowerCase(ToLowerCase(s)) == ToLowerCase(s)
  {
    var once := ToLowerCase(s);
    var twice := ToLowerCase(once);
    forall i | 0 <= i < |s| ensures twice[i] == once[i] {
      assert twice[i] == ToLowerChar(once[i]);
    }
  }
}
