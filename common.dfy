/** Values and string operations shared by the page models: an Option type for
    the JavaScript values that may be null or undefined, and the parts of
    JavaScript's String and Array built-ins that the pages rely on. */
module Common {

  datatype Option<T> = None | Some(value: T)

  /** A drop-down that is either 'all' or one id (a category, a table area). */
  datatype IdChoice = All | Id(id: int)

  /** A JavaScript string is "truthy" unless it is missing or empty. */
  predicate Truthy(s: Option<string>) {
    s.Some? && s.value != ""
  }

  // ---------------------------------------------------------------------------
  // String.prototype.toLowerCase, restricted to ASCII and the Turkish letters.

  const DottedCapitalI: char := '\U{0130}'   // İ
  const CombiningDot: char := '\U{0307}'     // combining dot above

  predicate IsAsciiUpper(c: char) { 'A' <= c <= 'Z' }

  /** Lower-case form of one character, as toLowerCase gives it. Capital dotted I
      becomes two characters, "i" followed by a combining dot above, by the
      Unicode special-casing rules; every other character maps to one. */
  function LowerChar(c: char): (r: string)
    ensures |r| == (if c == DottedCapitalI then 2 else 1)
  {
    if IsAsciiUpper(c) then [(c as int + 32) as char]
    else if c == '\U{011E}' then ['\U{011F}']   // Ğ -> ğ
    else if c == '\U{00DC}' then ['\U{00FC}']   // Ü -> ü
    else if c == '\U{015E}' then ['\U{015F}']   // Ş -> ş
    else if c == '\U{00D6}' then ['\U{00F6}']   // Ö -> ö
    else if c == '\U{00C7}' then ['\U{00E7}']   // Ç -> ç
    else if c == DottedCapitalI then ['i', CombiningDot]
    else [c]
  }

  function Lower(s: string): (r: string)
    ensures |r| >= |s|
  {
    if s == [] then [] else LowerChar(s[0]) + Lower(s[1..])
  }

  // ---------------------------------------------------------------------------
  // startsWith, includes, trim.

  predicate StartsWith(s: string, prefix: string) {
    |prefix| <= |s| && s[..|prefix|] == prefix
  }

  /** String.prototype.includes: `needle` occurs in `hay` at some position. */
  predicate Contains(hay: string, needle: string)
    decreases |hay|
  {
    StartsWith(hay, needle) || (hay != [] && Contains(hay[1..], needle))
  }

  lemma {:induction false} ContainsEmpty(hay: string)
    ensures Contains(hay, "")
  {
  }

  /** White space and line terminators that String.prototype.trim removes. */
  predicate IsJsSpace(c: char) {
    c == ' ' || c == '\t' || c == '\n' || c == '\r' || c == '\U{000B}' || c == '\U{000C}'
    || c == '\U{00A0}' || c == '\U{1680}' || ('\U{2000}' <= c <= '\U{200A}')
    || c == '\U{2028}' || c == '\U{2029}' || c == '\U{202F}' || c == '\U{205F}'
    || c == '\U{3000}' || c == '\U{FEFF}'
  }

  function TrimStart(s: string): (r: string)
    ensures |r| <= |s| && r == s[|s| - |r|..]
    ensures r == [] || !IsJsSpace(r[0])
    ensures forall i :: 0 <= i < |s| - |r| ==> IsJsSpace(s[i])
  {
    if s != [] && IsJsSpace(s[0]) then TrimStart(s[1..]) else s
  }

  function TrimEnd(s: string): (r: string)
    ensures |r| <= |s| && r == s[..|r|]
    ensures r == [] || !IsJsSpace(r[|r| - 1])
    ensures forall i :: |r| <= i < |s| ==> IsJsSpace(s[i])
  {
    if s != [] && IsJsSpace(s[|s| - 1]) then TrimEnd(s[..|s| - 1]) else s
  }

  function Trim(s: string): string {
    TrimEnd(TrimStart(s))
  }

  // ---------------------------------------------------------------------------
  // Arithmetic.

  /** JavaScript's `%`: the remainder of division truncated toward zero, so it
      takes the sign of the dividend. */
  function JsRem(a: int, b: int): (r: int)
    requires b != 0
    ensures a >= 0 && b > 0 ==> r == a % b
    ensures a < 0 && b > 0 ==> r == -((-a) % b)
    ensures -(if b > 0 then b else -b) < r < (if b > 0 then b else -b)
  {
    var m := if b > 0 then b else -b;
    if a >= 0 then a % m else -((-a) % m)
  }

  // ---------------------------------------------------------------------------
  // Array.prototype.slice and subsequences.

  /** Array.prototype.slice(start, end): negative bounds count from the end,
      and both bounds are clamped to the array. */
  function JsSlice<T>(s: seq<T>, start: int, end: int): (r: seq<T>)
    ensures |r| <= |s|
    ensures 0 <= start <= end <= |s| ==> r == s[start..end]
  {
    var lo := if start < 0 then (if |s| + start < 0 then 0 else |s| + start)
              else if start > |s| then |s| else start;
    var hi := if end < 0 then (if |s| + end < 0 then 0 else |s| + end)
              else if end > |s| then |s| else end;
    if lo < hi then s[lo..hi] else []
  }

  /** `sub` is `s` with some elements left out, the rest in their order. */
  predicate IsSubsequence<T(==)>(sub: seq<T>, s: seq<T>)
    decreases |s|
  {
    if sub == [] then true
    else if s == [] then false
    else if sub[0] == s[0] then IsSubsequence(sub[1..], s[1..])
    else IsSubsequence(sub, s[1..])
  }

  lemma {:induction false} SubsequenceElements<T>(sub: seq<T>, s: seq<T>)
    requires IsSubsequence(sub, s)
    ensures forall x :: x in sub ==> x in s
    decreases |s|
  {
    if sub != [] && s != [] {
      if sub[0] == s[0] {
        SubsequenceElements(sub[1..], s[1..]);
        assert sub == [sub[0]] + sub[1..];
      } else {
        SubsequenceElements(sub, s[1..]);
      }
    }
  }

  lemma {:induction false} SubsequenceOfItself<T>(s: seq<T>)
    ensures IsSubsequence(s, s)
  {
    if s != [] {
      SubsequenceOfItself(s[1..]);
    }
  }

  /** Array.prototype.findIndex: the first position whose element satisfies
      `p`, or |s| when there is none. */
  function FindIndex<T>(s: seq<T>, p: T -> bool): (k: nat)
    ensures k <= |s|
    ensures k < |s| ==> p(s[k])
    ensures forall j :: 0 <= j < k ==> !p(s[j])
  {
    if s == [] then 0
    else if p(s[0]) then 0
    else 1 + FindIndex(s[1..], p)
  }

  /** Array.prototype.filter: the elements of `s` that satisfy `keep`, in order. */
  function Filter<T(==,!new)>(s: seq<T>, keep: T -> bool): (r: seq<T>)
    ensures IsSubsequence(r, s)
    ensures forall x :: x in r <==> x in s && keep(x)
    ensures |r| <= |s|
  {
    if s == [] then []
    else if keep(s[0]) then [s[0]] + Filter(s[1..], keep)
    else Filter(s[1..], keep)
  }

  /** The filter keeps every copy of a kept element and no copy of a dropped one. */
  lemma {:induction false} FilterCounts<T(!new)>(s: seq<T>, keep: T -> bool)
    ensures forall x :: multiset(Filter(s, keep))[x] == (if keep(x) then multiset(s)[x] else 0)
  {
    if s != [] {
      FilterCounts(s[1..], keep);
      assert s == [s[0]] + s[1..];
    }
  }
}
