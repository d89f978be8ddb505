/** Shared datatypes and the Python string primitives the scanners and
    services are built from (`in`, `startswith`, `lower`, `strip`, `split`,
    `join`, `find`). */
module Common {

  datatype Option<T> = None | Some(value: T)

  datatype Result<T, E> = Ok(value: T) | Err(error: E)

  /** What a call into an external service (the language-model service,
      the hosting API, a subprocess) did: it returned text, or it raised. */
  datatype Reply = Replied(content: string) | Raised(message: string)

  /** One step of `os.walk`: a directory, the names of its subdirectories
      and the names of its files. A walk is the sequence of these steps. */
  datatype WalkEntry = WalkEntry(root: string, dirs: seq<string>, files: seq<string>)

  /** `os.path.join(a, b)` on POSIX paths. */
  function PathJoin(a: string, b: string): string {
    if |b| > 0 && b[0] == '/' then b
    else if a == [] || a[|a| - 1] == '/' then a + b
    else a + "/" + b
  }

  function Min(a: int, b: int): int { if a <= b then a else b }

  function Max(a: int, b: int): int { if a >= b then a else b }

  /** Python's `str.isspace` for a single character. */
  predicate IsSpace(c: char) {
    || c == ' '
    || '\t' <= c <= '\r'
    || '\U{1C}' <= c <= '\U{1F}'
    || c == '\U{85}' || c == '\U{A0}' || c == '\U{1680}'
    || '\U{2000}' <= c <= '\U{200A}'
    || c == '\U{2028}' || c == '\U{2029}' || c == '\U{202F}' || c == '\U{205F}' || c == '\U{3000}'
  }

  /** Python's `str.lower`, on ASCII letters only. */
  function LowerChar(c: char): char {
    if 'A' <= c <= 'Z' then (c as int + 32) as char else c
  }

  function Lower(s: string): (r: string)
    ensures |r| == |s|
    ensures forall i :: 0 <= i < |s| ==> r[i] == LowerChar(s[i])
  {
    seq(|s|, i requires 0 <= i < |s| => LowerChar(s[i]))
  }

  predicate StartsWith(s: string, prefix: string) {
    |prefix| <= |s| && s[..|prefix|] == prefix
  }

  predicate EndsWith(s: string, suffix: string) {
    |suffix| <= |s| && s[|s| - |suffix|..] == suffix
  }

  /** `k` occurs in `s` starting at index `i`. */
  predicate OccursAt(s: string, k: string, i: int) {
    0 <= i && i + |k| <= |s| && s[i..i + |k|] == k
  }

  /** Python's substring test `k in s`. */
  function Contains(s: string, k: string): (b: bool)
    ensures b <==> exists i :: OccursAt(s, k, i)
    decreases |s|
  {
    if |k| > |s| then false
    else if s[..|k|] == k then assert OccursAt(s, k, 0); true
    else
      var rest := Contains(s[1..], k);
      assert forall i :: OccursAt(s, k, i) ==> i > 0 && OccursAt(s[1..], k, i - 1) by {
        forall i | OccursAt(s, k, i) ensures i > 0 && OccursAt(s[1..], k, i - 1) {
          assert i != 0;
          assert s[1..][i - 1..i - 1 + |k|] == s[i..i + |k|];
        }
      }
      assert forall i :: OccursAt(s[1..], k, i) ==> OccursAt(s, k, i + 1) by {
        forall i | OccursAt(s[1..], k, i) ensures OccursAt(s, k, i + 1) {
          assert s[1..][i..i + |k|] == s[i + 1..i + 1 + |k|];
        }
      }
      rest
  }

  /** `s` with every leading character satisfying `drop` removed. */
  function StripLeft(s: string, drop: char -> bool): (r: string)
    ensures |r| <= |s| && r == s[|s| - |r|..]
    ensures r == [] || !drop(r[0])
    ensures forall i :: 0 <= i < |s| - |r| ==> drop(s[i])
  {
    if s != [] && drop(s[0]) then StripLeft(s[1..], drop) else s
  }

  /** `s` with every trailing character satisfying `drop` removed. */
  function StripRight(s: string, drop: char -> bool): (r: string)
    ensures |r| <= |s| && r == s[..|r|]
    ensures r == [] || !drop(r[|r| - 1])
    ensures forall i :: |r| <= i < |s| ==> drop(s[i])
  {
    if s != [] && drop(s[|s| - 1]) then StripRight(s[..|s| - 1], drop) else s
  }

  /** Python's `s.strip(chars)` where `drop` says which characters are in `chars`. */
  function StripBy(s: string, drop: char -> bool): (r: string)
    ensures r == [] || (!drop(r[0]) && !drop(r[|r| - 1]))
    ensures r == [] <==> forall i :: 0 <= i < |s| ==> drop(s[i])
  {
    var l := StripLeft(s, drop);
    var r := StripRight(l, drop);
    assert r == [] ==> l == [];
    r
  }

  /** Python's `str.strip()` with no argument. */
  function Strip(s: string): string {
    StripBy(s, IsSpace)
  }

  /** Index of the first character of `s` satisfying `stop`, or `|s|`. */
  function IndexWhere(s: string, stop: char -> bool): (n: nat)
    ensures n <= |s|
    ensures forall i :: 0 <= i < n ==> !stop(s[i])
    ensures n < |s| ==> stop(s[n])
  {
    if s == [] || stop(s[0]) then 0 else 1 + IndexWhere(s[1..], stop)
  }

  /** Index of the first occurrence of `c` in `s`, as Python's `s.find(c)` (None for -1). */
  function Find(s: string, c: char): (r: Option<nat>)
    ensures r.None? <==> c !in s
    ensures r.Some? ==> r.value < |s| && s[r.value] == c && c !in s[..r.value]
  {
    var n := IndexWhere(s, x => x == c);
    if n < |s| then Some(n) else None
  }

  /** Index of the last occurrence of `c` in `s`, as Python's `s.rfind(c)` (None for -1). */
  function RFind(s: string, c: char): (r: Option<nat>)
    ensures r.None? <==> c !in s
    ensures r.Some? ==> r.value < |s| && s[r.value] == c && c !in s[r.value + 1..]
  {
    if s == [] then None
    else if s[|s| - 1] == c then Some(|s| - 1)
    else
      var r := RFind(s[..|s| - 1], c);
      assert s == s[..|s| - 1] + [s[|s| - 1]];
      r
  }

  /** Python's `str.split()` with no argument: the maximal runs of
      non-whitespace characters, in order. */
  function SplitWords(s: string): (words: seq<string>)
    decreases |s|
  {
    var t := StripLeft(s, IsSpace);
    if t == [] then []
    else
      var n := IndexWhere(t, IsSpace);
      assert n != 0 && |t[n..]| < |s|;
      [t[..n]] + SplitWords(t[n..])
  }

  /** Python's `s.split(sep)` for a one-character separator. */
  function SplitOn(s: string, sep: char): (parts: seq<string>)
    ensures |parts| >= 1
    ensures sep !in s ==> parts == [s]
    decreases |s|
  {
    match Find(s, sep)
    case None => [s]
    case Some(i) => [s[..i]] + SplitOn(s[i + 1..], sep)
  }

  /** Python's `sep.join(parts)`. */
  function Join(parts: seq<string>, sep: string): string {
    if |parts| == 0 then ""
    else if |parts| == 1 then parts[0]
    else parts[0] + sep + Join(parts[1..], sep)
  }
}
