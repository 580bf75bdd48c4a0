/** What the configuration resolver borrows from JavaScript and Node: optional
    object keys, `||` on strings, `path.join`, the last piece of
    `String.prototype.split`, `toUpperCase`, `Array.prototype.join`,
    `parseInt`, and the `process.env` / `os` facts it reads. */
module Runtime {

  /** A key of a JavaScript object: absent (`None`) or present with a value. */
  datatype Option<+T> = None | Some(value: T)

  /** A snapshot of `process.env`. */
  type Env = map<string, string>

  /** The facts the resolver asks the `os` module and the process for. */
  datatype Host = Host(
    homedir: string,      // os.homedir()
    tmpdir: string,       // os.tmpdir()
    arch: string,         // os.arch()
    platform: string,     // os.platform(), which is also process.platform
    argv: seq<string>,    // process.argv
    nodeVersion: string,  // process.version
    installRoot: string)  // path.join(__dirname, '..')

  /** `process.env[key]`. */
  function Get(env: Env, key: string): Option<string>
  {
    if key in env then Some(env[key]) else None
  }

  /** A string is truthy when it is present and non-empty. */
  predicate Truthy(s: Option<string>)
  {
    s.Some? && s.value != ""
  }

  /** `s || fallback` for an optional string. */
  function Or(s: Option<string>, fallback: string): string
  {
    if Truthy(s) then s.value else fallback
  }

  /** One key of an object spread or `Object.assign`: the later object's key wins when present. */
  function Pick<T>(given: Option<T>, derived: T): T
  {
    if given.Some? then given.value else derived
  }

  /** Like `Pick` when the earlier object's key may be absent too. */
  function Over<T>(given: Option<T>, base: Option<T>): Option<T>
  {
    if given.Some? then given else base
  }

  /** A key the caller supplied is found, verbatim, in the result. */
  predicate Keeps<T(==)>(given: Option<T>, result: Option<T>)
  {
    given.Some? ==> result == given
  }

  /** A key the caller left out takes the value the base has. */
  predicate Fills<T(==)>(given: Option<T>, base: Option<T>, result: Option<T>)
  {
    given.None? ==> result == base
  }

  /** `path.join(a, b)`, kept as a plain join (Node's normalisation is not modelled). */
  function Join(a: string, b: string): string
  {
    a + "/" + b
  }

  predicate IsSuffix(s: string, t: string)
  {
    |s| <= |t| && t[|t| - |s|..] == s
  }

  predicate NoneOf(s: string, seps: set<char>)
  {
    forall i :: 0 <= i < |s| ==> s[i] !in seps
  }

  /** The last element of `s.split(p)` where `p` matches any one character of `seps`:
      the longest suffix of `s` that holds no separator. */
  function LastSegment(s: string, seps: set<char>): (r: string)
    ensures IsSuffix(r, s)
    ensures NoneOf(r, seps)
    ensures |r| < |s| ==> s[|s| - |r| - 1] in seps
    decreases |s|
  {
    if s == [] || s[|s| - 1] in seps then []
    else
      var init, c := s[..|s| - 1], s[|s| - 1];
      assert s == init + [c];
      var rest := LastSegment(init, seps);
      SegmentExtends(rest, init, c, seps);
      rest + [c]
  }

  /** A separator-free suffix of `s` that starts right after a separator (or at
      the start) stays one when a non-separator is appended to both. */
  lemma SegmentExtends(r: string, s: string, c: char, seps: set<char>)
    requires IsSuffix(r, s) && NoneOf(r, seps) && (|r| < |s| ==> s[|s| - |r| - 1] in seps)
    requires c !in seps
    ensures IsSuffix(r + [c], s + [c]) && NoneOf(r + [c], seps)
    ensures |r| < |s| ==> (s + [c])[|s| - |r| - 1] in seps
  {
    assert (s + [c])[|s| - |r|..] == s[|s| - |r|..] + [c];
    assert forall i :: 0 <= i < |r| ==> (r + [c])[i] == r[i];
  }

  /** Whatever precedes the last separator does not matter. */
  lemma {:induction false} LastSegmentAfterSeparator(a: string, sep: char, b: string, seps: set<char>)
    requires sep in seps && NoneOf(b, seps)
    ensures LastSegment(a + [sep] + b, seps) == b
    decreases |b|
  {
    var s := a + [sep] + b;
    if b != [] {
      var init := b[..|b| - 1];
      LastSegmentAfterSeparator(a, sep, init, seps);
      assert s[..|s| - 1] == a + [sep] + init;
      assert b == init + [b[|b| - 1]];
    }
  }

  /** `toUpperCase` on one character (ASCII letters only). */
  function UpperChar(c: char): char
  {
    if 'a' <= c <= 'z' then (c as int - 32) as char else c
  }

  predicate IsLower(c: char)
  {
    'a' <= c <= 'z'
  }

  /** `s.toUpperCase()` (ASCII letters only). */
  function Upper(s: string): (r: string)
    ensures |r| == |s|
    ensures forall i :: 0 <= i < |s| ==> r[i] == UpperChar(s[i]) && !IsLower(r[i])
  {
    seq(|s|, i requires 0 <= i < |s| => UpperChar(s[i]))
  }

  /** The number of characters in all the parts together. */
  function TotalLength(parts: seq<string>): nat
  {
    if parts == [] then 0 else TotalLength(parts[..|parts| - 1]) + |parts[|parts| - 1]|
  }

  /** `parts.join(sep)`. */
  function JoinWith(parts: seq<string>, sep: char): (r: string)
    ensures parts == [] ==> r == ""
    ensures |parts| == 1 ==> r == parts[0]
    ensures parts != [] ==> |r| == TotalLength(parts) + |parts| - 1
  {
    if parts == [] then ""
    else if |parts| == 1 then parts[0]
    else JoinWith(parts[..|parts| - 1], sep) + [sep] + parts[|parts| - 1]
  }

  /** A character that occurs in no part and is not the separator does not occur in the join. */
  lemma {:induction false} JoinWithAvoids(parts: seq<string>, sep: char, c: char)
    requires c != sep
    requires forall k :: 0 <= k < |parts| ==> NoneOf(parts[k], {c})
    ensures NoneOf(JoinWith(parts, sep), {c})
  {
    if |parts| > 1 {
      JoinWithAvoids(parts[..|parts| - 1], sep, c);
    }
  }

  /** ECMAScript WhiteSpace and LineTerminator, which `parseInt` skips. */
  predicate IsJsSpace(c: char)
  {
    var n := c as int;
    n == 0x09 || n == 0x0A || n == 0x0B || n == 0x0C || n == 0x0D || n == 0x20
    || n == 0xA0 || n == 0x1680 || (0x2000 <= n <= 0x200A) || n == 0x2028 || n == 0x2029
    || n == 0x202F || n == 0x205F || n == 0x3000 || n == 0xFEFF
  }

  /** A string made of white space only. */
  predicate AllJsSpace(w: string)
  {
    forall i :: 0 <= i < |w| ==> IsJsSpace(w[i])
  }

  /** `s` without its leading white space. */
  function TrimStart(s: string): (r: string)
    ensures IsSuffix(r, s)
    ensures r == [] || !IsJsSpace(r[0])
  {
    if s != [] && IsJsSpace(s[0]) then
      var r := TrimStart(s[1..]);
      assert s[|s| - |r|..] == s[1..][|s| - 1 - |r|..];
      r
    else s
  }

  /** What `TrimStart` removes is white space and nothing else. */
  lemma {:induction false} TrimStartRemovesSpace(s: string)
    ensures AllJsSpace(s[..|s| - |TrimStart(s)|])
  {
    if s != [] && IsJsSpace(s[0]) {
      TrimStartRemovesSpace(s[1..]);
      var n := |s| - |TrimStart(s)|;
      assert s[..n] == [s[0]] + s[1..][..n - 1];
    }
  }

  predicate IsDecimal(c: char)
  {
    '0' <= c <= '9'
  }

  predicate IsDigit(c: char, hex: bool)
  {
    IsDecimal(c) || (hex && ('a' <= c <= 'f' || 'A' <= c <= 'F'))
  }

  function DigitValue(c: char): nat
  {
    if IsDecimal(c) then c as int - '0' as int
    else if 'a' <= c <= 'f' then c as int - 'a' as int + 10
    else if 'A' <= c <= 'F' then c as int - 'A' as int + 10
    else 0
  }

  /** The longest prefix of `s` made of digits. */
  function LeadingDigits(s: string, hex: bool): (d: string)
    ensures |d| <= |s| && d == s[..|d|]
    ensures forall i :: 0 <= i < |d| ==> IsDigit(d[i], hex)
    ensures |d| < |s| ==> !IsDigit(s[|d|], hex)
  {
    if s != [] && IsDigit(s[0], hex) then [s[0]] + LeadingDigits(s[1..], hex) else []
  }

  /** The value of a numeral, most significant digit first. */
  function NumeralValue(ds: string, hex: bool): nat
  {
    if ds == [] then 0
    else
      var high := NumeralValue(ds[..|ds| - 1], hex);
      (if hex then high * 16 else high * 10) + DigitValue(ds[|ds| - 1])
  }

  /** `parseInt` after white space and sign: an optional `0x`/`0X` prefix selects
      base 16, and the longest run of digits after it is read. */
  function ParseMagnitude(u: string): Option<nat>
  {
    var hex := |u| >= 2 && u[0] == '0' && (u[1] == 'x' || u[1] == 'X');
    var ds := LeadingDigits(if hex then u[2..] else u, hex);
    if ds == [] then None else Some(NumeralValue(ds, hex))
  }

  /** `parseInt(s)` without a radix; `None` stands for `NaN`. Leading white space
      and one sign are skipped before the magnitude is read. */
  function ParseInt(s: string): (r: Option<int>)
    ensures TrimStart(s) == [] ==> r.None?
    ensures r.Some? ==> var t := TrimStart(s);
      IsDecimal(t[0]) || ((t[0] == '-' || t[0] == '+') && |t| >= 2 && IsDecimal(t[1]))
    ensures r.Some? && r.value < 0 ==> TrimStart(s)[0] == '-'
  {
    var t := TrimStart(s);
    if t != [] && (t[0] == '-' || t[0] == '+') then
      match ParseMagnitude(t[1..])
      case None => None
      case Some(n) => var v: int := if t[0] == '-' then -(n as int) else n; Some(v)
    else
      match ParseMagnitude(t)
      case None => None
      case Some(n) => Some(n)
  }

  /** White space in front of a string that does not start with white space is all that is trimmed. */
  lemma {:induction false} TrimStartSkips(ws: string, t: string)
    requires AllJsSpace(ws)
    requires t == [] || !IsJsSpace(t[0])
    ensures TrimStart(ws + t) == t
  {
    if ws != [] {
      var s := ws + t;
      assert s[0] == ws[0] && IsJsSpace(s[0]);
      assert s[1..] == ws[1..] + t;
      assert TrimStart(s) == TrimStart(s[1..]);
      TrimStartSkips(ws[1..], t);
    }
  }

  /** The run of digits at the front of `ds + tail` is `ds` when `tail` does not start with a digit. */
  lemma {:induction false} LeadingDigitRun(ds: string, tail: string, hex: bool)
    requires forall i :: 0 <= i < |ds| ==> IsDigit(ds[i], hex)
    requires tail == [] || !IsDigit(tail[0], hex)
    ensures LeadingDigits(ds + tail, hex) == ds
  {
    if ds != [] {
      LeadingDigitRun(ds[1..], tail, hex);
      assert (ds + tail)[1..] == ds[1..] + tail;
    }
  }

  /** The value a magnitude `n` has after the sign `sign` (`""`, `"+"` or `"-"`). */
  function Signed(sign: string, n: nat): (v: int)
    ensures v == n as int || v == -(n as int)
    ensures v < 0 ==> sign == "-"
  {
    if sign == "-" then -(n as int) else n
  }

  /** `parseInt` skips leading white space and one optional sign, then reads a
      decimal numeral up to the first character that is not a digit. */
  lemma ParseIntSignedDecimal(ws: string, sign: string, ds: string, tail: string)
    requires AllJsSpace(ws)
    requires sign == "" || sign == "-" || sign == "+"
    requires ds != [] && forall i :: 0 <= i < |ds| ==> IsDecimal(ds[i])
    requires tail == [] || !IsDecimal(tail[0])
    requires !(ds == "0" && tail != [] && (tail[0] == 'x' || tail[0] == 'X'))
    ensures ParseInt(ws + sign + (ds + tail))
         == Some(Signed(sign, NumeralValue(ds, false)))
  {
    var u := ds + tail;
    assert u[0] == ds[0] && IsDecimal(u[0]);
    DecimalMagnitude(ds, tail);
    SignThenMagnitude(ws, sign, u, NumeralValue(ds, false));
  }

  /** With a `0x` or `0X` prefix after the white space and the optional sign,
      `parseInt` reads hexadecimal digits. */
  lemma ParseIntHex(ws: string, sign: string, x: char, ds: string, tail: string)
    requires AllJsSpace(ws)
    requires sign == "" || sign == "-" || sign == "+"
    requires x == 'x' || x == 'X'
    requires ds != [] && forall i :: 0 <= i < |ds| ==> IsDigit(ds[i], true)
    requires tail == [] || !IsDigit(tail[0], true)
    ensures ParseInt(ws + sign + (['0', x] + ds + tail))
         == Some(Signed(sign, NumeralValue(ds, true)))
  {
    HexMagnitude(x, ds, tail);
    SignThenMagnitude(ws, sign, ['0', x] + ds + tail, NumeralValue(ds, true));
  }

  /** A decimal numeral not starting `0x` is read as a magnitude up to its last digit. */
  lemma DecimalMagnitude(ds: string, tail: string)
    requires ds != [] && forall i :: 0 <= i < |ds| ==> IsDecimal(ds[i])
    requires tail == [] || !IsDecimal(tail[0])
    requires !(ds == "0" && tail != [] && (tail[0] == 'x' || tail[0] == 'X'))
    ensures ParseMagnitude(ds + tail) == Some(NumeralValue(ds, false))
  {
    var u := ds + tail;
    assert !(|u| >= 2 && u[0] == '0' && (u[1] == 'x' || u[1] == 'X')) by {
      if |ds| >= 2 {
        assert u[1] == ds[1];
      } else if |u| >= 2 {
        assert u[1] == tail[0];
      }
    }
    LeadingDigitRun(ds, tail, false);
  }

  /** After `0x` the hexadecimal digit run is the magnitude. */
  lemma HexMagnitude(x: char, ds: string, tail: string)
    requires x == 'x' || x == 'X'
    requires ds != [] && forall i :: 0 <= i < |ds| ==> IsDigit(ds[i], true)
    requires tail == [] || !IsDigit(tail[0], true)
    ensures ParseMagnitude(['0', x] + ds + tail) == Some(NumeralValue(ds, true))
  {
    HexDigits(x, ds, tail);
    var u := ['0', x] + ds + tail;
    assert u[0] == '0' && u[1] == x;
    HexRun(u, ds);
  }

  /** The digits after `0x` are the hexadecimal run. */
  lemma HexDigits(x: char, ds: string, tail: string)
    requires ds != [] && forall i :: 0 <= i < |ds| ==> IsDigit(ds[i], true)
    requires tail == [] || !IsDigit(tail[0], true)
    ensures LeadingDigits((['0', x] + ds + tail)[2..], true) == ds
  {
    assert (['0', x] + ds + tail)[2..] == ds + tail;
    LeadingDigitRun(ds, tail, true);
  }

  /** A `0x` prefix followed by a run of hexadecimal digits gives their value. */
  lemma HexRun(u: string, ds: string)
    requires |u| >= 2 && u[0] == '0' && (u[1] == 'x' || u[1] == 'X')
    requires LeadingDigits(u[2..], true) == ds && ds != []
    ensures ParseMagnitude(u) == Some(NumeralValue(ds, true))
  {
  }

  /** White space and an optional sign in front of a magnitude. */
  lemma SignThenMagnitude(ws: string, sign: string, u: string, n: nat)
    requires AllJsSpace(ws)
    requires sign == "" || sign == "-" || sign == "+"
    requires u != [] && IsDecimal(u[0]) && ParseMagnitude(u) == Some(n)
    ensures ParseInt(ws + sign + u) == Some(Signed(sign, n))
  {
    if sign == "" {
      assert ws + sign + u == ws + u;
      TrimStartSkips(ws, u);
      UnsignedMagnitude(ws + u, u, n);
    } else {
      var c := sign[0];
      assert sign == [c];
      var t := [c] + u;
      assert ws + sign + u == ws + t;
      TrimStartSkips(ws, t);
      SignedMagnitude(ws + t, c, u, n);
    }
  }

  /** Once white space is trimmed, a magnitude is the value. */
  lemma UnsignedMagnitude(s: string, u: string, n: nat)
    requires TrimStart(s) == u
    requires u != [] && IsDecimal(u[0]) && ParseMagnitude(u) == Some(n)
    ensures ParseInt(s) == Some(n)
  {
  }

  /** Once white space is trimmed, a sign and a magnitude give the signed magnitude. */
  lemma SignedMagnitude(s: string, c: char, u: string, n: nat)
    requires c == '-' || c == '+'
    requires TrimStart(s) == [c] + u
    requires ParseMagnitude(u) == Some(n)
    ensures ParseInt(s) == Some(if c == '-' then -(n as int) else n)
  {
    assert TrimStart(s)[1..] == u;
  }

  /** `parseInt` reads a leading decimal numeral and ignores what follows it. */
  lemma ParseIntLeadingDecimal(ds: string, tail: string)
    requires ds != [] && forall i :: 0 <= i < |ds| ==> IsDecimal(ds[i])
    requires tail == [] || !IsDecimal(tail[0])
    requires !(ds == "0" && tail != [] && (tail[0] == 'x' || tail[0] == 'X'))
    ensures ParseInt(ds + tail) == Some(NumeralValue(ds, false))
  {
    var s := ds + tail;
    assert s[0] == ds[0] && IsDecimal(s[0]);
    assert TrimStart(s) == s;
    DecimalMagnitude(ds, tail);
    UnsignedMagnitude(s, s, NumeralValue(ds, false));
  }

  /** A string whose first character is neither a sign, a digit nor white space is `NaN`. */
  lemma ParseIntRejects(s: string)
    requires s != [] && !IsDecimal(s[0]) && !IsJsSpace(s[0]) && s[0] != '-' && s[0] != '+'
    ensures ParseInt(s) == None
  {
    assert TrimStart(s) == s;
  }
}
