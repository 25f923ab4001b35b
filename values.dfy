/** Python's dynamic values as the core stores them in `session_state`,
    message dictionaries and JSON blobs, plus the few `str` operations the
    core relies on. Time is an integer clock; every formatting or parsing
    function of the standard library is an uninterpreted parameter bundled
    in `TimeFormat`. */
module Values {
  import opened Wrappers

  /** A point in time, as a reading of an integer clock. */
  type Datetime = int

  /** The values that flow through `session_state` and the JSON blobs. */
  datatype Value =
    | VNone
    | VBool(b: bool)
    | VInt(i: int)
    | VStr(s: string)
    | VDatetime(t: Datetime)
    | VList(items: seq<Value>)
    | VTuple(elems: seq<Value>)
    | VDict(entries: map<string, Value>)

  /** A Python `dict` with string keys. */
  type Dict = map<string, Value>

  /** Python truthiness (`if x:`). */
  predicate Truthy(v: Value) {
    match v
    case VNone => false
    case VBool(b) => b
    case VInt(i) => i != 0
    case VStr(s) => s != ""
    case VDatetime(_) => true
    case VList(xs) => xs != []
    case VTuple(xs) => xs != []
    case VDict(m) => m != map[]
  }

  /** `d.get(key, default)` */
  function Get(d: Dict, key: string, default: Value): Value {
    if key in d then d[key] else default
  }

  // ---------------------------------------------------------------------
  // Encoding typed fields as values and reading them back. The decoders
  // reject a value of another type with `Err(IllTyped)`.

  const IllTyped := "ill-typed field"

  function OptIntValue(o: Option<int>): Value {
    match o
    case None => VNone
    case Some(n) => VInt(n)
  }

  function AsOptInt(v: Value): Result<Option<int>, string> {
    match v
    case VNone => Ok(None)
    case VInt(n) => Ok(Some(n))
    case _ => Err(IllTyped)
  }

  function OptStrValue(o: Option<string>): Value {
    match o
    case None => VNone
    case Some(s) => VStr(s)
  }

  function AsOptStr(v: Value): Result<Option<string>, string> {
    match v
    case VNone => Ok(None)
    case VStr(s) => Ok(Some(s))
    case _ => Err(IllTyped)
  }

  function AsInt(v: Value): Result<int, string> {
    if v.VInt? then Ok(v.i) else Err(IllTyped)
  }

  function AsStr(v: Value): Result<string, string> {
    if v.VStr? then Ok(v.s) else Err(IllTyped)
  }

  function AsBool(v: Value): Result<bool, string> {
    if v.VBool? then Ok(v.b) else Err(IllTyped)
  }

  function AsDict(v: Value): Result<Dict, string> {
    if v.VDict? then Ok(v.entries) else Err(IllTyped)
  }

  function StrListValue(xs: seq<string>): Value {
    VList(seq(|xs|, i requires 0 <= i < |xs| => VStr(xs[i])))
  }

  function AsStrList(v: Value): Result<seq<string>, string> {
    if v.VList? then StrsOf(v.items) else Err(IllTyped)
  }

  function StrsOf(items: seq<Value>): Result<seq<string>, string> {
    if items == [] then Ok([])
    else if !items[0].VStr? then Err(IllTyped)
    else match StrsOf(items[1..])
      case Ok(rest) => Ok([items[0].s] + rest)
      case Err(e) => Err(e)
  }

  function DictListValue(h: seq<Dict>): Value {
    VList(seq(|h|, i requires 0 <= i < |h| => VDict(h[i])))
  }

  function AsDictList(v: Value): Result<seq<Dict>, string> {
    if v.VList? then DictsOf(v.items) else Err(IllTyped)
  }

  function DictsOf(items: seq<Value>): Result<seq<Dict>, string> {
    if items == [] then Ok([])
    else if !items[0].VDict? then Err(IllTyped)
    else match DictsOf(items[1..])
      case Ok(rest) => Ok([items[0].entries] + rest)
      case Err(e) => Err(e)
  }

  lemma {:induction false} StrListRoundTrip(xs: seq<string>)
    ensures AsStrList(StrListValue(xs)) == Ok(xs)
  {
    if xs != [] {
      var items := StrListValue(xs).items;
      assert items[1..] == StrListValue(xs[1..]).items;
      StrListRoundTrip(xs[1..]);
      assert xs == [xs[0]] + xs[1..];
    }
  }

  lemma {:induction false} DictListRoundTrip(h: seq<Dict>)
    ensures AsDictList(DictListValue(h)) == Ok(h)
  {
    if h != [] {
      var items := DictListValue(h).items;
      assert items[1..] == DictListValue(h[1..]).items;
      DictListRoundTrip(h[1..]);
      assert h == [h[0]] + h[1..];
    }
  }

  /** The standard-library time functions the core calls, left uninterpreted:
      `iso` is `datetime.isoformat()`, `fromIso` is `datetime.fromisoformat`,
      `strftime` is `strftime('%Y-%m-%d %H:%M:%S')`, `format` and `parse` are
      `format_datetime` and `parse_datetime` of the legacy time utilities,
      `isoSeconds` is `isoformat(timespec='seconds')`. */
  datatype TimeFormat = TimeFormat(
    iso: Datetime -> string,
    fromIso: string -> Datetime,
    strftime: Datetime -> string,
    format: Datetime -> string,
    parse: string -> Datetime,
    isoSeconds: Datetime -> string)

  /** What Python guarantees of `isoformat`: the text is never empty and
      `datetime.fromisoformat(d.isoformat()) == d`. */
  ghost predicate IsoRoundTrips(tf: TimeFormat) {
    (forall t: Datetime :: tf.iso(t) != []) && (forall t: Datetime :: tf.fromIso(tf.iso(t)) == t)
  }

  /** `d.isoformat() if d else None` */
  function OptIsoValue(o: Option<Datetime>, tf: TimeFormat): Value {
    match o
    case None => VNone
    case Some(t) => VStr(tf.iso(t))
  }

  /** `datetime.fromisoformat(v) if v else None` */
  function AsOptIso(v: Value, tf: TimeFormat): Result<Option<Datetime>, string> {
    if !Truthy(v) then Ok(None)
    else if v.VStr? then Ok(Some(tf.fromIso(v.s)))
    else Err(IllTyped)
  }

  lemma OptIsoRoundTrip(o: Option<Datetime>, tf: TimeFormat)
    requires IsoRoundTrips(tf)
    ensures AsOptIso(OptIsoValue(o, tf), tf) == Ok(o)
  {
    if o.Some? {
      assert IsoRoundTrips(tf);
      assert forall t: Datetime :: tf.iso(t) != [];
      assert tf.iso(o.value) != [];
    }
  }

  // ---------------------------------------------------------------------
  // String helpers

  /** `c.isspace()` for a single character. */
  predicate IsSpace(c: char) {
    var n := c as int;
    n == 0x20 || (0x09 <= n <= 0x0d) || (0x1c <= n <= 0x1f) || n == 0x85 || n == 0xa0
    || n == 0x1680 || (0x2000 <= n <= 0x200a) || n == 0x2028 || n == 0x2029
    || n == 0x202f || n == 0x205f || n == 0x3000
  }

  /** `s.rstrip()`: drops trailing whitespace. */
  function RStrip(s: string): (r: string)
    ensures |r| <= |s| && r == s[..|r|]
    ensures r == [] || !IsSpace(r[|r| - 1])
    ensures forall i :: |r| <= i < |s| ==> IsSpace(s[i])
  {
    if s != [] && IsSpace(s[|s| - 1]) then RStrip(s[..|s| - 1]) else s
  }

  /** `s.lstrip()`: drops leading whitespace. */
  function LStrip(s: string): (r: string)
    ensures |r| <= |s| && r == s[|s| - |r|..]
    ensures r == [] || !IsSpace(r[0])
    ensures forall i :: 0 <= i < |s| - |r| ==> IsSpace(s[i])
  {
    if s != [] && IsSpace(s[0]) then LStrip(s[1..]) else s
  }

  /** `s.strip()` */
  function Strip(s: string): string {
    LStrip(RStrip(s))
  }

  /** `s.rstrip(c)` for a one-character argument. */
  function RStripChar(s: string, c: char): (r: string)
    ensures |r| <= |s| && r == s[..|r|]
    ensures r == [] || r[|r| - 1] != c
    ensures forall i :: |r| <= i < |s| ==> s[i] == c
  {
    if s != [] && s[|s| - 1] == c then RStripChar(s[..|s| - 1], c) else s
  }

  /** `s.startswith(p)` */
  predicate StartsWith(s: string, p: string) {
    |p| <= |s| && s[..|p|] == p
  }

  function LowerChar(c: char): char {
    if 'A' <= c <= 'Z' then (c as int + 32) as char else c
  }

  function UpperChar(c: char): char {
    if 'a' <= c <= 'z' then (c as int - 32) as char else c
  }

  /** `s.lower()` (ASCII letters only). */
  function Lower(s: string): string {
    seq(|s|, i requires 0 <= i < |s| => LowerChar(s[i]))
  }

  /** `s.capitalize()`: first character upper case, the rest lower case (ASCII letters only). */
  function Capitalize(s: string): string {
    if s == [] then [] else [UpperChar(s[0])] + Lower(s[1..])
  }

  /** `str(n)` for an integer. */
  function IntToString(n: int): string
    decreases if n < 0 then 1 - n else n
  {
    if n < 0 then "-" + IntToString(-n)
    else if n < 10 then [(48 + n) as char]
    else IntToString(n / 10) + [(48 + n % 10) as char]
  }

  /** `str(b)` for a boolean. */
  function BoolToString(b: bool): string {
    if b then "True" else "False"
  }

  /** `str(v)`: exact for strings, integers, booleans and None; any other
      value is rendered by the uninterpreted `show`. */
  function Str(v: Value, show: Value -> string): string {
    match v
    case VStr(s) => s
    case VInt(n) => IntToString(n)
    case VBool(b) => BoolToString(b)
    case VNone => "None"
    case _ => show(v)
  }

  /** `repr(s)` of a string: single quotes unless the text holds a single
      quote and no double quote; backslashes and the chosen quote escaped. */
  function ReprString(s: string): string {
    var q := if '\'' in s && '"' !in s then '"' else '\'';
    [q] + EscapeFor(s, q) + [q]
  }

  function EscapeFor(s: string, q: char): string {
    if s == [] then []
    else (if s[0] == '\\' || s[0] == q then ['\\', s[0]] else [s[0]]) + EscapeFor(s[1..], q)
  }

  /** The texts of `xs` under `f`, run together in order. */
  function Concat<T>(xs: seq<T>, f: T -> string): string {
    if xs == [] then "" else Concat(xs[..|xs| - 1], f) + f(xs[|xs| - 1])
  }

  lemma {:induction false} ConcatAppend<T>(a: seq<T>, b: seq<T>, f: T -> string)
    ensures Concat(a + b, f) == Concat(a, f) + Concat(b, f)
    decreases |b|
  {
    if b == [] {
      assert a + b == a;
    } else {
      assert (a + b)[..|a + b| - 1] == a + b[..|b| - 1];
      ConcatAppend(a, b[..|b| - 1], f);
    }
  }

  /** The text of each element sits between those of the elements before
      it and those after it. */
  lemma ConcatInPlace<T>(xs: seq<T>, i: int, f: T -> string)
    requires 0 <= i < |xs|
    ensures Concat(xs, f) == Concat(xs[..i], f) + f(xs[i]) + Concat(xs[i + 1..], f)
  {
    SplitAt(xs, i);
    ConcatAppend(xs[..i] + [xs[i]], xs[i + 1..], f);
    ConcatAppend(xs[..i], [xs[i]], f);
    ConcatSingle(xs[i], f);
  }

  lemma SplitAt<T>(xs: seq<T>, i: int)
    requires 0 <= i < |xs|
    ensures xs == xs[..i] + [xs[i]] + xs[i + 1..]
  {
  }

  lemma ConcatSingle<T>(x: T, f: T -> string)
    ensures Concat([x], f) == f(x)
  {
    assert [x][..0] == [];
  }

  /** A `for x in xs: text += f(x)` loop. */
  method ConcatLoop<T>(xs: seq<T>, f: T -> string) returns (text: string)
    ensures text == Concat(xs, f)
  {
    text := "";
    var i := 0;
    while i < |xs|
      invariant 0 <= i <= |xs|
      invariant text == Concat(xs[..i], f)
    {
      assert xs[..i + 1][..i] == xs[..i];
      text := text + f(xs[i]);
      i := i + 1;
    }
    assert xs[..i] == xs;
  }

  /** `", ".join(parts)` */
  function JoinComma(parts: seq<string>): string {
    if parts == [] then "" else if |parts| == 1 then parts[0] else parts[0] + ", " + JoinComma(parts[1..])
  }

  /** `"\n".join(lines)` */
  function JoinLines(lines: seq<string>): string {
    if lines == [] then "" else if |lines| == 1 then lines[0] else lines[0] + "\n" + JoinLines(lines[1..])
  }

  /** `str(xs)` of a list of strings. */
  function ReprStringList(xs: seq<string>): string {
    "[" + JoinComma(seq(|xs|, i requires 0 <= i < |xs| => ReprString(xs[i]))) + "]"
  }

  // ---------------------------------------------------------------------
  // `int(s)` on a string

  predicate IsDigit(c: char) {
    '0' <= c <= '9'
  }

  /** The number an ASCII digit string denotes. */
  function DigitsValue(s: string): int
    requires forall i :: 0 <= i < |s| ==> IsDigit(s[i])
  {
    if s == [] then 0 else DigitsValue(s[..|s| - 1]) * 10 + (s[|s| - 1] as int - 48)
  }

  /** Digits, with single underscores allowed between two digits. */
  predicate Grouped(s: string) {
    && s != [] && IsDigit(s[0]) && IsDigit(s[|s| - 1])
    && (forall i :: 0 <= i < |s| ==> IsDigit(s[i]) || s[i] == '_')
    && (forall i :: 0 <= i < |s| - 1 ==> !DoubleUnderscore(s, i))
  }

  /** Two underscores in a row start at position `i`. */
  predicate DoubleUnderscore(s: string, i: int)
    requires 0 <= i < |s| - 1
  {
    s[i] == '_' && s[i + 1] == '_'
  }

  function DropUnderscores(s: string): (r: string)
    requires forall i :: 0 <= i < |s| ==> IsDigit(s[i]) || s[i] == '_'
    ensures forall i :: 0 <= i < |r| ==> IsDigit(r[i])
    ensures (forall i :: 0 <= i < |s| ==> s[i] != '_') ==> r == s
  {
    if s == [] then [] else (if s[0] == '_' then [] else [s[0]]) + DropUnderscores(s[1..])
  }

  /** `int(s)`: surrounding whitespace, an optional sign, then decimal digits
      grouped by single underscores; anything else raises ValueError (None). */
  function ParseInt(s: string): Option<int> {
    var t := Strip(s);
    if t != [] && (t[0] == '+' || t[0] == '-') then
      match Unsigned(t[1..])
      case None => None
      case Some(n) => Some(if t[0] == '-' then -n else n)
    else Unsigned(t)
  }

  /** The digits part of `int(s)`, without sign or padding. */
  function Unsigned(t: string): Option<int> {
    if Grouped(t) then Some(DigitsValue(DropUnderscores(t))) else None
  }

  /** Plain digits are read as their value. */
  lemma DigitsRead(d: string)
    requires d != [] && forall i :: 0 <= i < |d| ==> IsDigit(d[i])
    ensures Unsigned(d) == Some(DigitsValue(d))
  {
    DigitsGrouped(d);
  }

  lemma {:induction false} NaturalDigits(n: nat)
    ensures var s := IntToString(n);
            && s != [] && (forall i :: 0 <= i < |s| ==> IsDigit(s[i]))
            && DigitsValue(s) == n
  {
    if n >= 10 {
      NaturalDigits(n / 10);
      var s := IntToString(n);
      assert s[..|s| - 1] == IntToString(n / 10);
    }
  }

  lemma StripUnpadded(s: string)
    requires s != [] && !IsSpace(s[0]) && !IsSpace(s[|s| - 1])
    ensures Strip(s) == s
  {
    assert RStrip(s) == s;
  }

  /** The text of a natural number parses back to it. */
  lemma NaturalParses(m: nat)
    ensures ParseInt(IntToString(m)) == Some(m)
  {
    NaturalDigits(m);
    var d := IntToString(m);
    StripUnpadded(d);
    DigitsRead(d);
    assert !(d[0] == '+' || d[0] == '-');
  }

  /** The text of a negative number parses back to it. */
  lemma NegativeParses(n: int)
    requires n < 0
    ensures ParseInt(IntToString(n)) == Some(n)
  {
    NaturalDigits(-n);
    var d := IntToString(-n);
    assert IntToString(n) == "-" + d;
    DigitsRead(d);
    SignedParses(d, -n);
  }

  /** A minus sign before digits that read as `m` parses to `-m`. */
  lemma SignedParses(d: string, m: int)
    requires d != [] && !IsSpace(d[|d| - 1]) && Unsigned(d) == Some(m)
    ensures ParseInt("-" + d) == Some(-m)
  {
    var s := "-" + d;
    assert !IsSpace(s[0]) && !IsSpace(s[|s| - 1]) by {
      assert s[|s| - 1] == d[|d| - 1];
    }
    StripUnpadded(s);
    assert s[1..] == d;
  }

  /** A plain digit string is grouped and has no underscore to drop. */
  lemma DigitsGrouped(d: string)
    requires d != [] && forall i :: 0 <= i < |d| ==> IsDigit(d[i])
    ensures Grouped(d) && DropUnderscores(d) == d
  {
    forall i | 0 <= i < |d| - 1 ensures !DoubleUnderscore(d, i) {
      assert IsDigit(d[i]);
    }
  }

  /** `int(str(n)) == n` */
  lemma ParseIntRoundTrip(n: int)
    ensures ParseInt(IntToString(n)) == Some(n)
  {
    if n < 0 {
      NegativeParses(n);
    } else {
      NaturalParses(n);
    }
  }

  lemma StripNoEdgeSpace(s: string)
    ensures Strip(s) == [] || (!IsSpace(Strip(s)[0]) && !IsSpace(Strip(s)[|Strip(s)| - 1]))
  {
    var r := RStrip(s);
    var l := LStrip(r);
    if l != [] {
      assert l == r[|r| - |l|..];
      assert l[|l| - 1] == r[|r| - 1];
    }
  }
}
