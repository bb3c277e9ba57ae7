/** JavaScript values and the handful of built-in string operations the
    signing library relies on (String(), split, join, slice, truthiness,
    property access, object spread). */
module JsValues {

  datatype Option<+T> = None | Some(value: T) {
    function GetOr(default: T): T {
      match this
      case Some(v) => v
      case None => default
    }
  }

  /** A JavaScript value. Objects are modelled as maps: the key order of a JS
      object is not part of this model. Numbers are integers. */
  datatype Val =
    | Str(s: string)
    | Num(n: int)
    | Bool(b: bool)
    | Null
    | Undef
    | Arr(items: seq<Val>)
    | Obj(props: map<string, Val>)

  /** JavaScript truthiness (`if (v)`, `!v`, `Boolean(v)`). */
  predicate Truthy(v: Val) {
    match v
    case Str(s) => s != ""
    case Num(n) => n != 0
    case Bool(b) => b
    case Null => false
    case Undef => false
    case Arr(_) => true
    case Obj(_) => true
  }

  predicate Nullish(v: Val) {
    v.Null? || v.Undef?
  }

  /** `a ?? b` */
  function Coalesce(a: Val, b: Val): (r: Val)
    ensures !Nullish(a) ==> r == a
    ensures Nullish(a) ==> r == b
  {
    if Nullish(a) then b else a
  }

  /** `a || b` */
  function OrElse(a: Val, b: Val): (r: Val)
    ensures Truthy(a) ==> r == a
    ensures !Truthy(a) ==> r == b
  {
    if Truthy(a) then a else b
  }

  /** An empty object literal `{}`. */
  const EmptyObject: Val := Obj(map[])

  function DigitChar(d: nat): (c: char)
    requires d < 10
    ensures '0' <= c <= '9'
  {
    ('0' as int + d) as char
  }

  /** Decimal digits of a natural number, as `String(n)` prints it. */
  function NatToString(n: nat): (r: string)
    ensures 1 <= |r|
    ensures n >= 10 ==> 2 <= |r|
    ensures forall i :: 0 <= i < |r| ==> '0' <= r[i] <= '9'
    decreases n
  {
    if n < 10 then [DigitChar(n)] else NatToString(n / 10) + [DigitChar(n % 10)]
  }

  lemma {:induction false} NatToStringInjective(a: nat, b: nat)
    requires NatToString(a) == NatToString(b)
    ensures a == b
    decreases a
  {
    var sa, sb := NatToString(a), NatToString(b);
    if a >= 10 && b >= 10 {
      var pa, pb := NatToString(a / 10), NatToString(b / 10);
      assert sa == pa + [DigitChar(a % 10)] && sb == pb + [DigitChar(b % 10)];
      assert sa[|sa| - 1] == DigitChar(a % 10) && sb[|sb| - 1] == DigitChar(b % 10);
      assert a % 10 == b % 10;
      assert pa == sa[..|sa| - 1] && pb == sb[..|sb| - 1];
      NatToStringInjective(a / 10, b / 10);
    } else if a < 10 && b < 10 {
      assert sa[0] == DigitChar(a) && sb[0] == DigitChar(b);
    }
  }

  /** `String(n)` for an integer. */
  function NumberToString(n: int): (r: string)
    ensures |r| >= 1
  {
    if n < 0 then "-" + NatToString(-n) else NatToString(n)
  }

  /** `xs.join(sep)` */
  function Join(xs: seq<string>, sep: string): string
    decreases |xs|
  {
    if |xs| == 0 then "" else if |xs| == 1 then xs[0] else xs[0] + sep + Join(xs[1..], sep)
  }

  /** `String(v)`, which is also what a template literal `${v}` produces. */
  function ToJsString(v: Val): string
    decreases v
  {
    match v
    case Str(s) => s
    case Num(n) => NumberToString(n)
    case Bool(b) => if b then "true" else "false"
    case Null => "null"
    case Undef => "undefined"
    case Arr(items) =>
      // Array.prototype.toString: elements joined by ",", null and undefined print as ""
      Join(seq(|items|, i requires 0 <= i < |items| =>
             if Nullish(items[i]) then "" else ToJsString(items[i])), ",")
    case Obj(_) => "[object Object]"
  }

  /** `s.split(c)` for a one-character separator. */
  function Split(s: string, c: char): (r: seq<string>)
    ensures 1 <= |r|
    ensures forall i :: 0 <= i < |r| ==> c !in r[i]
    ensures Join(r, [c]) == s
    decreases |s|
  {
    if s == [] then [""]
    else if s[0] == c then
      var rest := Split(s[1..], c);
      assert s == [c] + s[1..];
      [""] + rest
    else
      var rest := Split(s[1..], c);
      assert s == [s[0]] + s[1..];
      [[s[0]] + rest[0]] + rest[1..]
  }

  lemma {:induction false} SplitAfterFirst(a: string, c: char, b: string)
    requires c !in a
    ensures Split(a + [c] + b, c) == [a] + Split(b, c)
    decreases |a|
  {
    if a == [] {
      assert a + [c] + b == [c] + b;
    } else {
      var s := a + [c] + b;
      assert s[0] == a[0] && a[0] != c;
      assert s[1..] == a[1..] + [c] + b;
      SplitAfterFirst(a[1..], c, b);
      assert [a[0]] + a[1..] == a;
    }
  }

  /** Two separator-free strings joined by the separator split back. */
  lemma SplitPair(a: string, c: char, b: string)
    requires c !in a && c !in b
    ensures Split(a + [c] + b, c) == [a, b]
  {
    SplitAfterFirst(a, c, b);
    SplitNoSeparator(b, c);
  }

  lemma {:induction false} SplitNoSeparator(a: string, c: char)
    requires c !in a
    ensures Split(a, c) == [a]
    decreases |a|
  {
    if a != [] {
      SplitNoSeparator(a[1..], c);
      assert [a[0]] + a[1..] == a;
    }
  }

  /** Splitting a join undoes it, when no piece contains the separator. */
  lemma {:induction false} SplitJoin(xs: seq<string>, c: char)
    requires 1 <= |xs|
    requires forall i :: 0 <= i < |xs| ==> c !in xs[i]
    ensures Split(Join(xs, [c]), c) == xs
    decreases |xs|
  {
    if |xs| == 1 {
      SplitNoSeparator(xs[0], c);
    } else {
      SplitJoin(xs[1..], c);
      SplitAfterFirst(xs[0], c, Join(xs[1..], [c]));
      assert [xs[0]] + xs[1..] == xs;
    }
  }

  /** Three pieces without the separator split back apart. */
  lemma {:induction false} SplitThree(a: string, b: string, c: string, sep: char)
    requires sep !in a && sep !in b && sep !in c
    ensures Split(a + [sep] + b + [sep] + c, sep) == [a, b, c]
  {
    var tail := b + [sep] + c;
    assert a + [sep] + b + [sep] + c == a + [sep] + tail;
    SplitNoSeparator(c, sep);
    SplitAfterFirst(b, sep, c);
    assert Split(tail, sep) == [b, c];
    SplitAfterFirst(a, sep, tail);
  }

  lemma {:induction false} JoinAppend(xs: seq<string>, x: string, sep: string)
    requires xs != []
    ensures Join(xs + [x], sep) == Join(xs, sep) + sep + x
    decreases |xs|
  {
    if |xs| == 1 {
      assert (xs + [x])[1..] == [x];
    } else {
      assert (xs + [x])[1..] == xs[1..] + [x];
      JoinAppend(xs[1..], x, sep);
    }
  }

  /** The pieces concatenated, each one followed by sep (what a loop that
      appends `${piece}${sep}` builds). */
  function Terminated(xs: seq<string>, sep: string): string
    decreases |xs|
  {
    if xs == [] then "" else Terminated(xs[..|xs| - 1], sep) + xs[|xs| - 1] + sep
  }

  lemma TerminatedStep(lead: string, xs: seq<string>, i: nat, sep: string)
    requires i < |xs|
    ensures lead + Terminated(xs[..i + 1], sep) == lead + Terminated(xs[..i], sep) + xs[i] + sep
  {
    assert xs[..i + 1][..i] == xs[..i];
  }

  /** Cutting the last separator off the terminated pieces gives their join. */
  lemma {:induction false} TerminatedJoin(xs: seq<string>, sep: string)
    requires xs != []
    ensures Terminated(xs, sep) == Join(xs, sep) + sep
    decreases |xs|
  {
    var n := |xs| - 1;
    if n == 0 {
      assert Terminated(xs[..0], sep) == "";
    } else {
      TerminatedJoin(xs[..n], sep);
      JoinAppend(xs[..n], xs[n], sep);
      assert xs[..n] + [xs[n]] == xs;
    }
  }

  /** `s.slice(0, s.length - sep.length)` removes a trailing sep. */
  lemma SliceOffSuffix(a: string, b: string, sep: string)
    ensures var s := a + (b + sep); SliceTo(s, |s| - |sep|) == a + b
  {
    var s := a + (b + sep);
    assert s[..|a + b|] == a + b;
  }

  /** `s.slice(0, end)`: a negative end counts from the back, clamped at 0. */
  function SliceTo(s: string, end: int): (r: string)
    ensures end >= 0 ==> r == s[..if end <= |s| then end else |s|]
    ensures end < 0 ==> r == s[..if |s| + end >= 0 then |s| + end else 0]
  {
    var e := if end < 0 then (if |s| + end >= 0 then |s| + end else 0)
             else (if end <= |s| then end else |s|);
    s[..e]
  }

  /** `v.k`: None stands for the TypeError thrown when v is null or undefined.
      Built-in properties of primitives (`length` and the like) are not modelled. */
  function Prop(v: Val, k: string): (r: Option<Val>)
    ensures r.None? <==> Nullish(v)
    ensures v.Obj? && k in v.props ==> r == Some(v.props[k])
  {
    match v
    case Null => None
    case Undef => None
    case Obj(m) => Some(if k in m then m[k] else Undef)
    case _ => Some(Undef)
  }

  /** `v?.k` */
  function OptProp(v: Val, k: string): (r: Val)
    ensures Nullish(v) ==> r == Undef
  {
    match Prop(v, k)
    case None => Undef
    case Some(x) => x
  }

  function IndexKeys<T>(xs: seq<T>, f: T -> Val): (m: map<string, Val>)
    ensures forall i :: 0 <= i < |xs| ==> NatToString(i) in m && m[NatToString(i)] == f(xs[i])
    ensures forall k :: k in m ==> exists i :: 0 <= i < |xs| && k == NatToString(i)
  {
    forall i, j | 0 <= i < |xs| && 0 <= j < |xs| && NatToString(i) == NatToString(j)
      ensures i == j
    {
      NatToStringInjective(i, j);
    }
    map i | 0 <= i < |xs| :: NatToString(i) := f(xs[i])
  }

  /** The own enumerable properties that `{...v}` copies. */
  function Spread(v: Val): (m: map<string, Val>)
    ensures v.Obj? ==> m == v.props
    ensures !v.Obj? && !v.Str? && !v.Arr? ==> m == map[]
  {
    match v
    case Obj(props) => props
    case Str(s) => IndexKeys(s, (ch: char) => Str([ch]))
    case Arr(items) => IndexKeys(items, (x: Val) => x)
    case _ => map[]
  }

  /** ASCII upper-casing, the part of `toUpperCase` HTTP method names use. */
  function ToUpperAscii(s: string): (r: string)
    ensures |r| == |s|
    ensures forall i :: 0 <= i < |s| ==> ('a' <= s[i] <= 'z' ==> r[i] as int == s[i] as int - 32)
    ensures forall i :: 0 <= i < |s| ==> (!('a' <= s[i] <= 'z') ==> r[i] == s[i])
  {
    seq(|s|, i requires 0 <= i < |s| =>
      if 'a' <= s[i] <= 'z' then (s[i] as int - 32) as char else s[i])
  }

  predicate StartsWith(s: string, prefix: string) {
    |prefix| <= |s| && s[..|prefix|] == prefix
  }
}
