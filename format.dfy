/** The updater's positional template helper `format(template, a0, ..., an-1)`.
    It works in two passes: a loop rewrites each `{i}` (i < n) into the
    Python named conversion `%(i)s` with `str.replace`, and one application of
    the `%` operator to a dictionary from `str(i)` to `ai` fills them all in. */
module Format {
  import opened Basics

  /** The decimal digit for d. */
  function DigitChar(d: nat): (c: char)
    requires d < 10
    ensures '0' <= c <= '9'
  {
    (48 + d) as char
  }

  /** Python's `str(n)` for a natural number. */
  function DecimalString(n: nat): (r: string)
    ensures |r| >= 1
    ensures forall i :: 0 <= i < |r| ==> '0' <= r[i] <= '9'
    decreases n
  {
    if n < 10 then [DigitChar(n)] else DecimalString(n / 10) + [DigitChar(n % 10)]
  }

  /** Different numbers have different decimal strings, so the keys of the
      parameter dictionary never clash. */
  lemma {:induction false} DecimalStringInjective(a: nat, b: nat)
    ensures DecimalString(a) == DecimalString(b) ==> a == b
    decreases a
  {
    if DecimalString(a) == DecimalString(b) && a >= 10 && b >= 10 {
      var sa, sb := DecimalString(a), DecimalString(b);
      assert sa[..|sa| - 1] == DecimalString(a / 10);
      assert sb[..|sb| - 1] == DecimalString(b / 10);
      DecimalStringInjective(a / 10, b / 10);
      assert sa[|sa| - 1] == DigitChar(a % 10);
      assert sb[|sb| - 1] == DigitChar(b % 10);
    }
  }

  /** The placeholder text `{k}` of argument k. */
  function Placeholder(k: nat): (r: string)
  {
    "{" + DecimalString(k) + "}"
  }

  /** The named conversion `%(k)s` that the rewrite loop puts in its place. */
  function Marker(k: nat): (r: string)
  {
    "%(" + DecimalString(k) + ")s"
  }

  /** The markers of the first n arguments, in order. */
  function Markers(n: nat): (ms: seq<string>)
    ensures |ms| == n
    ensures forall k :: 0 <= k < n ==> ms[k] == Marker(k)
  {
    if n == 0 then [] else Markers(n - 1) + [Marker(n - 1)]
  }

  // ---------------------------------------------------------------------
  // The reference meaning of format
  // ---------------------------------------------------------------------

  /** The first k in [from, n) whose placeholder starts t, if any. */
  function FirstPlaceholder(t: string, n: nat, from: nat): (r: Option<nat>)
    ensures r.Some? ==> from <= r.value < n && Placeholder(r.value) <= t
    decreases n - from
  {
    if from >= n then None
    else if Placeholder(from) <= t then Some(from)
    else FirstPlaceholder(t, n, from + 1)
  }

  /** FirstPlaceholder finds the first match, and finds nothing only when no
      placeholder in range starts t. */
  lemma {:induction false} FirstPlaceholderIsFirst(t: string, n: nat, from: nat)
    ensures FirstPlaceholder(t, n, from).Some? ==>
      forall j :: from <= j < FirstPlaceholder(t, n, from).value ==> !(Placeholder(j) <= t)
    ensures FirstPlaceholder(t, n, from).None? ==>
      forall j :: from <= j < n ==> !(Placeholder(j) <= t)
    decreases n - from
  {
    if from < n && !(Placeholder(from) <= t) {
      FirstPlaceholderIsFirst(t, n, from + 1);
    }
  }

  /** FirstPlaceholder is determined by which placeholders start t. */
  lemma FirstPlaceholderOf(t: string, n: nat, k: nat)
    requires k < n && Placeholder(k) <= t
    requires forall j :: 0 <= j < k ==> !(Placeholder(j) <= t)
    ensures FirstPlaceholder(t, n, 0) == Some(k)
  {
    FirstPlaceholderIsFirst(t, n, 0);
  }

  lemma NoPlaceholderOf(t: string, n: nat)
    requires forall j :: 0 <= j < n ==> !(Placeholder(j) <= t)
    ensures FirstPlaceholder(t, n, 0).None?
  {
  }

  /** Simultaneous positional substitution, read left to right: a `{k}` with
      k < |vals| at the current position becomes vals[k] and scanning resumes
      after the placeholder; every other character is copied. The inserted
      values are never scanned again. */
  function Expand(t: string, vals: seq<string>): (r: string)
    decreases |t|
  {
    if t == [] then []
    else match FirstPlaceholder(t, |vals|, 0)
      case Some(k) => vals[k] + Expand(t[|Placeholder(k)|..], vals)
      case None => [t[0]] + Expand(t[1..], vals)
  }

  // ---------------------------------------------------------------------
  // The Python primitives the helper is built from
  // ---------------------------------------------------------------------

  /** Python's `s.replace(pat, rep)`: every non-overlapping occurrence of
      pat, found from left to right, is replaced. */
  function Replace(s: string, pat: string, rep: string): (r: string)
    requires pat != []
    decreases |s|
  {
    if pat <= s then rep + Replace(s[|pat|..], pat, rep)
    else if s == [] then []
    else [s[0]] + Replace(s[1..], pat, rep)
  }

  /** The index of the first `)` at or after i. */
  function FindClose(s: string, i: nat): (r: Option<nat>)
    ensures r.Some? ==> i <= r.value < |s| && s[r.value] == ')'
    ensures r.Some? ==> forall m :: i <= m < r.value ==> s[m] != ')'
    ensures r.None? ==> forall m :: i <= m < |s| ==> s[m] != ')'
    decreases |s| - i
  {
    if i >= |s| then None
    else if s[i] == ')' then Some(i)
    else FindClose(s, i + 1)
  }

  function Prepend(a: string, o: Option<string>): (r: Option<string>)
  {
    match o
    case Some(x) => Some(a + x)
    case None => None
  }

  /** Python's `s % params` for a dictionary of strings, for the conversions
      the rewrite produces: `%(key)s` inserts params[key] (a missing key is a
      KeyError) and `%%` is a literal percent sign. Any other use of `%`
      is an error here. */
  function PercentFormat(s: string, params: map<string, string>): (r: Option<string>)
    decreases |s|
  {
    if s == [] then Some([])
    else if s[0] != '%' then Prepend([s[0]], PercentFormat(s[1..], params))
    else if |s| >= 2 && s[1] == '%' then Prepend(['%'], PercentFormat(s[2..], params))
    else if |s| >= 2 && s[1] == '(' then
      match FindClose(s, 2)
      case None => None
      case Some(j) =>
        if j + 1 < |s| && s[j + 1] == 's' && s[2..j] in params
        then Prepend(params[s[2..j]], PercentFormat(s[j + 2..], params))
        else None
    else None
  }

  // ---------------------------------------------------------------------
  // The helper itself
  // ---------------------------------------------------------------------

  /** `format(template, *args)`. A `%` in the template makes Python's `%`
      operator fail or misread the template, so it is excluded. */
  method Format(template: string, args: seq<string>) returns (r: string)
    requires '%' !in template
    ensures r == Expand(template, args)
  {
    var s := template;
    var params: map<string, string> := map[];
    var count := 0;
    ExpandNoValues(template);
    while count < |args|
      invariant 0 <= count <= |args|
      invariant s == Expand(template, Markers(count))
      invariant forall k :: 0 <= k < count ==> DecimalString(k) in params && params[DecimalString(k)] == args[k]
    {
      MarkersPercentLed(count + 1);
      ReplaceStep(template, Markers(count), Marker(count));
      s := Replace(s, Placeholder(count), Marker(count));
      forall k | 0 <= k < count
        ensures DecimalString(k) != DecimalString(count)
      {
        DecimalStringInjective(k, count);
      }
      params := params[DecimalString(count) := args[count]];
      count := count + 1;
    }
    FormatFillsMarkers(template, args, params);
    var filled := PercentFormat(s, params);
    r := filled.value;
  }

  // ---------------------------------------------------------------------
  // Why the two passes compute Expand
  // ---------------------------------------------------------------------

  /** The values the rewrite loop inserts: each starts with `%` and holds no
      `{`, so it can neither complete nor start a later placeholder. */
  ghost predicate PercentLed(vals: seq<string>)
  {
    forall k :: 0 <= k < |vals| ==> vals[k] != [] && vals[k][0] == '%' && '{' !in vals[k]
  }

  lemma MarkersPercentLed(n: nat)
    ensures PercentLed(Markers(n))
  {
    forall k | 0 <= k < n
      ensures Markers(n)[k] != [] && Markers(n)[k][0] == '%' && '{' !in Markers(n)[k]
    {
      var m := Marker(k);
      assert m == ['%', '('] + DecimalString(k) + [')', 's'];
      assert forall i :: 0 <= i < |m| ==> m[i] != '{';
    }
  }

  lemma PrefixCons(d: string, u: string)
    requires d != [] && u != []
    ensures (d <= u) <==> (d[0] == u[0] && d[1..] <= u[1..])
  {
  }

  lemma {:induction false} ExpandNoValues(t: string)
    ensures Expand(t, []) == t
    decreases |t|
  {
    if t != [] {
      ExpandNoValues(t[1..]);
    }
  }

  lemma PlaceholderHead(k: nat)
    ensures |Placeholder(k)| >= 3 && Placeholder(k)[0] == '{'
  {
  }

  lemma ExpandUnfoldPlain(t: string, vals: seq<string>)
    requires t != [] && FirstPlaceholder(t, |vals|, 0).None?
    ensures Expand(t, vals) == [t[0]] + Expand(t[1..], vals)
  {
  }

  lemma ExpandUnfoldSlot(t: string, vals: seq<string>, k: nat)
    requires t != [] && FirstPlaceholder(t, |vals|, 0) == Some(k)
    ensures Expand(t, vals) == vals[k] + Expand(t[|Placeholder(k)|..], vals)
  {
  }

  /** Nothing is recognised at a character other than `{`. */
  lemma ExpandPlainChar(t: string, vals: seq<string>)
    requires t != [] && t[0] != '{'
    ensures Expand(t, vals) == [t[0]] + Expand(t[1..], vals)
  {
    forall j | 0 <= j < |vals| ensures !(Placeholder(j) <= t) {
      PlaceholderHead(j);
    }
    NoPlaceholderOf(t, |vals|);
  }

  lemma ConsAssoc(s: string, e: string)
    requires s != []
    ensures [s[0]] + (s[1..] + e) == s + e
  {
    assert s == [s[0]] + s[1..];
  }

  /** A prefix without `{` is copied unchanged. */
  lemma {:induction false} ExpandBraceFreePrefix(s: string, w: string, vals: seq<string>)
    requires '{' !in s
    ensures Expand(s + w, vals) == s + Expand(w, vals)
    decreases |s|
  {
    if s == [] {
      assert s + w == w;
    } else {
      var t := s + w;
      var e := Expand(w, vals);
      assert t[0] == s[0];
      assert t[1..] == s[1..] + w;
      ExpandBraceFreePrefix(s[1..], w, vals);
      ExpandPlainChar(t, vals);
      assert Expand(t, vals) == [s[0]] + (s[1..] + e);
      ConsAssoc(s, e);
    }
  }

  /** `replace` passes over a prefix that cannot start the pattern. */
  lemma {:induction false} ReplaceSkipsPrefix(a: string, x: string, pat: string, rep: string)
    requires pat != [] && pat[0] !in a
    ensures Replace(a + x, pat, rep) == a + Replace(x, pat, rep)
    decreases |a|
  {
    if a == [] {
      assert a + x == x;
    } else {
      assert (a + x)[0] == a[0];
      assert (a + x)[1..] == a[1..] + x;
      ReplaceSkipsPrefix(a[1..], x, pat, rep);
    }
  }

  /** Expanding with `%`-led values cannot create a prefix d (a text without
      `{` and `%`) that was not already there. */
  lemma {:induction false} ExpandKeepsNonPrefix(u: string, d: string, vals: seq<string>)
    requires d != [] && '%' !in d && '{' !in d
    requires PercentLed(vals)
    requires !(d <= u)
    ensures !(d <= Expand(u, vals))
    decreases |u|
  {
    if u != [] {
      match FirstPlaceholder(u, |vals|, 0)
      case Some(k) =>
        assert Expand(u, vals)[0] == vals[k][0];
      case None =>
        var x := Expand(u[1..], vals);
        assert Expand(u, vals) == [u[0]] + x;
        PrefixCons(d, u);
        if u[0] == d[0] && |d| > 1 {
          ExpandKeepsNonPrefix(u[1..], d[1..], vals);
          PrefixCons(d, [u[0]] + x);
          assert ([u[0]] + x)[1..] == x;
        }
    }
  }

  lemma PercentLedPrefix(vals: seq<string>, v: string)
    requires PercentLed(vals + [v])
    ensures PercentLed(vals) && v != [] && v[0] == '%' && '{' !in v
  {
    var ext := vals + [v];
    assert ext[|vals|] == v;
    forall k | 0 <= k < |vals| ensures vals[k] != [] && vals[k][0] == '%' && '{' !in vals[k] {
      assert vals[k] == ext[k];
    }
  }

  /** One pass of the rewrite loop: replacing `{n}` by v in the text where
      the first n placeholders are already rewritten rewrites the first n+1. */
  lemma {:induction false} ReplaceStep(t: string, vals: seq<string>, v: string)
    requires PercentLed(vals + [v])
    ensures Replace(Expand(t, vals), Placeholder(|vals|), v) == Expand(t, vals + [v])
    decreases |t|
  {
    var n := |vals|;
    var p := Placeholder(n);
    PlaceholderHead(n);
    if t != [] {
      match FirstPlaceholder(t, n, 0)
      case Some(k) =>
        ReplaceStep(t[|Placeholder(k)|..], vals, v);
        StepAtEarlierSlot(t, vals, v, k);
      case None =>
        if p <= t {
          ReplaceStep(t[|p|..], vals, v);
          StepAtNewSlot(t, vals, v);
        } else {
          ReplaceStep(t[1..], vals, v);
          StepAtPlainChar(t, vals, v);
        }
    }
  }

  lemma ReplaceAtMatch(pat: string, y: string, rep: string)
    requires pat != []
    ensures Replace(pat + y, pat, rep) == rep + Replace(y, pat, rep)
  {
    assert pat <= pat + y;
    assert (pat + y)[|pat|..] == y;
  }

  lemma ReplaceNoMatch(c: char, x: string, pat: string, rep: string)
    requires pat != [] && !(pat <= [c] + x)
    ensures Replace([c] + x, pat, rep) == [c] + Replace(x, pat, rep)
  {
    assert ([c] + x)[1..] == x;
  }

  /** Case of ReplaceStep: t starts with an already rewritten placeholder. */
  lemma StepAtEarlierSlot(t: string, vals: seq<string>, v: string, k: nat)
    requires PercentLed(vals + [v])
    requires t != [] && FirstPlaceholder(t, |vals|, 0) == Some(k)
    requires Replace(Expand(t[|Placeholder(k)|..], vals), Placeholder(|vals|), v)
          == Expand(t[|Placeholder(k)|..], vals + [v])
    ensures Replace(Expand(t, vals), Placeholder(|vals|), v) == Expand(t, vals + [v])
  {
    var rest := t[|Placeholder(k)|..];
    EarlierSlotFacts(t, vals, v, k);
    ExpandUnfoldSlot(t, vals, k);
    ExpandUnfoldSlot(t, vals + [v], k);
    ReplaceSkipsPrefix(vals[k], Expand(rest, vals), Placeholder(|vals|), v);
  }

  lemma EarlierSlotFacts(t: string, vals: seq<string>, v: string, k: nat)
    requires PercentLed(vals + [v])
    requires t != [] && FirstPlaceholder(t, |vals|, 0) == Some(k)
    ensures k < |vals| && FirstPlaceholder(t, |vals + [v]|, 0) == Some(k) && (vals + [v])[k] == vals[k]
    ensures Placeholder(|vals|) != [] && Placeholder(|vals|)[0] !in vals[k]
  {
    PercentLedPrefix(vals, v);
    PlaceholderHead(|vals|);
    FirstPlaceholderIsFirst(t, |vals|, 0);
    FirstPlaceholderOf(t, |vals| + 1, k);
  }

  /** Case of ReplaceStep: t starts with `{n}`, the placeholder being rewritten. */
  lemma StepAtNewSlot(t: string, vals: seq<string>, v: string)
    requires PercentLed(vals + [v])
    requires FirstPlaceholder(t, |vals|, 0).None? && Placeholder(|vals|) <= t
    requires Replace(Expand(t[|Placeholder(|vals|)|..], vals), Placeholder(|vals|), v)
          == Expand(t[|Placeholder(|vals|)|..], vals + [v])
    ensures Replace(Expand(t, vals), Placeholder(|vals|), v) == Expand(t, vals + [v])
  {
    var p := Placeholder(|vals|);
    var rest := t[|p|..];
    NewSlotFacts(t, vals, v);
    ExpandUnfoldSlot(t, vals + [v], |vals|);
    ReplaceAtMatch(p, Expand(rest, vals), v);
  }

  lemma NewSlotFacts(t: string, vals: seq<string>, v: string)
    requires FirstPlaceholder(t, |vals|, 0).None? && Placeholder(|vals|) <= t
    ensures FirstPlaceholder(t, |vals + [v]|, 0) == Some(|vals|) && (vals + [v])[|vals|] == v
    ensures Expand(t, vals) == Placeholder(|vals|) + Expand(t[|Placeholder(|vals|)|..], vals)
  {
    FirstPlaceholderIsFirst(t, |vals|, 0);
    FirstPlaceholderOf(t, |vals| + 1, |vals|);
    ExpandAtPlaceholderText(t, vals, |vals|);
  }

  /** A placeholder that is not recognised is copied as text. */
  lemma ExpandAtPlaceholderText(t: string, vals: seq<string>, n: nat)
    requires FirstPlaceholder(t, |vals|, 0).None? && Placeholder(n) <= t
    ensures Expand(t, vals) == Placeholder(n) + Expand(t[|Placeholder(n)|..], vals)
  {
    var p := Placeholder(n);
    var rest := t[|p|..];
    var tail := DecimalString(n) + "}";
    PlaceholderSplit(t, n);
    ExpandBraceFreePrefix(tail, rest, vals);
    ExpandUnfoldPlain(t, vals);
    Regroup(t[0], tail, Expand(rest, vals));
  }

  lemma PlaceholderSplit(t: string, n: nat)
    requires Placeholder(n) <= t
    ensures t != [] && t[1..] == (DecimalString(n) + "}") + t[|Placeholder(n)|..]
    ensures '{' !in DecimalString(n) + "}"
    ensures Placeholder(n) == [t[0]] + (DecimalString(n) + "}")
  {
    var p := Placeholder(n);
    PlaceholderHead(n);
    assert t == p + t[|p|..];
  }

  lemma Regroup(c: char, a: string, b: string)
    ensures [c] + (a + b) == ([c] + a) + b
  {
  }

  /** Case of ReplaceStep: no placeholder up to `{n}` starts t. */
  lemma StepAtPlainChar(t: string, vals: seq<string>, v: string)
    requires PercentLed(vals + [v])
    requires t != [] && FirstPlaceholder(t, |vals|, 0).None? && !(Placeholder(|vals|) <= t)
    requires Replace(Expand(t[1..], vals), Placeholder(|vals|), v) == Expand(t[1..], vals + [v])
    ensures Replace(Expand(t, vals), Placeholder(|vals|), v) == Expand(t, vals + [v])
  {
    PlainCharFacts(t, vals, v);
    ExpandUnfoldPlain(t, vals);
    ExpandUnfoldPlain(t, vals + [v]);
    PlaceholderHead(|vals|);
    ReplaceNoMatch(t[0], Expand(t[1..], vals), Placeholder(|vals|), v);
  }

  lemma PlainCharFacts(t: string, vals: seq<string>, v: string)
    requires PercentLed(vals + [v])
    requires t != [] && FirstPlaceholder(t, |vals|, 0).None? && !(Placeholder(|vals|) <= t)
    ensures FirstPlaceholder(t, |vals + [v]|, 0).None?
    ensures !(Placeholder(|vals|) <= [t[0]] + Expand(t[1..], vals))
  {
    PercentLedPrefix(vals, v);
    FirstPlaceholderIsFirst(t, |vals|, 0);
    NoPlaceholderOf(t, |vals| + 1);
    NoNewMatch(t, vals);
  }

  /** Rewriting cannot make `{n}` appear where it was not. */
  lemma NoNewMatch(t: string, vals: seq<string>)
    requires PercentLed(vals)
    requires t != [] && !(Placeholder(|vals|) <= t)
    ensures !(Placeholder(|vals|) <= [t[0]] + Expand(t[1..], vals))
  {
    PlaceholderHead(|vals|);
    if t[0] == '{' {
      NoNewMatchAtBrace(t, vals);
    }
  }

  lemma NoNewMatchAtBrace(t: string, vals: seq<string>)
    requires PercentLed(vals)
    requires t != [] && t[0] == '{' && !(Placeholder(|vals|) <= t)
    ensures !(Placeholder(|vals|) <= [t[0]] + Expand(t[1..], vals))
  {
    var p := Placeholder(|vals|);
    PlaceholderTail(|vals|);
    PrefixCons(p, t);
    ExpandKeepsNonPrefix(t[1..], p[1..], vals);
    ConsNotPrefix(p, t[0], Expand(t[1..], vals));
  }

  lemma PlaceholderTail(k: nat)
    ensures |Placeholder(k)| >= 3 && Placeholder(k)[0] == '{'
    ensures '%' !in Placeholder(k)[1..] && '{' !in Placeholder(k)[1..]
  {
    assert Placeholder(k)[1..] == DecimalString(k) + "}";
  }

  lemma ConsNotPrefix(p: string, c: char, x: string)
    requires p != [] && !(p[1..] <= x)
    ensures !(p <= [c] + x)
  {
    PrefixCons(p, [c] + x);
    assert ([c] + x)[1..] == x;
  }

  /** The `%` operator turns a marker into its parameter. */
  lemma MarkerFills(k: nat, x: string, params: map<string, string>)
    requires DecimalString(k) in params
    ensures PercentFormat(Marker(k) + x, params) == Prepend(params[DecimalString(k)], PercentFormat(x, params))
  {
    var s := Marker(k) + x;
    var digits := DecimalString(k);
    var j := 2 + |digits|;
    assert s[0] == '%' && s[1] == '(';
    assert s[j] == ')';
    assert forall m :: 2 <= m < j ==> s[m] == digits[m - 2] && s[m] != ')';
    assert FindClose(s, 2) == Some(j);
    assert s[j + 1] == 's';
    assert s[2..j] == digits;
    assert s[j + 2..] == x;
  }

  /** The second pass: applying `%` to the fully rewritten template with the
      parameter dictionary yields the simultaneous substitution. */
  lemma {:induction false} FormatFillsMarkers(t: string, args: seq<string>, params: map<string, string>)
    requires '%' !in t
    requires forall k :: 0 <= k < |args| ==> DecimalString(k) in params && params[DecimalString(k)] == args[k]
    ensures PercentFormat(Expand(t, Markers(|args|)), params) == Some(Expand(t, args))
    decreases |t|
  {
    var ms := Markers(|args|);
    if t != [] {
      match FirstPlaceholder(t, |args|, 0)
      case Some(k) =>
        var rest := t[|Placeholder(k)|..];
        assert Expand(t, ms) == Marker(k) + Expand(rest, ms);
        MarkerFills(k, Expand(rest, ms), params);
        FormatFillsMarkers(rest, args, params);
      case None =>
        var x := Expand(t[1..], ms);
        assert Expand(t, ms) == [t[0]] + x;
        assert t[0] != '%';
        assert ([t[0]] + x)[1..] == x;
        FormatFillsMarkers(t[1..], args, params);
    }
  }

  // ---------------------------------------------------------------------
  // What format promises
  // ---------------------------------------------------------------------

  /** A placeholder can only be recognised at its own number: `{j}` is not a
      prefix of a text that starts with `{k}` for j != k. */
  lemma PlaceholderUnique(j: nat, k: nat, w: string)
    requires j != k
    ensures !(Placeholder(j) <= Placeholder(k) + w)
  {
    var dj, dk := DecimalString(j), DecimalString(k);
    var pj, s := Placeholder(j), Placeholder(k) + w;
    DecimalStringInjective(j, k);
    if |dj| < |dk| {
      assert pj[1 + |dj|] == '}';
      assert s[1 + |dj|] == dk[|dj|];
    } else if |dj| > |dk| {
      assert pj[1 + |dk|] == dj[|dk|];
      assert s[1 + |dk|] == '}';
    } else {
      var i :| 0 <= i < |dj| && dj[i] != dk[i];
      assert pj[1 + i] == dj[i];
      assert s[1 + i] == dk[i];
    }
  }

  /** `{k}` with k < n becomes exactly the k-th argument, whatever that
      argument contains: nothing inserted is expanded again. */
  lemma ExpandArgument(k: nat, args: seq<string>, w: string)
    requires k < |args|
    ensures Expand(Placeholder(k) + w, args) == args[k] + Expand(w, args)
  {
    var t := Placeholder(k) + w;
    forall j | 0 <= j < k ensures !(Placeholder(j) <= t) {
      PlaceholderUnique(j, k, w);
    }
    FirstPlaceholderOf(t, |args|, k);
    assert t[|Placeholder(k)|..] == w;
  }

  /** `{k}` with k >= n is left as it is. */
  lemma ExpandLeavesHighPlaceholder(k: nat, args: seq<string>, w: string)
    requires k >= |args|
    ensures Expand(Placeholder(k) + w, args) == Placeholder(k) + Expand(w, args)
  {
    var t := Placeholder(k) + w;
    forall j | 0 <= j < |args| ensures !(Placeholder(j) <= t) {
      PlaceholderUnique(j, k, w);
    }
    NoPlaceholderOf(t, |args|);
    assert t[|Placeholder(k)|..] == w;
    ExpandAtPlaceholderText(t, args, k);
  }

  /** Text without `{` is returned unchanged. */
  lemma ExpandBraceFree(t: string, args: seq<string>)
    requires '{' !in t
    ensures Expand(t, args) == t
  {
    ExpandBraceFreePrefix(t, [], args);
    assert t + [] == t;
  }

  /** `{k}` on its own is the k-th argument. */
  lemma ExpandSingle(k: nat, args: seq<string>)
    requires k < |args|
    ensures Expand(Placeholder(k), args) == args[k]
  {
    var p := Placeholder(k);
    assert p + [] == p;
    ExpandArgument(k, args, []);
    assert args[k] + [] == args[k];
  }

  lemma DotTemplate()
    ensures "{0}.{1}" == Placeholder(0) + ("." + Placeholder(1))
  {
    assert Placeholder(0) == "{0}" && Placeholder(1) == "{1}";
  }

  /** The file name the download branch builds with `format('{0}.{1}', name, ext)`. */
  lemma DotJoin(name: string, ext: string)
    ensures Expand("{0}.{1}", [name, ext]) == name + "." + ext
  {
    var args := [name, ext];
    var p1 := Placeholder(1);
    DotTemplate();
    ExpandArgument(0, args, "." + p1);
    ExpandBraceFreePrefix(".", p1, args);
    ExpandSingle(1, args);
    assert name + ("." + ext) == name + "." + ext;
  }
}
