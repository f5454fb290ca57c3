/**
 * The part of Go's `fmt.Sprintf` the provisioning code relies on: `%s`, `%d`,
 * `%v` and `%%` without flags or widths, and Go's in-band error texts for a
 * verb of the wrong type, a missing argument, a trailing lone `%` and
 * arguments left over at the end.
 */
module Fmt {

  import opened Strings

  /** An argument of `Sprintf`: the program only passes strings and non-negative ints. */
  datatype Arg = Str(s: string) | Nat(n: nat)

  /** What Go prints for an argument inside an error text: its type, '=', its value. */
  function Typed(a: Arg): string {
    match a
    case Str(s) => "string=" + s
    case Nat(n) => "int=" + Itoa(n)
  }

  /** One verb applied to one argument. */
  function Verb(c: char, a: Arg): string {
    match a
    case Str(s) => if c == 's' || c == 'v' then s else "%!" + [c] + "(" + Typed(a) + ")"
    case Nat(n) => if c == 'd' || c == 'v' then Itoa(n) else "%!" + [c] + "(" + Typed(a) + ")"
  }

  /** A text without '%': as a format, it holds no verb. */
  type Plain = s: string | '%' !in s

  /** The text produced so far and the arguments not yet consumed. */
  datatype Formatted = Formatted(out: string, rest: seq<Arg>)

  /** Formats `f`, consuming `args` from the front, one per verb. */
  function Format(f: string, args: seq<Arg>): (r: Formatted)
    ensures |r.rest| <= |args|
    decreases |f|
  {
    if |f| == 0 then Formatted("", args)
    else if f[0] != '%' then
      var r := Format(f[1..], args);
      Formatted([f[0]] + r.out, r.rest)
    else if |f| == 1 then Formatted("%!(NOVERB)", args)
    else if f[1] == '%' then
      var r := Format(f[2..], args);
      Formatted("%" + r.out, r.rest)
    else if |args| == 0 then
      var r := Format(f[2..], args);
      Formatted("%!" + [f[1]] + "(MISSING)" + r.out, r.rest)
    else
      var r := Format(f[2..], args[1..]);
      Formatted(Verb(f[1], args[0]) + r.out, r.rest)
  }

  /** The arguments left over, as Go lists them: `type=value` joined by ", ". */
  function TypedList(args: seq<Arg>): string
    decreases |args|
  {
    if |args| == 0 then ""
    else if |args| == 1 then Typed(args[0])
    else Typed(args[0]) + ", " + TypedList(args[1..])
  }

  /** The suffix Go appends for arguments no verb consumed. */
  function Extra(rest: seq<Arg>): string {
    if |rest| == 0 then "" else "%!(EXTRA " + TypedList(rest) + ")"
  }

  /** `fmt.Sprintf(f, args...)`. */
  function Sprintf(f: string, args: seq<Arg>): string {
    var r := Format(f, args);
    r.out + Extra(r.rest)
  }

  /** A format without '%' is copied and consumes nothing. */
  lemma {:induction false} FormatPlain(f: string, args: seq<Arg>)
    requires '%' !in f
    ensures Format(f, args) == Formatted(f, args)
    decreases |f|
  {
    if |f| > 0 {
      assert '%' !in f[1..];
      FormatPlain(f[1..], args);
      assert [f[0]] + f[1..] == f;
    }
  }

  /** A non-empty text before another: its first character, then the rest of both. */
  lemma ConsConcat(p: string, x: string)
    requires |p| > 0
    ensures (p + x)[0] == p[0] && (p + x)[1..] == p[1..] + x && [p[0]] + (p[1..] + x) == p + x
  {
    assert [p[0]] + p[1..] == p;
  }

  /** A prefix without '%' is copied in front of whatever the rest formats to. */
  lemma {:induction false} FormatPrefix(p: string, g: string, args: seq<Arg>)
    requires '%' !in p
    ensures Format(p + g, args) == Formatted(p + Format(g, args).out, Format(g, args).rest)
    decreases |p|
  {
    if |p| > 0 {
      var f := p + g;
      ConsConcat(p, g);
      assert '%' !in p[1..];
      FormatPrefix(p[1..], g, args);
      var r := Format(f[1..], args);
      assert Format(f, args) == Formatted([p[0]] + r.out, r.rest);
      ConsConcat(p, Format(g, args).out);
    } else {
      assert p + g == g;
    }
  }

  /**
   * A format without verbs prints itself, followed by the `%!(EXTRA …)` list
   * of all the arguments when there are any.
   */
  lemma SprintfPlain(f: string, args: seq<Arg>)
    requires '%' !in f
    ensures Sprintf(f, args) == f + Extra(args)
  {
    FormatPlain(f, args);
  }

  /** A format with exactly one verb, given exactly one argument, substitutes it. */
  lemma SprintfOneVerb(p: string, c: char, q: string, a: Arg)
    requires '%' !in p && '%' !in q && c != '%'
    ensures Sprintf(p + ['%', c] + q, [a]) == p + Verb(c, a) + q
  {
    var g := ['%', c] + q;
    assert p + ['%', c] + q == p + g;
    FormatPrefix(p, g, [a]);
    assert g[2..] == q;
    FormatPlain(q, []);
    assert Format(g, [a]) == Formatted(Verb(c, a) + q, []);
  }

  /** A leading verb consumes the first argument, and formatting goes on after it. */
  lemma FormatLeadingVerb(c: char, g: string, a: Arg, rest: seq<Arg>)
    requires c != '%'
    ensures Format(['%', c] + g, [a] + rest)
         == Formatted(Verb(c, a) + Format(g, rest).out, Format(g, rest).rest)
  {
    assert (['%', c] + g)[2..] == g;
    assert ([a] + rest)[1..] == rest;
  }

  /** A verb after a prefix without '%' consumes the first argument, and formatting goes on after it. */
  lemma FormatVerb(p: string, c: char, g: string, a: Arg, rest: seq<Arg>)
    requires '%' !in p && c != '%'
    ensures Format(p + ['%', c] + g, [a] + rest)
         == Formatted(p + (Verb(c, a) + Format(g, rest).out), Format(g, rest).rest)
  {
    var v := ['%', c] + g;
    assert p + ['%', c] + g == p + v;
    FormatPrefix(p, v, [a] + rest);
    FormatLeadingVerb(c, g, a, rest);
  }

  /** Two leftover strings are listed with their type, separated by ", ". */
  lemma ExtraTwo(x: string, y: string)
    ensures Extra([Str(x), Str(y)]) == "%!(EXTRA " + ("string=" + x) + ", " + ("string=" + y) + ")"
  {
    assert [Str(x), Str(y)][1..] == [Str(y)];
    assert TypedList([Str(y)]) == Typed(Str(y));
  }

  /** Two string arguments to a format without verbs are both listed after it. */
  lemma SprintfTwoExtra(f: string, x: string, y: string)
    requires '%' !in f
    ensures Sprintf(f, [Str(x), Str(y)]) == f + ("%!(EXTRA " + ("string=" + x) + ", " + ("string=" + y) + ")")
  {
    SprintfPlain(f, [Str(x), Str(y)]);
    ExtraTwo(x, y);
  }

  /** A format made of texts without '%', each followed by a `%s`. */
  function Template(ps: seq<Plain>): string
    decreases |ps|
  {
    if |ps| == 0 then "" else ps[0] + ("%s" + Template(ps[1..]))
  }

  /** The texts of a template, each followed by the string that fills its `%s`. */
  function Filled(ps: seq<Plain>, xs: seq<string>): string
    requires |ps| == |xs|
    decreases |ps|
  {
    if |ps| == 0 then "" else ps[0] + (xs[0] + Filled(ps[1..], xs[1..]))
  }

  /** Strings as `Sprintf` arguments. */
  function Strs(xs: seq<string>): (r: seq<Arg>)
    ensures |r| == |xs|
    decreases |xs|
  {
    if |xs| == 0 then [] else [Str(xs[0])] + Strs(xs[1..])
  }

  /** A template given one string per `%s` consumes them all, in order. */
  lemma {:induction false} FormatTemplate(ps: seq<Plain>, xs: seq<string>)
    requires |ps| == |xs|
    ensures Format(Template(ps), Strs(xs)) == Formatted(Filled(ps, xs), [])
    decreases |ps|
  {
    if |ps| > 0 {
      var g := Template(ps[1..]);
      FormatTemplate(ps[1..], xs[1..]);
      FormatPrefix(ps[0], ['%', 's'] + g, Strs(xs));
      FormatLeadingVerb('s', g, Str(xs[0]), Strs(xs[1..]));
    }
  }

  /** `Sprintf` of a template and one string per `%s` fills in the strings. */
  lemma SprintfTemplate(ps: seq<Plain>, xs: seq<string>)
    requires |ps| == |xs|
    ensures Sprintf(Template(ps), Strs(xs)) == Filled(ps, xs)
  {
    FormatTemplate(ps, xs);
  }
}
