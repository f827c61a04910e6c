/**
 * The part of Go's `fmt.Sprintf` the error values use: formats whose only
 * verbs are `%s` and `%%`, applied to string arguments, including Go's
 * reports of a missing argument (`%!s(MISSING)`) and of arguments left over
 * (`%!(EXTRA string=…)`).
 */
module GoFmt {
  import opened GoStrings

  /** Every `%` starts a `%s` or a `%%`. */
  predicate SimpleFormat(f: string)
  {
    if f == [] then true
    else if f[0] != '%' then SimpleFormat(f[1..])
    else |f| >= 2 && (f[1] == 's' || f[1] == '%') && SimpleFormat(f[2..])
  }

  /** The number of `%s` verbs of a simple format. */
  function Verbs(f: string): nat
    requires SimpleFormat(f)
  {
    if f == [] then 0
    else if f[0] != '%' then Verbs(f[1..])
    else (if f[1] == 's' then 1 else 0) + Verbs(f[2..])
  }

  const Missing := "%!s(MISSING)"

  /** The format with its verbs replaced, the first `%s` taking `args[next]`. */
  function Render(f: string, args: seq<string>, next: nat): string
    requires SimpleFormat(f)
  {
    if f == [] then []
    else if f[0] != '%' then [f[0]] + Render(f[1..], args, next)
    else if f[1] == '%' then "%" + Render(f[2..], args, next)
    else (if next < |args| then args[next] else Missing) + Render(f[2..], args, next + 1)
  }

  /** `string=a, string=b, …` for the arguments from `from` on. */
  function ExtraList(args: seq<string>, from: nat): string
    requires from < |args|
    decreases |args| - from
  {
    "string=" + args[from] + (if from + 1 < |args| then ", " + ExtraList(args, from + 1) else "")
  }

  /** Go's report of the arguments no verb consumed. */
  function Extra(args: seq<string>, used: nat): string
  {
    if used < |args| then "%!(EXTRA " + ExtraList(args, used) + ")" else ""
  }

  /** `fmt.Sprintf(f, args...)`. */
  function Sprintf(f: string, args: seq<string>): string
    requires SimpleFormat(f)
  {
    Render(f, args, 0) + Extra(args, Verbs(f))
  }

  /** A format without `%` is a simple format and renders as itself. */
  lemma {:induction false} RenderPlain(f: string, args: seq<string>, next: nat)
    requires '%' !in f
    ensures SimpleFormat(f) && Verbs(f) == 0 && Render(f, args, next) == f
  {
    if f != [] {
      assert '%' !in f[1..];
      RenderPlain(f[1..], args, next);
      assert f == [f[0]] + f[1..];
    }
  }

  /** Text without `%` in front of a format is copied through. */
  lemma {:induction false} RenderPrefix(p: string, rest: string, args: seq<string>, next: nat)
    requires '%' !in p && SimpleFormat(rest)
    ensures SimpleFormat(p + rest)
    ensures Verbs(p + rest) == Verbs(rest)
    ensures Render(p + rest, args, next) == p + Render(rest, args, next)
  {
    if p != [] {
      var s := p + rest;
      assert p[0] != '%' && '%' !in p[1..];
      assert s[0] == p[0] && s[1..] == p[1..] + rest;
      RenderPrefix(p[1..], rest, args, next);
      assert Render(s, args, next) == [p[0]] + Render(s[1..], args, next);
      assert p == [p[0]] + p[1..];
    } else {
      assert p + rest == rest;
    }
  }

  /** A `%s` followed by text without `%`: one verb, replaced by the next argument. */
  lemma VerbThenPlain(q: string, args: seq<string>, next: nat)
    requires '%' !in q
    ensures SimpleFormat("%s" + q) && Verbs("%s" + q) == 1
    ensures Render("%s" + q, args, next) == (if next < |args| then args[next] else Missing) + q
  {
    var rest := "%s" + q;
    assert rest[0] == '%' && rest[1] == 's' && rest[2..] == q;
    RenderPlain(q, args, next + 1);
  }

  /**
   * A format with a single `%s` and no other `%`, given one argument, is the
   * text around the verb with the argument in its place.
   */
  lemma TemplateSubst(p: string, q: string, a: string)
    requires '%' !in p && '%' !in q
    ensures SimpleFormat(p + "%s" + q)
    ensures Sprintf(p + "%s" + q, [a]) == p + a + q
  {
    VerbThenPlain(q, [a], 0);
    RenderPrefix(p, "%s" + q, [a], 0);
    assert p + "%s" + q == p + ("%s" + q);
    assert p + (a + q) == p + a + q;
  }

  /** A format with no verb and one argument: the argument is reported as extra. */
  lemma NoVerbExtra(f: string, a: string)
    requires '%' !in f
    ensures SimpleFormat(f)
    ensures Sprintf(f, [a]) == f + "%!(EXTRA string=" + a + ")"
  {
    RenderPlain(f, [a], 0);
    assert ExtraList([a], 0) == "string=" + a;
    assert "%!(EXTRA " + "string=" == "%!(EXTRA string=";
    assert Extra([a], 0) == "%!(EXTRA string=" + a + ")";
  }

  /** A lone `%s` with no argument reports the missing argument. */
  lemma MissingArgument(p: string, q: string)
    requires '%' !in p && '%' !in q
    ensures SimpleFormat(p + "%s" + q)
    ensures Sprintf(p + "%s" + q, []) == p + Missing + q
  {
    VerbThenPlain(q, [], 0);
    RenderPrefix(p, "%s" + q, [], 0);
    assert p + "%s" + q == p + ("%s" + q);
    assert p + (Missing + q) == p + Missing + q;
  }

  /** A message whose only `%` starts a single `%s`: a one-argument template. */
  ghost predicate Templated(m: string)
  {
    exists p, q :: m == p + "%s" + q && '%' !in p && '%' !in q
  }

  /** A message without `%` is no template. */
  lemma PlainIsNotTemplated(m: string)
    requires '%' !in m
    ensures !Templated(m)
  {
  }

  /** Applying a template to one argument puts the argument in place of the verb. */
  lemma TemplateApply(m: string, a: string) returns (p: string, q: string)
    requires Templated(m)
    ensures SimpleFormat(m) && m == p + "%s" + q && Sprintf(m, [a]) == p + a + q
  {
    p, q :| m == p + "%s" + q && '%' !in p && '%' !in q;
    TemplateSubst(p, q, a);
  }
}
