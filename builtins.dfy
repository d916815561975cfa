/**
 * The few Python built-ins the storage and state code lean on, written out so
 * that the statements they build can be reasoned about: `sep.join(xs)`,
 * `template % args` with `%s` holes, `max(xs)` and the ordering of `str`.
 */
module Builtins {

  /** `sep.join(xs)`. */
  function Join(sep: string, xs: seq<string>): string
  {
    if |xs| == 0 then ""
    else if |xs| == 1 then xs[0]
    else xs[0] + sep + Join(sep, xs[1..])
  }

  /** Number of occurrences of `c` in `s`. */
  function CountChar(s: string, c: char): nat
  {
    if |s| == 0 then 0 else (if s[0] == c then 1 else 0) + CountChar(s[1..], c)
  }

  lemma {:induction false} CountCharAppend(a: string, b: string, c: char)
    ensures CountChar(a + b, c) == CountChar(a, c) + CountChar(b, c)
  {
    if |a| == 0 {
      assert a + b == b;
    } else {
      assert (a + b)[1..] == a[1..] + b;
      CountCharAppend(a[1..], b, c);
    }
  }

  /** A character absent from the separator and every element is absent from the joined string. */
  lemma {:induction false} JoinAvoids(sep: string, xs: seq<string>, c: char)
    requires c !in sep
    requires forall i :: 0 <= i < |xs| ==> c !in xs[i]
    ensures c !in Join(sep, xs)
  {
    if |xs| > 1 {
      JoinAvoids(sep, xs[1..], c);
    }
  }

  lemma {:induction false} CountCharAbsent(s: string, c: char)
    requires c !in s
    ensures CountChar(s, c) == 0
  {
    if |s| > 0 {
      CountCharAbsent(s[1..], c);
    }
  }

  /**
   * `template % args` where every hole of the template is `%s`: the holes are
   * filled left to right with the arguments.
   */
  function Format(template: string, args: seq<string>): string
    decreases |template|
  {
    if |template| == 0 then ""
    else if |template| >= 2 && template[0] == '%' && template[1] == 's' && |args| > 0 then
      args[0] + Format(template[2..], args[1..])
    else
      [template[0]] + Format(template[1..], args)
  }

  /** A run of text without `%` is copied verbatim by `Format`. */
  lemma {:induction false} FormatLiteral(lit: string, rest: string, args: seq<string>)
    requires '%' !in lit
    ensures Format(lit + rest, args) == lit + Format(rest, args)
  {
    if |lit| == 0 {
      assert lit + rest == rest;
    } else {
      var s := lit + rest;
      assert s[0] == lit[0] && lit[0] != '%';
      assert s[1..] == lit[1..] + rest;
      assert '%' !in lit[1..];
      calc {
        Format(s, args);
        [lit[0]] + Format(s[1..], args);
        { FormatLiteral(lit[1..], rest, args); }
        [lit[0]] + (lit[1..] + Format(rest, args));
        { assert [lit[0]] + lit[1..] == lit; }
        lit + Format(rest, args);
      }
    }
  }

  /** A literal run followed by a `%s` hole: the run is copied, the hole takes the next argument. */
  lemma FormatStep(lit: string, rest: string, a: string, args: seq<string>)
    requires '%' !in lit
    ensures Format(lit + ("%s" + rest), [a] + args) == lit + (a + Format(rest, args))
  {
    FormatLiteral(lit, "%s" + rest, [a] + args);
    assert ("%s" + rest)[2..] == rest;
    assert ([a] + args)[1..] == args;
  }

  /** A template ending in a literal run, with every argument used up. */
  lemma FormatLast(lit: string)
    requires '%' !in lit
    ensures Format(lit, []) == lit
  {
    FormatLiteral(lit, "", []);
    assert lit + "" == lit;
  }

  /** A two-hole template, written as its literal runs `l0 %s l1 %s l2`. */
  lemma Fill2(l0: string, l1: string, l2: string, a: string, b: string)
    requires '%' !in l0 && '%' !in l1 && '%' !in l2
    ensures Format(l0 + ("%s" + (l1 + ("%s" + l2))), [a, b]) == l0 + (a + (l1 + (b + l2)))
  {
    FormatLast(l2);
    FormatStep(l1, l2, b, []);
    assert [b] + [] == [b];
    FormatStep(l0, l1 + ("%s" + l2), a, [b]);
    assert [a] + [b] == [a, b];
  }

  /** A three-hole template `l0 %s l1 %s l2 %s l3`. */
  lemma Fill3(l0: string, l1: string, l2: string, l3: string, a: string, b: string, c: string)
    requires '%' !in l0 && '%' !in l1 && '%' !in l2 && '%' !in l3
    ensures Format(l0 + ("%s" + (l1 + ("%s" + (l2 + ("%s" + l3))))), [a, b, c])
         == l0 + (a + (l1 + (b + (l2 + (c + l3)))))
  {
    Fill2(l1, l2, l3, b, c);
    FormatStep(l0, l1 + ("%s" + (l2 + ("%s" + l3))), a, [b, c]);
    assert [a] + [b, c] == [a, b, c];
  }

  /** A four-hole template `l0 %s l1 %s l2 %s l3 %s l4`. */
  lemma Fill4(l0: string, l1: string, l2: string, l3: string, l4: string,
              a: string, b: string, c: string, d: string)
    requires '%' !in l0 && '%' !in l1 && '%' !in l2 && '%' !in l3 && '%' !in l4
    ensures Format(l0 + ("%s" + (l1 + ("%s" + (l2 + ("%s" + (l3 + ("%s" + l4))))))), [a, b, c, d])
         == l0 + (a + (l1 + (b + (l2 + (c + (l3 + (d + l4)))))))
  {
    assert [d] + [] == [d];
    assert [c] + [d] == [c, d];
    assert [b] + [c, d] == [b, c, d];
    assert [a] + [b, c, d] == [a, b, c, d];
    var r3 := l3 + ("%s" + l4);
    var r2 := l2 + ("%s" + r3);
    var r1 := l1 + ("%s" + r2);
    FormatLast(l4);
    FormatStep(l3, l4, d, []);
    FormatStep(l2, r3, c, [d]);
    FormatStep(l1, r2, b, [c, d]);
    FormatStep(l0, r1, a, [b, c, d]);
  }

  /** `max(xs)`; Python raises on an empty list, so callers check first. */
  function Max(xs: seq<int>): (m: int)
    requires |xs| > 0
    ensures m in xs
    ensures forall i :: 0 <= i < |xs| ==> xs[i] <= m
  {
    if |xs| == 1 then xs[0]
    else
      var rest := Max(xs[1..]);
      assert forall i :: 1 <= i < |xs| ==> xs[i] == xs[1..][i - 1];
      if xs[0] >= rest then xs[0] else rest
  }

  /** Python's `a < b` on `str`: lexicographic by character, a proper prefix first. */
  predicate StrLess(a: string, b: string)
  {
    if |a| == 0 then |b| > 0
    else if |b| == 0 then false
    else if a[0] != b[0] then a[0] < b[0]
    else StrLess(a[1..], b[1..])
  }

  /** String ordering is a strict total order: exactly one of `<`, `==`, `>` holds. */
  lemma {:induction false} StrLessTrichotomy(a: string, b: string)
    ensures StrLess(a, b) || a == b || StrLess(b, a)
    ensures !(StrLess(a, b) && StrLess(b, a))
    ensures StrLess(a, b) ==> a != b
  {
    if |a| > 0 && |b| > 0 && a[0] == b[0] {
      StrLessTrichotomy(a[1..], b[1..]);
      if a[1..] == b[1..] {
        assert a == [a[0]] + a[1..] && b == [b[0]] + b[1..];
      }
    }
  }
}
