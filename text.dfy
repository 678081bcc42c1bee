/** String helpers the handlers rely on: `strings.Contains`, `strings.Join`, and
    `fmt.Sprintf` restricted to the URL templates of the system, whose every
    directive (`%s`, `%v`, `%f`, `%d`) consumes exactly one argument. */
module Text {

  datatype Option<+T> = None | Some(value: T)

  datatype Result<+T> = Ok(value: T) | Err(message: string)

  /** `s` begins with `p` (`strings.HasPrefix`). */
  predicate HasPrefix(s: string, p: string) {
    |p| <= |s| && s[..|p|] == p
  }

  /** `s` ends with `p` (`strings.HasSuffix`). */
  predicate HasSuffix(s: string, p: string) {
    |p| <= |s| && s[|s| - |p|..] == p
  }

  /** `strings.Contains(s, key)`: some suffix of `s` begins with `key`. */
  predicate Contains(s: string, key: string)
    decreases |s|
  {
    HasPrefix(s, key) || (|s| > 0 && Contains(s[1..], key))
  }

  /** `key` occurs in `s` at position `i`. */
  predicate OccursAt(s: string, key: string, i: int) {
    0 <= i <= |s| && HasPrefix(s[i..], key)
  }

  /** An occurrence at any position makes `Contains` true. */
  lemma {:induction false} ContainsAt(s: string, key: string, i: int)
    requires OccursAt(s, key, i)
    ensures Contains(s, key)
    decreases i
  {
    if i > 0 {
      assert s[1..][i - 1..] == s[i..];
      ContainsAt(s[1..], key, i - 1);
    }
  }

  /** `Contains` holds exactly when there is a position where `key` occurs. */
  lemma {:induction false} ContainsIff(s: string, key: string)
    ensures Contains(s, key) <==> exists i :: OccursAt(s, key, i)
    decreases |s|
  {
    if Contains(s, key) {
      if HasPrefix(s, key) {
        assert OccursAt(s, key, 0);
      } else {
        ContainsIff(s[1..], key);
        var j :| OccursAt(s[1..], key, j);
        assert s[1..][j..] == s[j + 1..];
        assert OccursAt(s, key, j + 1);
      }
    } else {
      forall i | OccursAt(s, key, i) ensures false {
        ContainsAt(s, key, i);
      }
    }
  }

  /** Nothing longer than `s` is contained in it. */
  lemma {:induction false} LongerNotContained(s: string, key: string)
    requires |s| < |key|
    ensures !Contains(s, key)
    decreases |s|
  {
    if |s| > 0 {
      LongerNotContained(s[1..], key);
    }
  }

  /** Text around an occurrence does not hide it. */
  lemma ContainsWithin(a: string, s: string, b: string, key: string)
    requires Contains(s, key)
    ensures Contains(a + s + b, key)
  {
    ContainsIff(s, key);
    var i :| OccursAt(s, key, i);
    var t := a + s + b;
    assert t[|a| + i..][..|key|] == s[i..][..|key|];
    ContainsAt(t, key, |a| + i);
  }

  /** `strings.Join(xs, sep)`. */
  function Join(xs: seq<string>, sep: string): (r: string)
    ensures |xs| == 1 ==> r == xs[0]
    ensures xs == [] ==> r == ""
  {
    if |xs| == 0 then ""
    else if |xs| == 1 then xs[0]
    else xs[0] + sep + Join(xs[1..], sep)
  }

  /** Every element is in the joined text. */
  lemma {:induction false} JoinKeepsEach(xs: seq<string>, sep: string, i: int)
    requires 0 <= i < |xs|
    ensures Contains(Join(xs, sep), xs[i])
    decreases i
  {
    var r := Join(xs, sep);
    if i == 0 {
      assert OccursAt(r, xs[0], 0);
      ContainsAt(r, xs[0], 0);
    } else {
      assert xs[i] == xs[1..][i - 1];
      JoinKeepsEach(xs[1..], sep, i - 1);
      ContainsWithin(xs[0] + sep, Join(xs[1..], sep), "", xs[i]);
      assert xs[0] + sep + Join(xs[1..], sep) + "" == r;
    }
  }

  /** A format string whose directives each consume one argument:
      `lead` is the text before the first directive and `rest[i]` the text
      that follows directive `i`. */
  datatype Format = Format(lead: string, rest: seq<string>) {
    function Arity(): nat { |rest| }
  }

  /** The text `Sprintf` produces after `lead`: each argument followed by
      the literal text after its directive. */
  function Fill(rest: seq<string>, args: seq<string>): (r: string)
    requires |args| == |rest|
    ensures rest != [] ==> HasSuffix(r, rest[|rest| - 1])
  {
    if rest == [] then "" else args[0] + rest[0] + Fill(rest[1..], args[1..])
  }

  /** `fmt.Sprintf(f, args...)` with the arguments already rendered as text. */
  function Sprintf(f: Format, args: seq<string>): (r: string)
    requires |args| == f.Arity()
    ensures HasPrefix(r, f.lead)
    ensures f.rest != [] ==> HasSuffix(r, f.rest[|f.rest| - 1])
  {
    f.lead + Fill(f.rest, args)
  }

  /** Every argument is followed in the filled text by the text after its directive. */
  lemma {:induction false} FillPlacesArgs(rest: seq<string>, args: seq<string>, i: int)
    requires |args| == |rest| && 0 <= i < |rest|
    ensures Contains(Fill(rest, args), args[i] + rest[i])
    decreases i
  {
    var tail := Fill(rest[1..], args[1..]);
    var r := Fill(rest, args);
    assert r == args[0] + rest[0] + tail;
    if i == 0 {
      assert OccursAt(r, args[0] + rest[0], 0);
      ContainsAt(r, args[0] + rest[0], 0);
    } else {
      assert args[i] + rest[i] == args[1..][i - 1] + rest[1..][i - 1];
      FillPlacesArgs(rest[1..], args[1..], i - 1);
      ContainsWithin(args[0] + rest[0], tail, "", args[i] + rest[i]);
      assert args[0] + rest[0] + tail + "" == r;
    }
  }

  /** Every argument appears in the output, followed by the text after its directive. */
  lemma SprintfPlacesArgs(f: Format, args: seq<string>, i: int)
    requires |args| == f.Arity() && 0 <= i < f.Arity()
    ensures Contains(Sprintf(f, args), args[i] + f.rest[i])
  {
    FillPlacesArgs(f.rest, args, i);
    ContainsWithin(f.lead, Fill(f.rest, args), "", args[i] + f.rest[i]);
    assert f.lead + Fill(f.rest, args) + "" == Sprintf(f, args);
  }

  /** With two directives, the output is the interleaving of text and arguments. */
  lemma SprintfTwo(lead: string, mid: string, last: string, x: string, y: string)
    ensures Sprintf(Format(lead, [mid, last]), [x, y]) == lead + x + mid + y + last
  {
    assert [mid, last][1..] == [last];
    assert [x, y][1..] == [y];
    assert Fill([last], [y]) == y + last + Fill([], []);
  }

  /** With one directive, the output is the text around the argument. */
  lemma SprintfOne(lead: string, last: string, x: string)
    ensures Sprintf(Format(lead, [last]), [x]) == lead + x + last
  {
    assert Fill([last], [x]) == x + last + Fill([], []);
  }

  /** Filling the first directive moves its argument and the text after it
      into the lead: a template is spelled out one directive at a time. */
  lemma SprintfPeel(lead: string, next: string, rest: seq<string>, x: string, args: seq<string>)
    requires |args| == |rest|
    ensures Sprintf(Format(lead, [next] + rest), [x] + args) == Sprintf(Format(lead + x + next, rest), args)
  {
    assert ([next] + rest)[1..] == rest;
    assert ([x] + args)[1..] == args;
  }

  /** A key inside the text before the first directive is in every output. */
  lemma SprintfKeepsLead(f: Format, args: seq<string>, key: string)
    requires |args| == f.Arity()
    requires Contains(f.lead, key)
    ensures Contains(Sprintf(f, args), key)
  {
    ContainsWithin("", f.lead, Fill(f.rest, args), key);
    assert "" + f.lead + Fill(f.rest, args) == Sprintf(f, args);
  }

  /** A key inside the text after the last directive is in every output. */
  lemma SprintfKeepsLast(f: Format, args: seq<string>, key: string)
    requires |args| == f.Arity() && f.rest != []
    requires Contains(f.rest[|f.rest| - 1], key)
    ensures Contains(Sprintf(f, args), key)
  {
    var r := Sprintf(f, args);
    var last := f.rest[|f.rest| - 1];
    var before := r[..|r| - |last|];
    assert r == before + r[|r| - |last|..];
    assert r == before + last + "";
    ContainsWithin(before, last, "", key);
  }
}
