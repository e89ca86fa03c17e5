/** The functional-option pattern every options package of the library
    uses: an option is a closure that updates an options struct through a
    pointer and may fail, and the caller applies a list of them in order,
    giving up at the first error. A closure is modelled as a function from
    the struct before to the struct after, paired with its error; the struct
    it leaves behind on an error is what it had changed up to that point. */
module Opts {
  import opened Results

  /** The outcome of applying the options one after the other: the final
      struct, or the error of the first option that failed. */
  function Applied<O>(o: O, opts: seq<O -> (O, Option<Error>)>): Result<O>
    decreases |opts|
  {
    if |opts| == 0 then Ok(o)
    else
      match Applied(o, opts[..|opts| - 1])
      case Err(e) => Err(e)
      case Ok(p) =>
        var (q, e) := opts[|opts| - 1](p);
        if e.Some? then Err(e.value) else Ok(q)
  }

  /** Applying a list in two parts: the second part starts from what the
      first part left, and does not run at all when the first part failed. */
  lemma {:induction false} AppliedConcat<O>(o: O, a: seq<O -> (O, Option<Error>)>,
                                            b: seq<O -> (O, Option<Error>)>)
    ensures Applied(o, a + b) ==
              match Applied(o, a)
              case Err(e) => Err(e)
              case Ok(p) => Applied(p, b)
    decreases |b|
  {
    if |b| > 0 {
      assert (a + b)[..|a + b| - 1] == a + b[..|b| - 1];
      AppliedConcat(o, a, b[..|b| - 1]);
    } else {
      assert a + b == a;
    }
  }

  /** One more option at the end runs on what the others left, unless
      they already failed. */
  lemma AppliedSnoc<O>(o: O, opts: seq<O -> (O, Option<Error>)>, last: O -> (O, Option<Error>))
    ensures Applied(o, opts + [last]) ==
              match Applied(o, opts)
              case Err(e) => Err(e)
              case Ok(p) => if last(p).1.Some? then Err(last(p).1.value) else Ok(last(p).0)
  {
    assert (opts + [last])[..|opts|] == opts;
  }

  /** The option at position i decides the outcome when it fails on what
      the options before it left: the options after it never run. */
  lemma FirstFailureWins<O>(o: O, opts: seq<O -> (O, Option<Error>)>, i: nat)
    requires i < |opts| && Applied(o, opts[..i]).Ok?
    requires opts[i](Applied(o, opts[..i]).value).1.Some?
    ensures Applied(o, opts) == Err(opts[i](Applied(o, opts[..i]).value).1.value)
  {
    assert opts == opts[..i + 1] + opts[i + 1..];
    assert opts[..i + 1][..i] == opts[..i];
    AppliedConcat(o, opts[..i + 1], opts[i + 1..]);
  }

  /** The option loop of the library's entry points, which return the
      first error and otherwise the struct all options have worked on. */
  method ApplyEach<O>(o: O, opts: seq<O -> (O, Option<Error>)>) returns (r: O, err: Option<Error>)
    ensures err.None? <==> Applied(o, opts).Ok?
    ensures err.None? ==> r == Applied(o, opts).value
    ensures err.Some? ==> err.value == Applied(o, opts).error
  {
    r := o;
    var i := 0;
    while i < |opts|
      invariant 0 <= i <= |opts|
      invariant Applied(o, opts[..i]) == Ok(r)
    {
      assert opts[..i + 1][..i] == opts[..i];
      var step := opts[i](r);
      if step.1.Some? {
        FirstFailureWins(o, opts, i);
        return step.0, step.1;
      }
      r := step.0;
      i := i + 1;
    }
    assert opts[..i] == opts;
    return r, None;
  }
}
