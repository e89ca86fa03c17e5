/** build/buildargs.go: image build arguments "KEY=VALUE", "KEY=" and "KEY".
    A Go `map[string]*string` is a map to `Option<string>`: `None` is the nil
    pointer (use the Dockerfile's default), `Some(v)` points to the value. */
module BuildArgs {
  import opened Results
  import opened Text

  type Args = map<string, Option<string>>

  /** The key of a build argument is the text before its first "=" (all of it
      when there is none); only an empty key is rejected. */
  function Parse(barg: string): (r: Result<(string, Option<string>)>)
    ensures r.Err? <==> barg == "" || barg[0] == '='
    ensures r.Err? ==> r.error == InvalidBuildArg(barg)
    ensures r.Ok? ==> r.value.0 != "" && '=' !in r.value.0
    ensures r.Ok? && r.value.1.None? ==> '=' !in barg && barg == r.value.0
    ensures r.Ok? && r.value.1.Some? ==> barg == r.value.0 + "=" + r.value.1.value
  {
    var c := Cut(barg, '=');
    if c.before == "" then Err(InvalidBuildArg(barg))
    else if !c.found then Ok((c.before, None))
    else Ok((c.before, Some(c.after)))
  }

  predicate Valid(barg: string) { Parse(barg).Ok? }

  function Key(barg: string): string
    requires Valid(barg)
  {
    Parse(barg).value.0
  }

  function Value(barg: string): Option<string>
    requires Valid(barg)
  {
    Parse(barg).value.1
  }

  /** BuildArgs.Add on the map's value. */
  function Added(b: Args, barg: string): (r: Result<Args>)
    ensures r.Ok? <==> Valid(barg)
    ensures r.Err? ==> r.error == InvalidBuildArg(barg)
    ensures r.Ok? ==> r.value.Keys == b.Keys + {Key(barg)} && r.value[Key(barg)] == Value(barg)
    ensures r.Ok? ==> forall k :: k in b && k != Key(barg) ==> r.value[k] == b[k]
  {
    match Parse(barg)
    case Ok(kv) => Ok(b[kv.0 := kv.1])
    case Err(e) => Err(e)
  }

  /** Adding the arguments in order, stopping at the first invalid one. */
  function AddedAll(b: Args, bargs: seq<string>): Result<Args>
    decreases |bargs|
  {
    if |bargs| == 0 then Ok(b)
    else match Added(b, bargs[0])
      case Ok(b') => AddedAll(b', bargs[1..])
      case Err(e) => Err(e)
  }

  /** What MakeBuildArgs computes. */
  function FromList(bargs: seq<string>): Result<Args>
  {
    AddedAll(map[], bargs)
  }

  /** Index of the first invalid argument, or |bargs| when all are valid:
      where the loop of MakeBuildArgs stops. Labels has its own copy over its
      own validity test, as the Go package does. */
  function FirstInvalid(bargs: seq<string>): (i: nat)
    ensures i <= |bargs|
    ensures i < |bargs| ==> !Valid(bargs[i])
    ensures forall j :: 0 <= j < i ==> Valid(bargs[j])
  {
    if |bargs| == 0 then 0
    else if !Valid(bargs[0]) then 0
    else 1 + FirstInvalid(bargs[1..])
  }

  /** Adding a list fails exactly when some argument is invalid, with the
      error of the first invalid one. */
  lemma {:induction false} AddedAllError(b: Args, bargs: seq<string>)
    ensures AddedAll(b, bargs).Err? <==> FirstInvalid(bargs) < |bargs|
    ensures AddedAll(b, bargs).Err? ==>
              AddedAll(b, bargs).error == InvalidBuildArg(bargs[FirstInvalid(bargs)])
    decreases |bargs|
  {
    if |bargs| > 0 && Valid(bargs[0]) {
      AddedAllError(Added(b, bargs[0]).value, bargs[1..]);
    }
  }

  /** An argument whose key does not occur again later decides that key. */
  lemma {:induction false} AddedAllLastWins(b: Args, bargs: seq<string>, i: nat)
    requires AddedAll(b, bargs).Ok?
    requires i < |bargs|
    ensures Valid(bargs[i])
    ensures (forall j :: i < j < |bargs| ==> Valid(bargs[j]) && Key(bargs[j]) != Key(bargs[i])) ==>
              Key(bargs[i]) in AddedAll(b, bargs).value &&
              AddedAll(b, bargs).value[Key(bargs[i])] == Value(bargs[i])
    decreases |bargs|
  {
    AddedAllError(b, bargs);
    var b' := Added(b, bargs[0]).value;
    var rest := bargs[1..];
    if forall j :: i < j < |bargs| ==> Valid(bargs[j]) && Key(bargs[j]) != Key(bargs[i]) {
      if i > 0 {
        assert rest[i - 1] == bargs[i];
        forall j | i - 1 < j < |rest|
          ensures Valid(rest[j]) && Key(rest[j]) != Key(rest[i - 1])
        {
          assert rest[j] == bargs[j + 1];
        }
        AddedAllLastWins(b', rest, i - 1);
      } else {
        forall j | 0 <= j < |rest| ensures Valid(rest[j]) && Key(rest[j]) != Key(bargs[0]) {
          assert rest[j] == bargs[j + 1];
        }
        AddedAllKeeps(b', rest, Key(bargs[0]));
      }
    }
  }

  /** A key that none of the arguments names keeps its old entry. */
  lemma {:induction false} AddedAllKeeps(b: Args, bargs: seq<string>, k: string)
    requires AddedAll(b, bargs).Ok?
    requires k in b
    ensures forall j :: 0 <= j < |bargs| ==> Valid(bargs[j])
    ensures (forall i :: 0 <= i < |bargs| ==> Key(bargs[i]) != k) ==>
              k in AddedAll(b, bargs).value && AddedAll(b, bargs).value[k] == b[k]
    decreases |bargs|
  {
    AddedAllError(b, bargs);
    if |bargs| > 0 && forall i :: 0 <= i < |bargs| ==> Key(bargs[i]) != k {
      var rest := bargs[1..];
      forall i | 0 <= i < |rest| ensures Key(rest[i]) != k {
        assert rest[i] == bargs[i + 1];
      }
      AddedAllKeeps(Added(b, bargs[0]).value, rest, k);
    }
  }

  /** Adding the arguments one after the other into a map updated in place,
      as WithBuildArgs in build/options.go does: the arguments before the
      first invalid one stay added. */
  function AddedEach(b: Args, bargs: seq<string>): (r: (Args, Option<Error>))
    ensures r.1.None? <==> AddedAll(b, bargs).Ok?
    ensures r.1.None? ==> r.0 == AddedAll(b, bargs).value
    ensures r.1.Some? ==> r.1.value == AddedAll(b, bargs).error
    ensures AddedAll(b, bargs[..FirstInvalid(bargs)]) == Ok(r.0)
    decreases |bargs|
  {
    if |bargs| == 0 then (b, None)
    else
      assert Valid(bargs[0]) ==>
        bargs[..FirstInvalid(bargs)][1..] == bargs[1..][..FirstInvalid(bargs[1..])];
      match Added(b, bargs[0])
      case Ok(b') => AddedEach(b', bargs[1..])
      case Err(e) => (b, Some(e))
  }

  /** A build argument map (Go: BuildArgs, a map updated in place). */
  class BuildArgs {
    var entries: Args

    constructor ()
      ensures entries == map[]
    {
      entries := map[];
    }

    /** Add one argument; an empty key is an error and leaves the map alone. */
    method Add(barg: string) returns (err: Option<Error>)
      modifies this
      ensures err.None? <==> Valid(barg)
      ensures err.Some? ==> err.value == InvalidBuildArg(barg) && entries == old(entries)
      ensures err.None? ==> entries == Added(old(entries), barg).value
    {
      var c := Cut(barg, '=');
      if c.before == "" {
        return Some(InvalidBuildArg(barg));
      }
      if !c.found {
        entries := entries[c.before := None];
        return None;
      }
      entries := entries[c.before := Some(c.after)];
      return None;
    }

    /** The loop of WithBuildArgs: add the arguments in order, returning at
        the first invalid one with the others already added. */
    method AddEach(bargs: seq<string>) returns (err: Option<Error>)
      modifies this
      ensures (entries, err) == AddedEach(old(entries), bargs)
    {
      var i := 0;
      while i < |bargs|
        invariant 0 <= i <= |bargs|
        invariant AddedEach(old(entries), bargs) == AddedEach(entries, bargs[i..])
      {
        assert bargs[i..][0] == bargs[i] && bargs[i..][1..] == bargs[i + 1..];
        err := Add(bargs[i]);
        if err.Some? {
          return;
        }
        i := i + 1;
      }
      return None;
    }
  }

  /** MakeBuildArgs: a new map holding all arguments, or no map and the error
      of the first invalid argument. */
  method MakeBuildArgs(bargs: seq<string>) returns (b: BuildArgs?, err: Option<Error>)
    ensures err.None? <==> FromList(bargs).Ok?
    ensures err.None? ==> b != null && fresh(b) && b.entries == FromList(bargs).value
    ensures err.Some? ==> b == null && err.value == FromList(bargs).error
  {
    b := new BuildArgs();
    var i := 0;
    while i < |bargs|
      invariant 0 <= i <= |bargs|
      invariant fresh(b)
      invariant AddedAll(b.entries, bargs[i..]) == FromList(bargs)
    {
      ghost var before := b.entries;
      assert bargs[i..][0] == bargs[i] && bargs[i..][1..] == bargs[i + 1..];
      var e := b.Add(bargs[i]);
      if e.Some? {
        assert AddedAll(before, bargs[i..]) == Err(InvalidBuildArg(bargs[i]));
        return null, e;
      }
      assert AddedAll(before, bargs[i..]) == AddedAll(b.entries, bargs[i + 1..]);
      i := i + 1;
    }
    return b, None;
  }
}
