/** sleep.go: a nap of DefaultSleep that a cancelled context cuts short.
    The timer is not modelled; a context allows a number of naps, after
    which it is cancelled and every further nap fails at once. */
module Sleep {
  import opened Results

  /** A context.Context as seen by the naps: how many naps it still lets
      run to their end before it is cancelled. */
  class Context {
    var naps: nat

    constructor(naps: nat)
      ensures this.naps == naps
    {
      this.naps := naps;
    }
  }

  /** Sleep(ctx, DefaultSleep): nil after a full nap, ctx.Err() when the
      context is cancelled. */
  method Sleep(ctx: Context) returns (err: Option<Error>)
    modifies ctx
    ensures old(ctx.naps) == 0 ==> err == Some(ContextDone) && ctx.naps == 0
    ensures old(ctx.naps) > 0 ==> err == None && ctx.naps == old(ctx.naps) - 1
  {
    if ctx.naps == 0 {
      return Some(ContextDone);
    }
    ctx.naps := ctx.naps - 1;
    return None;
  }
}
