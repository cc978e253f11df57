/** The page layout of `src/components/AppLayout.tsx`: its play button flips
    the context's play flag. Its `formatTime` is the same function as the
    player hook's, `TimeFormat.FormatTime`. */
module AppLayout {
  import opened AppContext

  /** `handlePlayPause()`: the flag is negated, so two presses restore it. */
  method HandlePlayPause(ctx: AppState)
    modifies ctx`isPlaying
    ensures ctx.isPlaying == !old(ctx.isPlaying)
  {
    ctx.SetIsPlaying(!ctx.isPlaying);
  }

  /** Two presses in a row leave the flag as it was. */
  method HandlePlayPauseTwice(ctx: AppState)
    modifies ctx`isPlaying
    ensures ctx.isPlaying == old(ctx.isPlaying)
  {
    HandlePlayPause(ctx);
    HandlePlayPause(ctx);
  }
}
