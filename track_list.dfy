/** The track list component of `src/components/TrackList.tsx`: its play
    button handler on the application context, the "last played" label and
    the hover style chosen by the list's variant. */
module TrackList {
  import opened Collections
  import opened Text
  import opened TrackData
  import opened AppContext

  /** The play button: pause the track that is current and playing; for any
      other track (or when paused) select it and play. */
  method HandlePlay(ctx: AppState, t: Track)
    modifies ctx`currentTrack, ctx`isPlaying
    ensures old(ctx.currentTrack).Some? && old(ctx.currentTrack).value.id == t.id && old(ctx.isPlaying) ==>
              !ctx.isPlaying && ctx.currentTrack == old(ctx.currentTrack)
    ensures !(old(ctx.currentTrack).Some? && old(ctx.currentTrack).value.id == t.id && old(ctx.isPlaying)) ==>
              ctx.isPlaying && ctx.currentTrack == Some(t)
  {
    if ctx.currentTrack.Some? && ctx.currentTrack.value.id == t.id && ctx.isPlaying {
      ctx.SetIsPlaying(false);
    } else {
      ctx.SetCurrentTrack(Some(t));
      ctx.SetIsPlaying(true);
    }
  }

  const MsPerHour: int := 1000 * 60 * 60
  const HoursPerDay: int := 24
  const MsPerDay: int := MsPerHour * HoursPerDay

  /** The label: a text, or the date in the browser's locale format. */
  datatype LastPlayedLabel = Label(text: string) | LocaleDate(ms: int)

  /** `formatLastPlayed(date)` at the time `nowMs`, both in milliseconds since
      the epoch. Dafny's `/` by a positive divisor rounds down, as `Math.floor`
      of the quotient does. */
  function FormatLastPlayed(date: Option<int>, nowMs: int): LastPlayedLabel {
    match date
    case None => Label("")
    case Some(d) =>
      var hours := (nowMs - d) / MsPerHour;
      var days := hours / HoursPerDay;
      if hours < 1 then Label("Just now")
      else if hours < 24 then Label(IntToString(hours) + "h ago")
      else if days < 7 then Label(IntToString(days) + "d ago")
      else LocaleDate(d)
  }

  /** Whole days from whole hours equal whole days from the milliseconds. */
  lemma DaysFromHours(diff: int)
    ensures (diff / MsPerHour) / HoursPerDay == diff / MsPerDay
  {
    var h := diff / MsPerHour;
    var d := h / HoursPerDay;
    assert MsPerHour * h <= diff < MsPerHour * h + MsPerHour;
    assert HoursPerDay * d <= h < HoursPerDay * d + HoursPerDay;
    assert MsPerDay * d <= MsPerHour * h by {
      assert MsPerDay * d == MsPerHour * (HoursPerDay * d);
    }
    assert MsPerHour * h + MsPerHour <= MsPerDay * d + MsPerDay by {
      assert MsPerDay * d + MsPerDay == MsPerHour * (HoursPerDay * d + HoursPerDay);
    }
  }

  /** The buckets by elapsed time: under an hour (or in the future) 'Just
      now', under a day the whole hours, under a week the whole days, and
      otherwise the locale date. No date gives the empty label. */
  lemma FormatLastPlayedBuckets(d: int, nowMs: int)
    ensures FormatLastPlayed(None, nowMs) == Label("")
    ensures var diff := nowMs - d;
            var r := FormatLastPlayed(Some(d), nowMs);
            (diff < MsPerHour ==> r == Label("Just now"))
            && (MsPerHour <= diff < MsPerDay ==>
                  1 <= diff / MsPerHour < 24 && r == Label(NatToString(diff / MsPerHour) + "h ago"))
            && (MsPerDay <= diff < 7 * MsPerDay ==>
                  1 <= diff / MsPerDay < 7 && r == Label(NatToString(diff / MsPerDay) + "d ago"))
            && (7 * MsPerDay <= diff ==> r == LocaleDate(d))
  {
    DaysFromHours(nowMs - d);
  }

  const LikedStyle: string := "hover:from-red-50 hover:to-pink-50"
  const RecentStyle: string := "hover:from-blue-50 hover:to-indigo-50"
  const DefaultStyle: string := "hover:from-purple-50 hover:to-pink-50"

  /** `getVariantStyles()` for the list's `variant`. */
  function VariantStyles(variant: string): string {
    if variant == "liked" then LikedStyle
    else if variant == "recent" then RecentStyle
    else DefaultStyle
  }

  /** Each variant gets its own style, and only 'liked' and 'recent' leave the default. */
  lemma VariantStylesSpec(variant: string)
    ensures VariantStyles(variant) == LikedStyle <==> variant == "liked"
    ensures VariantStyles(variant) == RecentStyle <==> variant == "recent"
    ensures VariantStyles(variant) == DefaultStyle <==> variant != "liked" && variant != "recent"
  {
    assert LikedStyle[11] != RecentStyle[11] && LikedStyle[11] != DefaultStyle[11]
           && RecentStyle[11] != DefaultStyle[11];
  }
}
