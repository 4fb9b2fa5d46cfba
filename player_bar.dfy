/** The bottom player bar (Soundwave/src/components/Player.tsx): hidden
    without a current song, otherwise the song's labels and the elapsed and
    total times as "M:SS". */
module PlayerBar {
  import opened Base
  import opened Text
  import opened Types
  import AudioService

  /** time % 60 on a non-negative JavaScript number: the remainder after
      taking out whole minutes (truncation and floor agree here). */
  function RemainderOf60(time: real): (r: real)
    requires 0.0 <= time
    ensures 0.0 <= r < 60.0
  {
    time - 60.0 * ((time / 60.0).Floor as real)
  }

  /** Math.floor(time % 60) is the whole seconds past the last whole
      minute. */
  lemma FloorOfRemainder(time: real)
    requires 0.0 <= time
    ensures 0 <= time.Floor
    ensures RemainderOf60(time).Floor == time.Floor % 60
    ensures (time / 60.0).Floor == time.Floor / 60
  {
    FloorDiv60(time);
    var n := time.Floor;
    var q := n / 60;
    assert RemainderOf60(time) == time - (60 * q) as real;
    assert (n % 60) as real <= RemainderOf60(time) < (n % 60 + 1) as real;
  }

  /** formatTime: `${Math.floor(time / 60)}:${pad2(Math.floor(time % 60))}`.
      Reading the text back gives seconds below 60 and, with the unbounded
      minutes field, the whole seconds of `time`. */
  function FormatTime(time: real): (r: string)
    requires 0.0 <= time
    ensures ParseClock(r).Some?
    ensures ParseClock(r).value.seconds < 60
    ensures ParseClock(r).value.minutes * 60 + ParseClock(r).value.seconds == time.Floor
    ensures ParseClock(r).value.minutes == (time / 60.0).Floor
    ensures |r| >= 4 && r[|r| - 3] == ':'
    ensures r[0] == '0' ==> r[1] == ':'
  {
    FloorOfRemainder(time);
    var minutes: nat := (time / 60.0).Floor;
    var seconds: nat := RemainderOf60(time).Floor;
    var r := NatToString(minutes) + [':'] + PadStart2(NatToString(seconds));
    assert r == ClockText(time.Floor);
    r
  }

  /** The bar and the service's upload path print a duration identically. */
  lemma FormatTimeMatchesFormatDuration(time: real)
    requires 0.0 <= time
    ensures FormatTime(time) == AudioService.FormatDuration(time)
  {
    FloorOfRemainder(time);
    assert FormatTime(time) == ClockText(time.Floor);
  }

  datatype PlayerBarView =
    | Hidden
    | Bar(title: string, artist: string, coverUrl: string, elapsed: string, total: string, showsPause: bool)

  /** What the component renders: nothing without a current song; otherwise
      the song's labels, the two clocks and the pause icon while playing. */
  function Render(current: Option<Song>, isPlaying: bool, progress: real, duration: real): (v: PlayerBarView)
    requires 0.0 <= progress && 0.0 <= duration
    ensures v.Hidden? <==> current.None?
    ensures v.Bar? ==> v.title == current.value.title && v.artist == current.value.artist
    ensures v.Bar? ==> v.coverUrl == current.value.coverUrl && v.showsPause == isPlaying
    ensures v.Bar? ==> v.elapsed == FormatTime(progress) && v.total == FormatTime(duration)
    ensures v.Bar? ==> ParseClock(v.elapsed).Some? && ParseClock(v.total).Some?
    ensures v.Bar? ==> ParseClock(v.elapsed).value.seconds < 60 && ParseClock(v.total).value.seconds < 60
    ensures v.Bar? ==> ParseClock(v.elapsed).value.minutes * 60 + ParseClock(v.elapsed).value.seconds == progress.Floor
    ensures v.Bar? ==> ParseClock(v.total).value.minutes * 60 + ParseClock(v.total).value.seconds == duration.Floor
  {
    match current
    case None => Hidden
    case Some(s) => Bar(s.title, s.artist, s.coverUrl, FormatTime(progress), FormatTime(duration), isPlaying)
  }
}
