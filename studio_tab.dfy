/** The studio tab's own logic: which generate buttons are disabled, what
    pressing one does, the slide player's arrows, the audio player's clock
    text, and how a podcast script line is split into speaker and words. */
module StudioTab {
  import opened Types
  import Js
  import Ai
  import Jobs

  // ---------------------------------------------------------------------
  // Generate buttons
  // ---------------------------------------------------------------------

  /** isGenerating: some artifact of the kind is still generating. */
  function IsGenerating(artifacts: seq<Artifact>, kind: ArtifactKind): (busy: bool)
    ensures busy <==> exists i :: 0 <= i < |artifacts| && artifacts[i].kind == kind
                                  && artifacts[i].status == Generating
  {
    if artifacts == [] then false
    else
      var rest := IsGenerating(artifacts[1..], kind);
      assert rest <==> exists i :: 1 <= i < |artifacts| && artifacts[i].kind == kind
                                   && artifacts[i].status == Generating
        by {
          forall i | 1 <= i < |artifacts| ensures artifacts[i] == artifacts[1..][i - 1] { }
        }
      (artifacts[0].kind == kind && artifacts[0].status == Generating) || rest
  }

  /** A started job's placeholder disables its button. */
  lemma StartedJobIsGenerating(artifacts: seq<Artifact>, placeholderId: string, kind: ArtifactKind, now: int)
    ensures IsGenerating([Jobs.Placeholder(placeholderId, kind, now)] + artifacts, kind)
  {
    var all := [Jobs.Placeholder(placeholderId, kind, now)] + artifacts;
    assert all[0].kind == kind && all[0].status == Generating;
  }

  /** Once that job completes or fails, the button is disabled again only if
      another job of the same kind is still running. */
  lemma FinishedJobIsNotGenerating(placeholderId: string, kind: ArtifactKind, now: int, rest: seq<Artifact>,
                                   content: Content, timeText: string)
    ensures var p := Jobs.Placeholder(placeholderId, kind, now);
      && IsGenerating(Jobs.CompleteArtifact([p] + rest, placeholderId, kind, content, timeText), kind)
         == IsGenerating(rest, kind)
      && IsGenerating(Jobs.FailArtifact([p] + rest, placeholderId), kind) == IsGenerating(rest, kind)
  {
    var p := Jobs.Placeholder(placeholderId, kind, now);
    Jobs.FinishRewritesPlaceholder(p, rest, kind, content, timeText);
    var done := Jobs.CompleteArtifact([p] + rest, placeholderId, kind, content, timeText);
    var failed := Jobs.FailArtifact([p] + rest, placeholderId);
    assert done[1..] == rest && failed[1..] == rest;
    assert done[0].status != Generating && failed[0].status != Generating;
  }

  const NoSourcesAlert: string := "Please add sources first."

  /** The job handleGenerate asks startJob for. */
  datatype JobRequest = JobRequest(notebookId: string, kind: ArtifactKind, sources: seq<Source>,
                                   length: Ai.AudioLength)

  /** What pressing a generate button does: the alert shown, the job
      started, and whether the audio options stay open. */
  datatype GenerateOutcome = GenerateOutcome(alert: Option<string>, job: Option<JobRequest>, showConfig: bool)

  /** handleGenerate: with no sources only the alert appears; otherwise one
      job is started with the notebook's sources and the chosen length, and
      the audio options close. */
  function HandleGenerate(notebook: Notebook, kind: ArtifactKind, length: Ai.AudioLength, showConfig: bool)
    : (r: GenerateOutcome)
    ensures r.job.None? <==> notebook.sources == []
    ensures r.alert.Some? <==> notebook.sources == []
    ensures r.alert.Some? ==> r.alert.value == NoSourcesAlert && r.showConfig == showConfig
    ensures r.job.Some? ==> r.job.value == JobRequest(notebook.id, kind, notebook.sources, length) && !r.showConfig
  {
    if |notebook.sources| == 0 then GenerateOutcome(Some(NoSourcesAlert), None, showConfig)
    else GenerateOutcome(None, Some(JobRequest(notebook.id, kind, notebook.sources, length)), false)
  }

  /** Pressing a button for a notebook with sources starts a job whose
      placeholder disables that button. */
  lemma GenerateDisablesButton(notebook: Notebook, kind: ArtifactKind, length: Ai.AudioLength, showConfig: bool,
                               placeholderId: string, now: int)
    requires notebook.sources != []
    ensures var r := HandleGenerate(notebook, kind, length, showConfig);
      r.job.Some? && IsGenerating([Jobs.Placeholder(placeholderId, r.job.value.kind, now)] + notebook.artifacts, kind)
  {
    StartedJobIsGenerating(notebook.artifacts, placeholderId, kind, now);
  }

  // ---------------------------------------------------------------------
  // Slide player
  // ---------------------------------------------------------------------

  /** nextSlide: one forward, but never past the last slide. */
  function NextSlide(current: int, count: nat): (next: int)
    ensures 0 <= current < count ==> 0 <= next < count
    ensures current < count - 1 ==> next == current + 1
    ensures current >= count - 1 ==> next == count - 1
  {
    if current + 1 <= count - 1 then current + 1 else count - 1
  }

  /** prevSlide: one back, but never before the first slide. */
  function PrevSlide(current: int): (prev: int)
    ensures prev >= 0
    ensures current > 0 ==> prev == current - 1
    ensures current <= 0 ==> prev == 0
  {
    if current - 1 >= 0 then current - 1 else 0
  }

  /** The arrows' `disabled` conditions. */
  predicate PrevDisabled(current: int) { current == 0 }

  predicate NextDisabled(current: int, count: nat) { current == count - 1 }

  /** On a deck with slides, an arrow is disabled exactly when pressing it
      would not move. */
  lemma DisabledExactlyWhenStuck(current: int, count: nat)
    requires 0 <= current < count
    ensures PrevDisabled(current) <==> PrevSlide(current) == current
    ensures NextDisabled(current, count) <==> NextSlide(current, count) == current
  {
  }

  /** Forward then back returns to the slide, unless already at the end. */
  lemma NextThenPrev(current: int, count: nat)
    requires 0 <= current < count - 1
    ensures PrevSlide(NextSlide(current, count)) == current
  {
  }

  /** The slide reached after pressing "next" `presses` times. */
  function Advance(current: int, count: nat, presses: nat): int
    decreases presses
  {
    if presses == 0 then current else Advance(NextSlide(current, count), count, presses - 1)
  }

  /** The slide reached after pressing "previous" `presses` times. */
  function Retreat(current: int, presses: nat): int
    decreases presses
  {
    if presses == 0 then current else Retreat(PrevSlide(current), presses - 1)
  }

  /** However often "next" is pressed, the player walks forward one slide at
      a time and stops on the last slide. */
  lemma {:induction false} AdvanceStopsAtLast(current: int, count: nat, presses: nat)
    requires 0 <= current < count
    ensures Advance(current, count, presses) == if current + presses < count then current + presses else count - 1
    decreases presses
  {
    if presses > 0 {
      AdvanceStopsAtLast(NextSlide(current, count), count, presses - 1);
    }
  }

  /** However often "previous" is pressed, the player walks back one slide at
      a time and stops on the first slide. */
  lemma {:induction false} RetreatStopsAtFirst(current: int, presses: nat)
    requires 0 <= current
    ensures Retreat(current, presses) == if current - presses > 0 then current - presses else 0
    decreases presses
  {
    if presses > 0 {
      RetreatStopsAtFirst(PrevSlide(current), presses - 1);
    }
  }

  // ---------------------------------------------------------------------
  // Audio player clock
  // ---------------------------------------------------------------------

  /** formatTime: whole minutes, a colon, and the seconds within the minute
      padded to two digits. */
  function FormatTime(t: real): string {
    var minutes := (t / 60.0).Floor;
    var seconds := Js.Rem(t, 60.0).Floor;
    Js.IntToString(minutes) + ":" + Js.PadStart2(Js.IntToString(seconds))
  }

  /** The "m:ss" text for a whole number of seconds. */
  function Clock(secs: nat): (text: string)
    ensures |text| >= 4 && text[|text| - 3] == ':'
    ensures Js.IsDigit(text[|text| - 2]) && Js.IsDigit(text[|text| - 1])
    ensures Js.DecimalValue(text[|text| - 2..]) == secs % 60 < 60
    ensures forall i :: 0 <= i < |text| - 3 ==> Js.IsDigit(text[i])
    ensures Js.DecimalValue(text[..|text| - 3]) == secs / 60
  {
    var within := secs % 60;
    var text := Js.NatToString(secs / 60) + ":" + [Js.DigitChar(within / 10), Js.DigitChar(within % 10)];
    Js.NatToStringValue(secs / 60);
    assert text[..|text| - 3] == Js.NatToString(secs / 60);
    assert text[|text| - 2..] == [Js.DigitChar(within / 10), Js.DigitChar(within % 10)];
    var pair := text[|text| - 2..];
    assert pair[..1] == [Js.DigitChar(within / 10)] && pair[..1][..0] == [];
    assert Js.DecimalValue(pair[..1]) == within / 10;
    assert pair[1] == Js.DigitChar(within % 10);
    assert Js.DecimalValue(pair) == 10 * Js.DecimalValue(pair[..1]) + Js.DigitValue(pair[1]);
    text
  }

  /** For a time that is not negative, the player shows the whole seconds
      elapsed as minutes and seconds within the minute. */
  lemma FormatTimeIsClock(t: real)
    requires t >= 0.0
    ensures FormatTime(t) == Clock(t.Floor)
  {
    var n: nat := t.Floor;
    var q, r := n / 60, n % 60;
    assert n == 60 * q + r;
    MinutesOfTime(t, n, q, r);
    assert (t / 60.0).Floor == q;
    assert Js.Trunc(t / 60.0) == q;
    assert Js.Rem(t, 60.0) == t - 60.0 * (q as real);
    assert Js.Rem(t, 60.0).Floor == r;
    TwoDigits(r);
  }

  lemma MinutesOfTime(t: real, n: nat, q: nat, r: nat)
    requires n as real <= t < n as real + 1.0
    requires n == 60 * q + r && r < 60
    ensures q as real <= t / 60.0 < q as real + 1.0
  {
    assert (60 * q) as real <= t;
    assert t < (60 * q + 60) as real;
    assert (60 * q) as real == 60.0 * (q as real);
    assert (60 * q + 60) as real == 60.0 * (q as real + 1.0);
  }

  /** padStart(2, '0') of a number below 60 is its two decimal digits. */
  lemma TwoDigits(r: nat)
    requires r < 60
    ensures Js.PadStart2(Js.IntToString(r)) == [Js.DigitChar(r / 10), Js.DigitChar(r % 10)]
  {
    if r >= 10 {
      assert Js.NatToString(r) == Js.NatToString(r / 10) + [Js.DigitChar(r % 10)];
      assert Js.NatToString(r / 10) == [Js.DigitChar(r / 10)];
    }
  }

  // ---------------------------------------------------------------------
  // Podcast script lines
  // ---------------------------------------------------------------------

  datatype ScriptLine = ScriptLine(speaker: string, words: string)

  /** One line of the script view: `[speaker, ...text] = line.split(':')`,
      shown only when there is text, as the speaker and the text re-joined
      with ':'. */
  function ParseScriptLine(line: string): (r: Option<ScriptLine>)
    ensures r.Some? <==> ':' in line
    ensures r.Some? ==> ':' !in r.value.speaker && r.value.speaker + ":" + r.value.words == line
  {
    var parts := Js.Split(line, ':');
    Js.SplitHead(line, ':');
    if |parts| > 1 then
      Js.JoinSplit(line, ':');
      assert Js.Join(parts, ":") == parts[0] + ":" + Js.Join(parts[1..], ":");
      Some(ScriptLine(parts[0], Js.Join(parts[1..], ":")))
    else
      None
  }

  /** A line written as speaker, colon, words is read back as that speaker
      and those words, even when the words hold further colons. */
  lemma ScriptLineRoundTrip(speaker: string, words: string)
    requires ':' !in speaker
    ensures ParseScriptLine(speaker + ":" + words) == Some(ScriptLine(speaker, words))
  {
    var line := speaker + ":" + words;
    assert line[|speaker|] == ':';
    assert line[..|speaker|] == speaker;
    assert Js.IndexOf(line, ':') == |speaker|;
    assert line[|speaker| + 1..] == words;
    assert Js.Split(line, ':') == [speaker] + Js.Split(words, ':');
    Js.JoinSplit(words, ':');
  }
}
