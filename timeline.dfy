/**
 * The progress bar: the markers of the current episode's annotations, the
 * click-to-seek target, the hover tooltip, the progress and marker
 * positions in percent, the marker titles and colours.
 */
module Timeline {
  import opened Wrappers
  import opened Seqs
  import opened Strings
  import opened Types
  import opened AnnotationContext
  import opened PlayerContext
  import opened Utf16

  /** The annotations drawn as markers: the current episode's, in store order; none without an episode. */
  function Markers(currentEpisode: Option<Episode>, annotations: seq<Annotation>): (r: seq<Annotation>)
    ensures currentEpisode.None? ==> r == []
    ensures forall i :: 0 <= i < |r| ==> r[i] in annotations && r[i].episodeId == currentEpisode.value.id
    ensures currentEpisode.Some? ==>
      forall i :: 0 <= i < |annotations| && annotations[i].episodeId == currentEpisode.value.id ==> annotations[i] in r
  {
    if currentEpisode.Some? then Filter(annotations, InEpisode(currentEpisode.value.id)) else []
  }

  /** `Math.max(0, Math.min(x, hi))`. */
  function Clamp(x: real, hi: real): (r: real)
    requires 0.0 <= hi
    ensures 0.0 <= r <= hi
    ensures 0.0 <= x <= hi ==> r == x
    ensures x > hi ==> r == hi
    ensures x < 0.0 ==> r == 0.0
  {
    if x < 0.0 then 0.0 else if x > hi then hi else x
  }

  /**
   * The time a click seeks to, for a click at `clickPosition` (a fraction
   * of the bar's width): nothing while the duration is zero, otherwise
   * the clicked time clamped into `[0, duration]`.
   */
  function ClickTarget(duration: real, clickPosition: real): (r: Option<real>)
    requires 0.0 <= duration
    ensures r.None? <==> duration == 0.0
    ensures r.Some? ==> 0.0 <= r.value <= duration
    ensures r.Some? && 0.0 <= clickPosition <= 1.0 ==> r.value == duration * clickPosition
    ensures r.Some? && clickPosition > 1.0 ==> r.value == duration
    ensures r.Some? && clickPosition < 0.0 ==> r.value == 0.0
  {
    if duration == 0.0 then None else Some(Clamp(duration * clickPosition, duration))
  }

  /** `progressPercentage`: zero without a duration, else the played share in percent. */
  function ProgressPercentage(currentTime: real, duration: real): (r: real)
    ensures duration <= 0.0 ==> r == 0.0
    ensures duration > 0.0 && 0.0 <= currentTime <= duration ==> 0.0 <= r <= 100.0
    ensures duration > 0.0 && currentTime == duration ==> r == 100.0
    ensures duration > 0.0 ==> (r * duration == currentTime * 100.0)
  {
    if duration > 0.0 then (currentTime / duration) * 100.0 else 0.0
  }

  /** `getAnnotationStyle`: a marker's left offset in percent; zero without a duration. */
  function MarkerLeft(timestamp: real, duration: real): (r: real)
    ensures duration == 0.0 ==> r == 0.0
    ensures duration > 0.0 && 0.0 <= timestamp <= duration ==> 0.0 <= r <= 100.0
  {
    if duration == 0.0 then 0.0 else (timestamp / duration) * 100.0
  }

  /** A marker sits exactly under the playhead when playback is at its timestamp. */
  lemma MarkerUnderPlayhead(t: real, duration: real)
    requires duration > 0.0
    ensures MarkerLeft(t, duration) == ProgressPercentage(t, duration)
  {
  }

  /** The offset is not clamped: a note past the end of the episode is drawn past the bar's end. */
  lemma MarkerPastEnd(t: real, duration: real)
    requires 0.0 < duration < t
    ensures MarkerLeft(t, duration) > 100.0
  {
    assert t / duration > 1.0;
  }

  const TitleLength: nat := 40

  /**
   * A marker's title as the browser holds it, in UTF-16 code units: the
   * text's first 40 code units, followed by "..." when it has more. The cut
   * may fall between the two halves of a surrogate pair.
   */
  function MarkerTitle(text: string): (r: seq<CodeUnit>)
    ensures |Encode(text)| <= TitleLength ==> r == Encode(text)
    ensures |Encode(text)| > TitleLength ==>
      |r| == TitleLength + 3 && r[..TitleLength] == Encode(text)[..TitleLength] && r[TitleLength..] == Encode("...")
  {
    var units := Encode(text);
    EncodeBasic("...");
    Prefix(units, TitleLength) + (if |units| > TitleLength then Encode("...") else [])
  }

  /** When the first `k` characters fill exactly 40 code units, the title is those characters and "...". */
  lemma MarkerTitleCut(text: string, k: nat)
    requires k <= |text| && |Encode(text[..k])| == TitleLength < |Encode(text)|
    ensures MarkerTitle(text) == Encode(text[..k] + "...")
  {
    var head := text[..k];
    assert Encode(text)[..TitleLength] == Encode(head) by {
      assert text == head + text[k..];
      EncodeAppend(head, text[k..]);
    }
    var r := MarkerTitle(text);
    assert r == r[..TitleLength] + r[TitleLength..];
    EncodeAppend(head, "...");
  }

  /** Text below U+10000 is cut after 40 characters, as counting characters would. */
  lemma MarkerTitleBasic(text: string)
    requires forall i :: 0 <= i < |text| ==> !IsAstral(text[i])
    ensures |text| <= TitleLength ==> MarkerTitle(text) == Encode(text)
    ensures |text| > TitleLength ==> MarkerTitle(text) == Encode(text[..TitleLength] + "...")
  {
    EncodeBasic(text);
    if |text| > TitleLength {
      MarkerTitleBasicLong(text);
    }
  }

  /** The long case of MarkerTitleBasic. */
  lemma MarkerTitleBasicLong(text: string)
    requires forall i :: 0 <= i < |text| ==> !IsAstral(text[i])
    requires |text| > TitleLength
    ensures MarkerTitle(text) == Encode(text[..TitleLength] + "...")
  {
    EncodeBasic(text);
    EncodeBasic(text[..TitleLength]);
    MarkerTitleCut(text, TitleLength);
  }

  /**
   * Text made only of characters at U+10000 or above counts two code units
   * per character, so the title keeps 20 of them, and more than 20 (not 40)
   * already get the "...".
   */
  lemma MarkerTitleAstral(text: string)
    requires forall i :: 0 <= i < |text| ==> IsAstral(text[i])
    ensures |text| <= TitleLength / 2 ==> MarkerTitle(text) == Encode(text)
    ensures |text| > TitleLength / 2 ==> MarkerTitle(text) == Encode(text[..TitleLength / 2] + "...")
  {
    EncodeAstral(text);
    if |text| > TitleLength / 2 {
      MarkerTitleAstralLong(text);
    }
  }

  /** The long case of MarkerTitleAstral. */
  lemma MarkerTitleAstralLong(text: string)
    requires forall i :: 0 <= i < |text| ==> IsAstral(text[i])
    requires |text| > TitleLength / 2
    ensures MarkerTitle(text) == Encode(text[..TitleLength / 2] + "...")
  {
    EncodeAstral(text);
    EncodeAstral(text[..20]);
    MarkerTitleCut(text, 20);
  }

  /** Twenty-one thumbs-up signs: 42 code units, so the title is the first twenty and "...". */
  lemma MarkerTitleThumbs()
    ensures var thumbs := seq(21, i => '\U{1F44D}');
      |Encode(thumbs)| == 42 && MarkerTitle(thumbs) == Encode(thumbs[..20] + "...")
  {
    var thumbs := seq(21, i => '\U{1F44D}');
    EncodeAstral(thumbs);
    MarkerTitleAstral(thumbs);
  }

  /** The colour families used for the four annotation types. */
  datatype Hue = Purple | Blue | Green | Orange

  /** `getAnnotationColor`: quote blue, reference green, question orange, anything else purple. */
  function MarkerColor(kind: AnnotationType): (h: Hue)
    ensures h == Purple <==> kind == General
  {
    match kind
    case Quote => Blue
    case Reference => Green
    case Question => Orange
    case General => Purple
  }

  /** The colour family's name as it appears in the style classes; the initials differ. */
  function HueName(h: Hue): (r: string)
    ensures |r| > 0 && (r[0] == 'p' <==> h == Purple)
  {
    match h
    case Purple => "purple"
    case Blue => "blue"
    case Green => "green"
    case Orange => "orange"
  }

  /** Distinct colour families have distinct initials. */
  lemma HueInitials(h1: Hue, h2: Hue)
    ensures HueName(h1)[0] == HueName(h2)[0] ==> h1 == h2
  {
  }

  /** The marker's class: the colour family at shade 500. */
  function MarkerClass(kind: AnnotationType): (r: string)
    ensures r == "bg-purple-500" <==> kind == General
  {
    var r := "bg-" + HueName(MarkerColor(kind)) + "-500";
    assert r[3] == HueName(MarkerColor(kind))[0];
    r
  }

  /** Distinct types get distinct marker colours. */
  lemma MarkerColorInjective(k1: AnnotationType, k2: AnnotationType)
    ensures MarkerColor(k1) == MarkerColor(k2) ==> k1 == k2
  {
  }

  /** The bar's own state: the tooltip and the drag flag. */
  class TimelineState {
    var tooltipPosition: Option<real>
    var tooltipTime: real
    /** Never set: no handler starts a drag. */
    var isDragging: bool

    constructor()
      ensures tooltipPosition == None && tooltipTime == 0.0 && !isDragging
    {
      tooltipPosition := None;
      tooltipTime := 0.0;
      isDragging := false;
    }

    /** `handleProgressClick`: seeks to the clicked time; ignored while the duration is zero. */
    method HandleProgressClick(clickPosition: real, player: PlayerProvider)
      requires 0.0 <= player.duration
      modifies player`audioTime, player`currentTime
      ensures player.duration == 0.0 || !player.hasAudio ==> unchanged(player)
      ensures player.duration > 0.0 && player.hasAudio ==>
        player.currentTime == player.audioTime == ClickTarget(player.duration, clickPosition).value
    {
      var target := ClickTarget(player.duration, clickPosition);
      if target.None? {
        return;
      }
      player.Seek(target.value);
    }

    /** `handleMouseMove`: the tooltip follows the pointer, clamped to the bar, showing the time under it. */
    method HandleMouseMove(position: real, duration: real)
      requires 0.0 <= duration
      modifies this`tooltipPosition, this`tooltipTime
      ensures duration == 0.0 ==> tooltipPosition == old(tooltipPosition) && tooltipTime == old(tooltipTime)
      ensures duration > 0.0 ==> tooltipPosition == Some(Clamp(position, 1.0))
      ensures duration > 0.0 ==> tooltipTime == duration * tooltipPosition.value && 0.0 <= tooltipTime <= duration
    {
      if duration == 0.0 {
        return;
      }
      var clamped := Clamp(position, 1.0);
      assert duration * clamped <= duration * 1.0 by {
        assert duration * (1.0 - clamped) >= 0.0;
      }
      tooltipPosition := Some(clamped);
      tooltipTime := duration * clamped;
    }

    /** `handleMouseLeave`: hides the tooltip unless a drag is under way. */
    method HandleMouseLeave()
      modifies this`tooltipPosition
      ensures tooltipPosition == if isDragging then old(tooltipPosition) else None
    {
      if !isDragging {
        tooltipPosition := None;
      }
    }

    /** `handleAnnotationClick`: selects the annotation by id, then seeks to its timestamp. */
    method HandleAnnotationClick(a: Annotation, store: AnnotationProvider, player: PlayerProvider)
      modifies store`selectedAnnotation, player`audioTime, player`currentTime
      ensures store.selectedAnnotation == Find(store.annotations, HasId(a.id))
      ensures a in store.annotations ==> store.selectedAnnotation.Some? && store.selectedAnnotation.value.id == a.id
      ensures player.hasAudio ==> player.currentTime == a.timestamp && player.audioTime == a.timestamp
      ensures !player.hasAudio ==> unchanged(player)
    {
      store.SelectAnnotation(Some(a.id));
      player.Seek(a.timestamp);
    }
  }
}
