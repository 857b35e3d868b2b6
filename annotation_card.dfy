/**
 * One note in the panel: its edit buffers, save, cancel, delete and jump
 * to timestamp, the share link, the type badge's label and style.
 */
module AnnotationCard {
  import opened Wrappers
  import opened Strings
  import opened Types
  import opened AnnotationContext
  import opened PlayerContext
  import opened CreateAnnotation
  import Timeline

  /** A note's view state, created for one annotation. */
  class AnnotationCard {
    const annotation: Annotation
    var isEditing: bool
    var editText: string
    var editType: AnnotationType
    var editIsPrivate: bool

    /** The edit buffers start as copies of the note. */
    constructor(annotation: Annotation)
      ensures this.annotation == annotation && !isEditing
      ensures editText == annotation.text && editType == annotation.kind && editIsPrivate == annotation.isPrivate
    {
      this.annotation := annotation;
      isEditing := false;
      editText := annotation.text;
      editType := annotation.kind;
      editIsPrivate := annotation.isPrivate;
    }

    /** `handleGoToTimestamp`: seeks to the note. */
    method HandleGoToTimestamp(player: PlayerProvider)
      modifies player`audioTime, player`currentTime
      ensures player.hasAudio ==> player.currentTime == annotation.timestamp && player.audioTime == annotation.timestamp
      ensures !player.hasAudio ==> unchanged(player)
    {
      player.Seek(annotation.timestamp);
    }

    /** `handleEdit`: reloads the buffers from the note and enters edit mode. */
    method HandleEdit()
      modifies this
      ensures isEditing
      ensures editText == annotation.text && editType == annotation.kind && editIsPrivate == annotation.isPrivate
    {
      editText := annotation.text;
      editType := annotation.kind;
      editIsPrivate := annotation.isPrivate;
      isEditing := true;
    }

    /** `handleDelete`: deletes the note only when the user confirms. */
    method HandleDelete(confirmed: bool, store: AnnotationProvider)
      modifies store
      ensures confirmed ==> store.annotations == RemoveById(old(store.annotations), annotation.id)
      ensures confirmed && old(store.selectedAnnotation).Some? && old(store.selectedAnnotation).value.id == annotation.id
        ==> store.selectedAnnotation == None
      ensures confirmed && !(old(store.selectedAnnotation).Some? && old(store.selectedAnnotation).value.id == annotation.id)
        ==> store.selectedAnnotation == old(store.selectedAnnotation)
      ensures !confirmed ==> unchanged(store)
    {
      if confirmed {
        store.DeleteAnnotation(annotation.id);
      }
    }

    /** The patch a save sends: text, type and privacy from the buffers; time untouched. */
    function EditPatch(): (p: AnnotationPatch)
      reads this
      ensures p.text == Some(editText) && p.kind == Some(editType) && p.isPrivate == Some(editIsPrivate)
      ensures p.timestamp.None? && p.updatedAt.None?
    {
      AnnotationPatch(None, Some(editText), Some(editType), None, Some(editIsPrivate))
    }

    /**
     * `handleSaveEdit`: a blank text discards the edit; otherwise the note
     * takes the buffers' text (untrimmed), type and privacy, keeping its
     * time. Either way edit mode ends.
     */
    method HandleSaveEdit(store: AnnotationProvider, now: string)
      modifies this`isEditing, store
      ensures !isEditing
      ensures IsBlank(editText) ==> unchanged(store)
      ensures !IsBlank(editText) ==> store.annotations == UpdateById(old(store.annotations), annotation.id, EditPatch(), now)
      ensures store.selectedAnnotation == old(store.selectedAnnotation)
    {
      if !IsBlank(editText) {
        store.UpdateAnnotation(annotation.id, EditPatch(), now);
      }
      isEditing := false;
    }

    /** `handleCancelEdit`: leaves edit mode; the buffers keep their text until the next edit. */
    method HandleCancelEdit()
      modifies this`isEditing
      ensures !isEditing
    {
      isEditing := false;
    }
  }

  /**
   * After a save with non-blank text, the stored note with this card's id
   * carries the edited text, type and privacy, and keeps its time and
   * creation stamp.
   */
  lemma SaveEditResult(s: seq<Annotation>, a: Annotation, text: string, kind: AnnotationType, isPrivate: bool,
                       now: string, i: nat)
    requires i < |s| && s[i].id == a.id
    ensures var r := UpdateById(s, a.id, AnnotationPatch(None, Some(text), Some(kind), None, Some(isPrivate)), now);
      r[i].text == text && r[i].kind == kind && r[i].isPrivate == isPrivate
      && r[i].timestamp == s[i].timestamp && r[i].createdAt == s[i].createdAt && r[i].updatedAt == now
  {
  }

  const ShareBase := "example.com/podcast/"
  const ShareQuery := "?t="

  /** The share link for an episode and the rendered timestamp. */
  function ShareLink(episodeId: string, timestampText: string): string
  {
    ShareBase + episodeId + ShareQuery + timestampText
  }

  /** `handleShare`'s alert text. */
  function ShareMessage(episodeId: string, timestampText: string): string
  {
    ShareAlertPrefix + ShareLink(episodeId, timestampText)
  }

  /** The alert's text before the link. */
  const ShareAlertPrefix := "Shareable link for this timestamp: "

  /** The alert shows the fixed prefix and then a link that reads back as the note's episode and time text. */
  lemma ShareMessageLink(episodeId: string, timestampText: string)
    requires '?' !in episodeId
    ensures var m := ShareMessage(episodeId, timestampText);
      |ShareAlertPrefix| <= |m| && m[..|ShareAlertPrefix|] == ShareAlertPrefix
      && ParseShareLink(m[|ShareAlertPrefix|..]) == Some((episodeId, timestampText))
  {
    var m := ShareMessage(episodeId, timestampText);
    assert m[|ShareAlertPrefix|..] == ShareLink(episodeId, timestampText);
    ShareLinkRoundTrip(episodeId, timestampText);
  }

  /** Reads the episode id and the timestamp text back from a share link. */
  function ParseShareLink(link: string): (r: Option<(string, string)>)
    ensures r.Some? ==> ShareLink(r.value.0, r.value.1) == link && '?' !in r.value.0
  {
    if |link| < |ShareBase| || link[..|ShareBase|] != ShareBase then None
    else
      var rest := link[|ShareBase|..];
      if '?' !in rest then None
      else
        var i := FirstIndexOf(rest, '?');
        if i + |ShareQuery| <= |rest| && rest[i..i + |ShareQuery|] == ShareQuery then
          ShareLinkRebuilt(link, rest, i);
          Some((rest[..i], rest[i + |ShareQuery|..]))
        else None
  }

  /** The pieces a link is cut into rebuild it. */
  lemma ShareLinkRebuilt(link: string, rest: string, i: nat)
    requires |ShareBase| <= |link| && link[..|ShareBase|] == ShareBase && rest == link[|ShareBase|..]
    requires i + |ShareQuery| <= |rest| && rest[i..i + |ShareQuery|] == ShareQuery
    ensures ShareLink(rest[..i], rest[i + |ShareQuery|..]) == link
  {
    assert rest == rest[..i] + rest[i..i + |ShareQuery|] + rest[i + |ShareQuery|..];
    assert link == link[..|ShareBase|] + rest;
  }

  /** A link whose episode id holds no '?' reads back as the id and the timestamp text it was built from. */
  lemma ShareLinkRoundTrip(episodeId: string, timestampText: string)
    requires '?' !in episodeId
    ensures ParseShareLink(ShareLink(episodeId, timestampText)) == Some((episodeId, timestampText))
  {
    var link := ShareLink(episodeId, timestampText);
    assert link[..|ShareBase|] == ShareBase;
    var rest := link[|ShareBase|..];
    assert rest == episodeId + ShareQuery + timestampText;
    assert rest[|episodeId|] == '?';
    var i := FirstIndexOf(rest, '?');
    assert i == |episodeId|;
    assert rest[..i] == episodeId;
    assert rest[i..i + |ShareQuery|] == ShareQuery;
    assert rest[i + |ShareQuery|..] == timestampText;
  }

  /**
   * For a note at a whole second `n`, the link's timestamp is the decimal
   * text of `n` and reads back as `n`.
   */
  lemma ShareLinkWholeSeconds(a: Annotation, n: nat)
    requires a.timestamp == n as real && '?' !in a.episodeId
    ensures var p := ParseShareLink(ShareLink(a.episodeId, NatToString(n)));
      p.Some? && p.value.0 == a.episodeId && AllDigits(p.value.1) && DigitsValue(p.value.1) == n
  {
    ShareLinkRoundTrip(a.episodeId, NatToString(n));
    NatToStringRoundTrip(n);
  }

  /** The badge text: the type's name with its first letter upper-cased. */
  function TypeLabel(kind: AnnotationType): (r: string)
    ensures |r| == |TypeName(kind)| && r[1..] == TypeName(kind)[1..]
    ensures 'A' <= r[0] <= 'Z'
  {
    Capitalize(TypeName(kind))
  }

  /** The badge shows the same label as the type's entry in the drop-down. */
  lemma TypeLabelMatchesOptions()
    ensures forall i :: 0 <= i < |AnnotationTypeOptions| ==>
      TypeLabel(AnnotationTypeOptions[i].value) == AnnotationTypeOptions[i].labelText
  {
    assert TypeLabel(General) == "General";
    assert TypeLabel(Quote) == "Quote";
    assert TypeLabel(Reference) == "Reference";
    assert TypeLabel(Question) == "Question";
  }

  /** A colour family's badge classes: the family at shades 100, 800 and 200. */
  function BadgeClasses(family: string): (r: string)
    ensures |family| > 0 ==> |r| > 3 && r[3] == family[0]
  {
    "bg-" + family + "-100 text-" + family + "-800 border-" + family + "-200"
  }

  /**
   * `getTypeStyle`: the badge's classes in the colour family the timeline
   * gives the type's marker, so general falls through to purple.
   */
  function TypeStyle(kind: AnnotationType): (r: string)
    ensures r == BadgeClasses("purple") <==> kind == General
  {
    var family := Timeline.HueName(Timeline.MarkerColor(kind));
    var r := BadgeClasses(family);
    assert BadgeClasses("purple")[3] == 'p';
    r
  }

  /**
   * A note's badge and its timeline marker show the same colour family, and
   * distinct types get distinct badge classes.
   */
  lemma BadgeMatchesMarker(k1: AnnotationType, k2: AnnotationType)
    ensures TypeStyle(k1)[3] == Timeline.MarkerClass(k1)[3]
    ensures TypeStyle(k1) == TypeStyle(k2) ==> k1 == k2
  {
    var f1, f2 := Timeline.HueName(Timeline.MarkerColor(k1)), Timeline.HueName(Timeline.MarkerColor(k2));
    assert TypeStyle(k1)[3] == f1[0] && TypeStyle(k2)[3] == f2[0];
    assert Timeline.MarkerClass(k1)[3] == f1[0];
    Timeline.HueInitials(Timeline.MarkerColor(k1), Timeline.MarkerColor(k2));
    Timeline.MarkerColorInjective(k1, k2);
  }

  /** The four class strings of `getTypeStyle`'s switch, spelled out. */
  lemma TypeStyleLiterals()
    ensures TypeStyle(Quote) == "bg-blue-100 text-blue-800 border-blue-200"
    ensures TypeStyle(Reference) == "bg-green-100 text-green-800 border-green-200"
    ensures TypeStyle(Question) == "bg-orange-100 text-orange-800 border-orange-200"
    ensures TypeStyle(General) == "bg-purple-100 text-purple-800 border-purple-200"
  {
    BlueClasses();
    GreenClasses();
    OrangeClasses();
    PurpleClasses();
  }

  lemma BlueClasses()
    ensures BadgeClasses("blue") == "bg-blue-100 text-blue-800 border-blue-200"
  {
    assert "bg-" + "blue" == "bg-blue";
    assert "bg-blue" + "-100 text-" == "bg-blue-100 text-";
    assert "bg-blue-100 text-" + "blue" == "bg-blue-100 text-blue";
    assert "bg-blue-100 text-blue" + "-800 border-" == "bg-blue-100 text-blue-800 border-";
    assert "bg-blue-100 text-blue-800 border-" + "blue" == "bg-blue-100 text-blue-800 border-blue";
    assert "bg-blue-100 text-blue-800 border-blue" + "-200" == "bg-blue-100 text-blue-800 border-blue-200";
  }

  lemma GreenClasses()
    ensures BadgeClasses("green") == "bg-green-100 text-green-800 border-green-200"
  {
    assert "bg-" + "green" == "bg-green";
    assert "bg-green" + "-100 text-" == "bg-green-100 text-";
    assert "bg-green-100 text-" + "green" == "bg-green-100 text-green";
    assert "bg-green-100 text-green" + "-800 border-" == "bg-green-100 text-green-800 border-";
    assert "bg-green-100 text-green-800 border-" + "green" == "bg-green-100 text-green-800 border-green";
    assert "bg-green-100 text-green-800 border-green" + "-200" == "bg-green-100 text-green-800 border-green-200";
  }

  lemma OrangeClasses()
    ensures BadgeClasses("orange") == "bg-orange-100 text-orange-800 border-orange-200"
  {
    assert "bg-" + "orange" == "bg-orange";
    assert "bg-orange" + "-100 text-" == "bg-orange-100 text-";
    assert "bg-orange-100 text-" + "orange" == "bg-orange-100 text-orange";
    assert "bg-orange-100 text-orange" + "-800 border-" == "bg-orange-100 text-orange-800 border-";
    assert "bg-orange-100 text-orange-800 border-" + "orange" == "bg-orange-100 text-orange-800 border-orange";
    assert "bg-orange-100 text-orange-800 border-orange" + "-200" == "bg-orange-100 text-orange-800 border-orange-200";
  }

  lemma PurpleClasses()
    ensures BadgeClasses("purple") == "bg-purple-100 text-purple-800 border-purple-200"
  {
    assert "bg-" + "purple" == "bg-purple";
    assert "bg-purple" + "-100 text-" == "bg-purple-100 text-";
    assert "bg-purple-100 text-" + "purple" == "bg-purple-100 text-purple";
    assert "bg-purple-100 text-purple" + "-800 border-" == "bg-purple-100 text-purple-800 border-";
    assert "bg-purple-100 text-purple-800 border-" + "purple" == "bg-purple-100 text-purple-800 border-purple";
    assert "bg-purple-100 text-purple-800 border-purple" + "-200" == "bg-purple-100 text-purple-800 border-purple-200";
  }
}
