/**
 * The annotation store: the list of annotations and the selected one,
 * replaced wholesale by add, update, delete and select, plus the
 * timestamp query. The clock is a parameter: `clockMillis` is the value of
 * `Date.now()` the new id is built from and `now` the ISO-8601 string of
 * the current instant.
 */
module AnnotationContext {
  import opened Wrappers
  import opened Seqs
  import opened Strings
  import opened Types
  import MockData

  /** `Partial<Omit<Annotation, 'id' | 'episodeId' | 'createdAt'>>`: a field is changed only when present. */
  datatype AnnotationPatch = AnnotationPatch(
    timestamp: Option<real>,
    text: Option<string>,
    kind: Option<AnnotationType>,
    updatedAt: Option<string>,
    isPrivate: Option<bool>)

  /** `{ ...annotation, ...updates, updatedAt: now }`. */
  function ApplyPatch(a: Annotation, patch: AnnotationPatch, now: string): (r: Annotation)
    ensures r.id == a.id && r.episodeId == a.episodeId && r.createdAt == a.createdAt
    ensures r.updatedAt == now
    ensures patch.timestamp.Some? ==> r.timestamp == patch.timestamp.value
    ensures patch.timestamp.None? ==> r.timestamp == a.timestamp
    ensures patch.text.Some? ==> r.text == patch.text.value
    ensures patch.text.None? ==> r.text == a.text
    ensures patch.kind.Some? ==> r.kind == patch.kind.value
    ensures patch.kind.None? ==> r.kind == a.kind
    ensures patch.isPrivate.Some? ==> r.isPrivate == patch.isPrivate.value
    ensures patch.isPrivate.None? ==> r.isPrivate == a.isPrivate
  {
    var merged := a.(
      timestamp := if patch.timestamp.Some? then patch.timestamp.value else a.timestamp,
      text := if patch.text.Some? then patch.text.value else a.text,
      kind := if patch.kind.Some? then patch.kind.value else a.kind,
      updatedAt := if patch.updatedAt.Some? then patch.updatedAt.value else a.updatedAt,
      isPrivate := if patch.isPrivate.Some? then patch.isPrivate.value else a.isPrivate);
    merged.(updatedAt := now)
  }

  /** Applying the same patch at the same instant twice is the same as applying it once. */
  lemma ApplyPatchIdempotent(a: Annotation, patch: AnnotationPatch, now: string)
    ensures ApplyPatch(ApplyPatch(a, patch, now), patch, now) == ApplyPatch(a, patch, now)
  {
  }

  /** `prev.map(a => a.id === id ? { ...a, ...updates, updatedAt: now } : a)`. */
  function UpdateById(s: seq<Annotation>, id: string, patch: AnnotationPatch, now: string): (r: seq<Annotation>)
    ensures |r| == |s|
    ensures forall i :: 0 <= i < |s| && s[i].id != id ==> r[i] == s[i]
    ensures forall i :: 0 <= i < |s| && s[i].id == id ==> r[i] == ApplyPatch(s[i], patch, now)
    ensures forall i :: 0 <= i < |s| ==>
      r[i].id == s[i].id && r[i].episodeId == s[i].episodeId && r[i].createdAt == s[i].createdAt
  {
    seq(|s|, i requires 0 <= i < |s| => if s[i].id == id then ApplyPatch(s[i], patch, now) else s[i])
  }

  /** An update naming an id that no annotation has leaves the list as it was. */
  lemma UpdateUnknownId(s: seq<Annotation>, id: string, patch: AnnotationPatch, now: string)
    requires forall i :: 0 <= i < |s| ==> s[i].id != id
    ensures UpdateById(s, id, patch, now) == s
  {
  }

  /** The predicate `a => a.id === id`. */
  function HasId(id: string): Annotation -> bool { (a: Annotation) => a.id == id }

  /** The predicate `annotation => annotation.id !== id`. */
  function IdIsNot(id: string): Annotation -> bool { (a: Annotation) => a.id != id }

  /** `prev.filter(annotation => annotation.id !== id)`. */
  function RemoveById(s: seq<Annotation>, id: string): (r: seq<Annotation>)
    ensures forall i :: 0 <= i < |r| ==> r[i].id != id && r[i] in s
    ensures forall i :: 0 <= i < |s| && s[i].id != id ==> s[i] in r
  {
    Filter(s, IdIsNot(id))
  }

  /** Deleting keeps the relative order of what remains, and an unknown id deletes nothing. */
  lemma RemoveByIdOrder(s: seq<Annotation>, t: seq<Annotation>, id: string)
    ensures RemoveById(s + t, id) == RemoveById(s, id) + RemoveById(t, id)
    ensures (forall i :: 0 <= i < |s| ==> s[i].id != id) ==> RemoveById(s, id) == s
  {
    FilterAppend(s, t, IdIsNot(id));
    if forall i :: 0 <= i < |s| ==> s[i].id != id {
      FilterKeepsAll(s, IdIsNot(id));
    }
  }

  /** Deleting removes exactly as many entries as carry the id. */
  lemma {:induction false} RemoveByIdCount(s: seq<Annotation>, id: string)
    ensures |RemoveById(s, id)| + |Filter(s, HasId(id))| == |s|
  {
    if s != [] {
      FilterCons(s[0], s[1..], IdIsNot(id));
      FilterCons(s[0], s[1..], HasId(id));
      assert [s[0]] + s[1..] == s;
      RemoveByIdCount(s[1..], id);
    }
  }

  /** The predicate `a => a.episodeId === episodeId`. */
  function InEpisode(episodeId: string): Annotation -> bool { (a: Annotation) => a.episodeId == episodeId }

  function Abs(x: real): real { if x < 0.0 then -x else x }

  /**
   * The query's test: the episode matches and, for a zero range, the
   * timestamp is exactly `timestamp`, otherwise it is within the range.
   */
  predicate MatchesTimestamp(a: Annotation, episodeId: string, timestamp: real, rangeInSeconds: real)
  {
    a.episodeId == episodeId
    && (if rangeInSeconds == 0.0 then a.timestamp == timestamp
        else Abs(a.timestamp - timestamp) <= rangeInSeconds)
  }

  function NearTimestamp(episodeId: string, timestamp: real, rangeInSeconds: real): Annotation -> bool
  {
    a => MatchesTimestamp(a, episodeId, timestamp, rangeInSeconds)
  }

  /** The exact-match branch is the distance test with a zero range. */
  lemma ZeroRangeIsDistanceTest(a: Annotation, episodeId: string, timestamp: real)
    ensures MatchesTimestamp(a, episodeId, timestamp, 0.0)
        <==> a.episodeId == episodeId && Abs(a.timestamp - timestamp) <= 0.0
  {
  }

  /** A negative range matches nothing. */
  lemma NegativeRangeMatchesNothing(s: seq<Annotation>, episodeId: string, timestamp: real, rangeInSeconds: real)
    requires rangeInSeconds < 0.0
    ensures Filter(s, NearTimestamp(episodeId, timestamp, rangeInSeconds)) == []
  {
  }

  class AnnotationProvider {
    var annotations: seq<Annotation>
    var selectedAnnotation: Option<Annotation>

    /** The store starts with the fixture annotations and nothing selected. */
    constructor()
      ensures annotations == MockData.MockAnnotations && selectedAnnotation == None
    {
      annotations := MockData.MockAnnotations;
      selectedAnnotation := None;
    }

    /**
     * `addAnnotation`: appends a new shared annotation stamped `now`. The
     * text is taken as given; nothing here rejects an empty one.
     */
    method AddAnnotation(episodeId: string, timestamp: real, text: string, kind: AnnotationType,
                         clockMillis: nat, now: string) returns (created: Annotation)
      modifies this
      ensures annotations == old(annotations) + [created]
      ensures created.id == "a" + NatToString(clockMillis)
      ensures created.episodeId == episodeId && created.timestamp == timestamp
      ensures created.text == text && created.kind == kind
      ensures !created.isPrivate && created.createdAt == now && created.updatedAt == now
      ensures selectedAnnotation == old(selectedAnnotation)
    {
      created := Annotation("a" + NatToString(clockMillis), episodeId, timestamp, text, kind, now, now, false);
      annotations := annotations + [created];
    }

    /**
     * `updateAnnotation`: patches every annotation with the id and stamps
     * it `now`. The selected annotation is a copy and is left as it was.
     */
    method UpdateAnnotation(id: string, patch: AnnotationPatch, now: string)
      modifies this
      ensures annotations == UpdateById(old(annotations), id, patch, now)
      ensures selectedAnnotation == old(selectedAnnotation)
    {
      annotations := UpdateById(annotations, id, patch, now);
    }

    /** `deleteAnnotation`: drops every annotation with the id and clears a selection that has it. */
    method DeleteAnnotation(id: string)
      modifies this
      ensures annotations == RemoveById(old(annotations), id)
      ensures old(selectedAnnotation).Some? && old(selectedAnnotation).value.id == id ==> selectedAnnotation == None
      ensures !(old(selectedAnnotation).Some? && old(selectedAnnotation).value.id == id) ==>
        selectedAnnotation == old(selectedAnnotation)
    {
      annotations := RemoveById(annotations, id);
      if selectedAnnotation.Some? && selectedAnnotation.value.id == id {
        selectedAnnotation := None;
      }
    }

    /** `selectAnnotation`: `null` clears; an id selects the first annotation with it, or nothing. */
    method SelectAnnotation(id: Option<string>)
      modifies this`selectedAnnotation
      ensures annotations == old(annotations)
      ensures id.None? ==> selectedAnnotation == None
      ensures id.Some? ==> selectedAnnotation == Find(annotations, HasId(id.value))
    {
      if id.None? {
        selectedAnnotation := None;
        return;
      }
      selectedAnnotation := Find(annotations, HasId(id.value));
    }

    /** `getAnnotationsForTimestamp`: the matching annotations, in store order. */
    function GetAnnotationsForTimestamp(episodeId: string, timestamp: real, rangeInSeconds: real): (r: seq<Annotation>)
      reads this
      ensures forall i :: 0 <= i < |r| ==> r[i] in annotations && r[i].episodeId == episodeId
      ensures forall i :: 0 <= i < |r| ==>
        if rangeInSeconds == 0.0 then r[i].timestamp == timestamp
        else Abs(r[i].timestamp - timestamp) <= rangeInSeconds
      ensures forall i ::
        0 <= i < |annotations| && MatchesTimestamp(annotations[i], episodeId, timestamp, rangeInSeconds) ==>
        annotations[i] in r
    {
      Filter(annotations, NearTimestamp(episodeId, timestamp, rangeInSeconds))
    }
  }
}
