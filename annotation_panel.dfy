/**
 * The notes panel: the episode filter, the optional type filter and the
 * sort by timestamp that produce the displayed list, the filter toggling,
 * and the choice of what the panel shows.
 */
module AnnotationPanel {
  import opened Wrappers
  import opened Seqs
  import opened Types
  import opened AnnotationContext

  /** The predicate `a => a.type === filterType`. */
  function OfType(kind: AnnotationType): Annotation -> bool { (a: Annotation) => a.kind == kind }

  /** The sort key `a.timestamp` of the comparator `(a, b) => a.timestamp - b.timestamp`. */
  function TimestampKey(): Annotation -> real { (a: Annotation) => a.timestamp }

  /** `filterType ? episodeAnnotations.filter(a => a.type === filterType) : episodeAnnotations`. */
  function ApplyTypeFilter(episodeAnnotations: seq<Annotation>, filterType: Option<AnnotationType>): (r: seq<Annotation>)
    ensures filterType.None? ==> r == episodeAnnotations
    ensures filterType.Some? ==> forall i :: 0 <= i < |r| ==> r[i] in episodeAnnotations && r[i].kind == filterType.value
    ensures filterType.Some? ==>
      (forall i :: 0 <= i < |episodeAnnotations| && episodeAnnotations[i].kind == filterType.value
         ==> episodeAnnotations[i] in r)
  {
    if filterType.Some? then Filter(episodeAnnotations, OfType(filterType.value)) else episodeAnnotations
  }

  /** Whether an annotation passes both filters. */
  predicate Shown(a: Annotation, episodeId: string, filterType: Option<AnnotationType>)
  {
    a.episodeId == episodeId && (filterType.None? || a.kind == filterType.value)
  }

  /**
   * The displayed list: the current episode's annotations, narrowed to
   * the filter type when one is set, sorted by ascending timestamp. It is a
   * permutation of the filtered list and holds exactly the annotations that
   * pass both filters.
   */
  function SortedAnnotations(annotations: seq<Annotation>, episodeId: string, filterType: Option<AnnotationType>): (r: seq<Annotation>)
    ensures SortedBy(r, TimestampKey())
    ensures multiset(r) == multiset(ApplyTypeFilter(Filter(annotations, InEpisode(episodeId)), filterType))
    ensures forall i :: 0 <= i < |r| ==> r[i] in annotations && Shown(r[i], episodeId, filterType)
    ensures forall i :: 0 <= i < |annotations| && Shown(annotations[i], episodeId, filterType) ==> annotations[i] in r
  {
    var episodeAnnotations := Filter(annotations, InEpisode(episodeId));
    var filtered := ApplyTypeFilter(episodeAnnotations, filterType);
    var r := SortBy(filtered, TimestampKey());
    SortByMembers(filtered, TimestampKey());
    ShownMembers(annotations, episodeId, filterType);
    r
  }

  /** The filtered list holds exactly the annotations that pass both filters. */
  lemma ShownMembers(annotations: seq<Annotation>, episodeId: string, filterType: Option<AnnotationType>)
    ensures forall x ::
      (x in ApplyTypeFilter(Filter(annotations, InEpisode(episodeId)), filterType)
       <==> x in annotations && Shown(x, episodeId, filterType))
  {
    var e := Filter(annotations, InEpisode(episodeId));
    var f := ApplyTypeFilter(e, filterType);
    forall x ensures x in f <==> x in annotations && Shown(x, episodeId, filterType) {
      if x in annotations && Shown(x, episodeId, filterType) {
        var i :| 0 <= i < |annotations| && annotations[i] == x;
        assert x in e;
        if filterType.Some? {
          var j :| 0 <= j < |e| && e[j] == x;
        }
      }
      if x in f {
        var j :| 0 <= j < |f| && f[j] == x;
        if filterType.Some? {
          var k :| 0 <= k < |e| && e[k] == x;
        }
      }
    }
  }

  /**
   * Without a type filter the panel lists the episode's annotations
   * unchanged but for the order; annotations with equal timestamps keep
   * their store order.
   */
  lemma SortedAnnotationsStable(annotations: seq<Annotation>, episodeId: string, filterType: Option<AnnotationType>, t: real)
    ensures ApplyTypeFilter(Filter(annotations, InEpisode(episodeId)), None) == Filter(annotations, InEpisode(episodeId))
    ensures Filter(SortedAnnotations(annotations, episodeId, filterType), KeyIs(TimestampKey(), t))
         == Filter(ApplyTypeFilter(Filter(annotations, InEpisode(episodeId)), filterType), KeyIs(TimestampKey(), t))
  {
    SortByStable(ApplyTypeFilter(Filter(annotations, InEpisode(episodeId)), filterType), TimestampKey(), t);
  }

  /** One row of the list: an annotation and whether it is drawn as selected. */
  datatype Entry = Entry(annotation: Annotation, isSelected: bool)

  const NoMatchHint := "No notes match your current filter"
  const FirstNoteHint := "Create your first note by clicking the + button"

  /** What the panel shows. */
  datatype PanelContent =
    | OpenButton
    | SelectEpisodePrompt
    | CreateForm
    | NoteList(showFilterBar: bool, entries: seq<Entry>)
    | EmptyState(showFilterBar: bool, hint: string, offerAddButton: bool)

  function Entries(list: seq<Annotation>, selected: Option<Annotation>): (r: seq<Entry>)
    ensures |r| == |list|
    ensures forall i :: 0 <= i < |r| ==> r[i].annotation == list[i]
    ensures forall i :: 0 <= i < |r| ==> (r[i].isSelected <==> selected.Some? && selected.value.id == list[i].id)
  {
    seq(|list|, i requires 0 <= i < |list| => Entry(list[i], selected.Some? && selected.value.id == list[i].id))
  }

  /**
   * The panel's rendering decision. Closed: only the button that opens it.
   * No episode: the prompt. Creating: the form. Otherwise the filter bar
   * appears when the episode has annotations, and either the sorted list or
   * the empty state, whose hint tells "nothing matches the filter" from
   * "no notes yet".
   */
  function Render(isPanelOpen: bool, currentEpisode: Option<Episode>, isCreating: bool,
                  annotations: seq<Annotation>, selected: Option<Annotation>,
                  filterType: Option<AnnotationType>): (c: PanelContent)
    ensures !isPanelOpen <==> c.OpenButton?
    ensures isPanelOpen && currentEpisode.None? <==> c.SelectEpisodePrompt?
    ensures c.CreateForm? <==> isPanelOpen && currentEpisode.Some? && isCreating
    ensures c.NoteList? <==>
      isPanelOpen && currentEpisode.Some? && !isCreating
      && SortedAnnotations(annotations, currentEpisode.value.id, filterType) != []
    ensures c.NoteList? ==> c.entries == Entries(SortedAnnotations(annotations, currentEpisode.value.id, filterType), selected)
    ensures c.NoteList? || c.EmptyState? ==>
      (c.showFilterBar <==> Filter(annotations, InEpisode(currentEpisode.value.id)) != [])
    ensures c.NoteList? ==> c.entries != [] && forall i :: 0 <= i < |c.entries| ==>
      c.entries[i].annotation.episodeId == currentEpisode.value.id
      && (c.entries[i].isSelected <==> selected.Some? && selected.value.id == c.entries[i].annotation.id)
    ensures c.EmptyState? ==> SortedAnnotations(annotations, currentEpisode.value.id, filterType) == []
    ensures c.EmptyState? ==>
      (c.hint == NoMatchHint <==> Filter(annotations, InEpisode(currentEpisode.value.id)) != [])
    ensures c.EmptyState? ==> (c.offerAddButton <==> c.hint == FirstNoteHint)
  {
    if !isPanelOpen then OpenButton
    else if currentEpisode.None? then SelectEpisodePrompt
    else if isCreating then CreateForm
    else
      var episodeAnnotations := Filter(annotations, InEpisode(currentEpisode.value.id));
      var sorted := SortedAnnotations(annotations, currentEpisode.value.id, filterType);
      var showFilterBar := |episodeAnnotations| > 0;
      if |sorted| > 0 then NoteList(showFilterBar, Entries(sorted, selected))
      else if |episodeAnnotations| > 0 then EmptyState(showFilterBar, NoMatchHint, false)
      else EmptyState(showFilterBar, FirstNoteHint, true)
  }

  /**
   * The "no match" hint appears exactly when the episode has annotations
   * but none passes the type filter.
   */
  lemma NoMatchHintExactly(annotations: seq<Annotation>, episode: Episode, selected: Option<Annotation>,
                           filterType: Option<AnnotationType>)
    ensures var c := Render(true, Some(episode), false, annotations, selected, filterType);
      (c.EmptyState? && c.hint == NoMatchHint)
      <==> Filter(annotations, InEpisode(episode.id)) != [] && SortedAnnotations(annotations, episode.id, filterType) == []
  {
    var c := Render(true, Some(episode), false, annotations, selected, filterType);
    if SortedAnnotations(annotations, episode.id, filterType) == [] {
      assert c.EmptyState?;
    } else {
      assert c.NoteList?;
    }
  }

  /** The panel's own state: whether the form is open and the type filter. */
  class AnnotationPanelState {
    var isCreating: bool
    var filterType: Option<AnnotationType>

    constructor()
      ensures !isCreating && filterType == None
    {
      isCreating := false;
      filterType := None;
    }

    /** `handleFilterChange`: choosing the active type clears the filter, any other choice sets it. */
    method HandleFilterChange(kind: Option<AnnotationType>)
      modifies this`filterType
      ensures filterType == if old(filterType) == kind then None else kind
    {
      filterType := if filterType == kind then None else kind;
    }

    /** The "Clear" button. */
    method ClearFilter()
      modifies this`filterType
      ensures filterType == None
    {
      filterType := None;
    }

    /** `handleCreateAnnotation`. */
    method HandleCreateAnnotation()
      modifies this`isCreating
      ensures isCreating
    {
      isCreating := true;
    }

    /** `handleCloseCreate`, also the form's `onClose`. */
    method HandleCloseCreate()
      modifies this`isCreating
      ensures !isCreating
    {
      isCreating := false;
    }
  }

  /** Choosing the same type twice leaves the filter where it started when it started unset. */
  method ChooseTypeTwice(panel: AnnotationPanelState, kind: AnnotationType)
    requires panel.filterType == None
    modifies panel
    ensures panel.filterType == None
  {
    panel.HandleFilterChange(Some(kind));
    assert panel.filterType == Some(kind);
    panel.HandleFilterChange(Some(kind));
  }
}
