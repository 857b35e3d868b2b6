/**
 * The "New Annotation" form: its fields, the type options it offers, and
 * the submit that adds a note at the playhead.
 */
module CreateAnnotation {
  import opened Wrappers
  import opened Seqs
  import opened Strings
  import opened Types
  import opened AnnotationContext
  import opened PlayerContext
  import opened AnnotationPanel

  /** One entry of a type drop-down: the stored value and its label. */
  datatype TypeOption = TypeOption(value: AnnotationType, labelText: string)

  /** The drop-down offered by the form and by the edit view of a note. */
  const AnnotationTypeOptions: seq<TypeOption> := [
    TypeOption(General, "General"),
    TypeOption(Quote, "Quote"),
    TypeOption(Reference, "Reference"),
    TypeOption(Question, "Question")
  ]

  /** The drop-down lists every type once, in declaration order. */
  lemma OptionsCoverTypes()
    ensures |AnnotationTypeOptions| == |AnnotationTypes|
    ensures forall i :: 0 <= i < |AnnotationTypeOptions| ==> AnnotationTypeOptions[i].value == AnnotationTypes[i]
  {
  }

  /** The form's fields. */
  class CreateAnnotationForm {
    var text: string
    var kind: AnnotationType
    /** Shown as a checkbox, but never passed on: new notes are always shared. */
    var isPrivate: bool

    constructor()
      ensures text == "" && kind == General && !isPrivate
    {
      text := "";
      kind := General;
      isPrivate := false;
    }

    /**
     * `handleSubmit`: a blank note is ignored and the form stays open;
     * otherwise the note is added at the current playback time with the
     * text as typed (untrimmed) and the chosen type, the form is reset and
     * closed. The form only exists while an episode is loaded.
     */
    method HandleSubmit(player: PlayerProvider, store: AnnotationProvider, panel: AnnotationPanelState,
                        clockMillis: nat, now: string) returns (created: Option<Annotation>)
      requires player.currentEpisode.Some?
      modifies this, store, panel`isCreating
      ensures IsBlank(old(text)) ==> created.None? && unchanged(this) && unchanged(store)
      ensures IsBlank(old(text)) ==> panel.isCreating == old(panel.isCreating)
      ensures !IsBlank(old(text)) ==> created.Some? && store.annotations == old(store.annotations) + [created.value]
      ensures !IsBlank(old(text)) ==>
        created.value.episodeId == player.currentEpisode.value.id && created.value.timestamp == player.currentTime
        && created.value.text == old(text) && created.value.kind == old(kind) && !created.value.isPrivate
        && created.value.createdAt == now && created.value.updatedAt == now && created.value.id == "a" + NatToString(clockMillis)
      ensures !IsBlank(old(text)) ==> text == "" && kind == General && !isPrivate && !panel.isCreating
      ensures store.selectedAnnotation == old(store.selectedAnnotation)
    {
      if IsBlank(text) {
        return None;
      }
      var a := store.AddAnnotation(player.currentEpisode.value.id, player.currentTime, text, kind, clockMillis, now);
      created := Some(a);
      text := "";
      kind := General;
      isPrivate := false;
      panel.HandleCloseCreate();
    }
  }

  /**
   * A note submitted at the playhead shows up in the panel's sorted list
   * for the episode, unless a filter for another type hides it.
   */
  method SubmittedNoteIsListed(form: CreateAnnotationForm, player: PlayerProvider, store: AnnotationProvider,
                               panel: AnnotationPanelState, clockMillis: nat, now: string)
    returns (created: Option<Annotation>)
    requires player.currentEpisode.Some?
    requires panel.filterType == None || panel.filterType == Some(form.kind)
    modifies form, store, panel`isCreating
    ensures !IsBlank(old(form.text)) ==> created.Some?
    ensures created.Some? ==> created.value.timestamp == player.currentTime && created.value.text == old(form.text)
    ensures created.Some? ==>
      created.value in SortedAnnotations(store.annotations, player.currentEpisode.value.id, panel.filterType)
  {
    created := form.HandleSubmit(player, store, panel, clockMillis, now);
    if created.Some? {
      var all := store.annotations;
      assert all[|all| - 1] == created.value;
      assert Shown(all[|all| - 1], player.currentEpisode.value.id, panel.filterType);
    }
  }
}
