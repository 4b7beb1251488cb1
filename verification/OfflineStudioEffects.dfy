/** What each action of the offline studio does: when settings are confirmed, and what a selection, a list or a version changes. */
module OfflineStudioEffects {
  import opened OfflineStudio

  predicate InForce(s: State, revision: Option<int>) {
    revision.Some? ==> revision.value == s.requestRevision
  }

  /** The i-th model is the first with the id. */
  predicate FirstWithId(models: seq<Model>, id: Option<nat>, i: int) {
    && 0 <= i < |models| && Some(models[i].deploymentId) == id
    && forall j :: 0 <= j < i ==> Some(models[j].deploymentId) != id
  }

  predicate Runs(m: Model) {
    m.ollama && m.serverInternal && m.ready
  }

  lemma {:induction false} UsableExactlyWhen(models: seq<Model>, id: Option<nat>)
    ensures UsableModel(models, id) <==> exists i :: FirstWithId(models, id, i) && Runs(models[i])
  {
    if models != [] {
      UsableExactlyWhen(models[1..], id);
      if Some(models[0].deploymentId) == id {
        if UsableModel(models, id) {
          assert FirstWithId(models, id, 0) && Runs(models[0]);
        }
      } else {
        FirstMoves(models, id);
      }
    }
  }

  lemma FirstMoves(models: seq<Model>, id: Option<nat>)
    requires models != [] && Some(models[0].deploymentId) != id
    ensures (exists i :: FirstWithId(models, id, i) && Runs(models[i]))
       <==> exists i :: FirstWithId(models[1..], id, i) && Runs(models[1..][i])
  {
    if i :| FirstWithId(models, id, i) && Runs(models[i]) {
      var k := i - 1;
      assert models[1..][k] == models[i];
      assert forall j :: 0 <= j < k ==> models[1..][j] == models[j + 1];
      assert FirstWithId(models[1..], id, k);
    }
    if k :| FirstWithId(models[1..], id, k) && Runs(models[1..][k]) {
      var i := k + 1;
      assert models[i] == models[1..][k];
      assert forall j :: 1 <= j < i ==> models[j] == models[1..][j - 1];
      assert FirstWithId(models, id, i);
    }
  }

  /** Whether the context holds an item of an origin. */
  predicate Holds(c: Context, origin: Origin) {
    exists i :: 0 <= i < |c.items| && c.items[i].origin == origin
  }

  /**
   * Main result: settings are confirmed exactly if the first model with the selected id runs on this server and is ready, and the
   * context holds knowledge unless raw sources alone will do, and a raw source unless knowledge comes first.
   */
  lemma ConfirmedExactlyWhen(s: State, confirmed: nat, revision: Option<int>)
    requires Invariant(s) && InForce(s, revision)
    ensures var t := Next(s, Action(SettingsConfirmed(confirmed), revision));
            if && (exists i :: FirstWithId(s.models, s.selectedModel, i) && Runs(s.models[i]))
               && (s.context.mode != Some(RawOnly) ==> Holds(s.context, DaonKnowledge))
               && (s.context.mode != Some(DaonPriority) ==> Holds(s.context, RawSource)) then
              t == s.(settingsConfirmed := true, confirmed := Some(confirmed), view := Editor, status := Ready, safeError := None)
            else t == s
  {
    UsableExactlyWhen(s.models, s.selectedModel);
    hide UsableModel, FirstWithId, Runs;
  }

  /** What a choice of context, model or source leaves unconfirmed. */
  predicate Unconfirmed(s: State) {
    !s.settingsConfirmed && s.confirmed.None?
  }

  /** A request starts exactly with a later revision; its number is then the only one that replies may carry. */
  lemma StartsExactlyWhen(s: State, revision: Option<int>)
    requires Invariant(s)
    ensures var t := Next(s, Action(RequestStarted, revision));
            if revision.Some? && revision.value > s.requestRevision then
              t == s.(status := Loading, safeError := None, requestRevision := revision.value)
            else t == s
  {
  }

  /** A new context and a new model take the confirmation away; an invalid context changes nothing. */
  lemma ChoicesUnconfirm(s: State, context: Context, model: Option<nat>, revision: Option<int>)
    requires Invariant(s) && InForce(s, revision)
    ensures var t := Next(s, Action(ModelSelected(model), revision));
            Unconfirmed(t) && t == s.(selectedModel := model, settingsConfirmed := false, confirmed := None)
    ensures var t := Next(s, Action(ContextReady(context), revision));
            if context.mode.Some? && !Holds(context, OtherOrigin) then
              && Unconfirmed(t) && t.context.items == context.items && t.context.mode == context.mode
              && t.context.snapshotId == context.snapshotId
              && t.context.warnings == (if context.mode == Some(RawOnly) then ["RAW_SOURCE_ONLY"] else context.warnings)
              && t.selectedModel == s.selectedModel && t.selectedRaw == s.selectedRaw && t.versions == s.versions
            else t == s
  {
  }

  /** The raw items of a context are those of the selected sources that are available; the other items stay. */
  predicate RawMatches(s: State, t: State) {
    && (forall x :: x in t.context.items && x.origin.RawSource? ==> x.id in t.selectedRaw && Available(t.rawSources, x.id))
    && (forall id :: id in t.selectedRaw && Available(t.rawSources, id) ==> Item(RawSource, id) in t.context.items)
    && (forall x :: x in s.context.items && !x.origin.RawSource? ==> x in t.context.items)
    && (forall x :: x in t.context.items && !x.origin.RawSource? ==> x in s.context.items)
  }

  lemma WithRawMatches(s: State, t: State)
    requires t.context.items == WithRaw(s.context, t.rawSources, t.selectedRaw).items
    ensures RawMatches(s, t)
  {
    forall id | id in t.selectedRaw && Available(t.rawSources, id)
      ensures Item(RawSource, id) in t.context.items
    {
      var k :| 0 <= k < |t.rawSources| && t.rawSources[k].versionId == id;
      assert t.rawSources[k] in t.rawSources;
      assert Item(RawSource, id) in RawItems(t.rawSources, t.selectedRaw);
    }
  }

  /** An available source is selected or deselected, once, and the raw items of the context follow the selection. */
  lemma SelectionDecides(s: State, id: nat, on: bool, revision: Option<int>)
    requires Invariant(s) && InForce(s, revision)
    ensures var t := Next(s, Action(RawSourceSelected(id, on), revision));
            if Available(s.rawSources, id) then
              && Unconfirmed(t) && t.rawSources == s.rawSources && RawMatches(s, t)
              && (forall x :: x in t.selectedRaw <==> (if x == id then on else x in s.selectedRaw))
            else t == s
  {
    var t := Next(s, Action(RawSourceSelected(id, on), revision));
    WithRawIsValid(s.context, s.rawSources, t.selectedRaw);
    hide NotRaw, RawItems, ValidContext, RawMatches;
    if Available(s.rawSources, id) {
      hide Available;
      WithRawMatches(s, t);
    }
  }

  lemma {:induction false} SameRawItems(sources: seq<Source>, all: seq<Source>, selected: seq<nat>, kept: seq<nat>)
    requires forall id :: id in kept <==> id in selected && Available(all, id)
    requires forall i :: 0 <= i < |sources| ==> Available(all, sources[i].versionId)
    ensures RawItems(sources, selected) == RawItems(sources, kept)
  {
    if sources != [] {
      SameRawItems(sources[1..], all, selected, kept);
    }
  }

  /** A new list keeps the selected sources that it still has; their items follow, and confirmed settings stay confirmed. */
  lemma SourcesDecide(s: State, sources: seq<Source>, revision: Option<int>)
    requires Invariant(s) && InForce(s, revision)
    ensures var t := Next(s, Action(RawSourcesReady(sources), revision));
            && t.rawSources == sources && t.confirmed == s.confirmed && t.status == Idle && RawMatches(s, t)
            && forall id :: id in t.selectedRaw <==> id in s.selectedRaw && Available(sources, id)
  {
    var kept := Kept(s.selectedRaw, sources);
    WithRawIsValid(s.context, sources, s.selectedRaw);
    forall i | 0 <= i < |sources|
      ensures Available(sources, sources[i].versionId)
    {
    }
    SameRawItems(sources, sources, s.selectedRaw, kept);
    var t := Next(s, Action(RawSourcesReady(sources), revision));
    hide NotRaw, RawItems, ValidContext, Available, RawMatches;
    WithRawMatches(s, t);
  }

  lemma ModelsArrive(s: State, models: seq<Model>, revision: Option<int>)
    requires Invariant(s) && InForce(s, revision)
    ensures Next(s, Action(ModelsReady(models), revision)) == s.(models := models, status := Idle, safeError := None)
  {
  }

  /** Drafts and versions are appended and selected; a draft is shown in the editor, a version in the list of versions. */
  lemma VersionsAreAppended(s: State, v: Version, revision: Option<int>)
    requires Invariant(s) && InForce(s, revision)
    ensures Next(s, Action(DraftGenerated(v), revision))
         == s.(draft := Some(v), versions := s.versions + [v], selectedVersionId := Some(v.id), view := Editor, status := Ready,
               safeError := None)
    ensures Next(s, Action(VersionAppended(v), revision))
         == s.(versions := s.versions + [v], selectedVersionId := Some(v.id), view := Versions, status := Ready, safeError := None)
  {
  }

  /** A failure shows a code that is all capitals, digits and underscores, and a general one for any other text. */
  lemma FailureIsSafe(s: State, text: string, revision: Option<int>)
    requires Invariant(s) && InForce(s, revision)
    ensures var t := Next(s, Action(RequestFailed(text), revision));
            && t.safeError.Some? && t == s.(status := Error, safeError := t.safeError)
            && |t.safeError.value| <= 64
            && (forall i :: 0 <= i < |t.safeError.value| ==>
                  'A' <= t.safeError.value[i] <= 'Z' || '0' <= t.safeError.value[i] <= '9' || t.safeError.value[i] == '_')
            && (t.safeError.value != text ==>
                  && t.safeError.value == "OFFLINE_STUDIO_FAILED"
                  && (3 <= |text| <= 64 && 'A' <= text[0] <= 'Z' ==>
                        exists i :: 0 <= i < |text| && !('A' <= text[i] <= 'Z' || '0' <= text[i] <= '9' || text[i] == '_')))
  {
  }

  /** Views are chosen freely, and synchronization shows its own. */
  lemma ViewsAreShown(s: State, view: Option<View>, sync: nat, revision: Option<int>)
    requires Invariant(s) && InForce(s, revision)
    ensures Next(s, Action(ViewSelected(view), revision)) == if view.Some? then s.(view := view.value) else s
    ensures Next(s, Action(SyncChanged(sync), revision)) == s.(sync := sync, view := Sync, status := Ready)
  {
  }
}
