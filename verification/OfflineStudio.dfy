/** The offline studio reducer: confirmed settings, selected sources, appended versions and stale replies. */
module OfflineStudio {

  datatype Option<T> = None | Some(value: T)

  datatype Result<T> = Ok(state: T) | Thrown

  datatype View = Settings | Editor | Versions | Review | Sync

  datatype Mode = DaonPriority | Mixed | RawOnly

  datatype Origin = DaonKnowledge | RawSource | OtherOrigin

  datatype Item = Item(origin: Origin, id: nat)

  /** A context as it is given; an unknown mode has no Mode. */
  datatype Context = Context(mode: Option<Mode>, snapshotId: Option<nat>, items: seq<Item>, warnings: seq<string>)

  const RAW_SOURCE_ONLY := ["RAW_SOURCE_ONLY"]

  datatype Model = Model(deploymentId: nat, ollama: bool, serverInternal: bool, ready: bool)

  /** A raw source, known by its version. */
  datatype Source = Source(versionId: nat, content: nat)

  datatype Version = Version(id: nat, content: nat)

  datatype Status = Idle | Loading | Ready | Error

  datatype State = State(
    view: View, status: Status, settingsConfirmed: bool, confirmed: Option<nat>, context: Context, models: seq<Model>,
    selectedModel: Option<nat>, draft: Option<Version>, versions: seq<Version>, selectedVersionId: Option<nat>,
    rawSources: seq<Source>, selectedRaw: seq<nat>, sync: nat, safeError: Option<string>, requestRevision: int)

  datatype Kind =
    | RequestStarted
    | ModelsReady(models: seq<Model>)
    | RawSourcesReady(rawSources: seq<Source>)
    | RawSourceSelected(sourceVersionId: nat, selected: bool)
    | ContextReady(context: Context)
    | ModelSelected(deploymentId: Option<nat>)
    | SettingsConfirmed(confirmed: nat)
    | ViewSelected(view: Option<View>)
    | DraftGenerated(draft: Version)
    | VersionAppended(version: Version)
    | SyncChanged(sync: nat)
    | RequestFailed(safeError: string)
    | UnknownKind

  /** An action and the revision it answers, if that is a safe integer. */
  datatype Action = Action(kind: Kind, revision: Option<int>)

  // ----- the context

  predicate HasOrigin(items: seq<Item>, origin: Origin) {
    exists i :: 0 <= i < |items| && items[i].origin == origin
  }

  predicate ValidContext(c: Context) {
    c.mode.Some? && !HasOrigin(c.items, OtherOrigin)
  }

  function Normalized(c: Context): Context {
    if c.mode == Some(RawOnly) then c.(warnings := RAW_SOURCE_ONLY) else c
  }

  function NotRaw(items: seq<Item>): (rest: seq<Item>)
    ensures forall x :: x in rest <==> x in items && !x.origin.RawSource?
  {
    if items == [] then []
    else (if items[0].origin.RawSource? then [] else [items[0]]) + NotRaw(items[1..])
  }

  /** The context items of the selected sources, in the order of the sources. */
  function RawItems(sources: seq<Source>, selected: seq<nat>): (items: seq<Item>)
    ensures forall x :: x in items <==> x.origin.RawSource? && x.id in selected && exists s :: s in sources && s.versionId == x.id
  {
    if sources == [] then []
    else
      var rest := RawItems(sources[1..], selected);
      if sources[0].versionId in selected then
        var first := Item(RawSource, sources[0].versionId);
        assert sources[0] in sources;
        [first] + rest
      else rest
  }

  predicate Available(sources: seq<Source>, id: nat) {
    exists i :: 0 <= i < |sources| && sources[i].versionId == id
  }

  function Kept(selected: seq<nat>, sources: seq<Source>): (kept: seq<nat>)
    ensures forall id :: id in kept <==> id in selected && Available(sources, id)
  {
    if selected == [] then []
    else (if Available(sources, selected[0]) then [selected[0]] else []) + Kept(selected[1..], sources)
  }

  function WithRaw(c: Context, sources: seq<Source>, selected: seq<nat>): Context {
    c.(items := NotRaw(c.items) + RawItems(sources, selected))
  }

  function Without(selected: seq<nat>, id: nat): (rest: seq<nat>)
    ensures forall x :: x in rest <==> x in selected && x != id
  {
    if selected == [] then []
    else (if selected[0] == id then [] else [selected[0]]) + Without(selected[1..], id)
  }

  // ----- confirming

  function FindModel(models: seq<Model>, id: Option<nat>): Option<Model> {
    if models == [] then None
    else if Some(models[0].deploymentId) == id then Some(models[0])
    else FindModel(models[1..], id)
  }

  predicate UsableModel(models: seq<Model>, id: Option<nat>) {
    var m := FindModel(models, id);
    m.Some? && m.value.ollama && m.value.serverInternal && m.value.ready
  }

  predicate EnoughContext(c: Context) {
    match c.mode
    case Some(DaonPriority) => HasOrigin(c.items, DaonKnowledge)
    case Some(Mixed) => HasOrigin(c.items, DaonKnowledge) && HasOrigin(c.items, RawSource)
    case Some(RawOnly) => HasOrigin(c.items, RawSource)
    case None => false
  }

  predicate CanConfirm(s: State) {
    UsableModel(s.models, s.selectedModel) && EnoughContext(s.context)
  }

  // ----- the reducer

  predicate SafeError(text: string) {
    && 3 <= |text| <= 64 && 'A' <= text[0] <= 'Z'
    && forall i :: 0 < i < |text| ==> 'A' <= text[i] <= 'Z' || '0' <= text[i] <= '9' || text[i] == '_'
  }

  /** createOfflineStudioState at the end of every action. */
  function Created(s: State): Result<State> {
    if ValidContext(s.context) then Ok(s.(context := Normalized(s.context))) else Thrown
  }

  predicate Stale(s: State, a: Action) {
    a.revision.Some? && !a.kind.RequestStarted? && a.revision.value != s.requestRevision
  }

  function Reduce(s: State, a: Action): Result<State> {
    if Stale(s, a) then Ok(s)
    else match a.kind
      case RequestStarted =>
        if a.revision.None? || a.revision.value <= s.requestRevision then Ok(s)
        else Created(s.(status := Loading, safeError := None, requestRevision := a.revision.value))
      case ModelsReady(models) => Created(s.(models := models, status := Idle, safeError := None))
      case RawSourcesReady(sources) =>
        Created(s.(rawSources := sources, selectedRaw := Kept(s.selectedRaw, sources),
                   context := WithRaw(s.context, sources, s.selectedRaw), status := Idle, safeError := None))
      case RawSourceSelected(id, on) =>
        if !Available(s.rawSources, id) then Ok(s)
        else
          var selected := if on then if id in s.selectedRaw then s.selectedRaw else s.selectedRaw + [id]
                          else Without(s.selectedRaw, id);
          Created(s.(selectedRaw := selected, context := WithRaw(s.context, s.rawSources, selected),
                     settingsConfirmed := false, confirmed := None))
      case ContextReady(context) =>
        if !ValidContext(context) then Thrown
        else Created(s.(context := Normalized(context), settingsConfirmed := false, confirmed := None, safeError := None))
      case ModelSelected(id) => Created(s.(selectedModel := id, settingsConfirmed := false, confirmed := None))
      case SettingsConfirmed(confirmed) =>
        if !CanConfirm(s) then Ok(s)
        else Created(s.(settingsConfirmed := true, confirmed := Some(confirmed), view := Editor, status := Ready, safeError := None))
      case ViewSelected(view) => if view.None? then Thrown else Created(s.(view := view.value))
      case DraftGenerated(draft) =>
        Created(s.(draft := Some(draft), versions := s.versions + [draft], selectedVersionId := Some(draft.id), view := Editor,
                   status := Ready, safeError := None))
      case VersionAppended(version) =>
        Created(s.(versions := s.versions + [version], selectedVersionId := Some(version.id), view := Versions,
                   status := Ready, safeError := None))
      case SyncChanged(sync) => Created(s.(sync := sync, view := Sync, status := Ready))
      case RequestFailed(text) =>
        Created(s.(status := Error, safeError := Some(if SafeError(text) then text else "OFFLINE_STUDIO_FAILED")))
      case UnknownKind => Thrown
  }

  /** A dispatch that throws leaves the state as it was. */
  function Next(s: State, a: Action): State {
    match Reduce(s, a)
    case Ok(t) => t
    case Thrown => s
  }

  function Run(s: State, actions: seq<Action>): State {
    if actions == [] then s
    else
      var last := |actions| - 1;
      Next(Run(s, actions[..last]), actions[last])
  }

  const START := State(Settings, Idle, false, None, Context(Some(DaonPriority), None, [], []), [], None, None, [], None, [], [],
                       0, None, 0)

  // ----- what every run keeps

  predicate HasVersion(versions: seq<Version>, id: nat) {
    exists i :: 0 <= i < |versions| && versions[i].id == id
  }

  predicate Invariant(s: State) {
    && (s.settingsConfirmed <==> s.confirmed.Some?)
    && (forall id :: id in s.selectedRaw ==> Available(s.rawSources, id))
    && (s.selectedVersionId.Some? ==> HasVersion(s.versions, s.selectedVersionId.value))
    && ValidContext(s.context) && Normalized(s.context) == s.context
  }

  lemma WithRawIsValid(c: Context, sources: seq<Source>, selected: seq<nat>)
    requires ValidContext(c)
    ensures ValidContext(WithRaw(c, sources, selected))
  {
  }

  lemma AppendedVersion(versions: seq<Version>, v: Version)
    ensures HasVersion(versions + [v], v.id)
  {
    assert (versions + [v])[|versions|] == v;
  }

  lemma NextKeeps(s: State, a: Action)
    requires Invariant(s)
    ensures Invariant(Next(s, a))
  {
    hide EnoughContext, UsableModel, SafeError;
    match a.kind {
      case RawSourcesReady(sources) => WithRawIsValid(s.context, sources, s.selectedRaw);
      case RawSourceSelected(id, on) =>
        WithRawIsValid(s.context, s.rawSources, Next(s, a).selectedRaw);
      case DraftGenerated(draft) => AppendedVersion(s.versions, draft);
      case VersionAppended(version) => AppendedVersion(s.versions, version);
      case _ =>
    }
  }

  /** Versions are only appended and the revision never falls. */
  lemma NextExtends(s: State, a: Action)
    ensures s.versions <= Next(s, a).versions && s.requestRevision <= Next(s, a).requestRevision
    ensures Stale(s, a) ==> Next(s, a) == s
  {
    hide EnoughContext, UsableModel, SafeError, WithRaw, Normalized, ValidContext;
  }

  /** Main result: over every run from the start. */
  lemma {:induction false} RunKeeps(actions: seq<Action>)
    ensures Invariant(Run(START, actions))
    decreases |actions|
  {
    if actions != [] {
      hide Invariant, Next;
      var last := |actions| - 1;
      RunKeeps(actions[..last]);
      NextKeeps(Run(START, actions[..last]), actions[last]);
    }
  }

  lemma {:induction false} RunExtends(s: State, actions: seq<Action>)
    ensures s.versions <= Run(s, actions).versions && s.requestRevision <= Run(s, actions).requestRevision
    decreases |actions|
  {
    if actions != [] {
      hide Next;
      var last := |actions| - 1;
      RunExtends(s, actions[..last]);
      NextExtends(Run(s, actions[..last]), actions[last]);
    }
  }

  /** A reply to an earlier request changes nothing once a later request has started. */
  lemma LateRepliesAreIgnored(s: State, started: Action, actions: seq<Action>, late: Action)
    requires started.kind.RequestStarted? && started.revision.Some? && s.requestRevision < started.revision.value
    requires ValidContext(s.context) && !late.kind.RequestStarted? && late.revision.Some? && late.revision.value <= s.requestRevision
    ensures var t := Run(Next(s, started), actions); Next(t, late) == t
  {
    assert Next(s, started).requestRevision == started.revision.value by {
      hide Normalized, ValidContext;
    }
    RunExtends(Next(s, started), actions);
    hide Next;
    NextExtends(Run(Next(s, started), actions), late);
  }

  // ----- confirmed settings that stay confirmable

  predicate ConfirmedHolds(s: State) {
    s.confirmed.Some? ==> CanConfirm(s)
  }

  lemma SameOrigins(c: Context)
    ensures EnoughContext(Normalized(c)) == EnoughContext(c)
  {
  }

  /** Every action but the two that replace inputs keeps confirmed settings confirmable. */
  lemma ConfirmedStays(s: State, a: Action)
    requires Invariant(s) && ConfirmedHolds(s) && !a.kind.ModelsReady? && !a.kind.RawSourcesReady?
    ensures ConfirmedHolds(Next(s, a))
  {
    SameOrigins(s.context);
    hide EnoughContext, UsableModel, SafeError, ValidContext;
  }

  lemma InOneOf<T>(a: seq<T>, b: seq<T>, x: T)
    requires x in a + b
    ensures x in a || x in b
  {
  }

  lemma RawItemsPresent(c: Context, sources: seq<Source>, selected: seq<nat>)
    ensures var d := WithRaw(c, sources, selected);
            && (HasOrigin(d.items, DaonKnowledge) <==> HasOrigin(c.items, DaonKnowledge))
            && (HasOrigin(d.items, RawSource) <==> exists id :: id in selected && Available(sources, id))
  {
    var kept, raw := NotRaw(c.items), RawItems(sources, selected);
    var items := kept + raw;
    if HasOrigin(c.items, DaonKnowledge) {
      var i :| 0 <= i < |c.items| && c.items[i].origin == DaonKnowledge;
      assert c.items[i] in kept;
      var j :| 0 <= j < |kept| && kept[j] == c.items[i];
      assert items[j].origin == DaonKnowledge;
    }
    if HasOrigin(items, DaonKnowledge) {
      var i :| 0 <= i < |items| && items[i].origin == DaonKnowledge;
      InOneOf(kept, raw, items[i]);
      assert items[i] in c.items;
    }
    if HasOrigin(items, RawSource) {
      var i :| 0 <= i < |items| && items[i].origin == RawSource;
      InOneOf(kept, raw, items[i]);
      var source :| source in sources && source.versionId == items[i].id;
      assert Available(sources, items[i].id);
    }
    if id :| id in selected && Available(sources, id) {
      var k :| 0 <= k < |sources| && sources[k].versionId == id;
      assert sources[k] in sources;
      assert Item(RawSource, id) in raw;
      var j :| 0 <= j < |raw| && raw[j] == Item(RawSource, id);
      assert items[|kept| + j].origin == RawSource;
    }
  }

  /** Exactly when a new list of models keeps confirmed settings confirmable: the selected model is in it, and usable. */
  lemma ModelsKeepConfirmed(s: State, models: seq<Model>, revision: Option<int>)
    requires Invariant(s) && s.confirmed.Some? && CanConfirm(s) && !Stale(s, Action(ModelsReady(models), revision))
    ensures ConfirmedHolds(Next(s, Action(ModelsReady(models), revision))) <==> UsableModel(models, s.selectedModel)
  {
    SameOrigins(s.context);
    hide EnoughContext, UsableModel, ValidContext;
  }

  /** Exactly when a new list of sources does: no raw source is needed, or a selected one is still available. */
  lemma SourcesKeepConfirmed(s: State, sources: seq<Source>, revision: Option<int>)
    requires Invariant(s) && s.confirmed.Some? && CanConfirm(s) && !Stale(s, Action(RawSourcesReady(sources), revision))
    ensures ConfirmedHolds(Next(s, Action(RawSourcesReady(sources), revision)))
       <==> s.context.mode == Some(DaonPriority) || exists id :: id in s.selectedRaw && Available(sources, id)
  {
    RawItemsPresent(s.context, sources, s.selectedRaw);
    WithRawIsValid(s.context, sources, s.selectedRaw);
    SameOrigins(WithRaw(s.context, sources, s.selectedRaw));
    hide UsableModel, ValidContext, HasOrigin, Available, Normalized;
  }

  const CONTEXT := Context(Some(DaonPriority), None, [Item(DaonKnowledge, 1)], [])

  /** Context, model and confirmation. */
  const CONFIRMING := [Action(ContextReady(CONTEXT), None), Action(ModelsReady([Model(1, true, true, true)]), None),
                       Action(ModelSelected(Some(1)), None), Action(SettingsConfirmed(1), None)]

  lemma RunsOn(s: State, actions: seq<Action>, a: Action)
    ensures Run(s, actions + [a]) == Next(Run(s, actions), a)
  {
  }

  /** A reachable state whose confirmed settings an empty list of models makes unconfirmable. */
  lemma ConfirmedCanBreak()
    ensures var s := Run(START, CONFIRMING);
            s.confirmed == Some(1) && ConfirmedHolds(s) && !ConfirmedHolds(Next(s, Action(ModelsReady([]), None)))
  {
    var a := CONFIRMING;
    assert a[..1] == [] + [a[0]] && a[..2] == a[..1] + [a[1]] && a[..3] == a[..2] + [a[2]] && a == a[..3] + [a[3]];
    RunsOn(START, [], a[0]);
    RunsOn(START, a[..1], a[1]);
    RunsOn(START, a[..2], a[2]);
    RunsOn(START, a[..3], a[3]);
    assert Run(START, []) == START;
    hide Run;
    assert HasOrigin(CONTEXT.items, DaonKnowledge) by {
      assert CONTEXT.items[0].origin == DaonKnowledge;
    }
    assert ValidContext(CONTEXT);
    var s := START.(context := CONTEXT, models := [Model(1, true, true, true)]);
    assert Run(START, a[..2]) == s;
    assert Run(START, a[..3]) == s.(selectedModel := Some(1));
  }
}
