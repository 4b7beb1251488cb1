/** The provider settings: a connection whose save is uncertain is frozen until a read confirms what was saved. */
module ProviderSettings {

  datatype Option<T> = None | Some(value: T)

  datatype Kind = Provider | Personal

  /** A connection as the server lists it: its version and its normalized values. */
  datatype Item = Item(id: nat, version: nat, values: nat)

  /** A save waits for its reply, for a reading of the list, or for a reading of the personal keys. */
  datatype Stage = AwaitSave | AwaitList(answered: bool) | AwaitKeys | Over

  datatype Operation = Operation(kind: Kind, scope: nat, id: nat, expectedVersion: nat, values: nat, hasCredential: bool,
                                 response: Option<Item>, stage: Stage)

  datatype Recheck = Recheck(operation: nat, over: bool)

  datatype SaveState = Idle | Saving | Uncertain | Saved | Failed

  datatype Draft = Draft(id: nat, version: nat, values: nat)

  datatype Mutation = Save | SaveKey | DeleteKey | DeleteCredential | DeleteConnection | RefreshCatalog

  /** A mutation on the wire and the connection it is for. */
  datatype Issue = Issue(mutation: Mutation, id: nat)

  datatype State = State(
    scope: nat, saving: Option<nat>, retry: Option<nat>, uncertain: map<nat, nat>, saveState: SaveState,
    items: seq<Item>, selected: Option<nat>, draft: Draft, operations: seq<Operation>, rechecks: seq<Recheck>, log: seq<Issue>)

  /** A reply: an answer, a refusal that stored nothing, or an error that leaves it open. */
  datatype Reply = Answered(item: Option<Item>) | Refused | Open

  datatype ListReply = Listed(items: seq<Item>) | ListFailed(definite: bool)

  datatype Event =
    | Loaded(items: seq<Item>)
    | Select(item: Item)
    | Leave                                            // navigation away, before what it leads to has loaded
    | NewDraft(id: nat)
    | Edit(values: nat)
    | Cancel
    | SaveNow(hasCredential: bool)
    | SavePersonal(id: nat)
    | SaveReply(operation: nat, reply: Reply)
    | ListRead(operation: nat, list: ListReply)
    | KeysRead(operation: nat)
    | RecheckNow
    | RecheckRead(recheck: nat, list: ListReply)
    | Mutate(mutation: Mutation)                       // delete or refresh of the selected connection
    | ChangeWorkspace

  // ----- the list and the selection

  function Find(items: seq<Item>, id: nat): (found: Option<Item>)
    ensures found.Some? ==> found.value in items && found.value.id == id
  {
    if items == [] then None
    else if items[0].id == id then Some(items[0])
    else Find(items[1..], id)
  }

  /** selectConnection: what is uncertain about a connection comes back with it. */
  function SelectItem(s: State, item: Item): State {
    var unresolved := if item.id in s.uncertain then Some(s.uncertain[item.id]) else None;
    s.(selected := Some(item.id), draft := Draft(item.id, item.version, item.values), retry := unresolved,
       saveState := if unresolved.Some? then Uncertain else Idle)
  }

  function ApplyConnections(s: State, items: seq<Item>, preferred: Option<nat>): State {
    var t := s.(items := items);
    var found := if preferred.Some? then Find(items, preferred.value) else None;
    if found.Some? then SelectItem(t, found.value)
    else if items != [] then SelectItem(t, items[0])
    else t.(selected := None)
  }

  // ----- saving

  function Put(s: State, k: nat, o: Operation): State
    requires k < |s.operations|
  {
    s.(operations := s.operations[k := o])
  }

  /** The finally block. */
  function Finish(s: State, k: nat): State
    requires k < |s.operations|
  {
    Put(s, k, s.operations[k].(stage := Over)).(saving := if s.saving == Some(k) then None else s.saving)
  }

  predicate IsCurrent(s: State, k: nat)
    requires k < |s.operations|
  {
    s.saving == Some(k) && s.scope == s.operations[k].scope
  }

  function BeginSave(s: State, hasCredential: bool): State {
    if s.saving.Some? || s.saveState.Uncertain? || s.draft.id in s.uncertain then s
    else
      s.(saving := Some(|s.operations|), retry := None, saveState := Saving,
         operations := s.operations + [Operation(Provider, s.scope, s.draft.id, s.draft.version, s.draft.values, hasCredential,
                                                 None, AwaitSave)],
         log := s.log + [Issue(Save, s.draft.id)])
  }

  function BeginPersonal(s: State, id: nat): State {
    if s.saving.Some? || id in s.uncertain then s
    else
      s.(saving := Some(|s.operations|), saveState := Saving,
         operations := s.operations + [Operation(Personal, s.scope, id, 0, 0, true, None, AwaitSave)],
         log := s.log + [Issue(SaveKey, id)])
  }

  function MarkUncertain(s: State, k: nat): State
    requires k < |s.operations|
  {
    s.(uncertain := s.uncertain[s.operations[k].id := k], retry := Some(k), saveState := Uncertain)
  }

  function SaveReplied(s: State, k: nat, reply: Reply): State
    requires k < |s.operations|
  {
    var o := s.operations[k];
    if !IsCurrent(s, k) then Finish(s, k)
    else if o.kind.Personal? then
      match reply
      case Answered(item) =>
        if item.Some? && item.value.id == o.id then Finish(s.(saveState := Saved), k)
        else Put(MarkUncertain(s, k), k, o.(stage := AwaitKeys))
      case Open => Put(MarkUncertain(s, k), k, o.(stage := AwaitKeys))
      case Refused => Finish(s.(saveState := Failed), k)
    else
      match reply
      case Answered(item) =>
        var valid := item.Some? && item.value.id == o.id && item.value.version == o.expectedVersion + 1;
        Put(s, k, o.(response := item, stage := AwaitList(valid)))
      case Open => Put(s, k, o.(stage := AwaitList(false)))
      case Refused => Finish(s.(saveState := Failed), k)
  }

  /** confirmSavedConnection: the listed connection is what the save answered, or else what it was to become. */
  predicate Matches(o: Operation, items: seq<Item>) {
    var item := Find(items, o.id);
    item.Some? && if o.response.Some? then item.value.version == o.response.value.version && item.value.values == o.response.value.values
                  else !o.hasCredential && item.value.version == o.expectedVersion + 1 && item.value.values == o.values
  }

  function Confirm(s: State, k: nat, items: seq<Item>): State
    requires k < |s.operations|
  {
    ApplyConnections(s.(uncertain := s.uncertain - {s.operations[k].id}), items, Some(s.operations[k].id)).(saveState := Saved)
  }

  /** saveConnection goes on after a reading of the list. */
  function ListReplied(s: State, k: nat, answered: bool, list: ListReply): State
    requires k < |s.operations|
  {
    var o := s.operations[k];
    if !IsCurrent(s, k) then Finish(s, k)
    else if list.Listed? && Matches(o, list.items) then Finish(Confirm(s, k, list.items), k)
    else if answered && list.ListFailed? && list.definite then Finish(s.(saveState := Failed), k)
    else if answered then Put(s, k, o.(stage := AwaitList(false)))
    else Finish(MarkUncertain(s, k), k)
  }

  function KeysReplied(s: State, k: nat): State
    requires k < |s.operations|
  {
    Finish(if IsCurrent(s, k) then s.(saveState := Uncertain) else s, k)
  }

  function BeginRecheck(s: State): State {
    if s.saving.Some? || s.retry.None? then s
    else s.(saving := s.retry, saveState := Saving, rechecks := s.rechecks + [Recheck(s.retry.value, false)])
  }

  function RecheckReplied(s: State, n: nat, list: ListReply): State
    requires n < |s.rechecks| && s.rechecks[n].operation < |s.operations|
  {
    var k := s.rechecks[n].operation;
    var t := s.(rechecks := s.rechecks[n := s.rechecks[n].(over := true)]);
    var current := IsCurrent(s, k);
    var decided := if current && s.operations[k].kind.Provider? && list.Listed? && Matches(s.operations[k], list.items)
                   then Confirm(t, k, list.items)
                   else if s.saving == Some(k) then t.(saveState := Uncertain)
                   else t;
    decided.(saving := if s.saving == Some(k) then None else s.saving)
  }

  function MutateSelected(s: State, m: Mutation): State {
    if s.selected.None? || s.saving.Some? || s.selected.value in s.uncertain then s
    else s.(log := s.log + [Issue(m, s.selected.value)])
  }

  predicate Enabled(s: State, e: Event) {
    match e
    case SaveReply(k, _) => k < |s.operations| && s.operations[k].stage.AwaitSave?
    case ListRead(k, _) => k < |s.operations| && s.operations[k].stage.AwaitList?
    case KeysRead(k) => k < |s.operations| && s.operations[k].stage.AwaitKeys?
    case RecheckRead(n, _) => n < |s.rechecks| && !s.rechecks[n].over && s.rechecks[n].operation < |s.operations|
    case _ => true
  }

  function Step(s: State, e: Event): State {
    if !Enabled(s, e) then s
    else match e
      case Loaded(items) => ApplyConnections(s, items, None)
      case Select(item) => SelectItem(s, item)
      case Leave => s.(retry := None, saveState := Idle)
      case NewDraft(id) => s.(selected := None, draft := Draft(id, 0, 0), retry := None, saveState := Idle)
      case Edit(values) => s.(draft := s.draft.(values := values))
      case Cancel => if s.saving.Some? || s.saveState.Uncertain? then s else s.(retry := None, saveState := Idle)
      case SaveNow(hasCredential) => BeginSave(s, hasCredential)
      case SavePersonal(id) => BeginPersonal(s, id)
      case SaveReply(k, reply) => SaveReplied(s, k, reply)
      case ListRead(k, list) => ListReplied(s, k, s.operations[k].stage.answered, list)
      case KeysRead(k) => KeysReplied(s, k)
      case RecheckNow => BeginRecheck(s)
      case RecheckRead(n, list) => RecheckReplied(s, n, list)
      case Mutate(m) => MutateSelected(s, m)
      case ChangeWorkspace => s.(scope := s.scope + 1, saving := None, retry := None, uncertain := map[], saveState := Idle)
  }

  function Run(s: State, events: seq<Event>): State {
    if events == [] then s
    else
      var last := |events| - 1;
      Step(Run(s, events[..last]), events[last])
  }

  const START := State(0, None, None, map[], Idle, [], None, Draft(0, 0, 0), [], [], [])

  // ----- what every run keeps

  /** A mark names an operation of this workspace for its connection, which no longer waits for its own save. */
  predicate MarksRight(s: State) {
    forall id :: id in s.uncertain ==>
      var k := s.uncertain[id];
      && k < |s.operations| && s.operations[k].id == id && s.operations[k].scope == s.scope
      && !s.operations[k].stage.AwaitSave? && !s.operations[k].stage.AwaitList?
  }

  predicate RetryRight(s: State) {
    s.retry.Some? ==>
      s.retry.value < |s.operations| && var id := s.operations[s.retry.value].id; id in s.uncertain && s.uncertain[id] == s.retry.value
  }

  /** The save under way is for a connection without a mark, or it is the marked one being read. */
  predicate SavingRight(s: State) {
    s.saving.Some? ==>
      && s.saving.value < |s.operations|
      && var o := s.operations[s.saving.value];
         && o.scope == s.scope
         && if o.stage.AwaitSave? || o.stage.AwaitList? then o.id !in s.uncertain
            else o.id in s.uncertain && s.uncertain[o.id] == s.saving.value
  }

  predicate Invariant(s: State) {
    && MarksRight(s) && RetryRight(s) && SavingRight(s)
    && (forall n :: 0 <= n < |s.rechecks| ==> s.rechecks[n].operation < |s.operations|)
  }

  lemma SelectKeeps(s: State, item: Item)
    requires Invariant(s)
    ensures Invariant(SelectItem(s, item))
  {
  }

  lemma ApplyKeeps(s: State, items: seq<Item>, preferred: Option<nat>)
    requires Invariant(s)
    ensures Invariant(ApplyConnections(s, items, preferred))
  {
    var t := s.(items := items);
    assert Invariant(t);
    hide Invariant, SelectItem;
    var found := if preferred.Some? then Find(items, preferred.value) else None;
    if found.Some? {
      SelectKeeps(t, found.value);
    } else if items != [] {
      SelectKeeps(t, items[0]);
    } else {
      SelectionGone(t);
    }
  }

  lemma SelectionGone(s: State)
    requires Invariant(s)
    ensures Invariant(s.(selected := None))
  {
  }

  lemma BeginKeeps(s: State, hasCredential: bool, id: nat)
    requires Invariant(s)
    ensures Invariant(BeginSave(s, hasCredential)) && Invariant(BeginPersonal(s, id))
  {
  }

  lemma FinishKeeps(s: State, k: nat)
    requires Invariant(s) && k < |s.operations|
    ensures Invariant(Finish(s, k))
  {
  }

  /** A failed save of the current operation is marked for its connection. */
  lemma MarkKeeps(s: State, k: nat, stage: Stage)
    requires Invariant(s) && k < |s.operations| && IsCurrent(s, k) && !stage.AwaitSave? && !stage.AwaitList?
    ensures Invariant(Put(MarkUncertain(s, k), k, s.operations[k].(stage := stage)))
  {
  }

  lemma StateKeeps(s: State, saveState: SaveState)
    requires Invariant(s)
    ensures Invariant(s.(saveState := saveState))
  {
  }

  lemma WaitKeeps(s: State, k: nat, o: Operation)
    requires Invariant(s) && k < |s.operations| && IsCurrent(s, k)
    requires s.operations[k].stage.AwaitSave? || s.operations[k].stage.AwaitList?
    requires o.kind == s.operations[k].kind && o.scope == s.operations[k].scope && o.id == s.operations[k].id && o.stage.AwaitList?
    ensures Invariant(Put(s, k, o))
  {
  }

  lemma SaveRepliedKeeps(s: State, k: nat, reply: Reply)
    requires Invariant(s) && k < |s.operations| && s.operations[k].stage.AwaitSave?
    ensures Invariant(SaveReplied(s, k, reply))
  {
    hide Invariant, Finish, MarkUncertain, Put;
    FinishKeeps(s, k);
    StateKeeps(s, Saved);
    StateKeeps(s, Failed);
    FinishKeeps(s.(saveState := Saved), k);
    FinishKeeps(s.(saveState := Failed), k);
    if IsCurrent(s, k) {
      MarkKeeps(s, k, AwaitKeys);
      var t := SaveReplied(s, k, reply);
      var o := s.operations[k];
      var answer := if reply.Answered? then reply.item else None;
      var valid := answer.Some? && answer.value.id == o.id && answer.value.version == o.expectedVersion + 1;
      WaitKeeps(s, k, o.(response := answer, stage := AwaitList(valid)));
      WaitKeeps(s, k, o.(stage := AwaitList(false)));
    }
  }

  /** What a matching reading does: the mark goes with what it marked. */
  lemma ConfirmKeeps(s: State, k: nat, items: seq<Item>, settled: State)
    requires Invariant(s) && k < |s.operations| && IsCurrent(s, k) && Matches(s.operations[k], items)
    requires settled == Confirm(s, k, items).(saving := None)
    ensures Invariant(settled) && settled.operations == s.operations
  {
  }

  lemma ListRepliedKeeps(s: State, k: nat, answered: bool, list: ListReply)
    requires Invariant(s) && k < |s.operations| && s.operations[k].stage.AwaitList?
    ensures Invariant(ListReplied(s, k, answered, list))
  {
    FinishKeeps(s, k);
    StateKeeps(s, Failed);
    FinishKeeps(s.(saveState := Failed), k);
    if IsCurrent(s, k) {
      MarkKeeps(s, k, Over);
      WaitKeeps(s, k, s.operations[k].(stage := AwaitList(false)));
      if list.Listed? && Matches(s.operations[k], list.items) {
        var settled := Confirm(s, k, list.items).(saving := None);
        ConfirmKeeps(s, k, list.items, settled);
        FinishKeeps(settled, k);
        assert Finish(Confirm(s, k, list.items), k) == Finish(settled, k);
      }
    }
    hide Invariant, Matches, Confirm;
  }

  lemma RecheckRepliedKeeps(s: State, n: nat, list: ListReply)
    requires Invariant(s) && n < |s.rechecks| && s.rechecks[n].operation < |s.operations|
    ensures Invariant(RecheckReplied(s, n, list))
  {
    var k := s.rechecks[n].operation;
    var t := s.(rechecks := s.rechecks[n := s.rechecks[n].(over := true)]);
    assert Invariant(t);
    if IsCurrent(s, k) && list.Listed? && Matches(s.operations[k], list.items) {
      ConfirmKeeps(t, k, list.items, Confirm(t, k, list.items).(saving := None));
    }
    RecheckEnds(t, k);
    hide Invariant, Matches, Confirm;
  }

  lemma RecheckEnds(s: State, k: nat)
    requires Invariant(s)
    ensures Invariant(s.(saveState := Uncertain, saving := None))
  {
  }

  lemma StepKeeps(s: State, e: Event)
    requires Invariant(s)
    ensures Invariant(Step(s, e))
  {
    hide Invariant, ApplyConnections, SelectItem, BeginSave, BeginPersonal, SaveReplied, ListReplied, Finish, RecheckReplied;
    if Enabled(s, e) {
      match e {
        case Loaded(items) => ApplyKeeps(s, items, None);
        case Select(item) => SelectKeeps(s, item);
        case Leave => LeaveKeeps(s, s.selected, s.draft, Idle);
        case NewDraft(id) => LeaveKeeps(s, None, Draft(id, 0, 0), Idle);
        case Edit(values) => EditKeeps(s, s.draft.(values := values), s.log);
        case Cancel => LeaveKeeps(s, s.selected, s.draft, Idle);
        case SaveNow(hasCredential) => BeginKeeps(s, hasCredential, 0);
        case SavePersonal(id) => BeginKeeps(s, false, id);
        case SaveReply(k, reply) => SaveRepliedKeeps(s, k, reply);
        case ListRead(k, list) => ListRepliedKeeps(s, k, s.operations[k].stage.answered, list);
        case KeysRead(k) => StateKeeps(s, Uncertain); FinishKeeps(s, k); FinishKeeps(s.(saveState := Uncertain), k);
        case RecheckNow => BeginRecheckKeeps(s);
        case RecheckRead(n, list) => RecheckRepliedKeeps(s, n, list);
        case Mutate(m) => EditKeeps(s, s.draft, Step(s, e).log);
        case ChangeWorkspace => WorkspaceKeeps(s);
      }
    }
  }

  lemma LeaveKeeps(s: State, selected: Option<nat>, draft: Draft, saveState: SaveState)
    requires Invariant(s)
    ensures Invariant(s.(selected := selected, draft := draft, retry := None, saveState := saveState))
  {
  }

  lemma EditKeeps(s: State, draft: Draft, log: seq<Issue>)
    requires Invariant(s)
    ensures Invariant(s.(draft := draft, log := log))
  {
  }

  lemma BeginRecheckKeeps(s: State)
    requires Invariant(s)
    ensures Invariant(BeginRecheck(s))
  {
  }

  lemma WorkspaceKeeps(s: State)
    requires Invariant(s)
    ensures Invariant(s.(scope := s.scope + 1, saving := None, retry := None, uncertain := map[], saveState := Idle))
  {
  }

  lemma {:induction false} RunKeeps(events: seq<Event>)
    ensures Invariant(Run(START, events))
    decreases |events|
  {
    if events != [] {
      hide Invariant, Step;
      var last := |events| - 1;
      RunKeeps(events[..last]);
      StepKeeps(Run(START, events[..last]), events[last]);
    }
  }

  // ----- the freeze

  /** The readings that may clear the mark of connection id: one that matches the marked save of provider settings. */
  predicate Clears(s: State, e: Event, id: nat) {
    || e.ChangeWorkspace?
    || (e.RecheckRead? && e.recheck < |s.rechecks| && id in s.uncertain && s.rechecks[e.recheck].operation == s.uncertain[id]
        && s.uncertain[id] < |s.operations| && s.operations[s.uncertain[id]].kind.Provider?
        && e.list.Listed? && Matches(s.operations[s.uncertain[id]], e.list.items))
  }

  /** One step while a connection is marked: its mark stays unless a matching reading clears it, and nothing is issued for it. */
  lemma MarkedStaysFrozen(s: State, e: Event, id: nat)
    requires Invariant(s) && id in s.uncertain
    ensures var t := Step(s, e);
            && (Clears(s, e, id) || (id in t.uncertain && t.uncertain[id] == s.uncertain[id]))
            && s.log <= t.log && (forall i :: |s.log| <= i < |t.log| ==> t.log[i].id != id)
  {
    hide Matches;
    if Enabled(s, e) {
      ApplySparesMarks(s, if e.Loaded? then e.items else [], None);
      hide ApplyConnections, RetryRight;
      match e {
        case ListRead(k, list) => ListSparesMarks(s, k, list, id);
        case RecheckRead(n, list) => RecheckSparesMarks(s, n, list, id);
        case _ =>
      }
    }
  }

  lemma ApplySparesMarks(s: State, items: seq<Item>, preferred: Option<nat>)
    ensures var t := ApplyConnections(s, items, preferred);
            t.uncertain == s.uncertain && t.log == s.log && t.saving == s.saving && t.operations == s.operations
  {
  }

  lemma ListSparesMarks(s: State, k: nat, list: ListReply, id: nat)
    requires Invariant(s) && id in s.uncertain && k < |s.operations| && s.operations[k].stage.AwaitList?
    ensures var t := ListReplied(s, k, s.operations[k].stage.answered, list);
            id in t.uncertain && t.uncertain[id] == s.uncertain[id] && t.log == s.log
  {
  }

  lemma RecheckSparesMarks(s: State, n: nat, list: ListReply, id: nat)
    requires Invariant(s) && id in s.uncertain && n < |s.rechecks|
    ensures var t := RecheckReplied(s, n, list);
            && (Clears(s, RecheckRead(n, list), id) || (id in t.uncertain && t.uncertain[id] == s.uncertain[id])) && t.log == s.log
  {
  }

  predicate NeverCleared(s: State, events: seq<Event>, id: nat) {
    forall i :: 0 <= i < |events| ==> !Clears(Run(s, events[..i]), events[i], id)
  }

  /**
   * Main result: from the moment a connection is uncertain nothing is created, updated, replaced, deleted or refreshed for
   * it, whatever is selected, cancelled or loaded, until a reading matches what was saved or the workspace changes.
   */
  lemma {:induction false} UncertainIsFrozen(s: State, events: seq<Event>, id: nat)
    requires Invariant(s) && id in s.uncertain && NeverCleared(s, events, id)
    ensures var t := Run(s, events);
            && Invariant(t) && id in t.uncertain && t.uncertain[id] == s.uncertain[id]
            && s.log <= t.log && forall i :: |s.log| <= i < |t.log| ==> t.log[i].id != id
    decreases |events|
  {
    hide Invariant, Step, Clears;
    if events != [] {
      var last := |events| - 1;
      var before := events[..last];
      assert forall i :: 0 <= i < last ==> before[..i] == events[..i];
      UncertainIsFrozen(s, before, id);
      assert events[..last] == before;
      StepKeeps(Run(s, before), events[last]);
      MarkedStaysFrozen(Run(s, before), events[last], id);
    }
  }

  predicate SameWorkspace(events: seq<Event>) {
    forall i :: 0 <= i < |events| ==> !events[i].ChangeWorkspace?
  }

  /** Main result: within a workspace the uncertainty of a personal key is never cleared, by no reading and no version. */
  lemma {:induction false} PersonalStaysUncertain(s: State, events: seq<Event>, id: nat)
    requires Invariant(s) && id in s.uncertain && s.operations[s.uncertain[id]].kind.Personal? && SameWorkspace(events)
    ensures var t := Run(s, events);
            && Invariant(t) && id in t.uncertain && t.uncertain[id] == s.uncertain[id] && t.uncertain[id] < |t.operations|
            && t.operations[t.uncertain[id]].kind.Personal?
    decreases |events|
  {
    if events != [] {
      var last := |events| - 1;
      PersonalStaysUncertain(s, events[..last], id);
      var t := Run(s, events[..last]);
      hide Step, Run;
      StepKeeps(t, events[last]);
      MarkedStaysFrozen(t, events[last], id);
      hide MarksRight, RetryRight, SavingRight;
      KindStays(t, events[last], s.uncertain[id]);
    }
  }

  lemma KindStays(s: State, e: Event, k: nat)
    requires k < |s.operations|
    ensures KindKept(s, Step(s, e), k)
  {
    hide Matches, ApplyConnections, SaveReplied, ListReplied, RecheckReplied, SelectItem, MutateSelected, BeginRecheck;
    if Enabled(s, e) {
      match e {
        case Loaded(items) => ApplySparesMarks(s, items, None);
        case Select(item) => SelectSpares(s, item);
        case SaveReply(n, reply) => SaveKeepsKind(s, n, reply, k);
        case ListRead(n, list) => ListKeepsKind(s, n, s.operations[n].stage.answered, list, k);
        case RecheckRead(n, list) => RecheckSpares(s, n, list);
        case Mutate(m) => MutationSpares(s, m);
        case RecheckNow => MutationSpares(s, Save);
        case _ =>
      }
    }
  }

  predicate KindKept(s: State, t: State, k: nat)
    requires k < |s.operations|
  {
    k < |t.operations| && t.operations[k].kind == s.operations[k].kind
  }

  lemma SelectSpares(s: State, item: Item)
    ensures SelectItem(s, item).operations == s.operations
  {
  }

  lemma MutationSpares(s: State, m: Mutation)
    ensures MutateSelected(s, m).operations == s.operations && BeginRecheck(s).operations == s.operations
  {
  }

  lemma SaveKeepsKind(s: State, n: nat, reply: Reply, k: nat)
    requires n < |s.operations| && k < |s.operations|
    ensures KindKept(s, SaveReplied(s, n, reply), k)
  {
  }

  lemma ConfirmSpares(s: State, k: nat, items: seq<Item>)
    requires k < |s.operations|
    ensures Confirm(s, k, items).operations == s.operations
  {
    ApplySparesMarks(s.(uncertain := s.uncertain - {s.operations[k].id}), items, Some(s.operations[k].id));
    hide ApplyConnections;
  }

  lemma ListKeepsKind(s: State, n: nat, answered: bool, list: ListReply, k: nat)
    requires n < |s.operations| && k < |s.operations|
    ensures KindKept(s, ListReplied(s, n, answered, list), k)
  {
    hide Matches, Confirm;
    if list.Listed? {
      ConfirmSpares(s, n, list.items);
    }
  }

  lemma RecheckSpares(s: State, n: nat, list: ListReply)
    requires n < |s.rechecks| && s.rechecks[n].operation < |s.operations|
    ensures RecheckReplied(s, n, list).operations == s.operations
  {
    hide Matches, Confirm;
    if list.Listed? {
      ConfirmSpares(s.(rechecks := s.rechecks[n := s.rechecks[n].(over := true)]), s.rechecks[n].operation, list.items);
    }
  }

  // ----- what a matching reading proves

  /** What the page shows once the list has confirmed operation o: the listed connection, with the answered or the sent values. */
  predicate ShowsConfirmed(o: Operation, t: State) {
    var item := Find(t.items, o.id);
    && item.Some? && t.saveState.Saved? && t.selected == Some(o.id) && t.draft == Draft(o.id, item.value.version, item.value.values)
    && item.value.values == if o.response.Some? then o.response.value.values else o.values
  }

  /**
   * Main result: within a workspace a mark is cleared only by a reading of the list for the marked save, whose values are then
   * shown; and they are shown under the version the save was to create exactly if its own answer, if any, had that version.
   */
  lemma ClearedMeansConfirmed(events: seq<Event>, e: Event, id: nat)
    requires id in Run(START, events).uncertain && id !in Step(Run(START, events), e).uncertain && !e.ChangeWorkspace?
    ensures var s, t := Run(START, events), Step(Run(START, events), e);
            && s.uncertain[id] < |s.operations|
            && var o := s.operations[s.uncertain[id]];
               && o.id == id && o.kind.Provider? && e.RecheckRead? && e.list.Listed? && t.items == e.list.items && ShowsConfirmed(o, t)
               && (Find(t.items, id).value.version == o.expectedVersion + 1
                   <==> (o.response.None? || o.response.value.version == o.expectedVersion + 1))
  {
    RunKeeps(events);
    var s := Run(START, events);
    hide Run, Step, Matches, ShowsConfirmed, RetryRight, SavingRight;
    MarkedStaysFrozen(s, e, id);
    assert e == RecheckRead(e.recheck, Listed(e.list.items));
    RecheckConfirms(s, e.recheck, e.list.items, id);
    MatchedVersion(s.operations[s.uncertain[id]], e.list.items);
  }

  lemma MatchedVersion(o: Operation, items: seq<Item>)
    requires Matches(o, items)
    ensures Find(items, o.id).Some?
    ensures Find(items, o.id).value.version == o.expectedVersion + 1
       <==> (o.response.None? || o.response.value.version == o.expectedVersion + 1)
  {
  }

  lemma RecheckConfirms(s: State, n: nat, items: seq<Item>, id: nat)
    requires Invariant(s) && id in s.uncertain && Clears(s, RecheckRead(n, Listed(items)), id)
    requires id !in Step(s, RecheckRead(n, Listed(items))).uncertain
    ensures var t, o := Step(s, RecheckRead(n, Listed(items))), s.operations[s.uncertain[id]];
            t.items == items && Matches(o, items) && o.id == id && ShowsConfirmed(o, t)
  {
    var k := s.uncertain[id];
    var read := s.(rechecks := s.rechecks[n := s.rechecks[n].(over := true)]);
    hide RetryRight, SavingRight, Matches;
    ConfirmShows(read, k, items);
    hide ShowsConfirmed, Confirm;
    var t, shown := Step(s, RecheckRead(n, Listed(items))), Confirm(read, k, items);
    assert t == shown.(saving := None);
    ShowsFrame(s.operations[k], shown, t);
  }

  lemma ConfirmShows(s: State, k: nat, items: seq<Item>)
    requires k < |s.operations| && Matches(s.operations[k], items)
    ensures Confirm(s, k, items).items == items && ShowsConfirmed(s.operations[k], Confirm(s, k, items))
  {
  }

  lemma ShowsFrame(o: Operation, s: State, t: State)
    requires ShowsConfirmed(o, s) && t == s.(saving := None)
    ensures ShowsConfirmed(o, t)
  {
  }

  /** What is listed before and after, and a save that the server answers with it. */
  const OLD := Item(1, 5, 10)
  const STALE := [Select(OLD), Edit(11), SaveNow(false), SaveReply(0, Answered(Some(OLD))), ListRead(0, Listed([OLD]))]

  lemma RunsOn(s: State, events: seq<Event>, e: Event)
    ensures Run(s, events + [e]) == Step(Run(s, events), e)
  {
  }

  const SENT := Operation(Provider, 0, 1, 5, 11, false, None, AwaitSave)
  const SAVING := START.(selected := Some(1), draft := Draft(1, 5, 11), saving := Some(0), saveState := Saving, operations := [SENT],
                         log := [Issue(Save, 1)])
  const ANSWERED := SENT.(response := Some(OLD), stage := AwaitList(false))

  lemma SavesOnce()
    ensures Step(Step(Step(START, Select(OLD)), Edit(11)), SaveNow(false)) == SAVING
  {
  }

  lemma OldAnswerIsRefused()
    ensures Step(SAVING, SaveReply(0, Answered(Some(OLD)))) == SAVING.(operations := [ANSWERED])
  {
  }

  lemma OldListMatches()
    ensures var s := Step(SAVING.(operations := [ANSWERED]), ListRead(0, Listed([OLD])));
            s.saveState.Saved? && s.log == [Issue(Save, 1)] && s.items == [OLD] && s.uncertain == map[] && s.saving.None?
  {
  }

  /** An answer that still shows the old version is not accepted, and yet the unchanged list then counts as a confirmation. */
  lemma OldAnswerConfirms()
    ensures var s := Run(START, STALE);
            s.saveState.Saved? && s.log == [Issue(Save, 1)] && s.items == [OLD] && s.uncertain == map[] && s.saving.None?
  {
    var e := STALE;
    assert e[..1] == [] + [e[0]] && e[..2] == e[..1] + [e[1]] && e[..3] == e[..2] + [e[2]] && e[..4] == e[..3] + [e[3]];
    assert e == e[..4] + [e[4]] && Run(START, []) == START;
    hide Step;
    RunsOn(START, [], e[0]);
    RunsOn(START, e[..1], e[1]);
    RunsOn(START, e[..2], e[2]);
    RunsOn(START, e[..3], e[3]);
    RunsOn(START, e[..4], e[4]);
    hide Run;
    SavesOnce();
    OldAnswerIsRefused();
    OldListMatches();
  }

  /** The same save, marked for a list that could not be read; reading it again clears the mark and shows the old version. */
  const CLEARED := STALE[..4] + [ListRead(0, ListFailed(false)), RecheckNow, RecheckRead(0, Listed([OLD]))]

  const MARKED := SAVING.(saving := None, retry := Some(0), uncertain := map[1 := 0], saveState := Uncertain,
                          operations := [ANSWERED.(stage := Over)])
  const REREADING := MARKED.(saving := Some(0), saveState := Saving, rechecks := [Recheck(0, false)])

  lemma FailedListMarks()
    ensures Step(SAVING.(operations := [ANSWERED]), ListRead(0, ListFailed(false))) == MARKED
    ensures Step(MARKED, RecheckNow) == REREADING
  {
  }

  lemma OldListClears()
    ensures var s := Step(REREADING, RecheckRead(0, Listed([OLD])));
            s.saveState.Saved? && s.draft == Draft(1, 5, 10) && s.items == [OLD] && s.uncertain == map[]
  {
    assert map[1 := 0] - {1} == map[];
  }

  lemma OldVersionCanClear()
    ensures var s, t := Run(START, CLEARED[..6]), Run(START, CLEARED);
            && s.uncertain == map[1 := 0] && |s.operations| == 1 && s.operations[0].values == 11 && s.operations[0].expectedVersion == 5
            && t.uncertain == map[] && t.saveState.Saved? && t.items == [OLD]
  {
    var e := CLEARED;
    assert e[..1] == [] + [e[0]] && e[..2] == e[..1] + [e[1]] && e[..3] == e[..2] + [e[2]] && e[..4] == e[..3] + [e[3]];
    assert e[..5] == e[..4] + [e[4]] && e[..6] == e[..5] + [e[5]] && e == e[..6] + [e[6]] && Run(START, []) == START;
    hide Step;
    RunsOn(START, [], e[0]);
    RunsOn(START, e[..1], e[1]);
    RunsOn(START, e[..2], e[2]);
    RunsOn(START, e[..3], e[3]);
    RunsOn(START, e[..4], e[4]);
    RunsOn(START, e[..5], e[5]);
    RunsOn(START, e[..6], e[6]);
    hide Run;
    SavesOnce();
    OldAnswerIsRefused();
    FailedListMarks();
    OldListClears();
  }
}
