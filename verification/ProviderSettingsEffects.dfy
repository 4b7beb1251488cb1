/** What each event of the provider settings does, and that a save of unknown result always leaves its mark. */
module ProviderSettingsEffects {
  import opened ProviderSettings

  // ----- one event

  /** A save is sent exactly if none is under way, nothing is uncertain about the draft, and it carries the draft as it stands. */
  lemma SavesExactlyWhen(s: State, hasCredential: bool)
    ensures var t := Step(s, SaveNow(hasCredential));
            if s.saving.None? && !s.saveState.Uncertain? && s.draft.id !in s.uncertain then
              && t.log == s.log + [Issue(Save, s.draft.id)] && t.saving == Some(|s.operations|) && t.saveState.Saving?
              && t.operations == s.operations + [Operation(Provider, s.scope, s.draft.id, s.draft.version, s.draft.values, hasCredential,
                                                           None, AwaitSave)]
              && t.uncertain == s.uncertain && t.retry.None?
            else t == s
  {
  }

  lemma SavesKeyExactlyWhen(s: State, id: nat)
    ensures var t := Step(s, SavePersonal(id));
            if s.saving.None? && id !in s.uncertain then
              && t.log == s.log + [Issue(SaveKey, id)] && t.saving == Some(|s.operations|)
              && |t.operations| == |s.operations| + 1 && t.operations[..|s.operations|] == s.operations
              && t.operations[|s.operations|].kind.Personal? && t.operations[|s.operations|].id == id
              && t.operations[|s.operations|].scope == s.scope && t.operations[|s.operations|].stage.AwaitSave?
              && t.uncertain == s.uncertain
            else t == s
  {
  }

  /** Deleting and refreshing are sent exactly for a selected connection that nothing is uncertain about, with no save under way. */
  lemma MutatesExactlyWhen(s: State, m: Mutation)
    ensures var t := Step(s, Mutate(m));
            if s.selected.Some? && s.saving.None? && s.selected.value !in s.uncertain
            then t == s.(log := s.log + [Issue(m, s.selected.value)]) else t == s
  {
  }

  /** The button reads the list again exactly if something is uncertain about what is shown and nothing is under way. */
  lemma RechecksExactlyWhen(s: State)
    ensures var t := Step(s, RecheckNow);
            if s.saving.None? && s.retry.Some?
            then t == s.(saving := s.retry, saveState := Saving, rechecks := s.rechecks + [Recheck(s.retry.value, false)])
            else t == s
  {
  }

  /** Cancelling and leaving forget what is shown, never a mark. */
  lemma LeavingSparesMarks(s: State, id: nat)
    ensures Step(s, Leave) == s.(retry := None, saveState := Idle)
    ensures Step(s, Cancel) == if s.saving.None? && !s.saveState.Uncertain? then s.(retry := None, saveState := Idle) else s
    ensures Step(s, NewDraft(id)) == s.(selected := None, draft := Draft(id, 0, 0), retry := None, saveState := Idle)
  {
  }

  /** Selecting shows the connection as listed, and what is uncertain about it with the save to ask about. */
  lemma SelectingShows(s: State, item: Item)
    ensures var t := Step(s, Select(item));
            && t.selected == Some(item.id) && t.draft == Draft(item.id, item.version, item.values)
            && (if item.id in s.uncertain then t.saveState.Uncertain? && t.retry == Some(s.uncertain[item.id])
                else t.saveState.Idle? && t.retry.None?)
            && t.uncertain == s.uncertain && t.saving == s.saving
  {
  }

  // ----- the reply to a save

  /** A current save that waits for its reply. */
  predicate Sent(s: State, k: nat, kind: Kind) {
    && k < |s.operations| && s.operations[k].stage.AwaitSave? && s.operations[k].kind == kind
    && s.saving == Some(k) && s.operations[k].scope == s.scope
  }

  /** A refusal marks nothing and frees the page. */
  lemma RefusalMarksNothing(s: State, k: nat, kind: Kind)
    requires Sent(s, k, kind)
    ensures var t := Step(s, SaveReply(k, Refused));
            t.uncertain == s.uncertain && t.saving.None? && t.saveState.Failed? && t.operations[k].stage.Over? && t.log == s.log
  {
  }

  /** A personal save is marked exactly if its reply is open or names another connection; a fitting answer saves it. */
  lemma PersonalMarkedExactlyWhen(s: State, k: nat, reply: Reply)
    requires Sent(s, k, Personal)
    ensures var id, t := s.operations[k].id, Step(s, SaveReply(k, reply));
            var unclear := reply.Open? || (reply.Answered? && !(reply.item.Some? && reply.item.value.id == id));
            && (unclear ==> t.uncertain == s.uncertain[id := k] && t.retry == Some(k) && t.saveState.Uncertain? && t.saving == Some(k))
            && (!unclear ==> t.uncertain == s.uncertain && t.saving.None?)
            && (!unclear && reply.Answered? ==> t.saveState.Saved?)
  {
  }

  /** A provider save that is not refused waits for the list, with what it was answered. */
  lemma ProviderWaitsExactlyWhen(s: State, k: nat, reply: Reply)
    requires Sent(s, k, Provider)
    ensures var o, t := s.operations[k], Step(s, SaveReply(k, reply));
            && (reply.Open? ==> t == s.(operations := s.operations[k := o.(stage := AwaitList(false))]))
            && (reply.Answered? ==>
                  var fits := && reply.item.Some? && reply.item.value.id == o.id
                              && reply.item.value.version == o.expectedVersion + 1;
                  t == s.(operations := s.operations[k := o.(response := reply.item, stage := AwaitList(fits))]))
  {
  }

  /** A current save that waits for the list. */
  predicate Waits(s: State, k: nat, answered: bool) {
    && k < |s.operations| && s.operations[k].stage == AwaitList(answered)
    && s.saving == Some(k) && s.operations[k].scope == s.scope
  }

  /** The list shows what the save was answered, or without an answer what it was to become, as far as that can be compared. */
  predicate Shows(o: Operation, items: seq<Item>) {
    exists i :: 0 <= i < |items| && ShownAt(o, items, i)
  }

  predicate ShownAt(o: Operation, items: seq<Item>, i: nat)
    requires i < |items|
  {
    && items[i].id == o.id && (forall j :: 0 <= j < i ==> items[j].id != o.id)
    && (if o.response.Some?
        then items[i].version == o.response.value.version && items[i].values == o.response.value.values
        else !o.hasCredential && items[i].version == o.expectedVersion + 1 && items[i].values == o.values)
  }

  lemma {:induction false} FindIsFirst(items: seq<Item>, id: nat)
    ensures Find(items, id).None? ==> forall j :: 0 <= j < |items| ==> items[j].id != id
    ensures Find(items, id).Some? ==>
              exists i :: 0 <= i < |items| && items[i] == Find(items, id).value && forall j :: 0 <= j < i ==> items[j].id != id
  {
    if items != [] && items[0].id != id {
      FindIsFirst(items[1..], id);
      if Find(items, id).Some? {
        var i :| 0 <= i < |items[1..]| && items[1..][i] == Find(items[1..], id).value
                 && forall j :: 0 <= j < i ==> items[1..][j].id != id;
        assert items[i + 1] == items[1..][i];
        assert forall j :: 0 < j < i + 1 ==> items[j] == items[1..][j - 1];
      } else {
        assert forall j :: 0 < j < |items| ==> items[j] == items[1..][j - 1];
      }
    } else if items != [] {
      assert items[0] == Find(items, id).value;
    }
  }

  lemma MatchesExactlyWhen(o: Operation, items: seq<Item>)
    ensures Matches(o, items) <==> Shows(o, items)
  {
    FindIsFirst(items, o.id);
    hide Find;
    if Find(items, o.id).Some? {
      var i :| 0 <= i < |items| && items[i] == Find(items, o.id).value && forall j :: 0 <= j < i ==> items[j].id != o.id;
      assert Matches(o, items) <==> ShownAt(o, items, i);
      forall k | 0 <= k < |items| && ShownAt(o, items, k)
        ensures k == i
      {
      }
    }
  }

  /**
   * A reading of the list confirms a waiting save exactly if it shows it. Otherwise an answered one is read once more, or
   * fails with a definite failure of the list; one that was not answered is marked.
   */
  lemma ListDecides(s: State, k: nat, answered: bool, list: ListReply)
    requires Waits(s, k, answered)
    ensures var id, t := s.operations[k].id, Step(s, ListRead(k, list));
            if list.Listed? && Shows(s.operations[k], list.items) then
              && t.uncertain == s.uncertain - {id} && t.saveState.Saved? && t.items == list.items && t.saving.None?
              && t.operations[k].stage.Over?
            else if answered && list.ListFailed? && list.definite then
              t.uncertain == s.uncertain && t.saveState.Failed? && t.saving.None? && t.operations[k].stage.Over?
            else if answered then t == s.(operations := s.operations[k := s.operations[k].(stage := AwaitList(false))])
            else
              && t.uncertain == s.uncertain[id := k] && t.retry == Some(k) && t.saveState.Uncertain? && t.saving.None?
              && t.operations[k].stage.Over?
  {
    hide Shows, Matches;
    if list.Listed? {
      MatchesExactlyWhen(s.operations[k], list.items);
      ApplySparesMarks(s.(uncertain := s.uncertain - {s.operations[k].id}), list.items, Some(s.operations[k].id));
      ApplyShows(s.(uncertain := s.uncertain - {s.operations[k].id}), list.items, Some(s.operations[k].id));
    }
    hide ApplyConnections;
  }

  lemma ApplyShows(s: State, items: seq<Item>, preferred: Option<nat>)
    ensures ApplyConnections(s, items, preferred).items == items
  {
  }

  /** A reading asked for again decides about its save only while nothing else has begun: it confirms, or leaves it marked. */
  lemma RecheckDecides(s: State, n: nat, list: ListReply)
    requires Invariant(s) && n < |s.rechecks| && !s.rechecks[n].over && s.saving == Some(s.rechecks[n].operation)
    requires s.operations[s.rechecks[n].operation].scope == s.scope
    ensures var k, t := s.rechecks[n].operation, Step(s, RecheckRead(n, list));
            && t.saving.None?
            && if s.operations[k].kind.Provider? && list.Listed? && Shows(s.operations[k], list.items) then
                 t.uncertain == s.uncertain - {s.operations[k].id} && t.saveState.Saved? && t.items == list.items
               else t.uncertain == s.uncertain && t.saveState.Uncertain?
  {
    hide Shows, Matches;
    var k := s.rechecks[n].operation;
    if list.Listed? {
      var read := s.(rechecks := s.rechecks[n := s.rechecks[n].(over := true)]);
      MatchesExactlyWhen(s.operations[k], list.items);
      ApplySparesMarks(read.(uncertain := s.uncertain - {s.operations[k].id}), list.items, Some(s.operations[k].id));
      ApplyShows(read.(uncertain := s.uncertain - {s.operations[k].id}), list.items, Some(s.operations[k].id));
    }
    hide ApplyConnections;
  }

  // ----- over whole runs

  /** Rechecks are for saves whose own readings are over, and no save is of a later workspace. */
  predicate Past(s: State) {
    && (forall n :: 0 <= n < |s.rechecks| && s.rechecks[n].operation < |s.operations| ==>
          var stage := s.operations[s.rechecks[n].operation].stage; !stage.AwaitSave? && !stage.AwaitList?)
    && forall k :: 0 <= k < |s.operations| ==> s.operations[k].scope <= s.scope
  }

  /** No save goes back to waiting, and none of an earlier workspace is touched by going on. */
  predicate GoesOn(s: State, t: State) {
    && |s.operations| <= |t.operations| && s.scope <= t.scope
    && (forall k :: 0 <= k < |s.operations| ==>
          && t.operations[k].scope == s.operations[k].scope && t.operations[k].id == s.operations[k].id
          && t.operations[k].kind == s.operations[k].kind
          && (!s.operations[k].stage.AwaitSave? && !s.operations[k].stage.AwaitList? ==>
                !t.operations[k].stage.AwaitSave? && !t.operations[k].stage.AwaitList?))
    && (forall k :: |s.operations| <= k < |t.operations| ==> t.operations[k].scope <= t.scope)
  }

  lemma SameOperationsGoOn(s: State, t: State)
    requires t.operations == s.operations && s.scope <= t.scope
    ensures GoesOn(s, t)
  {
  }

  lemma SaveGoesOn(s: State, k: nat, reply: Reply)
    requires k < |s.operations| && s.operations[k].stage.AwaitSave?
    ensures GoesOn(s, SaveReplied(s, k, reply))
  {
  }

  lemma ListGoesOn(s: State, k: nat, answered: bool, list: ListReply)
    requires k < |s.operations| && s.operations[k].stage.AwaitList?
    ensures GoesOn(s, ListReplied(s, k, answered, list))
  {
    hide Matches, Confirm;
    if list.Listed? {
      ConfirmSpares(s, k, list.items);
      ConfirmStays(s, k, list.items);
    }
  }

  lemma ConfirmStays(s: State, k: nat, items: seq<Item>)
    requires k < |s.operations|
    ensures Confirm(s, k, items).scope == s.scope && Confirm(s, k, items).saving == s.saving
    ensures Confirm(s, k, items).rechecks == s.rechecks
  {
  }

  lemma StepGoesOn(s: State, e: Event)
    ensures GoesOn(s, Step(s, e))
  {
    hide GoesOn, Matches, ApplyConnections, SaveReplied, ListReplied, RecheckReplied, SelectItem, MutateSelected, BeginRecheck;
    if Enabled(s, e) {
      match e {
        case SaveReply(k, reply) => SaveGoesOn(s, k, reply);
        case ListRead(k, list) => ListGoesOn(s, k, s.operations[k].stage.answered, list);
        case RecheckRead(n, list) => RecheckSpares(s, n, list); RecheckStays(s, n, list); SameOperationsGoOn(s, Step(s, e));
        case Loaded(items) => ApplySparesMarks(s, items, None); ApplyStays(s, items, None); SameOperationsGoOn(s, Step(s, e));
        case Select(item) => SelectStays(s, item); SameOperationsGoOn(s, Step(s, e));
        case Mutate(m) => MutationStays(s, m); SameOperationsGoOn(s, Step(s, e));
        case RecheckNow => MutationStays(s, Save); SameOperationsGoOn(s, Step(s, e));
        case SaveNow(hasCredential) => BegunGoesOn(s, hasCredential, 0);
        case SavePersonal(id) => BegunGoesOn(s, false, id);
        case KeysRead(k) => KeysGoOn(s, k);
        case Leave => SameOperationsGoOn(s, Step(s, e));
        case NewDraft(id) => SameOperationsGoOn(s, Step(s, e));
        case Edit(values) => SameOperationsGoOn(s, Step(s, e));
        case Cancel => SameOperationsGoOn(s, Step(s, e));
        case ChangeWorkspace => SameOperationsGoOn(s, Step(s, e));
      }
    } else {
      SameOperationsGoOn(s, s);
    }
  }

  lemma RecheckStays(s: State, n: nat, list: ListReply)
    requires n < |s.rechecks| && s.rechecks[n].operation < |s.operations|
    ensures RecheckReplied(s, n, list).scope == s.scope && |RecheckReplied(s, n, list).rechecks| == |s.rechecks|
    ensures forall m :: 0 <= m < |s.rechecks| ==> RecheckReplied(s, n, list).rechecks[m].operation == s.rechecks[m].operation
    ensures s.saving != Some(s.rechecks[n].operation) ==> RecheckReplied(s, n, list).saving == s.saving
  {
    hide Matches, Confirm;
    var k := s.rechecks[n].operation;
    if list.Listed? {
      ConfirmStays(s.(rechecks := s.rechecks[n := s.rechecks[n].(over := true)]), k, list.items);
    }
  }

  lemma ApplyStays(s: State, items: seq<Item>, preferred: Option<nat>)
    ensures ApplyConnections(s, items, preferred).scope == s.scope && ApplyConnections(s, items, preferred).rechecks == s.rechecks
  {
  }

  lemma SelectStays(s: State, item: Item)
    ensures var t := SelectItem(s, item);
            t.operations == s.operations && t.scope == s.scope && t.saving == s.saving && t.rechecks == s.rechecks
  {
  }

  lemma MutationStays(s: State, m: Mutation)
    ensures MutateSelected(s, m) == s.(log := MutateSelected(s, m).log)
    ensures BeginRecheck(s).operations == s.operations && BeginRecheck(s).scope == s.scope
  {
  }

  lemma BegunGoesOn(s: State, hasCredential: bool, id: nat)
    ensures GoesOn(s, BeginSave(s, hasCredential)) && GoesOn(s, BeginPersonal(s, id))
  {
  }

  lemma KeysGoOn(s: State, k: nat)
    requires k < |s.operations|
    ensures GoesOn(s, KeysReplied(s, k))
  {
  }

  /** Rechecks stay; a new one is for a save that is marked. */
  predicate RechecksStay(s: State, t: State) {
    && |s.rechecks| <= |t.rechecks|
    && (forall m :: 0 <= m < |s.rechecks| ==> t.rechecks[m].operation == s.rechecks[m].operation)
    && forall m :: |s.rechecks| <= m < |t.rechecks| ==> s.retry == Some(t.rechecks[m].operation)
  }

  lemma StepKeepsRechecks(s: State, e: Event)
    ensures RechecksStay(s, Step(s, e))
  {
    hide Matches, ApplyConnections, SaveReplied, ListReplied, RecheckReplied, SelectItem;
    if Enabled(s, e) {
      match e {
        case SaveReply(k, reply) => SaveStays(s, k, reply);
        case ListRead(k, list) => ListStays(s, k, s.operations[k].stage.answered, list);
        case RecheckRead(n, list) => RecheckStays(s, n, list);
        case Loaded(items) => ApplyStays(s, items, None);
        case Select(item) => SelectStays(s, item);
        case _ =>
      }
    }
  }

  lemma SaveStays(s: State, k: nat, reply: Reply)
    requires k < |s.operations|
    ensures SaveReplied(s, k, reply).rechecks == s.rechecks
    ensures s.saving != Some(k) ==> SaveReplied(s, k, reply).saving == s.saving
  {
  }

  lemma ListStays(s: State, k: nat, answered: bool, list: ListReply)
    requires k < |s.operations|
    ensures ListReplied(s, k, answered, list).rechecks == s.rechecks
    ensures s.saving != Some(k) ==> ListReplied(s, k, answered, list).saving == s.saving
  {
    hide Matches, Confirm;
    if list.Listed? {
      ConfirmStays(s, k, list.items);
    }
  }

  lemma StepKeepsPast(s: State, e: Event)
    requires Invariant(s) && Past(s)
    ensures Past(Step(s, e))
  {
    hide Step, SavingRight;
    StepGoesOn(s, e);
    StepKeepsRechecks(s, e);
  }

  /** A waiting save waits until a reading of the list for it. */
  lemma WaitingStays(s: State, e: Event, k: nat)
    requires Invariant(s) && Past(s) && Waits(s, k, false) && !(e.ListRead? && e.operation == k) && !e.ChangeWorkspace?
    ensures Waits(Step(s, e), k, false)
  {
    hide Matches, ApplyConnections, SaveReplied, ListReplied, RecheckReplied, SelectItem, Invariant;
    if Enabled(s, e) {
      match e {
        case SaveReply(j, reply) => SaveStays(s, j, reply); SaveSparesOthers(s, j, reply, k);
        case ListRead(j, list) => ListStays(s, j, s.operations[j].stage.answered, list); ListSparesOthers(s, j, list, k);
        case RecheckRead(n, list) => RecheckSpares(s, n, list); RecheckStays(s, n, list);
        case Loaded(items) => ApplySparesMarks(s, items, None); ApplyStays(s, items, None);
        case Select(item) => SelectStays(s, item);
        case _ =>
      }
    }
  }

  lemma SaveSparesOthers(s: State, j: nat, reply: Reply, k: nat)
    requires j < |s.operations| && k < |s.operations| && j != k
    ensures var t := SaveReplied(s, j, reply); k < |t.operations| && t.operations[k] == s.operations[k] && t.scope == s.scope
  {
  }

  lemma ListSparesOthers(s: State, j: nat, list: ListReply, k: nat)
    requires j < |s.operations| && s.operations[j].stage.AwaitList? && k < |s.operations| && j != k
    ensures var t := ListReplied(s, j, s.operations[j].stage.answered, list);
            k < |t.operations| && t.operations[k] == s.operations[k] && t.scope == s.scope
  {
    hide Matches, Confirm;
    if list.Listed? {
      ConfirmStays(s, j, list.items);
      ConfirmSpares(s, j, list.items);
    }
  }

  // ----- a save of unknown result

  /** The event is a reply from which it does not follow that save k was stored, nor that it was not. */
  predicate Unclear(s: State, e: Event, k: nat) {
    && e.SaveReply? && e.operation == k && Sent(s, k, Provider)
    && (e.reply.Open?
        || (e.reply.Answered?
            && !(e.reply.item.Some? && e.reply.item.value.id == s.operations[k].id
                 && e.reply.item.value.version == s.operations[k].expectedVersion + 1)))
  }

  /** The event is a reading of the list for save k that shows it. */
  predicate Confirming(s: State, e: Event, k: nat) {
    && k < |s.operations|
    && ((e.ListRead? && e.operation == k && e.list.Listed? && Shows(s.operations[k], e.list.items))
        || (e.RecheckRead? && e.recheck < |s.rechecks| && s.rechecks[e.recheck].operation == k
            && e.list.Listed? && Shows(s.operations[k], e.list.items)))
  }

  predicate WasUnclear(events: seq<Event>, k: nat) {
    exists i :: 0 <= i < |events| && Unclear(Run(START, events[..i]), events[i], k)
  }

  predicate WasConfirmed(events: seq<Event>, k: nat) {
    exists i :: 0 <= i < |events| && Confirming(Run(START, events[..i]), events[i], k)
  }

  predicate Marked(s: State, k: nat) {
    k < |s.operations| && s.operations[k].id in s.uncertain && s.uncertain[s.operations[k].id] == k
  }

  lemma WaitingStep(s: State, e: Event, k: nat)
    requires Invariant(s) && Past(s) && Waits(s, k, false) && !e.ChangeWorkspace?
    ensures Waits(Step(s, e), k, false) || Marked(Step(s, e), k) || Confirming(s, e, k)
  {
    hide Step, Invariant, Shows;
    if e.ListRead? && e.operation == k {
      ListDecides(s, k, false, e.list);
      StepGoesOn(s, e);
    } else {
      WaitingStays(s, e, k);
    }
  }

  lemma MarkedStep(s: State, e: Event, k: nat)
    requires Invariant(s) && Marked(s, k) && !e.ChangeWorkspace?
    ensures Marked(Step(s, e), k) || Confirming(s, e, k)
  {
    hide Step, Invariant, Shows, Matches;
    var id := s.operations[k].id;
    MarkedStaysFrozen(s, e, id);
    StepGoesOn(s, e);
    if Clears(s, e, id) {
      MatchesExactlyWhen(s.operations[k], e.list.items);
    }
  }

  lemma {:induction false} RunKeepsPast(events: seq<Event>)
    ensures Past(Run(START, events))
    decreases |events|
  {
    hide Step, Invariant;
    if events != [] {
      var last := |events| - 1;
      RunKeepsPast(events[..last]);
      RunKeeps(events[..last]);
      hide Past;
      StepKeepsPast(Run(START, events[..last]), events[last]);
    }
  }

  /** What was seen before is still seen later. */
  lemma SeenLater(events: seq<Event>, k: nat)
    requires events != []
    ensures WasConfirmed(events[..|events| - 1], k) ==> WasConfirmed(events, k)
    ensures WasUnclear(events, k) ==>
              || WasUnclear(events[..|events| - 1], k)
              || Unclear(Run(START, events[..|events| - 1]), events[|events| - 1], k)
  {
    hide Run, Unclear, Confirming;
    var before := events[..|events| - 1];
    assert forall i :: 0 <= i < |before| ==> before[..i] == events[..i] && before[i] == events[i];
  }

  /**
   * Main result: in its workspace, a provider save whose reply was unclear waits for the list, or is marked for its
   * connection, or a reading of the list has shown it; it never simply ends.
   */
  lemma {:induction false} UnclearIsMarked(events: seq<Event>, k: nat)
    requires WasUnclear(events, k) && k < |Run(START, events).operations|
    requires Run(START, events).operations[k].scope == Run(START, events).scope
    ensures Waits(Run(START, events), k, false) || Marked(Run(START, events), k) || WasConfirmed(events, k)
    decreases |events|
  {
    hide Step, Invariant, Unclear, Confirming, Waits, Marked, Past, GoesOn;
    var last := |events| - 1;
    var before, e := events[..last], events[last];
    var s := Run(START, before);
    RunKeeps(before);
    RunKeepsPast(before);
    SeenLater(events, k);
    assert Run(START, events) == Step(s, e);
    if Unclear(s, e, k) {
      UnclearWaits(s, e, k);
    } else {
      UnclearIsThere(before, k);
      InTheSameWorkspace(s, e, k);
      UnclearIsMarked(before, k);
      assert Confirming(s, e, k) ==> WasConfirmed(events, k);
      if Waits(s, k, false) {
        WaitingStep(s, e, k);
      } else if Marked(s, k) {
        MarkedStep(s, e, k);
      }
    }
  }

  lemma UnclearWaits(s: State, e: Event, k: nat)
    requires Unclear(s, e, k)
    ensures Waits(Step(s, e), k, false)
  {
    hide Step;
    ProviderWaitsExactlyWhen(s, k, e.reply);
  }

  /** A save of the present workspace was one of it before, and the workspace was not changed since. */
  lemma InTheSameWorkspace(s: State, e: Event, k: nat)
    requires Past(s) && k < |s.operations| && k < |Step(s, e).operations| && Step(s, e).operations[k].scope == Step(s, e).scope
    ensures s.operations[k].scope == s.scope && !e.ChangeWorkspace?
  {
    StepGoesOn(s, e);
    if !e.ChangeWorkspace? {
      hide Step;
    }
  }

  lemma {:induction false} UnclearIsThere(events: seq<Event>, k: nat)
    requires WasUnclear(events, k)
    ensures k < |Run(START, events).operations|
    decreases |events|
  {
    hide Step, Unclear, GoesOn;
    var last := |events| - 1;
    SeenLater(events, k);
    var s := Run(START, events[..last]);
    StepGoesOn(s, events[last]);
    if Unclear(s, events[last], k) {
      UnclearIsSent(s, events[last], k);
    } else {
      UnclearIsThere(events[..last], k);
    }
    OperationsStay(s, events[last]);
  }

  lemma UnclearIsSent(s: State, e: Event, k: nat)
    requires Unclear(s, e, k)
    ensures k < |s.operations|
  {
  }

  lemma OperationsStay(s: State, e: Event)
    ensures |s.operations| <= |Step(s, e).operations|
  {
    hide Step;
    StepGoesOn(s, e);
  }
}
