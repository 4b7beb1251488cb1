/** The provider settings as they work: references to the save under way and a map of uncertain connections. */
module ProviderSettingsPage {
  import opened ProviderSettings

  class Page {
    var scope: nat
    var saving: Option<nat>
    var retry: Option<nat>
    var uncertain: map<nat, nat>
    var saveState: SaveState
    var items: seq<Item>
    var selected: Option<nat>
    var draft: Draft
    var operations: seq<Operation>
    var rechecks: seq<Recheck>
    var log: seq<Issue>

    constructor ()
      ensures Now() == START
    {
      scope, saving, retry, uncertain, saveState := 0, None, None, map[], Idle;
      items, selected, draft, operations, rechecks, log := [], None, Draft(0, 0, 0), [], [], [];
    }

    ghost function Now(): State
      reads this
    {
      State(scope, saving, retry, uncertain, saveState, items, selected, draft, operations, rechecks, log)
    }

    method SelectConnection(item: Item)
      modifies this`selected, this`draft, this`retry, this`saveState
      ensures Now() == SelectItem(old(Now()), item)
    {
      selected := Some(item.id);
      draft := Draft(item.id, item.version, item.values);
      if item.id in uncertain {
        saveState := Uncertain;
        retry := Some(uncertain[item.id]);
      } else {
        saveState := Idle;
        retry := None;
      }
    }

    method ApplyItems(listed: seq<Item>, preferred: Option<nat>)
      modifies this`items, this`selected, this`draft, this`retry, this`saveState
      ensures Now() == ApplyConnections(old(Now()), listed, preferred)
    {
      items := listed;
      var found := if preferred.Some? then Find(listed, preferred.value) else None;
      if found.Some? {
        SelectConnection(found.value);
      } else if |listed| > 0 {
        SelectConnection(listed[0]);
      } else {
        selected := None;
      }
    }

    /** saveConnection, up to its first await */
    method SaveConnection(hasCredential: bool)
      modifies this`saving, this`retry, this`saveState, this`operations, this`log
      ensures Now() == BeginSave(old(Now()), hasCredential)
    {
      if saving.Some? || saveState.Uncertain? || draft.id in uncertain {
        return;
      }
      saving := Some(|operations|);
      saveState := Saving;
      operations := operations + [Operation(Provider, scope, draft.id, draft.version, draft.values, hasCredential, None, AwaitSave)];
      retry := None;
      log := log + [Issue(Save, draft.id)];
    }

    /** The finally block. */
    method EndSave(k: nat)
      requires k < |operations|
      modifies this`saving, this`operations
      ensures Now() == Finish(old(Now()), k)
    {
      operations := operations[k := operations[k].(stage := Over)];
      if saving == Some(k) {
        saving := None;
      }
    }

    method BecomeUncertain(k: nat)
      requires k < |operations|
      modifies this`uncertain, this`retry, this`saveState
      ensures Now() == MarkUncertain(old(Now()), k)
    {
      uncertain := uncertain[operations[k].id := k];
      retry := Some(k);
      saveState := Uncertain;
    }

    /** confirmSavedConnection, after the list has been read and found to match */
    method ConfirmConnection(k: nat, listed: seq<Item>)
      requires k < |operations|
      modifies this`uncertain, this`items, this`selected, this`draft, this`retry, this`saveState
      ensures Now() == Confirm(old(Now()), k, listed)
    {
      uncertain := uncertain - {operations[k].id};
      ApplyItems(listed, Some(operations[k].id));
      saveState := Saved;
    }

    /** saveConnection goes on after a reading of the list. */
    method ListArrived(k: nat, answered: bool, list: ListReply)
      requires k < |operations|
      modifies this
      ensures Now() == ListReplied(old(Now()), k, answered, list)
    {
      hide ApplyConnections, Matches;
      if saving == Some(k) && scope == operations[k].scope {
        if list.Listed? && Matches(operations[k], list.items) {
          ConfirmConnection(k, list.items);
        } else if answered && list.ListFailed? && list.definite {
          saveState := Failed;
        } else if answered {
          operations := operations[k := operations[k].(stage := AwaitList(false))];
          return;
        } else {
          BecomeUncertain(k);
        }
      }
      EndSave(k);
    }

    /** recheckSave, up to its await */
    method RecheckSave()
      modifies this`saving, this`saveState, this`rechecks
      ensures Now() == BeginRecheck(old(Now()))
    {
      if saving.Some? || retry.None? {
        return;
      }
      saving := retry;
      saveState := Saving;
      rechecks := rechecks + [Recheck(retry.value, false)];
    }

    /** recheckSave goes on after a reading of the list. */
    method RecheckArrived(n: nat, list: ListReply)
      requires n < |rechecks| && rechecks[n].operation < |operations|
      modifies this
      ensures Now() == RecheckReplied(old(Now()), n, list)
    {
      hide ApplyConnections, Matches;
      var k := rechecks[n].operation;
      rechecks := rechecks[n := rechecks[n].(over := true)];
      if saving == Some(k) && scope == operations[k].scope && operations[k].kind.Provider? && list.Listed?
         && Matches(operations[k], list.items) {
        ConfirmConnection(k, list.items);
      } else if saving == Some(k) {
        saveState := Uncertain;
      }
      if saving == Some(k) {
        saving := None;
      }
    }

    /** savePersonalKey, up to its first await */
    method SavePersonalKey(id: nat)
      modifies this`saving, this`saveState, this`operations, this`log
      ensures Now() == BeginPersonal(old(Now()), id)
    {
      if saving.Some? || id in uncertain {
        return;
      }
      saving := Some(|operations|);
      saveState := Saving;
      operations := operations + [Operation(Personal, scope, id, 0, 0, true, None, AwaitSave)];
      log := log + [Issue(SaveKey, id)];
    }

    /** A save of either kind goes on after its reply. */
    method ReplyArrived(k: nat, reply: Reply)
      requires k < |operations|
      modifies this
      ensures Now() == SaveReplied(old(Now()), k, reply)
    {
      var operation := operations[k];
      if saving != Some(k) || scope != operation.scope || reply.Refused? {
        if saving == Some(k) && scope == operation.scope {
          saveState := Failed;
        }
        EndSave(k);
      } else if operation.kind.Personal? {
        if reply.Answered? && reply.item.Some? && reply.item.value.id == operation.id {
          saveState := Saved;
          EndSave(k);
        } else {
          BecomeUncertain(k);
          operations := operations[k := operation.(stage := AwaitKeys)];
        }
      } else if reply.Answered? {
        var answer := reply.item;
        var valid := answer.Some? && answer.value.id == operation.id && answer.value.version == operation.expectedVersion + 1;
        operations := operations[k := operation.(response := answer, stage := AwaitList(valid))];
      } else {
        operations := operations[k := operation.(stage := AwaitList(false))];
      }
    }

    /** savePersonalKey goes on after the keys have been read. */
    method KeysArrived(k: nat)
      requires k < |operations|
      modifies this`saving, this`saveState, this`operations
      ensures Now() == KeysReplied(old(Now()), k)
    {
      if saving == Some(k) && scope == operations[k].scope {
        saveState := Uncertain;
      }
      EndSave(k);
    }

    /** Deleting or refreshing what is selected. */
    method ChangeSelected(mutation: Mutation)
      modifies this`log
      ensures Now() == MutateSelected(old(Now()), mutation)
    {
      if selected.None? || saving.Some? || selected.value in uncertain {
        return;
      }
      log := log + [Issue(mutation, selected.value)];
    }

    /** Another workspace takes everything with it that was uncertain. */
    method EnterWorkspace()
      modifies this`scope, this`saving, this`retry, this`uncertain, this`saveState
      ensures Now() == Step(old(Now()), ChangeWorkspace)
    {
      scope := scope + 1;
      saving := None;
      retry := None;
      uncertain := map[];
      saveState := Idle;
    }

    /** One callback. */
    method Handle(e: Event)
      modifies this
      ensures Now() == Step(old(Now()), e)
    {
      hide ApplyConnections, SelectItem, BeginSave, BeginPersonal, SaveReplied, ListReplied, KeysReplied, BeginRecheck,
        RecheckReplied, MutateSelected;
      if !Enabled(State(scope, saving, retry, uncertain, saveState, items, selected, draft, operations, rechecks, log), e) {
        return;
      }
      match e {
        case Loaded(listed) => ApplyItems(listed, None);
        case Select(item) => SelectConnection(item);
        case Leave =>
          retry := None;
          saveState := Idle;
        case NewDraft(id) =>
          selected := None;
          draft := Draft(id, 0, 0);
          retry := None;
          saveState := Idle;
        case Edit(values) => draft := draft.(values := values);
        case Cancel =>
          if saving.None? && !saveState.Uncertain? {
            retry := None;
            saveState := Idle;
          }
        case SaveNow(hasCredential) => SaveConnection(hasCredential);
        case SavePersonal(id) => SavePersonalKey(id);
        case SaveReply(k, reply) => ReplyArrived(k, reply);
        case ListRead(k, list) => ListArrived(k, operations[k].stage.answered, list);
        case KeysRead(k) => KeysArrived(k);
        case RecheckNow => RecheckSave();
        case RecheckRead(n, list) => RecheckArrived(n, list);
        case Mutate(mutation) => ChangeSelected(mutation);
        case ChangeWorkspace => EnterWorkspace();
      }
    }
  }

  /** A page that has handled any events, one after the other, is in the state that the model runs to. */
  method Replay(events: seq<Event>) returns (page: Page)
    ensures fresh(page) && page.Now() == Run(START, events) && Invariant(page.Now())
  {
    page := new Page();
    for n := 0 to |events|
      invariant fresh(page) && page.Now() == Run(START, events[..n])
    {
      hide Step;
      assert events[..n + 1][..n] == events[..n];
      page.Handle(events[n]);
    }
    assert events[..|events|] == events;
    RunKeeps(events);
  }
}
