/** What each event of the user administration does: what is sent and marked, and which marks a list or an answer removes. */
module AdminUsersEffects {
  import opened AdminUsers

  /** Every other user is marked as before. */
  ghost predicate SameMarksBut(s: State, t: State, u: User) {
    forall v :: v != u ==> (v in t.marks <==> v in s.marks) && (v in s.marks ==> t.marks[v] == s.marks[v])
  }

  // ----- lists

  /** The list is asked for with exactly the saves that are marked and have settled by then; another session has no marks. */
  lemma ListAsksExactlyWhen(s: State, n: nat, identity: nat, lost: bool)
    requires Enabled(s, SessionRead(n, Some(identity), lost))
    ensures var t := Step(s, SessionRead(n, Some(identity), lost));
            && |t.loads| == |s.loads| && (forall m :: 0 <= m < |s.loads| && m != n ==> t.loads[m] == s.loads[m])
            && t.epoch == s.epoch && t.edits == s.edits && t.inFlight == s.inFlight && t.log == s.log
            && if s.loads[n].epoch == s.epoch then
                 && t.session == Some(identity) && t.marks == (if s.session == Some(identity) then s.marks else map[])
                 && t.loads[n].stage.AwaitUsers? && t.loads[n].stage.asked == s.inFlight && t.loads[n].epoch == s.epoch
                 && forall u, o :: u in t.loads[n].stage.settled && t.loads[n].stage.settled[u] == o
                      <==> u in t.marks && t.marks[u].save == Some(o) && o < |s.inFlight| && !s.inFlight[o]
               else t.marks == s.marks && t.session == s.session && t.loads[n].stage.Over?
  {
  }

  /** A good current list drops a mark exactly if it is of a save that the list was asked for with, and no reset. */
  lemma ListDropsExactlyWhen(s: State, n: nat, u: User)
    requires Enabled(s, UsersRead(n, Good))
    ensures var t := Step(s, UsersRead(n, Good));
            && MarkOf(t, u).reset == MarkOf(s, u).reset && t.session == s.session && t.loads[n].stage.Over?
            && MarkOf(t, u).save ==
                 if && s.loads[n].epoch == s.epoch && u in s.loads[n].stage.settled
                    && MarkOf(s, u).save == Some(s.loads[n].stage.settled[u]) then None
                 else MarkOf(s, u).save
  {
  }

  /** A list that fails leaves the marks; a lost session, found by a current load, takes all of them. */
  lemma FailedListDecides(s: State, n: nat, outcome: Outcome)
    requires Enabled(s, UsersRead(n, outcome)) && !outcome.Good?
    ensures var t := Step(s, UsersRead(n, outcome));
            if outcome.Unauthenticated? && s.loads[n].epoch == s.epoch then t.marks == map[] && t.session.None?
            else t.marks == s.marks && t.session == s.session
  {
  }

  /** A load that waits for the list, or is over, never asks again. */
  lemma LoadsGoOn(s: State, e: Event, n: nat)
    requires n < |s.loads| && !s.loads[n].stage.AwaitSession?
    ensures var t := Step(s, e);
            n < |t.loads| && !t.loads[n].stage.AwaitSession? && (t.loads[n].stage.AwaitUsers? ==> t.loads[n] == s.loads[n])
  {
    hide SessionReadFor, UsersReadFor, Begin, BeginSave, BeginReset, ReplyFor;
    if Enabled(s, e) {
      match e {
        case SessionRead(m, identity, lost) => ReadSparesOthers(s, m, identity, lost, Good, n);
        case UsersRead(m, outcome) => ReadSparesOthers(s, m, None, false, outcome, n);
        case Create => EditsSpareLoads(s, Creating, 0, 0, 0);
        case Save(u, calls) => EditsSpareLoads(s, Saving, u, calls, 0);
        case Recheck(u) => EditsSpareLoads(s, Rechecking, u, 0, 0);
        case Approve(u) => EditsSpareLoads(s, Approving, u, 0, 0);
        case Reset(u) => EditsSpareLoads(s, Resetting, u, 0, 0);
        case Reply(x, outcome) => RepliesSpareLoads(s, x, outcome);
        case _ =>
      }
    }
  }

  lemma ReadSparesOthers(s: State, m: nat, identity: Option<nat>, lost: bool, outcome: Outcome, n: nat)
    requires n < |s.loads| && m < |s.loads|
    ensures var t := SessionReadFor(s, m, identity, lost); |t.loads| == |s.loads| && (n != m ==> t.loads[n] == s.loads[n])
    ensures s.loads[m].stage.AwaitUsers? ==>
              var t := UsersReadFor(s, m, outcome);
              |t.loads| == |s.loads| && t.loads[n] == if n == m then s.loads[m].(stage := Over) else s.loads[n]
  {
    hide Settled, Confirmed;
  }

  lemma EditsSpareLoads(s: State, kind: Kind, u: User, calls: nat, request: nat)
    ensures BeginSave(s, u, calls).loads == BeginReset(s, u).loads == Begin(s, kind, u, request, 1).loads == s.loads
  {
    hide Settled, MarkOf;
  }

  lemma RepliesSpareLoads(s: State, x: nat, outcome: Outcome)
    requires x < |s.edits|
    ensures ReplyFor(s, x, outcome).loads == s.loads
  {
    hide WithoutSave, MarkOf;
  }

  lemma {:induction false} LoadsStay(s: State, events: seq<Event>, n: nat)
    requires n < |s.loads| && !s.loads[n].stage.AwaitSession?
    ensures var t := Run(s, events);
            n < |t.loads| && !t.loads[n].stage.AwaitSession? && (t.loads[n].stage.AwaitUsers? ==> t.loads[n] == s.loads[n])
    decreases |events|
  {
    if events != [] {
      hide Step;
      var last := |events| - 1;
      LoadsStay(s, events[..last], n);
      LoadsGoOn(Run(s, events[..last]), events[last], n);
    }
  }

  /**
   * Main result: a save that had settled when the list was asked for is marked no longer once that list has come, whatever else
   * happened in between, if the load is then still the current one.
   */
  lemma LaterListConfirms(s: State, n: nat, identity: nat, events: seq<Event>, u: User, o: nat)
    requires Enabled(s, SessionRead(n, Some(identity), false)) && s.loads[n].epoch == s.epoch && s.session == Some(identity)
    requires MarkOf(s, u).save == Some(o) && SettledWhen(s.inFlight, o)
    requires var t := Run(Step(s, SessionRead(n, Some(identity), false)), events);
             Enabled(t, UsersRead(n, Good)) && t.loads[n].epoch == t.epoch
    ensures var t := Run(Step(s, SessionRead(n, Some(identity), false)), events);
            MarkOf(Step(t, UsersRead(n, Good)), u).save != Some(o)
  {
    var asked := Step(s, SessionRead(n, Some(identity), false));
    ListAsksExactlyWhen(s, n, identity, false);
    LoadsStay(asked, events, n);
    ListDropsExactlyWhen(Run(asked, events), n, u);
    hide Step, Run;
    assert u in asked.loads[n].stage.settled && asked.loads[n].stage.settled[u] == o;
  }

  // ----- what begins

  /** An edit begins: the newest edit of this epoch and session, the only thing that runs. */
  predicate Begun(s: State, t: State, kind: Kind, u: User, calls: nat) {
    && |t.edits| == |s.edits| + 1 && t.edits[..|s.edits|] == s.edits && t.editing && t.epoch == s.epoch && t.session == s.session
    && var e := t.edits[|s.edits|];
       && e.kind == kind && e.user == u && e.epoch == s.epoch && e.session == s.session && e.calls == calls && !e.done
  }

  /** A save is sent exactly from a dialog, with something to save, while nothing runs and no save of the user is marked. */
  lemma SavesExactlyWhen(s: State, u: User, calls: nat)
    ensures var t := Step(s, Save(u, calls));
            if s.modal && !s.editing && calls > 0 && (u in s.marks ==> s.marks[u].save.None?) then
              && Begun(s, t, Saving, u, calls) && t.log == s.log + [Sent(Saving, u, |s.edits|)]
              && t.inFlight == s.inFlight + [true] && t.edits[|s.edits|].request == |s.inFlight|
              && u in t.marks && t.marks[u].save == Some(|s.inFlight|) && SameMarksBut(s, t, u)
              && t.marks[u].reset == (if u in s.marks then s.marks[u].reset else None)
            else t == s
  {
  }

  /** A reset is sent exactly if, besides, no reset of the user is marked. */
  lemma ResetsExactlyWhen(s: State, u: User)
    ensures var t := Step(s, Reset(u));
            if s.modal && !s.editing && (u in s.marks ==> s.marks[u].save.None? && s.marks[u].reset.None?) then
              && Begun(s, t, Resetting, u, 1) && t.log == s.log + [Sent(Resetting, u, |s.edits|)]
              && t.inFlight == s.inFlight + [true] && t.edits[|s.edits|].request == |s.inFlight|
              && u in t.marks && t.marks[u] == Mark(None, Some(|s.inFlight|)) && SameMarksBut(s, t, u)
            else t == s
  {
  }

  /** Approving needs that no save of the user is marked, creating and rechecking do not; rechecking sends no edit. */
  lemma OthersBeginExactlyWhen(s: State, u: User)
    ensures var t := Step(s, Approve(u));
            if s.modal && !s.editing && (u in s.marks ==> s.marks[u].save.None?) then
              Begun(s, t, Approving, u, 1) && t.log == s.log + [Sent(Approving, u, |s.edits|)] && t.marks == s.marks
            else t == s
    ensures var t := Step(s, Create);
            if s.modal && !s.editing then
              Begun(s, t, Creating, 0, 1) && t.log == s.log + [Sent(Creating, 0, |s.edits|)] && t.marks == s.marks
            else t == s
    ensures var t := Step(s, Recheck(u));
            if s.modal && !s.editing then Begun(s, t, Rechecking, u, 1) && t.log == s.log && t.marks == s.marks else t == s
  {
    hide Settled;
  }

  /** Dialogs open and close only while nothing runs, and what was begun before is then of an earlier epoch. */
  lemma DialogsDecide(s: State)
    ensures Step(s, Open) == if s.editing then s else s.(epoch := s.epoch + 1, modal := true)
    ensures Step(s, Close) == if s.editing then s else s.(epoch := s.epoch + 1, modal := false)
  {
  }

  lemma LoadBegins(s: State)
    ensures var t := Step(s, StartLoad);
            && t == s.(epoch := t.epoch, modal := false, loads := t.loads) && t.epoch == s.epoch + 1
            && t.loads == s.loads + [Load(t.epoch, AwaitSession)]
  {
  }

  // ----- answers

  /** The present answer to a current edit that has no further calls. */
  predicate Answers(s: State, x: nat, kind: Kind) {
    x < |s.edits| && !s.edits[x].done && s.edits[x].epoch == s.epoch && s.edits[x].kind == kind
  }

  /** The edit is over and another may begin. */
  predicate Ended(s: State, t: State, x: nat) {
    && x < |t.edits| == |s.edits| && t.edits[x].done && !t.editing && t.log == s.log
    && forall y :: 0 <= y < |s.edits| && y != x ==> t.edits[y] == s.edits[y]
  }

  /** An answer of an earlier epoch changes no mark. */
  lemma StaleAnswerEnds(s: State, x: nat, outcome: Outcome)
    requires Enabled(s, Reply(x, outcome)) && s.edits[x].epoch != s.epoch
    ensures var t := Step(s, Reply(x, outcome)); Ended(s, t, x) && t.marks == s.marks && t.epoch == s.epoch && t.modal == s.modal
  {
  }

  /** A lost session forgets every mark and closes the dialog. */
  lemma LostSessionForgets(s: State, x: nat)
    requires Enabled(s, Reply(x, Unauthenticated)) && s.edits[x].epoch == s.epoch
    ensures var t := Step(s, Reply(x, Unauthenticated));
            Ended(s, t, x) && t.marks == map[] && t.session.None? && !t.modal && t.epoch == s.epoch + 1
  {
  }

  /** A save with calls left sends the next one; with none left its own mark goes, a reset stays, and the dialog closes. */
  lemma SaveSucceeds(s: State, x: nat)
    requires Answers(s, x, Saving) && MarkOf(s, s.edits[x].user).save == Some(s.edits[x].request)
    ensures var t, u := Step(s, Reply(x, Good)), s.edits[x].user;
            && SameMarksBut(s, t, u) && t.session == s.session
            && if s.edits[x].calls > 1 then
                 && t.log == s.log + [Sent(Saving, u, x)] && t.marks == s.marks && t.editing == s.editing && t.epoch == s.epoch
                 && t.edits == s.edits[x := s.edits[x].(calls := s.edits[x].calls - 1)] && t.inFlight == s.inFlight
               else
                 && Ended(s, t, x) && MarkOf(t, u) == Mark(None, MarkOf(s, u).reset) && !t.modal && t.epoch == s.epoch + 1
  {
  }

  /** A save that fails stays marked, by a new request object that has settled, so that only a later list can remove it. */
  lemma SaveFails(s: State, x: nat)
    requires Answers(s, x, Saving)
    ensures var t, u := Step(s, Reply(x, Failed)), s.edits[x].user;
            && Ended(s, t, x) && SameMarksBut(s, t, u) && t.session == s.session && t.epoch == s.epoch + 1
            && u in t.marks && t.marks[u] == Mark(Some(|s.inFlight|), MarkOf(s, u).reset)
            && |t.inFlight| == |s.inFlight| + 1 && !t.inFlight[|s.inFlight|]
  {
  }

  /** A good recheck removes the marked save of its user and nothing else; a failed one nothing. */
  lemma RecheckDecides(s: State, x: nat, outcome: Outcome)
    requires Answers(s, x, Rechecking) && !outcome.Unauthenticated?
    ensures var t, u := Step(s, Reply(x, outcome)), s.edits[x].user;
            && Ended(s, t, x) && SameMarksBut(s, t, u) && t.session == s.session && t.epoch == s.epoch
            && MarkOf(t, u) == Mark(if outcome.Good? then None else MarkOf(s, u).save, MarkOf(s, u).reset)
  {
  }

  /** A good reset removes its own mark and keeps a save; a failed one stays marked, and settles while it is. */
  lemma ResetDecides(s: State, x: nat, outcome: Outcome)
    requires Answers(s, x, Resetting) && !outcome.Unauthenticated? && MarkOf(s, s.edits[x].user).reset == Some(s.edits[x].request)
    ensures var t, u, o := Step(s, Reply(x, outcome)), s.edits[x].user, s.edits[x].request;
            && Ended(s, t, x) && SameMarksBut(s, t, u) && t.session == s.session && t.epoch == s.epoch
            && MarkOf(t, u) == Mark(MarkOf(s, u).save, if outcome.Good? then None else Some(o))
            && (outcome.Failed? && s.session == s.edits[x].session && o < |s.inFlight| ==> t.inFlight == s.inFlight[o := false])
  {
  }

  /** Creating and approving change no mark. */
  lemma OtherAnswersMarkNothing(s: State, x: nat, outcome: Outcome)
    requires (Answers(s, x, Creating) || Answers(s, x, Approving)) && !outcome.Unauthenticated?
    ensures var t := Step(s, Reply(x, outcome));
            && Ended(s, t, x) && t.marks == s.marks && t.session == s.session
            && t.epoch == (if s.edits[x].kind.Creating? then s.epoch + 1 else s.epoch)
            && t.modal == (s.modal && !(s.edits[x].kind.Creating? && outcome.Good?))
  {
  }
}
