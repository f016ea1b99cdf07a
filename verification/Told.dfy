/** Every name a provider ever gave is accounted for: the ledger recorded it, it
    was lost or refused, or its answer is still on the way. */
module Told {
  import opened Types
  import opened Capability
  import opened Limits
  import opened Rows
  import opened Database
  import opened Admission
  import opened Protocol
  import opened Kept
  import opened Claims
  import opened Kills

  /** What a launch noted of the names given before it. */
  ghost predicate LaunchTold(h: History, l: Launch) {
    && l.at.told <= |h.told| && l.at.confirms <= |h.confirms|
    && (forall c :: c in h.told[..l.at.told] ==> c in h.confirms[..l.at.confirms] || c in l.at.unheard)
    && (forall c :: c in l.at.unheard || c in h.confirms[..l.at.confirms] ==> c in h.told[..l.at.told])
  }

  /** `way` holds the answers that have not reached the ledger. */
  ghost predicate Accounted(h: History, way: set<Confirm>) {
    && (forall c :: c in way || c in h.confirms || c in h.lost ==> c in h.told)
    && (forall c :: c in h.told ==> c in h.confirms || c in h.lost || c in way)
    && (forall i: nat | i < |h.launches| :: LaunchTold(h, h.launches[i]))
  }

  ghost predicate ToldInv(w: World) { Accounted(w.h, OnTheWay(w.tasks)) }

  predicate Longer(g: History, h: History) {
    && |g.told| <= |h.told| && g.told == h.told[..|g.told|]
    && |g.confirms| <= |h.confirms| && g.confirms == h.confirms[..|g.confirms|]
  }

  lemma LaunchStaysTold(g: History, h: History, l: Launch)
    requires Longer(g, h) && LaunchTold(g, l)
    ensures LaunchTold(h, l)
  {
    assert g.told[..l.at.told] == h.told[..l.at.told];
    assert g.confirms[..l.at.confirms] == h.confirms[..l.at.confirms];
  }

  lemma LaunchesStayTold(g: History, h: History)
    requires Longer(g, h) && h.launches == g.launches
    requires forall i: nat | i < |g.launches| :: LaunchTold(g, g.launches[i])
    ensures forall i: nat | i < |h.launches| :: LaunchTold(h, h.launches[i])
  {
    forall i: nat | i < |h.launches| ensures LaunchTold(h, h.launches[i]) {
      LaunchStaysTold(g, h, g.launches[i]);
    }
  }

  /** Steps that name nothing, and lose at most what was on the way. */
  lemma NothingNamed(w: World, v: World)
    requires ToldInv(w) && v.h.told == w.h.told && v.h.confirms == w.h.confirms && v.h.launches == w.h.launches
    requires OnTheWay(v.tasks) <= OnTheWay(w.tasks) && w.h.lost <= v.h.lost
    requires v.h.lost <= w.h.lost + OnTheWay(w.tasks)
    requires forall c | c in OnTheWay(w.tasks) :: c in OnTheWay(v.tasks) || c in v.h.lost
    ensures ToldInv(v)
  {
    LaunchesStayTold(w.h, v.h);
  }

  /** A task without an answer can come, go or move freely. */
  lemma WayIgnoresSilence(tasks: map<nat, Task>, others: map<nat, Task>)
    requires forall t | t in tasks && tasks[t].pc.Answer().Some? :: t in others && others[t] == tasks[t]
    requires forall t | t in others && others[t].pc.Answer().Some? :: t in tasks && others[t] == tasks[t]
    ensures OnTheWay(others) == OnTheWay(tasks)
  {
    forall c ensures c in OnTheWay(others) <==> c in OnTheWay(tasks) {
    }
  }

  lemma LedgerStepKeepsTold(w: World, e: LedgerStep)
    requires Named(w) && ToldInv(w) && LedgerEnabled(w, e)
    ensures ToldInv(LedgerNext(w, e))
  {
    LedgerStepIsLocal(w, e);
    WayIgnoresSilence(w.tasks, LedgerNext(w, e).tasks);
    NothingNamed(w, LedgerNext(w, e));
  }

  lemma CrashLosesAnswers(w: World, p: nat)
    requires ToldInv(w)
    ensures ToldInv(DoCrash(w, p))
  {
    var v := DoCrash(w, p);
    forall c | c in OnTheWay(w.tasks) ensures c in OnTheWay(v.tasks) || c in v.h.lost {
      var t :| t in w.tasks && w.tasks[t].pc.Answer().Some?
        && Confirm(w.tasks[t].pc.Answer().value, w.tasks[t].key) == c;
      assert t in v.tasks || t in TasksOf(w, p);
    }
    NothingNamed(w, v);
  }

  lemma OnlyCrashesLose(w: World, e: ServerStep)
    requires ServerEnabled(w, e) && !e.Crash?
    ensures ServerNext(w, e).h.lost == w.h.lost
    ensures forall t | t in w.tasks :: t in ServerNext(w, e).tasks || w.nextTask == t
  {
  }

  lemma ServerStepKeepsTold(w: World, e: ServerStep)
    requires Named(w) && ToldInv(w) && ServerEnabled(w, e)
    ensures ToldInv(ServerNext(w, e))
  {
    if e.Crash? {
      CrashLosesAnswers(w, e.p);
    } else {
      ServerStepIsLocal(w, e);
      OnlyCrashesLose(w, e);
      WayIgnoresSilence(w.tasks, ServerNext(w, e).tasks);
      NothingNamed(w, ServerNext(w, e));
    }
  }

  // ---- Steps of a delivery ----

  /** Steps in which a provider names a conversation, or an answer arrives. */
  predicate MovesNames(step: TaskStep) {
    step.ConfirmSession? || step.LoseSession? || step.ProviderReturns? || step.Settle? || step.DropFuture?
  }

  lemma OtherStepsNameNothing(w: World, t: nat, step: TaskStep)
    requires TaskEnabled(w, t, step) && !MovesNames(step)
    ensures var v := TaskNext(w, t, step);
            && v.h.told == w.h.told && v.h.confirms == w.h.confirms && v.h.lost == w.h.lost
            && w.tasks[t].pc.Answer().None? && (t in v.tasks ==> v.tasks[t].pc.Answer().None?)
  {
  }

  lemma OtherStepKeepsTold(w: World, t: nat, step: TaskStep)
    requires ToldInv(w) && TaskEnabled(w, t, step) && !MovesNames(step) && !step.CallProvider?
    ensures ToldInv(TaskNext(w, t, step))
  {
    TaskStepIsLocal(w, t, step);
    TaskStepLaunches(w, t, step);
    OtherStepsNameNothing(w, t, step);
    WayIgnoresSilence(w.tasks, TaskNext(w, t, step).tasks);
    NothingNamed(w, TaskNext(w, t, step));
  }

  lemma NewLaunchIsTold(w: World, v: World, l: Launch)
    requires ToldInv(w) && OnTheWay(v.tasks) == OnTheWay(w.tasks)
    requires v.h == w.h.(launches := w.h.launches + [l]) && l.at == NowKnown(w)
    ensures ToldInv(v)
  {
    assert w.h.told[..|w.h.told|] == w.h.told && w.h.confirms[..|w.h.confirms|] == w.h.confirms;
    assert LaunchTold(v.h, l);
    forall i: nat | i < |w.h.launches| ensures LaunchTold(v.h, w.h.launches[i]) {
      LaunchStaysTold(w.h, v.h, w.h.launches[i]);
    }
  }

  lemma CallKeepsTold(w: World, t: nat)
    requires ToldInv(w) && TaskEnabled(w, t, CallProvider)
    ensures ToldInv(TaskNext(w, t, CallProvider))
  {
    var v := TaskNext(w, t, CallProvider);
    TaskStepIsLocal(w, t, CallProvider);
    OtherStepsNameNothing(w, t, CallProvider);
    WayIgnoresSilence(w.tasks, v.tasks);
    CallProviderEffect(w, t);
    if Passes(w, t) {
      NewLaunchIsTold(w, v, LaunchOf(w, t));
    } else {
      NothingNamed(w, v);
    }
  }

  /** A name is given, and at once recorded or lost. */
  lemma NameGiven(w: World, v: World, c: Confirm)
    requires ToldInv(w) && OnTheWay(v.tasks) == OnTheWay(w.tasks) && v.h.launches == w.h.launches
    requires v.h.told == w.h.told + [c]
    requires || (v.h.confirms == w.h.confirms + [c] && v.h.lost == w.h.lost)
             || (v.h.confirms == w.h.confirms && v.h.lost == w.h.lost + {c})
    ensures ToldInv(v)
  {
    LaunchesStayTold(w.h, v.h);
  }

  lemma EventKeepsTold(w: World, t: nat, step: TaskStep)
    requires ToldInv(w) && TaskEnabled(w, t, step) && (step.ConfirmSession? || step.LoseSession?)
    ensures ToldInv(TaskNext(w, t, step))
  {
    NameGiven(w, TaskNext(w, t, step), Confirm(step.session, w.tasks[t].key));
  }

  lemma ReturnKeepsTold(w: World, t: nat, result: Result)
    requires ToldInv(w) && TaskEnabled(w, t, ProviderReturns(result))
    ensures ToldInv(DoReturn(w, t, result))
  {
    var v := DoReturn(w, t, result);
    var answer := v.tasks[t].pc.Answer();
    if answer.Some? {
      var c := Confirm(answer.value, w.tasks[t].key);
      WayGains(w.tasks, v.tasks, t, c);
      LaunchesStayTold(w.h, v.h);
    } else {
      WayIgnoresSilence(w.tasks, v.tasks);
      NothingNamed(w, v);
    }
  }

  lemma WayGains(tasks: map<nat, Task>, others: map<nat, Task>, t: nat, c: Confirm)
    requires t in tasks && tasks[t].pc.Answer().None? && t in others && others == tasks[t := others[t]]
    requires others[t].pc.Answer() == Some(c.id) && others[t].key == c.key
    ensures OnTheWay(others) == OnTheWay(tasks) + {c}
  {
    forall x | x in OnTheWay(tasks) + {c} ensures x in OnTheWay(others) {
      if x != c {
        var u :| u in tasks && tasks[u].pc.Answer().Some? && Confirm(tasks[u].pc.Answer().value, tasks[u].key) == x;
        assert others[u] == tasks[u];
      } else {
        assert Confirm(others[t].pc.Answer().value, others[t].key) == c;
      }
    }
  }

  /** A delivery that ends takes at most its own answer off the way. */
  lemma WayShrinks(tasks: map<nat, Task>, t: nat)
    requires t in tasks
    ensures OnTheWay(tasks - {t}) <= OnTheWay(tasks)
    ensures tasks[t].pc.Answer().None? ==> OnTheWay(tasks - {t}) == OnTheWay(tasks)
    ensures tasks[t].pc.Answer().Some? ==>
              var c := Confirm(tasks[t].pc.Answer().value, tasks[t].key);
              c in OnTheWay(tasks) && OnTheWay(tasks) <= OnTheWay(tasks - {t}) + {c}
  {
    forall x | x in OnTheWay(tasks) && tasks[t].pc.Answer() != Some(x.id) ensures x in OnTheWay(tasks - {t}) {
      var u :| u in tasks && tasks[u].pc.Answer().Some? && Confirm(tasks[u].pc.Answer().value, tasks[u].key) == x;
      assert u in tasks - {t};
    }
    forall x | x in OnTheWay(tasks) && x.key != tasks[t].key ensures x in OnTheWay(tasks - {t}) {
      var u :| u in tasks && tasks[u].pc.Answer().Some? && Confirm(tasks[u].pc.Answer().value, tasks[u].key) == x;
      assert u in tasks - {t};
    }
  }

  /** The answer of an ended delivery was recorded, or it is lost. */
  lemma AnswerArrives(w: World, v: World, t: nat)
    requires ToldInv(w) && t in w.tasks && v.tasks == w.tasks - {t}
    requires v.h.told == w.h.told && v.h.launches == w.h.launches
    requires || (w.tasks[t].pc.Answer().Some?
                 && v.h.confirms == w.h.confirms + [Confirm(w.tasks[t].pc.Answer().value, w.tasks[t].key)]
                 && v.h.lost == w.h.lost)
             || (v.h.confirms == w.h.confirms && v.h.lost == Lose(w.h, w.tasks[t]).lost)
    ensures ToldInv(v)
  {
    WayShrinks(w.tasks, t);
    LaunchesStayTold(w.h, v.h);
  }

  lemma SettleKeepsTold(w: World, t: nat)
    requires ToldInv(w) && TaskEnabled(w, t, Settle)
    ensures ToldInv(DoSettle(w, t))
  {
    RecordedAnswers(w, t);
    AnswerArrives(w, DoSettle(w, t), t);
  }

  lemma RecordedAnswers(w: World, t: nat)
    requires TaskEnabled(w, t, Settle)
    ensures var v := DoSettle(w, t);
            && v.tasks == w.tasks - {t} && v.h.told == w.h.told && v.h.launches == w.h.launches
            && if Records(w, t) && w.tasks[t].pc.Answer().Some? then
                 v.h.confirms == w.h.confirms + [Confirm(w.tasks[t].pc.Answer().value, w.tasks[t].key)]
                 && v.h.lost == w.h.lost
               else
                 && v.h.confirms == w.h.confirms
                 && v.h.lost == if Records(w, t) then w.h.lost else Lose(w.h, w.tasks[t]).lost
  {
  }

  lemma TaskStepKeepsTold(w: World, t: nat, step: TaskStep)
    requires ToldInv(w) && TaskEnabled(w, t, step)
    ensures ToldInv(TaskNext(w, t, step))
  {
    if step.Settle? {
      SettleKeepsTold(w, t);
    } else if step.ProviderReturns? {
      ReturnKeepsTold(w, t, step.result);
    } else if step.ConfirmSession? || step.LoseSession? {
      EventKeepsTold(w, t, step);
    } else if step.DropFuture? {
      AnswerArrives(w, TaskNext(w, t, step), t);
    } else if step.CallProvider? {
      CallKeepsTold(w, t);
    } else {
      OtherStepKeepsTold(w, t, step);
    }
  }

  /** Whatever is refused, dropped or crashes, no name a provider gave goes
      unaccounted for. */
  lemma StepKeepsTold(w: World, e: Event)
    requires Named(w) && ToldInv(w) && Enabled(w, e)
    ensures ToldInv(Next(w, e))
  {
    match e {
      case OnLedger(step) => LedgerStepKeepsTold(w, step);
      case OnServer(step) => ServerStepKeepsTold(w, step);
      case OnTask(t, step) => TaskStepKeepsTold(w, t, step);
    }
  }
}
