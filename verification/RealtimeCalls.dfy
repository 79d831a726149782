/** What one call of the session service does to the row and when it tries again. */
module RealtimeCalls {
  import opened Common
  import opened RealtimeSession
  import opened RealtimeService

  /** Each attempt applies the transition that was asked for, at the time the attempt reads. */
  lemma AttemptsAreRetimed(t: Transition, now: Time)
    ensures At(t, now) == if t.Failure? then t else t.(now := now)
  {}

  /** The call is over. */
  predicate Over(p: Phase) { !p.Reading? && !p.Saving? }

  /** A call nobody disturbs is over after it has read the row, unless the transition changes it, and
      then after one save, which stores exactly the outcome of the transition. */
  lemma UndisturbedCall(y: System, c: nat, t: Transition, now: Time, clock: Time)
    requires c !in y.callers
    ensures var read := Step(Step(y, Begin(c, t)), Read(c, now));
            var outcome := Apply(y.row, At(t, now));
            && read.row == y.row && c in read.callers
            && (outcome.Err? || outcome.value == y.row ==> Over(read.callers[c].phase))
            && (outcome.Ok? && outcome.value != y.row ==>
                  && Enabled(read, Save(c, clock))
                  && var saved := Step(read, Save(c, clock));
                     && saved.row == Stamped(outcome.value, clock) && saved.saves == y.saves + 1
                     && Over(saved.callers[c].phase)
                     && (t.Audio? ==> saved.callers[c].phase == ReportedAccepted(t.audio.sequence)
                                      && saved.frames == y.frames + [t.audio]))
  {
    AttemptsAreRetimed(t, now);
    ChangeBumpsVersion(y.row, At(t, now));
  }

  /** A save that lost against another leaves row and frames alone. An audio call then reads again,
      up to three attempts in all; every other call is over. */
  lemma LostSavesAreRetried(y: System, c: nat, clock: Time)
    requires Enabled(y, Save(c, clock)) && y.row.version != y.callers[c].phase.snapshot.version
    ensures var u, call := Step(y, Save(c, clock)), y.callers[c];
            && u.row == y.row && u.frames == y.frames && u.savers == y.savers && u.saves == y.saves
            && (u.callers[c].phase.Reading? <==> call.transition.Audio? && call.attempt < 2)
            && (!u.callers[c].phase.Reading? ==> Over(u.callers[c].phase))
            && u.callers[c].transition == call.transition && u.callers[c].attempt == call.attempt + 1
  {}

  predicate AttemptsFit(y: System) {
    forall c :: c in y.callers && !Over(y.callers[c].phase) ==>
      y.callers[c].attempt < (if y.callers[c].transition.Audio? then 3 else 1)
  }

  /** So no call, under any interleaving, makes more than three attempts, and none but an audio call
      more than one. */
  lemma {:induction false} AttemptsAreBounded(ys: seq<System>, evs: seq<Event>, n: nat)
    requires IsExecution(ys, evs) && Initial(ys[0]) && n < |ys|
    ensures AttemptsFit(ys[n])
  {
    if n > 0 {
      AttemptsAreBounded(ys, evs, n - 1);
      AttemptsStayBounded(ys[n - 1], evs[n - 1]);
      assert ys[n] == Step(ys[n - 1], evs[n - 1]);
    }
  }

  lemma AttemptsStayBounded(y: System, ev: Event)
    requires AttemptsFit(y) && Enabled(y, ev)
    ensures AttemptsFit(Step(y, ev))
  {}
}
