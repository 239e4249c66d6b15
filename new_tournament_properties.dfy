/** What a new-tournament notification run guarantees: every recent tournament is either
    skipped or gets exactly one alert to the sender address, the ledger records exactly the
    accepted alerts, the registrations are not consulted when nothing is recent, and as
    written every run throws. */
module NewTournamentProperties {
  import opened Wrappers
  import opened JsValues
  import opened Calendar
  import opened Sequences
  import opened EmailTracking
  import opened Tournaments
  import opened Dispatch
  import opened NewTournaments

  /** The ids of the tournaments `ts`, in order. */
  function Ids(ts: seq<Tournament>): (r: seq<JsValue>)
    ensures |r| == |ts| && forall i :: 0 <= i < |ts| ==> r[i] == ts[i].id
  {
    seq(|ts|, i requires 0 <= i < |ts| => ts[i].id)
  }

  lemma IdsAppend(ts1: seq<Tournament>, ts2: seq<Tournament>)
    ensures Ids(ts1 + ts2) == Ids(ts1) + Ids(ts2)
  {
  }

  /** From `p` to `q` over `ts`, the calls: the log only grew, every tournament was skipped
      or called about exactly once, each call went to the sender address about one of `ts`,
      and the sent counter grew by the accepted calls. */
  ghost predicate CallsAccounted(p: NProgress, ts: seq<Tournament>, sendOk: nat -> bool, q: NProgress)
  {
    p.tally.calls <= q.tally.calls
    && p.tally.emailsSkipped <= q.tally.emailsSkipped
    && (|q.tally.calls| - |p.tally.calls|) + (q.tally.emailsSkipped - p.tally.emailsSkipped) == |ts|
    && (forall k :: |p.tally.calls| <= k < |q.tally.calls| ==>
          q.tally.calls[k].to == NoReply && q.tally.calls[k].about in Ids(ts))
    && q.tally.emailsSent == p.tally.emailsSent + Successes(sendOk, |p.tally.calls|, |q.tally.calls| - |p.tally.calls|)
  }

  /** From `p` to `q` over `ts`, the ledger: it only grew, by one record per email sent,
      each today's alert record of one of `ts`. */
  ghost predicate LedgerAccounted(p: NProgress, ts: seq<Tournament>, now: Instant, q: NProgress)
  {
    p.store.entries <= q.store.entries
    && p.tally.emailsSent <= q.tally.emailsSent
    && |q.store.entries| - |p.store.entries| == q.tally.emailsSent - p.tally.emailsSent
    && (forall k :: |p.store.entries| <= k < |q.store.entries| ==>
          q.store.entries[k].emailType == NewTournament && q.store.entries[k].sentAt == now
          && q.store.entries[k].tournamentId in Ids(ts))
  }

  lemma NotifyOneCalls(p: NProgress, t: Tournament, userCount: nat, sendOk: nat -> bool, now: Instant)
    ensures CallsAccounted(p, [t], sendOk, NotifyOne(p, t, userCount, sendOk, now))
  {
    var q := NotifyOne(p, t, userCount, sendOk, now);
    assert Ids([t]) == [t.id];
    var c := |p.tally.calls|;
    if Sent(p.store.entries, t.id, NewTournament, now) {
      assert q.tally.calls == p.tally.calls && q.tally.emailsSent == p.tally.emailsSent;
      assert Successes(sendOk, c, 0) == 0;
    } else {
      assert q.tally.calls == p.tally.calls + [Call(NoReply, t.id)];
      assert q.tally.emailsSkipped == p.tally.emailsSkipped;
      assert q.tally.calls[c] == Call(NoReply, t.id);
      assert Successes(sendOk, c, 1) == if sendOk(c) then 1 else 0;
    }
  }

  lemma NotifyOneLedger(p: NProgress, t: Tournament, userCount: nat, sendOk: nat -> bool, now: Instant)
    ensures LedgerAccounted(p, [t], now, NotifyOne(p, t, userCount, sendOk, now))
  {
    var q := NotifyOne(p, t, userCount, sendOk, now);
    assert Ids([t]) == [t.id];
    if !Sent(p.store.entries, t.id, NewTournament, now) && sendOk(|p.tally.calls|) {
      var e := Entry(EmailKey(t.id, NewTournament, now), t.id, NewTournament, now, IsoDate(now),
                     NewTournamentDetails(t.name, userCount));
      assert q.store.entries == p.store.entries + [e];
      assert q.store.entries[|p.store.entries|] == e;
    } else {
      assert q.store == p.store && q.tally.emailsSent == p.tally.emailsSent;
    }
  }

  lemma CallsAccountedTrans(p: NProgress, ts1: seq<Tournament>, m: NProgress, ts2: seq<Tournament>,
                            sendOk: nat -> bool, q: NProgress)
    requires CallsAccounted(p, ts1, sendOk, m) && CallsAccounted(m, ts2, sendOk, q)
    ensures CallsAccounted(p, ts1 + ts2, sendOk, q)
  {
    SuccessesSplit(sendOk, |p.tally.calls|, |m.tally.calls| - |p.tally.calls|, |q.tally.calls| - |m.tally.calls|);
    IdsAppend(ts1, ts2);
    forall k | |p.tally.calls| <= k < |q.tally.calls|
      ensures q.tally.calls[k].to == NoReply && q.tally.calls[k].about in Ids(ts1 + ts2)
    {
      if k < |m.tally.calls| {
        assert q.tally.calls[k] == m.tally.calls[k];
      }
    }
  }

  lemma LedgerAccountedTrans(p: NProgress, ts1: seq<Tournament>, m: NProgress, ts2: seq<Tournament>,
                             now: Instant, q: NProgress)
    requires LedgerAccounted(p, ts1, now, m) && LedgerAccounted(m, ts2, now, q)
    ensures LedgerAccounted(p, ts1 + ts2, now, q)
  {
    IdsAppend(ts1, ts2);
    forall k | |p.store.entries| <= k < |q.store.entries|
      ensures q.store.entries[k].emailType == NewTournament && q.store.entries[k].sentAt == now
        && q.store.entries[k].tournamentId in Ids(ts1 + ts2)
    {
      if k < |m.store.entries| {
        assert q.store.entries[k] == m.store.entries[k];
      }
    }
  }

  /** The loop's last pass, unfolded once. */
  lemma NotifyAllStep(p: NProgress, ts: seq<Tournament>, userCount: nat, sendOk: nat -> bool, now: Instant)
    requires ts != []
    ensures NotifyAll(p, ts, userCount, sendOk, now)
      == NotifyOne(NotifyAll(p, ts[..|ts| - 1], userCount, sendOk, now), ts[|ts| - 1], userCount, sendOk, now)
  {
  }

  /** The whole tournament loop is accounted for: its calls. */
  lemma {:induction false} NotifyAllCalls(p: NProgress, ts: seq<Tournament>, userCount: nat, sendOk: nat -> bool, now: Instant)
    ensures CallsAccounted(p, ts, sendOk, NotifyAll(p, ts, userCount, sendOk, now))
  {
    if ts == [] {
      assert Successes(sendOk, |p.tally.calls|, 0) == 0;
    } else {
      var n := |ts| - 1;
      var mid := NotifyAll(p, ts[..n], userCount, sendOk, now);
      var q := NotifyAll(p, ts, userCount, sendOk, now);
      NotifyAllStep(p, ts, userCount, sendOk, now);
      NotifyAllCalls(p, ts[..n], userCount, sendOk, now);
      NotifyOneCalls(mid, ts[n], userCount, sendOk, now);
      SplitLast(ts);
      CallsAccountedTrans(p, ts[..n], mid, [ts[n]], sendOk, q);
    }
  }

  /** The whole tournament loop is accounted for: its ledger records. */
  lemma {:induction false} NotifyAllLedger(p: NProgress, ts: seq<Tournament>, userCount: nat, sendOk: nat -> bool, now: Instant)
    ensures LedgerAccounted(p, ts, now, NotifyAll(p, ts, userCount, sendOk, now))
  {
    if ts != [] {
      var n := |ts| - 1;
      var mid := NotifyAll(p, ts[..n], userCount, sendOk, now);
      var q := NotifyAll(p, ts, userCount, sendOk, now);
      NotifyAllStep(p, ts, userCount, sendOk, now);
      NotifyAllLedger(p, ts[..n], userCount, sendOk, now);
      NotifyOneLedger(mid, ts[n], userCount, sendOk, now);
      SplitLast(ts);
      LedgerAccountedTrans(p, ts[..n], mid, [ts[n]], now, q);
    }
  }

  lemma {:induction false} NotifyAllPreservesUniqueKeys(p: NProgress, ts: seq<Tournament>, userCount: nat, sendOk: nat -> bool, now: Instant)
    requires UniqueKeys(p.store.entries)
    ensures UniqueKeys(NotifyAll(p, ts, userCount, sendOk, now).store.entries)
  {
    if ts != [] {
      var n := |ts| - 1;
      var mid := NotifyAll(p, ts[..n], userCount, sendOk, now);
      NotifyAllPreservesUniqueKeys(p, ts[..n], userCount, sendOk, now);
      MarkPreservesUniqueKeys(mid.store, ts[n].id, NewTournament, NewTournamentDetails(ts[n].name, userCount), now);
    }
  }

  /** A completed run accounts for every recent tournament: it was skipped or alerted once,
      all alerts went to the sender address, and the sent count is the number of accepted
      calls. A run that does not complete sends nothing. */
  lemma NotifyRunAccounting(st: Store, env: NotifyInputs, now: Instant, r: RunResult<NotifySummary>)
    requires r == NotifyRun(st, env, now)
    ensures forall k :: 0 <= k < |r.calls| ==> r.calls[k].to == NoReply
    ensures r.outcome.Completed? ==> env.tournaments.Some? && env.helpersBound
    ensures r.outcome.Completed? && env.tournaments.Some? ==>
      |r.calls| + r.outcome.summary.emailsSkipped == |env.recent(env.tournaments.value)|
    ensures r.outcome.Completed? ==> r.outcome.summary.emailsSent == Successes(env.sendOk, 0, |r.calls|)
    ensures !r.outcome.Completed? ==> r.calls == []
  {
    if env.tournaments.Some? && env.helpersBound && env.registrations.Some? {
      var recent := env.recent(env.tournaments.value);
      var emails := MailinatorEmails(env.registrations.value);
      if recent != [] && emails.Some? && emails.value != [] {
        var p := NProgress(Cleanup(st, now), NTally(0, 0, []));
        var q := NotifyAll(p, recent, |emails.value|, env.sendOk, now);
        NotifyRunLoop(st, env, now);
        assert r == RunResult(q.store, Completed(NotifySummary(q.tally.emailsSent, q.tally.emailsSkipped)), q.tally.calls);
        NotifyAllCalls(p, recent, |emails.value|, env.sendOk, now);
      }
    }
  }

  /** A run's ledger is the cleaned ledger plus one record per email sent, and keeps its keys
      unique; a run that does not complete changes the ledger only by the cleanup. */
  lemma NotifyRunLedger(st: Store, env: NotifyInputs, now: Instant, r: RunResult<NotifySummary>)
    requires r == NotifyRun(st, env, now)
    ensures Cleanup(st, now).entries <= r.store.entries
    ensures r.outcome.Completed? ==>
      |r.store.entries| == |Cleanup(st, now).entries| + r.outcome.summary.emailsSent
    ensures !r.outcome.Completed? ==> r.store == Cleanup(st, now)
    ensures UniqueKeys(st.entries) ==> UniqueKeys(r.store.entries)
  {
    if UniqueKeys(st.entries) {
      CleanupPreservesUniqueKeys(st, now);
    }
    if env.tournaments.Some? && env.helpersBound && env.registrations.Some? {
      var recent := env.recent(env.tournaments.value);
      var emails := MailinatorEmails(env.registrations.value);
      if recent != [] && emails.Some? && emails.value != [] {
        var p := NProgress(Cleanup(st, now), NTally(0, 0, []));
        var q := NotifyAll(p, recent, |emails.value|, env.sendOk, now);
        NotifyRunLoop(st, env, now);
        assert r == RunResult(q.store, Completed(NotifySummary(q.tally.emailsSent, q.tally.emailsSkipped)), q.tally.calls);
        NotifyAllLedger(p, recent, |emails.value|, env.sendOk, now);
        if UniqueKeys(st.entries) {
          NotifyAllPreservesUniqueKeys(p, recent, |emails.value|, env.sendOk, now);
        }
      }
    }
  }

  /** With no recent tournament the run ends before fetching registrations: its result does
      not depend on them. */
  lemma NoRecentIgnoresRegistrations(st: Store, env: NotifyInputs, regs: Option<seq<Registration>>, now: Instant)
    requires env.tournaments.Some? && env.helpersBound && env.recent(env.tournaments.value) == []
    ensures NotifyRun(st, env, now) == NotifyRun(st, env.(registrations := regs), now)
      == RunResult(Cleanup(st, now), NothingToSend, [])
  {
  }

  /** With no mailinator user among the registrations no alert is sent. */
  lemma NoMailinatorUsersNoAlert(st: Store, env: NotifyInputs, now: Instant)
    requires env.registrations.Some?
    requires forall i :: 0 <= i < |env.registrations.value| ==>
      !Truthy(env.registrations.value[i].email) || IsNonMailinatorText(env.registrations.value[i].email)
    ensures NotifyRun(st, env, now).calls == []
    ensures env.tournaments.Some? && env.helpersBound && env.recent(env.tournaments.value) != [] ==>
      NotifyRun(st, env, now).outcome == NothingToSend
  {
    NoMailinatorEmails(env.registrations.value);
  }

  lemma NoMailinatorEmails(regs: seq<Registration>)
    requires forall i :: 0 <= i < |regs| ==> !Truthy(regs[i].email) || IsNonMailinatorText(regs[i].email)
    ensures MailinatorEmails(regs) == Some([])
  {
    var emails := EmailsOf(regs);
    forall v | v in emails
      ensures !IsMailinatorEmail(v)
    {
      var i :| 0 <= i < |emails| && emails[i] == v;
      assert v == regs[i].email;
    }
    FilterNone(IsMailinatorEmail, emails);
  }

  /** A string email without "mailinator" in it, in any letter case. */
  predicate IsNonMailinatorText(v: JsValue)
  {
    v.Str? && !Includes(Lower(v.s), "mailinator")
  }

  /** As written the two tournament-service helpers are not exported, so every run throws
      after the cleanup and sends nothing. */
  lemma AsWrittenNotifyThrows(st: Store, env: NotifyInputs, now: Instant)
    requires !env.helpersBound
    ensures NotifyRun(st, env, now) == RunResult(Cleanup(st, now), Threw, [])
  {
  }

  /** With the helpers bound, one recent tournament and one mailinator user, an accepting
      transport yields one alert. */
  lemma CorrectedNotifyExample(now: Instant)
    ensures var env := NotifyInputs(Some([]), true,
                                    (all: seq<Tournament>) => [Tournament(Num(3), Str("Open"), Str("x"), Undefined, Undefined)],
                                    Some([Registration(Str("mailinator"))]), (k: nat) => true);
      NotifyRun(Store([], 0), env, now).outcome == Completed(NotifySummary(1, 0))
      && NotifyRun(Store([], 0), env, now).calls == [Call(NoReply, Num(3))]
  {
    var t := Tournament(Num(3), Str("Open"), Str("x"), Undefined, Undefined);
    var env := NotifyInputs(Some([]), true, (all: seq<Tournament>) => [t],
                            Some([Registration(Str("mailinator"))]), (k: nat) => true);
    ExampleMailinatorEmails();
    assert Cleanup(Store([], 0), now) == Store([], 0);
    var p := NProgress(Store([], 0), NTally(0, 0, []));
    NotifyRunLoop(Store([], 0), env, now);
    assert [t][..0] == [];
    var q := NotifyAll(p, [t], 1, env.sendOk, now);
    assert q == NotifyOne(p, t, 1, env.sendOk, now);
    assert !Sent([], t.id, NewTournament, now);
    NotifyOneSends(p, t, 1, env.sendOk, now);
    assert q.tally == NTally(1, 0, [Call(NoReply, t.id)]);
  }

  /** A run that reaches the tournament loop reports the loop's counters and calls. */
  lemma NotifyRunLoop(st: Store, env: NotifyInputs, now: Instant)
    requires env.tournaments.Some? && env.helpersBound && env.recent(env.tournaments.value) != []
    requires env.registrations.Some? && MailinatorEmails(env.registrations.value).Some?
    requires MailinatorEmails(env.registrations.value).value != []
    ensures var q := NotifyAll(NProgress(Cleanup(st, now), NTally(0, 0, [])), env.recent(env.tournaments.value),
                               |MailinatorEmails(env.registrations.value).value|, env.sendOk, now);
      NotifyRun(st, env, now) == RunResult(q.store, Completed(NotifySummary(q.tally.emailsSent, q.tally.emailsSkipped)), q.tally.calls)
  {
  }

  /** A pass over a tournament not yet alerted today whose send is accepted counts one email. */
  lemma NotifyOneSends(p: NProgress, t: Tournament, userCount: nat, sendOk: nat -> bool, now: Instant)
    requires !Sent(p.store.entries, t.id, NewTournament, now)
    ensures NotifyOne(p, t, userCount, sendOk, now).tally.calls == p.tally.calls + [Call(NoReply, t.id)]
    ensures NotifyOne(p, t, userCount, sendOk, now).tally.emailsSkipped == p.tally.emailsSkipped
    ensures sendOk(|p.tally.calls|) ==>
      NotifyOne(p, t, userCount, sendOk, now).tally.emailsSent == p.tally.emailsSent + 1
      && Sent(NotifyOne(p, t, userCount, sendOk, now).store.entries, t.id, NewTournament, now)
    ensures !sendOk(|p.tally.calls|) ==>
      NotifyOne(p, t, userCount, sendOk, now).tally.emailsSent == p.tally.emailsSent
      && NotifyOne(p, t, userCount, sendOk, now).store == p.store
  {
    MarkRecords(p.store, t.id, NewTournament, NewTournamentDetails(t.name, userCount), now, now);
  }

  /** A tournament already alerted today only counts as skipped: no send and no record. */
  lemma NotifyOneSkips(p: NProgress, t: Tournament, userCount: nat, sendOk: nat -> bool, now: Instant)
    requires Sent(p.store.entries, t.id, NewTournament, now)
    ensures NotifyOne(p, t, userCount, sendOk, now).store == p.store
    ensures NotifyOne(p, t, userCount, sendOk, now).tally.calls == p.tally.calls
    ensures NotifyOne(p, t, userCount, sendOk, now).tally.emailsSent == p.tally.emailsSent
    ensures NotifyOne(p, t, userCount, sendOk, now).tally.emailsSkipped == p.tally.emailsSkipped + 1
  {
  }

  /** The example's one registration is its one mailinator user. */
  lemma ExampleMailinatorEmails()
    ensures MailinatorEmails([Registration(Str("mailinator"))]) == Some([Str("mailinator")])
  {
    var regs := [Registration(Str("mailinator"))];
    assert Lower("mailinator") == "mailinator";
    assert OccursAt(Lower("mailinator"), "mailinator", 0);
    var x := Str("mailinator");
    assert IsMailinatorEmail(x);
    assert EmailsOf(regs) == [x];
    assert [x][1..] == [];
    assert Filter(IsMailinatorEmail, [x]) == [x];
    assert [x][..0] == [];
    assert Dedup([x]) == [x];
  }

  /** The same inputs as written: the run throws and nothing is sent. */
  lemma AsWrittenNotifyExample(now: Instant)
    ensures var env := NotifyInputs(Some([]), false,
                                    (all: seq<Tournament>) => [Tournament(Num(3), Str("Open"), Str("x"), Undefined, Undefined)],
                                    Some([Registration(Str("mailinator"))]), (k: nat) => true);
      NotifyRun(Store([], 0), env, now) == RunResult(Store([], 0), Threw, [])
  {
    assert Cleanup(Store([], 0), now) == Store([], 0);
  }
}
