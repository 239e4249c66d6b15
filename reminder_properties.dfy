/** What a reminder run guarantees: the ledger only grows by today's records of the
    tournaments it reminded, every call goes to a mailinator address, the sent counter
    counts accepted calls, and a tournament is reminded at most once per UTC day. */
module ReminderProperties {
  import opened Wrappers
  import opened JsValues
  import opened Calendar
  import opened Sequences
  import opened EmailTracking
  import opened Tournaments
  import opened Dispatch
  import opened Reminders

  /** A new ledger record made on `now` for the tournament `id`. */
  predicate RecordOf(e: Entry, id: JsValue, now: Instant)
  {
    e.tournamentId == id && e.emailType == Reminder && e.sentAt == now && e.key == EmailKey(id, Reminder, now)
  }

  /** One pass appends at most one record, today's for its tournament, and never both skips
      and records. */
  lemma RemindOneLedger(p: Progress, t: Tournament, env: ReminderInputs, now: Instant)
    ensures p.store.entries <= RemindOne(p, t, env, now).store.entries
    ensures forall k :: |p.store.entries| <= k < |RemindOne(p, t, env, now).store.entries| ==>
      RecordOf(RemindOne(p, t, env, now).store.entries[k], t.id, now)
    ensures p.tally.emailsSkipped <= RemindOne(p, t, env, now).tally.emailsSkipped
    ensures RemindOne(p, t, env, now).tally.emailsSkipped - p.tally.emailsSkipped
      + |RemindOne(p, t, env, now).store.entries| - |p.store.entries| <= 1
    ensures UniqueKeys(p.store.entries) ==> UniqueKeys(RemindOne(p, t, env, now).store.entries)
  {
    var q := RemindOne(p, t, env, now);
    if Truthy(t.fullName) && StartReadable(t, env.parse) && !Sent(p.store.entries, t.id, Reminder, now) {
      var fetched := FetchParticipants(t.id, env.participants);
      if fetched.Ok? && fetched.value != [] {
        var withLang := WithLanguages(fetched.value);
        if withLang.Some? {
          RemindRecipientsLedger(p, t, withLang.value, env, now, q);
        }
      }
    }
  }

  /** The recording part of a pass over a tournament not yet recorded today: at most one
      record, today's for `t`, and nothing skipped. */
  lemma RemindRecipientsLedger(p: Progress, t: Tournament, ws: seq<Participant>, env: ReminderInputs,
                               now: Instant, q: Progress)
    requires q == RemindRecipients(p, t, ws, env, now)
    ensures p.store.entries <= q.store.entries
    ensures forall k :: |p.store.entries| <= k < |q.store.entries| ==> RecordOf(q.store.entries[k], t.id, now)
    ensures q.tally.emailsSkipped == p.tally.emailsSkipped
    ensures |q.store.entries| <= |p.store.entries| + 1
    ensures UniqueKeys(p.store.entries) ==> UniqueKeys(q.store.entries)
  {
    var mail := MailinatorParticipants(ws);
    if mail.None? || mail.value == [] {
      assert q.store == p.store && q.tally.emailsSkipped == p.tally.emailsSkipped;
    } else {
      var filtered := p.tally.participantsFiltered + (|ws| - |mail.value|);
      assert q == Deliver(p, t, mail.value, filtered, env, now);
      DeliverLedger(p, t, mail.value, filtered, env, now, q);
    }
  }

  /** The record written after the sends: today's for `t`, unless one is already there. */
  lemma DeliverLedger(p: Progress, t: Tournament, recipients: seq<Participant>, filtered: nat,
                      env: ReminderInputs, now: Instant, q: Progress)
    requires q == Deliver(p, t, recipients, filtered, env, now)
    ensures p.store.entries <= q.store.entries
    ensures forall k :: |p.store.entries| <= k < |q.store.entries| ==> RecordOf(q.store.entries[k], t.id, now)
    ensures q.tally.emailsSkipped == p.tally.emailsSkipped
    ensures |q.store.entries| <= |p.store.entries| + 1
    ensures !Sent(p.store.entries, t.id, Reminder, now) ==> |q.store.entries| == |p.store.entries| + 1
    ensures Sent(p.store.entries, t.id, Reminder, now) ==> q.store.entries == p.store.entries
    ensures |q.store.entries| > |p.store.entries| ==>
      q.store.entries[|p.store.entries|].details
      == ReminderDetails(t.name, |recipients|, q.tally.emailsSent - p.tally.emailsSent)
    ensures UniqueKeys(p.store.entries) ==> UniqueKeys(q.store.entries)
  {
    var sends := Attempts(recipients, t.id, env.subjectBound, env.sendOk, p.tally.calls);
    var d := ReminderDetails(t.name, |recipients|, sends.0);
    assert q.store == Mark(p.store, t.id, Reminder, d, now);
    assert q.tally.emailsSent == p.tally.emailsSent + sends.0;
    if !Sent(p.store.entries, t.id, Reminder, now) {
      assert q.store.entries == p.store.entries + [Entry(EmailKey(t.id, Reminder, now), t.id, Reminder, now, IsoDate(now), d)];
    }
    if UniqueKeys(p.store.entries) {
      MarkPreservesUniqueKeys(p.store, t.id, Reminder, d, now);
    }
  }

  /** The sending part of a pass: calls only about `t`, only to mailinator addresses, and
      the sent counter grows by the accepted calls. */
  lemma RemindRecipientsCalls(p: Progress, t: Tournament, ws: seq<Participant>, env: ReminderInputs,
                              now: Instant, q: Progress)
    requires q == RemindRecipients(p, t, ws, env, now)
    ensures p.tally.calls <= q.tally.calls
    ensures forall k :: |p.tally.calls| <= k < |q.tally.calls| ==>
      q.tally.calls[k].about == t.id && EndsWith(Lower(q.tally.calls[k].to), MailinatorSuffix)
    ensures |q.tally.calls| > |p.tally.calls| && !Sent(p.store.entries, t.id, Reminder, now) ==>
      |q.store.entries| == |p.store.entries| + 1
    ensures env.subjectBound ==>
      q.tally.emailsSent == p.tally.emailsSent + Successes(env.sendOk, |p.tally.calls|, |q.tally.calls| - |p.tally.calls|)
    ensures !env.subjectBound ==> q.tally.emailsSent == p.tally.emailsSent && q.tally.calls == p.tally.calls
  {
    var mail := MailinatorParticipants(ws);
    if mail.None? || mail.value == [] {
      assert q.tally.calls == p.tally.calls && q.tally.emailsSent == p.tally.emailsSent && q.store == p.store;
      assert Successes(env.sendOk, |p.tally.calls|, 0) == 0;
    } else {
      var filtered := p.tally.participantsFiltered + (|ws| - |mail.value|);
      assert q == Deliver(p, t, mail.value, filtered, env, now);
      DeliverCalls(p, t, mail.value, filtered, env, now, q);
    }
  }

  /** The sends to mailinator `recipients`: calls only about `t` and only to mailinator
      addresses, the sent counter grows by the accepted calls, and the record is written. */
  lemma DeliverCalls(p: Progress, t: Tournament, recipients: seq<Participant>, filtered: nat,
                     env: ReminderInputs, now: Instant, q: Progress)
    requires forall r :: r in recipients ==> IsMailinatorParticipant(r)
    requires q == Deliver(p, t, recipients, filtered, env, now)
    ensures p.tally.calls <= q.tally.calls
    ensures forall k :: |p.tally.calls| <= k < |q.tally.calls| ==>
      q.tally.calls[k].about == t.id && EndsWith(Lower(q.tally.calls[k].to), MailinatorSuffix)
    ensures !Sent(p.store.entries, t.id, Reminder, now) ==> |q.store.entries| == |p.store.entries| + 1
    ensures env.subjectBound ==>
      q.tally.emailsSent == p.tally.emailsSent + Successes(env.sendOk, |p.tally.calls|, |q.tally.calls| - |p.tally.calls|)
    ensures !env.subjectBound ==> q.tally.emailsSent == p.tally.emailsSent && q.tally.calls == p.tally.calls
    ensures env.subjectBound ==> |q.tally.calls| == |p.tally.calls| + |recipients|
    ensures q.tally.emailsSent <= p.tally.emailsSent + |recipients|
  {
    var sends := Attempts(recipients, t.id, env.subjectBound, env.sendOk, p.tally.calls);
    assert q.tally.calls == sends.1 && q.tally.emailsSent == p.tally.emailsSent + sends.0;
    if env.subjectBound {
      assert |sends.1| - |p.tally.calls| == |recipients|;
      assert sends.0 == Successes(env.sendOk, |p.tally.calls|, |recipients|);
    }
    MarkRecords(p.store, t.id, Reminder, ReminderDetails(t.name, |recipients|, sends.0), now, now);
    AttemptsReachMailinator(recipients, t.id, env.subjectBound, env.sendOk, p.tally.calls);
    forall k | |p.tally.calls| <= k < |q.tally.calls|
      ensures q.tally.calls[k].about == t.id && EndsWith(Lower(q.tally.calls[k].to), MailinatorSuffix)
    {
      assert q.tally.calls[k] == sends.1[k];
    }
  }

  /** Every attempt to mailinator recipients goes to a mailinator address, about `about`. */
  lemma AttemptsReachMailinator(recipients: seq<Participant>, about: JsValue, subjectBound: bool,
                                sendOk: nat -> bool, calls: seq<Call>)
    requires forall r :: r in recipients ==> IsMailinatorParticipant(r)
    ensures forall k :: |calls| <= k < |Attempts(recipients, about, subjectBound, sendOk, calls).1| ==>
      Attempts(recipients, about, subjectBound, sendOk, calls).1[k].about == about
      && EndsWith(Lower(Attempts(recipients, about, subjectBound, sendOk, calls).1[k].to), MailinatorSuffix)
  {
    var log := Attempts(recipients, about, subjectBound, sendOk, calls).1;
    forall k | |calls| <= k < |log|
      ensures log[k].about == about && EndsWith(Lower(log[k].to), MailinatorSuffix)
    {
      var r := recipients[k - |calls|];
      assert r in recipients;
      assert log[k] == Call(Text(r.email), about);
    }
  }

  /** One pass calls only about its own tournament, only to mailinator addresses, only when
      the tournament was not yet recorded today, and then records it; the sent counter grows
      by the accepted calls. */
  lemma RemindOneCalls(p: Progress, t: Tournament, env: ReminderInputs, now: Instant, q: Progress)
    requires q == RemindOne(p, t, env, now)
    ensures p.tally.calls <= q.tally.calls
    ensures forall k :: |p.tally.calls| <= k < |q.tally.calls| ==>
      q.tally.calls[k].about == t.id && EndsWith(Lower(q.tally.calls[k].to), MailinatorSuffix)
    ensures |q.tally.calls| > |p.tally.calls| ==>
      !Sent(p.store.entries, t.id, Reminder, now) && |q.store.entries| == |p.store.entries| + 1
    ensures env.subjectBound ==>
      q.tally.emailsSent == p.tally.emailsSent + Successes(env.sendOk, |p.tally.calls|, |q.tally.calls| - |p.tally.calls|)
    ensures !env.subjectBound ==> q.tally.emailsSent == p.tally.emailsSent && q.tally.calls == p.tally.calls
  {
    if Truthy(t.fullName) && StartReadable(t, env.parse) && !Sent(p.store.entries, t.id, Reminder, now) {
      var fetched := FetchParticipants(t.id, env.participants);
      if fetched.Ok? && fetched.value != [] {
        var withLang := WithLanguages(fetched.value);
        if withLang.Some? {
          RemindRecipientsCalls(p, t, withLang.value, env, now, q);
        }
      }
    }
  }

  /** Across the tournament loop the ledger only grows, by today's reminder records of
      tournaments in the list, and each tournament is either skipped or recorded, not both. */
  lemma {:induction false} RemindAllLedger(p: Progress, ts: seq<Tournament>, env: ReminderInputs, now: Instant, q: Progress)
    requires q == RemindAll(p, ts, env, now)
    ensures p.store.entries <= q.store.entries
    ensures forall k :: |p.store.entries| <= k < |q.store.entries| ==>
      exists t :: t in ts && RecordOf(q.store.entries[k], t.id, now)
    ensures p.tally.emailsSkipped <= q.tally.emailsSkipped
    ensures q.tally.emailsSkipped - p.tally.emailsSkipped + |q.store.entries| - |p.store.entries| <= |ts|
    ensures UniqueKeys(p.store.entries) ==> UniqueKeys(q.store.entries)
  {
    if ts != [] {
      var n := |ts| - 1;
      var mid := RemindAll(p, ts[..n], env, now);
      RemindAllLedger(p, ts[..n], env, now, mid);
      RemindOneLedger(mid, ts[n], env, now);
      forall k | |p.store.entries| <= k < |q.store.entries|
        ensures exists t :: t in ts && RecordOf(q.store.entries[k], t.id, now)
      {
        if k < |mid.store.entries| {
          var t :| t in ts[..n] && RecordOf(mid.store.entries[k], t.id, now);
          assert q.store.entries[k] == mid.store.entries[k];
        } else {
          assert RecordOf(q.store.entries[k], ts[n].id, now);
        }
      }
    }
  }

  /** From `p` to `q` the call log only grew and the sent counter grew by the calls the
      transport accepted; as written nothing was called and nothing counted. */
  ghost predicate CountsAgree(p: Progress, q: Progress, env: ReminderInputs)
  {
    p.tally.calls <= q.tally.calls
    && (env.subjectBound ==>
          q.tally.emailsSent == p.tally.emailsSent + Successes(env.sendOk, |p.tally.calls|, |q.tally.calls| - |p.tally.calls|))
    && (!env.subjectBound ==> q.tally.emailsSent == p.tally.emailsSent && q.tally.calls == p.tally.calls)
  }

  lemma CountsAgreeTrans(p: Progress, m: Progress, q: Progress, env: ReminderInputs)
    requires CountsAgree(p, m, env) && CountsAgree(m, q, env)
    ensures CountsAgree(p, q, env)
  {
    if env.subjectBound {
      SuccessesSplit(env.sendOk, |p.tally.calls|, |m.tally.calls| - |p.tally.calls|, |q.tally.calls| - |m.tally.calls|);
    }
  }

  /** Across the tournament loop the call log only grows and the sent counter is the number
      of accepted calls; as written nothing is called and nothing counted. */
  lemma {:induction false} RemindAllCounts(p: Progress, ts: seq<Tournament>, env: ReminderInputs, now: Instant, q: Progress)
    requires q == RemindAll(p, ts, env, now)
    ensures CountsAgree(p, q, env)
  {
    if ts == [] {
      assert Successes(env.sendOk, |p.tally.calls|, 0) == 0;
    } else {
      var n := |ts| - 1;
      var mid := RemindAll(p, ts[..n], env, now);
      RemindAllCounts(p, ts[..n], env, now, mid);
      RemindOneCalls(mid, ts[n], env, now, q);
      assert CountsAgree(mid, q, env);
      CountsAgreeTrans(p, mid, q, env);
    }
  }

  /** Across the tournament loop every call goes to a mailinator address, about a tournament
      of the list that was not recorded today when the loop began, and that tournament is
      recorded today by the end. */
  lemma {:induction false} RemindAllCalls(p: Progress, ts: seq<Tournament>, env: ReminderInputs, now: Instant, q: Progress)
    requires q == RemindAll(p, ts, env, now)
    ensures forall k :: |p.tally.calls| <= k < |q.tally.calls| ==> CallOk(p, ts, now, q, q.tally.calls[k])
  {
    if ts != [] {
      var n := |ts| - 1;
      var mid := RemindAll(p, ts[..n], env, now);
      RemindAllCalls(p, ts[..n], env, now, mid);
      RemindAllCounts(p, ts[..n], env, now, mid);
      RemindAllLedger(p, ts[..n], env, now, mid);
      RemindOneCalls(mid, ts[n], env, now, q);
      RemindOneLedger(mid, ts[n], env, now);
      forall k | |p.tally.calls| <= k < |q.tally.calls|
        ensures CallOk(p, ts, now, q, q.tally.calls[k])
      {
        var c := q.tally.calls[k];
        if k < |mid.tally.calls| {
          assert c == mid.tally.calls[k];
          assert CallOk(p, ts[..n], now, mid, c);
          var t :| t in ts[..n] && t.id == c.about;
          var j :| |p.store.entries| <= j < |mid.store.entries| && RecordOf(mid.store.entries[j], c.about, now);
          assert q.store.entries[j] == mid.store.entries[j];
        } else {
          assert c.about == ts[n].id;
          if Sent(p.store.entries, c.about, Reminder, now) {
            HasKeyExtends(p.store.entries, mid.store.entries, EmailKey(c.about, Reminder, now));
          }
          var j := |mid.store.entries|;
          assert RecordOf(q.store.entries[j], c.about, now);
        }
      }
    }
  }

  /** What holds of every call a loop from `p` to `q` over `ts` made. */
  ghost predicate CallOk(p: Progress, ts: seq<Tournament>, now: Instant, q: Progress, c: Call)
  {
    EndsWith(Lower(c.to), MailinatorSuffix)
    && (exists t :: t in ts && t.id == c.about)
    && !Sent(p.store.entries, c.about, Reminder, now)
    && exists j :: |p.store.entries| <= j < |q.store.entries| && RecordOf(q.store.entries[j], c.about, now)
  }

  /** The tournaments a run works through: those of the fetched list that start in about
      eight hours. */
  function Due(env: ReminderInputs, now: Instant): seq<Tournament>
    requires env.tournaments.Some?
  {
    FilterStartingIn8Hours(env.tournaments.value, now, env.parse)
  }

  /** A whole run leaves the cleaned ledger in place and adds only today's reminder records of
      due tournaments, at most one per due tournament not skipped; when it throws or finds
      nothing due it changes the ledger only by the cleanup. */
  lemma RemindersRunLedger(st: Store, env: ReminderInputs, now: Instant, r: RunResult<ReminderSummary>)
    requires r == RemindersRun(st, env, now)
    ensures Cleanup(st, now).entries <= r.store.entries
    ensures forall k :: |Cleanup(st, now).entries| <= k < |r.store.entries| ==>
      env.tournaments.Some? && exists t :: t in Due(env, now) && RecordOf(r.store.entries[k], t.id, now)
    ensures r.outcome.Completed? ==> env.tournaments.Some?
    ensures r.outcome.Completed? && env.tournaments.Some? ==>
      r.outcome.summary.emailsSkipped + |r.store.entries| - |Cleanup(st, now).entries| <= |Due(env, now)|
    ensures !r.outcome.Completed? ==> r.store == Cleanup(st, now) && r.calls == []
    ensures UniqueKeys(st.entries) ==> UniqueKeys(r.store.entries)
  {
    if UniqueKeys(st.entries) {
      CleanupPreservesUniqueKeys(st, now);
    }
    if env.tournaments.Some? && Due(env, now) != [] {
      var p := Progress(Cleanup(st, now), Tally(0, 0, 0, []));
      RemindAllLedger(p, Due(env, now), env, now, RemindAll(p, Due(env, now), env, now));
    }
  }

  /** Every call of a run goes to a mailinator address about a due tournament, and the
      reported count of sent emails is the number of calls the transport accepted. */
  lemma RemindersRunCalls(st: Store, env: ReminderInputs, now: Instant, r: RunResult<ReminderSummary>)
    requires r == RemindersRun(st, env, now)
    ensures forall c :: c in r.calls ==> EndsWith(Lower(c.to), MailinatorSuffix)
    ensures forall c :: c in r.calls ==> env.tournaments.Some? && exists t :: t in Due(env, now) && t.id == c.about
    ensures r.outcome.Completed? && env.subjectBound ==>
      r.outcome.summary.emailsSent == Successes(env.sendOk, 0, |r.calls|)
  {
    if env.tournaments.Some? && Due(env, now) != [] {
      var p := Progress(Cleanup(st, now), Tally(0, 0, 0, []));
      var q := RemindAll(p, Due(env, now), env, now);
      RemindAllCalls(p, Due(env, now), env, now, q);
      RemindAllCounts(p, Due(env, now), env, now, q);
      forall c | c in r.calls
        ensures EndsWith(Lower(c.to), MailinatorSuffix) && exists t :: t in Due(env, now) && t.id == c.about
      {
        var k :| 0 <= k < |q.tally.calls| && q.tally.calls[k] == c;
        assert CallOk(p, Due(env, now), now, q, c);
      }
    }
  }

  /** As written, no run sends anything: no call reaches the transport and the reported count
      is zero, though the due tournaments are still recorded as reminded. */
  lemma AsWrittenRemindsNobody(st: Store, env: ReminderInputs, now: Instant, r: RunResult<ReminderSummary>)
    requires r == RemindersRun(st, env, now) && !env.subjectBound
    ensures r.calls == []
    ensures r.outcome.Completed? ==> r.outcome.summary.emailsSent == 0
  {
    if env.tournaments.Some? && Due(env, now) != [] {
      var p := Progress(Cleanup(st, now), Tally(0, 0, 0, []));
      RemindAllCounts(p, Due(env, now), env, now, RemindAll(p, Due(env, now), env, now));
    }
  }

  /** A call made by a run is followed by a ledger record that makes the tournament count as
      reminded for the rest of that UTC day, cleanup included. */
  lemma CalledMeansRecorded(st: Store, env: ReminderInputs, now: Instant, later: Instant, c: Call)
    requires c in RemindersRun(st, env, now).calls && DayNumber(later) == DayNumber(now)
    ensures Sent(Cleanup(RemindersRun(st, env, now).store, later).entries, c.about, Reminder, later)
  {
    var r := RemindersRun(st, env, now);
    var p := Progress(Cleanup(st, now), Tally(0, 0, 0, []));
    var q := RemindAll(p, Due(env, now), env, now);
    RemindAllCalls(p, Due(env, now), env, now, q);
    var k :| 0 <= k < |q.tally.calls| && q.tally.calls[k] == c;
    assert CallOk(p, Due(env, now), now, q, c);
    var j :| |p.store.entries| <= j < |q.store.entries| && RecordOf(q.store.entries[j], c.about, now);
    assert r.store == q.store;
    RecordSurvivesTheDay(q.store, q.store.entries[j], c.about, now, later);
  }

  /** Today's record of `id` still marks it as sent after a cleanup later the same day. */
  lemma RecordSurvivesTheDay(st: Store, e: Entry, id: JsValue, now: Instant, later: Instant)
    requires e in st.entries && RecordOf(e, id, now) && DayNumber(later) == DayNumber(now)
    ensures Sent(Cleanup(st, later).entries, id, Reminder, later)
  {
    CleanupKeepsToday(st, e, later);
    EmailKeyNamesDay(id, Reminder, now, later);
    var cleaned := Cleanup(st, later).entries;
    var i :| 0 <= i < |cleaned| && cleaned[i] == e;
  }

  /** A run never calls about a tournament it finds already recorded today. */
  lemma RunSkipsRecorded(st: Store, env: ReminderInputs, now: Instant, c: Call)
    requires c in RemindersRun(st, env, now).calls
    ensures !Sent(Cleanup(st, now).entries, c.about, Reminder, now)
  {
    var p := Progress(Cleanup(st, now), Tally(0, 0, 0, []));
    var q := RemindAll(p, Due(env, now), env, now);
    RemindAllCalls(p, Due(env, now), env, now, q);
    var k :| 0 <= k < |q.tally.calls| && q.tally.calls[k] == c;
    assert CallOk(p, Due(env, now), now, q, c);
  }

  /** Two runs on the same UTC day never remind about the same tournament: whatever the first
      run called about, the second finds recorded and skips. */
  lemma SameDayRerunRepeatsNoReminder(st: Store, env1: ReminderInputs, env2: ReminderInputs,
                                      now1: Instant, now2: Instant, c1: Call, c2: Call)
    requires DayNumber(now1) == DayNumber(now2)
    requires c1 in RemindersRun(st, env1, now1).calls
    requires c2 in RemindersRun(RemindersRun(st, env1, now1).store, env2, now2).calls
    ensures c1.about != c2.about
  {
    CalledMeansRecorded(st, env1, now1, now2, c1);
    RunSkipsRecorded(RemindersRun(st, env1, now1).store, env2, now2, c2);
  }

  function ExampleTournament(): Tournament
  {
    Tournament(Num(7), Str("Cup"), Str("x"), Undefined, Undefined)
  }

  /** A tournament already reminded today only counts as skipped: the participant request and
      the transport are never consulted, and neither the ledger nor the other counters change. */
  lemma RecordedTournamentSkipped(p: Progress, t: Tournament, env: ReminderInputs, now: Instant,
                                  participants: JsValue -> Option<seq<Participant>>, sendOk: nat -> bool)
    requires Truthy(t.fullName) && StartReadable(t, env.parse) && Sent(p.store.entries, t.id, Reminder, now)
    ensures RemindOne(p, t, env, now).store == p.store
    ensures RemindOne(p, t, env, now).tally == p.tally.(emailsSkipped := p.tally.emailsSkipped + 1)
    ensures RemindOne(p, t, env, now) == RemindOne(p, t, env.(participants := participants, sendOk := sendOk), now)
  {
  }

  /** A pass over a tournament not reminded today whose participant request fails or finds no
      one leaves everything as it was. */
  lemma NoParticipantsNoRecord(p: Progress, t: Tournament, env: ReminderInputs, now: Instant)
    requires !Sent(p.store.entries, t.id, Reminder, now)
    requires FetchParticipants(t.id, env.participants).Err? || FetchParticipants(t.id, env.participants) == Ok([])
    ensures RemindOne(p, t, env, now) == p
  {
  }

  /** Once the languages are assigned, `participantsFiltered` grows by the number of
      participants the mailinator filter leaves out, and a pass with no mailinator recipient
      writes no record and sends nothing. A non-string email makes the filter throw, which
      abandons the tournament. */
  lemma RemindRecipientsFiltered(p: Progress, t: Tournament, ws: seq<Participant>, env: ReminderInputs, now: Instant)
    ensures MailinatorParticipants(ws).Some? ==>
      RemindRecipients(p, t, ws, env, now).tally.participantsFiltered
      == p.tally.participantsFiltered + |ws| - |MailinatorParticipants(ws).value|
    ensures MailinatorParticipants(ws) == Some([]) ==>
      RemindRecipients(p, t, ws, env, now).store == p.store
      && RemindRecipients(p, t, ws, env, now).tally.calls == p.tally.calls
      && RemindRecipients(p, t, ws, env, now).tally.emailsSent == p.tally.emailsSent
    ensures MailinatorParticipants(ws).None? ==> RemindRecipients(p, t, ws, env, now) == p
  {
  }

  /** The example's one participant, with the language the run assigns. */
  function ExampleRecipientRecord(): Participant
  {
    Participant(Str("a@mailinator.com"), Str("Ann"), Undefined, English)
  }

  /** One tournament due in exactly eight hours, with one mailinator participant, a
      transport that accepts everything, and the subject helper bound or not. */
  function ExampleInputs(subjectBound: bool, now: Instant): ReminderInputs
  {
    ReminderInputs(
      Some([ExampleTournament()]),
      (id: JsValue) => Some([Participant(Str("a@mailinator.com"), Str("Ann"), Undefined, Undefined)]),
      (text: string) => Some(now + EightHoursMs),
      (k: nat) => true,
      subjectBound)
  }

  lemma ExampleRecipient()
    ensures MailinatorParticipants([Participant(Str("a@mailinator.com"), Str("Ann"), Undefined, English)])
      == Some([Participant(Str("a@mailinator.com"), Str("Ann"), Undefined, English)])
  {
    var p := Participant(Str("a@mailinator.com"), Str("Ann"), Undefined, English);
    var email := "a@mailinator.com";
    assert Lower(email) == email;
    assert Lower(email)[|Lower(email)| - |MailinatorSuffix|..] == MailinatorSuffix;
    assert IsMailinatorParticipant(p);
    assert [p][1..] == [];
    assert Filter(IsMailinatorParticipant, [p]) == [p];
    assert !EmailThrows(p);
  }

  lemma ExampleLanguage(pp: Participant)
    requires pp.customUserIdentifier == Undefined
    ensures WithLanguages([pp]) == Some([pp.(language := English)])
  {
    assert [pp][..0] == [];
    assert WithLanguages([]) == Some([]);
    assert LanguageFor(Undefined) == Some(English);
    assert [] + [pp.(language := English)] == [pp.(language := English)];
  }

  lemma ExampleAttempts(pe: Participant, subjectBound: bool, sendOk: nat -> bool)
    requires pe.email == Str("a@mailinator.com") && sendOk(0)
    ensures Attempts([pe], Num(7), subjectBound, sendOk, [])
      == if subjectBound then (1, [Call("a@mailinator.com", Num(7))]) else (0, [])
  {
    assert [pe][..0] == [];
    assert Attempts([], Num(7), subjectBound, sendOk, []) == (0, []);
    assert Text(pe.email) == "a@mailinator.com";
    assert [] + [Call("a@mailinator.com", Num(7))] == [Call("a@mailinator.com", Num(7))];
  }

  /** A pass over a tournament not yet reminded today goes on with its fetched participants. */
  lemma RemindOneFetched(p: Progress, t: Tournament, env: ReminderInputs, now: Instant, ps: seq<Participant>)
    requires Truthy(t.fullName) && StartReadable(t, env.parse) && !Sent(p.store.entries, t.id, Reminder, now)
    requires FetchParticipants(t.id, env.participants) == Ok(ps) && ps != []
    ensures RemindOne(p, t, env, now) == RemindParticipants(p, t, ps, env, now)
  {
  }

  /** The example's pass reaches the sends with its one recipient. */
  lemma ExampleReachesDelivery(subjectBound: bool, now: Instant)
    ensures var env := ExampleInputs(subjectBound, now);
      RemindOne(Progress(Store([], 0), Tally(0, 0, 0, [])), ExampleTournament(), env, now)
      == Deliver(Progress(Store([], 0), Tally(0, 0, 0, [])), ExampleTournament(), [ExampleRecipientRecord()], 0, env, now)
  {
    var env := ExampleInputs(subjectBound, now);
    var t := ExampleTournament();
    assert !Sent([], t.id, Reminder, now) && StartReadable(t, env.parse);
    var pp := Participant(Str("a@mailinator.com"), Str("Ann"), Undefined, Undefined);
    var p := Progress(Store([], 0), Tally(0, 0, 0, []));
    var pe := ExampleRecipientRecord();
    assert FetchParticipants(t.id, env.participants) == Ok([pp]);
    RemindOneFetched(p, t, env, now, [pp]);
    ExampleLanguage(pp);
    assert RemindParticipants(p, t, [pp], env, now) == RemindRecipients(p, t, [pe], env, now);
    ExampleRecipient();
    assert RemindRecipients(p, t, [pe], env, now) == Deliver(p, t, [pe], 0, env, now);
  }

  /** The example's sends and record. */
  lemma ExampleDelivery(subjectBound: bool, now: Instant)
    ensures var q := Deliver(Progress(Store([], 0), Tally(0, 0, 0, [])), ExampleTournament(), [ExampleRecipientRecord()],
                             0, ExampleInputs(subjectBound, now), now);
      q.tally == (if subjectBound then Tally(1, 0, 0, [Call("a@mailinator.com", Num(7))]) else Tally(0, 0, 0, []))
      && |q.store.entries| == 1
  {
    var env := ExampleInputs(subjectBound, now);
    ExampleAttempts(ExampleRecipientRecord(), subjectBound, env.sendOk);
    assert !HasKey([], EmailKey(Num(7), Reminder, now));
  }

  /** The one pass of the example run, worked out. */
  lemma ExamplePass(subjectBound: bool, now: Instant)
    ensures var q := RemindOne(Progress(Store([], 0), Tally(0, 0, 0, [])), ExampleTournament(), ExampleInputs(subjectBound, now), now);
      q.tally == (if subjectBound then Tally(1, 0, 0, [Call("a@mailinator.com", Num(7))]) else Tally(0, 0, 0, []))
      && |q.store.entries| == 1
  {
    ExampleReachesDelivery(subjectBound, now);
    ExampleDelivery(subjectBound, now);
  }

  /** The loop of the example run, worked out. */
  lemma ExampleLoop(subjectBound: bool, now: Instant)
    ensures var env := ExampleInputs(subjectBound, now);
      Due(env, now) == env.tournaments.value
      && RemindAll(Progress(Store([], 0), Tally(0, 0, 0, [])), Due(env, now), env, now).tally
         == (if subjectBound then Tally(1, 0, 0, [Call("a@mailinator.com", Num(7))]) else Tally(0, 0, 0, []))
      && |RemindAll(Progress(Store([], 0), Tally(0, 0, 0, [])), Due(env, now), env, now).store.entries| == 1
  {
    var env := ExampleInputs(subjectBound, now);
    var t := ExampleTournament();
    assert env.tournaments.value == [t];
    assert StartsInAboutEightHours(t, now, env.parse);
    assert [t][1..] == [];
    assert Due(env, now) == [t];
    var p := Progress(Store([], 0), Tally(0, 0, 0, []));
    assert [t][..0] == [];
    assert RemindAll(p, [t], env, now) == RemindOne(p, t, env, now);
    ExamplePass(subjectBound, now);
  }

  /** As written: the due tournament is recorded as reminded, yet no email is sent. */
  lemma AsWrittenExample(now: Instant)
    ensures RemindersRun(Store([], 0), ExampleInputs(false, now), now).outcome == Completed(ReminderSummary(0, 0, 0))
    ensures RemindersRun(Store([], 0), ExampleInputs(false, now), now).calls == []
    ensures |RemindersRun(Store([], 0), ExampleInputs(false, now), now).store.entries| == 1
  {
    ExampleLoop(false, now);
    assert Cleanup(Store([], 0), now) == Store([], 0);
  }

  /** With the subject helper bound, the same run sends the one reminder. */
  lemma CorrectedExample(now: Instant)
    ensures RemindersRun(Store([], 0), ExampleInputs(true, now), now).outcome == Completed(ReminderSummary(1, 0, 0))
    ensures RemindersRun(Store([], 0), ExampleInputs(true, now), now).calls == [Call("a@mailinator.com", Num(7))]
  {
    ExampleLoop(true, now);
    assert Cleanup(Store([], 0), now) == Store([], 0);
  }
}
