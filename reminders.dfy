/** `sendTournamentReminders`: remind the mailinator participants of each tournament that
    starts in about eight hours, at most once per tournament and UTC day. */
module Reminders {
  import opened Wrappers
  import opened JsValues
  import opened Calendar
  import opened Sequences
  import opened EmailTracking
  import opened Tournaments
  import opened Dispatch

  const ToleranceMs: int := 30 * 60 * 1000
  const MailinatorSuffix: string := "@mailinator.com"
  const English: JsValue := Str("english")
  const Arabic: JsValue := Str("arabic")

  /** The `filterTournamentsStartingIn8Hours` test; here `parse` stands for `new Date(text)`,
      whose Invalid Date compares false with everything. */
  predicate StartsInAboutEightHours(t: Tournament, now: int, parse: Parser)
  {
    t.fullName.Str? && t.fullName.s != ""
    && var start := parse(FirstSegment(t.fullName.s));
    start.Some? && -ToleranceMs <= start.value - (now + EightHoursMs) <= ToleranceMs
  }

  /** `filterTournamentsStartingIn8Hours(tournaments)` at `now`: the window around
      `now + 8h` is thirty minutes wide on each side, both ends included. */
  function FilterStartingIn8Hours(ts: seq<Tournament>, now: int, parse: Parser): (r: seq<Tournament>)
    ensures forall t :: t in r <==>
      t in ts && t.fullName.Str? && t.fullName.s != ""
      && parse(FirstSegment(t.fullName.s)).Some?
      && now + EightHoursMs - ToleranceMs <= parse(FirstSegment(t.fullName.s)).value <= now + EightHoursMs + ToleranceMs
  {
    Filter(t => StartsInAboutEightHours(t, now, parse), ts)
  }

  /** The window filter keeps the input's qualifying tournaments in their order, each as
      often as it occurs: exactly the positions that pass, and no others. */
  lemma FilterStartingIn8HoursInOrder(ts: seq<Tournament>, now: int, parse: Parser) returns (idx: seq<int>)
    ensures Embeds(FilterStartingIn8Hours(ts, now, parse), ts, idx)
    ensures forall j :: 0 <= j < |ts| ==> (j in idx <==> StartsInAboutEightHours(ts[j], now, parse))
  {
    idx := FilterSelects(t => StartsInAboutEightHours(t, now, parse), ts);
  }

  /** The language the `forEach` assigns for a `custom_user_identifier`; None where
      `.toLowerCase()` throws, on a truthy value that is not a string. */
  function LanguageFor(cui: JsValue): Option<JsValue>
  {
    if !Truthy(cui) then Some(English)
    else if !cui.Str? then None
    else if Lower(cui.s) == "ar" then Some(Arabic)
    else Some(English)
  }

  /** Arabic exactly for the two-letter code "ar" in any letter case; English for anything
      else that does not throw, including a missing identifier. */
  lemma LanguageForCases(cui: JsValue)
    ensures LanguageFor(cui) == Some(Arabic) <==>
      cui.Str? && |cui.s| == 2 && (cui.s[0] == 'a' || cui.s[0] == 'A') && (cui.s[1] == 'r' || cui.s[1] == 'R')
    ensures LanguageFor(cui).None? <==> Truthy(cui) && !cui.Str?
    ensures LanguageFor(cui) == Some(English) <==> LanguageFor(cui) != Some(Arabic) && LanguageFor(cui).Some?
  {
    if cui.Str? && |cui.s| == 2 {
      var l := Lower(cui.s);
      assert l == "ar" <==> l[0] == 'a' && l[1] == 'r';
    }
  }

  /** The participants after the `forEach`: every record gets its language, or None when
      one identifier throws. */
  function WithLanguages(ps: seq<Participant>): (r: Option<seq<Participant>>)
    ensures r.Some? <==> forall i :: 0 <= i < |ps| ==> LanguageFor(ps[i].customUserIdentifier).Some?
    ensures r.Some? ==> |r.value| == |ps|
    ensures r.Some? ==> forall i :: 0 <= i < |ps| ==>
      r.value[i] == ps[i].(language := LanguageFor(ps[i].customUserIdentifier).value)
  {
    if ps == [] then Some([])
    else
      var n := |ps| - 1;
      var init := WithLanguages(ps[..n]);
      var lang := LanguageFor(ps[n].customUserIdentifier);
      if init.None? || lang.None? then None
      else Some(init.value + [ps[n].(language := lang.value)])
  }

  /** The `forEach` itself, writing each participant's language in place and stopping at the
      first identifier that throws. */
  method AssignLanguages(ps: array<Participant>) returns (ok: bool)
    modifies ps
    ensures ok <==> WithLanguages(old(ps[..])).Some?
    ensures ok ==> ps[..] == WithLanguages(old(ps[..])).value
  {
    var i := 0;
    while i < ps.Length
      invariant 0 <= i <= ps.Length
      invariant forall k :: i <= k < ps.Length ==> ps[k] == old(ps[k])
      invariant forall k :: 0 <= k < i ==> LanguageFor(old(ps[k]).customUserIdentifier).Some?
      invariant forall k :: 0 <= k < i ==>
        ps[k] == old(ps[k]).(language := LanguageFor(old(ps[k]).customUserIdentifier).value)
    {
      var lang := LanguageFor(ps[i].customUserIdentifier);
      if lang.None? {
        assert old(ps[..])[i] == ps[i];
        return false;
      }
      ps[i] := ps[i].(language := lang.value);
      i := i + 1;
    }
    return true;
  }

  /** The mailinator filter's callback throws on a truthy email that is not a string. */
  predicate EmailThrows(p: Participant)
  {
    Truthy(p.email) && !p.email.Str?
  }

  predicate IsMailinatorParticipant(p: Participant)
  {
    p.email.Str? && EndsWith(Lower(p.email.s), MailinatorSuffix)
  }

  /** The participants whose email, lower-cased, ends with "@mailinator.com", in order; None
      when the filter throws. */
  function MailinatorParticipants(ps: seq<Participant>): (r: Option<seq<Participant>>)
    ensures r.None? <==> exists i :: 0 <= i < |ps| && Truthy(ps[i].email) && !ps[i].email.Str?
    ensures r.Some? ==> |r.value| <= |ps|
    ensures r.Some? ==> forall p :: p in r.value <==>
      p in ps && p.email.Str? && EndsWith(Lower(p.email.s), MailinatorSuffix)
  {
    if exists i :: 0 <= i < |ps| && EmailThrows(ps[i]) then None
    else Some(Filter(IsMailinatorParticipant, ps))
  }

  /** When the filter does not throw, it keeps the input's mailinator participants in their
      order, each as often as it occurs: exactly the positions that match, and no others. */
  lemma MailinatorParticipantsInOrder(ps: seq<Participant>) returns (idx: seq<int>)
    requires MailinatorParticipants(ps).Some?
    ensures Embeds(MailinatorParticipants(ps).value, ps, idx)
    ensures forall j :: 0 <= j < |ps| ==> (j in idx <==> IsMailinatorParticipant(ps[j]))
  {
    idx := FilterSelects(IsMailinatorParticipant, ps);
  }

  /** The inner loop over the recipients, from the call log `calls` on: the number of
      reminders the transport accepted, and the log extended by the calls made. As written
      the subject helper is not bound (`subjectBound` false): every attempt throws before
      `sendEmail` and is swallowed. */
  function Attempts(recipients: seq<Participant>, about: JsValue, subjectBound: bool,
                    sendOk: nat -> bool, calls: seq<Call>): (r: (nat, seq<Call>))
    ensures calls <= r.1
    ensures subjectBound ==> |r.1| == |calls| + |recipients|
    ensures subjectBound ==> r.0 == Successes(sendOk, |calls|, |recipients|)
    ensures subjectBound ==> forall i :: 0 <= i < |recipients| ==>
      r.1[|calls| + i] == Call(Text(recipients[i].email), about)
    ensures !subjectBound ==> r == (0, calls)
  {
    if recipients == [] then (0, calls)
    else
      var n := |recipients| - 1;
      var a := Attempts(recipients[..n], about, subjectBound, sendOk, calls);
      if !subjectBound then a
      else
        var log' := a.1 + [Call(Text(recipients[n].email), about)];
        assert forall i :: 0 <= i < |a.1| ==> log'[i] == a.1[i];
        (a.0 + (if sendOk(|a.1|) then 1 else 0), log')
  }

  /** One more recipient: one more attempt, counted when the transport accepts it. */
  lemma AttemptsStep(recipients: seq<Participant>, i: nat, about: JsValue, subjectBound: bool,
                     sendOk: nat -> bool, calls: seq<Call>)
    requires i < |recipients|
    ensures var a := Attempts(recipients[..i], about, subjectBound, sendOk, calls);
      Attempts(recipients[..i + 1], about, subjectBound, sendOk, calls)
      == if subjectBound then (a.0 + (if sendOk(|a.1|) then 1 else 0), a.1 + [Call(Text(recipients[i].email), about)])
         else a
  {
    Prefixes(recipients, i);
  }

  /** The inner `for` loop, one attempt per recipient, each failure swallowed. */
  method SendReminderEmails(recipients: seq<Participant>, about: JsValue, subjectBound: bool,
                            sendOk: nat -> bool, calls: seq<Call>) returns (sent: nat, log: seq<Call>)
    ensures (sent, log) == Attempts(recipients, about, subjectBound, sendOk, calls)
  {
    sent, log := 0, calls;
    for i := 0 to |recipients|
      invariant (sent, log) == Attempts(recipients[..i], about, subjectBound, sendOk, calls)
    {
      AttemptsStep(recipients, i, about, subjectBound, sendOk, calls);
      if subjectBound {
        var accepted := sendOk(|log|);
        log := log + [Call(Text(recipients[i].email), about)];
        if accepted {
          sent := sent + 1;
        }
      }
    }
    assert recipients[..|recipients|] == recipients;
  }

  /** What a reminder run reads from outside: the tournament list (None when the fetch
      throws), the participants request per tournament id, the date parser, the transport's
      answer per call number, and whether the subject helper is bound. */
  datatype ReminderInputs = ReminderInputs(
    tournaments: Option<seq<Tournament>>,
    participants: JsValue -> Option<seq<Participant>>,
    parse: Parser,
    sendOk: nat -> bool,
    subjectBound: bool)

  datatype ReminderSummary = ReminderSummary(emailsSent: nat, emailsSkipped: nat, participantsFiltered: nat)

  /** The run's counters and its call log. */
  datatype Tally = Tally(emailsSent: nat, emailsSkipped: nat, participantsFiltered: nat, calls: seq<Call>)

  datatype Progress = Progress(store: Store, tally: Tally)

  /** The pass reads `full_name` as text and logs its start date with `toISOString()`, which
      throws for a `full_name` that is not a string and for an Invalid Date. Every tournament
      the window filter lets through satisfies this. */
  predicate StartReadable(t: Tournament, parse: Parser)
  {
    t.fullName.Str? && parse(FirstSegment(t.fullName.s)).Some?
  }

  /** One pass of the tournament loop; any throw inside it abandons the tournament with the
      counters as they stood. */
  function RemindOne(p: Progress, t: Tournament, env: ReminderInputs, now: Instant): Progress
  {
    var st, tally := p.store, p.tally;
    if !Truthy(t.fullName) || !StartReadable(t, env.parse) then p
    else if Sent(st.entries, t.id, Reminder, now) then
      Progress(st, tally.(emailsSkipped := tally.emailsSkipped + 1))
    else
      var fetched := FetchParticipants(t.id, env.participants);
      if fetched.Err? || fetched.value == [] then p
      else RemindParticipants(p, t, fetched.value, env, now)
  }

  /** The rest of the pass once the participants `ps` are fetched: a throw while assigning
      languages abandons the tournament. */
  function RemindParticipants(p: Progress, t: Tournament, ps: seq<Participant>, env: ReminderInputs, now: Instant): Progress
  {
    var withLang := WithLanguages(ps);
    if withLang.None? then p else RemindRecipients(p, t, withLang.value, env, now)
  }

  /** The participants `ws` carrying their languages: the mailinator filter, the sends, and
      the ledger record. */
  function RemindRecipients(p: Progress, t: Tournament, ws: seq<Participant>, env: ReminderInputs, now: Instant): Progress
  {
    var st, tally := p.store, p.tally;
    var mail := MailinatorParticipants(ws);
    if mail.None? then p
    else
      var recipients := mail.value;
      var filtered := tally.participantsFiltered + (|ws| - |recipients|);
      if recipients == [] then Progress(st, tally.(participantsFiltered := filtered))
      else
        Deliver(p, t, recipients, filtered, env, now)
  }

  /** The sends to the non-empty `recipients` and the tournament's record, which is written
      whether or not any send was accepted. */
  function Deliver(p: Progress, t: Tournament, recipients: seq<Participant>, filtered: nat,
                   env: ReminderInputs, now: Instant): Progress
  {
    var sends := Attempts(recipients, t.id, env.subjectBound, env.sendOk, p.tally.calls);
    Progress(Mark(p.store, t.id, Reminder, ReminderDetails(t.name, |recipients|, sends.0), now),
             Tally(p.tally.emailsSent + sends.0, p.tally.emailsSkipped, filtered, sends.1))
  }

  /** The tournament loop over `ts`, in order. */
  function RemindAll(p: Progress, ts: seq<Tournament>, env: ReminderInputs, now: Instant): Progress
  {
    if ts == [] then p
    else RemindOne(RemindAll(p, ts[..|ts| - 1], env, now), ts[|ts| - 1], env, now)
  }

  /** `sendTournamentReminders()` at `now`, on the ledger `st`. */
  function RemindersRun(st: Store, env: ReminderInputs, now: Instant): RunResult<ReminderSummary>
  {
    var cleaned := Cleanup(st, now);
    if env.tournaments.None? then RunResult(cleaned, Threw, [])
    else
      var due := FilterStartingIn8Hours(env.tournaments.value, now, env.parse);
      if due == [] then RunResult(cleaned, NothingToSend, [])
      else
        var q := RemindAll(Progress(cleaned, Tally(0, 0, 0, [])), due, env, now);
        RunResult(q.store, Completed(ReminderSummary(q.tally.emailsSent, q.tally.emailsSkipped,
                                                     q.tally.participantsFiltered)), q.tally.calls)
  }

  /** One tournament of the loop, against the ledger. */
  method RemindTournament(ledger: Ledger, tally: Tally, t: Tournament, env: ReminderInputs, now: Instant)
    returns (tally': Tally)
    modifies ledger
    ensures Progress(ledger.State(), tally') == RemindOne(Progress(old(ledger.State()), tally), t, env, now)
  {
    tally' := tally;
    if !Truthy(t.fullName) || !StartReadable(t, env.parse) {
      return;
    }
    var sent := ledger.HasEmailBeenSent(t.id, Reminder, now);
    assert sent == Sent(ledger.State().entries, t.id, Reminder, now);
    if sent {
      tally' := tally.(emailsSkipped := tally.emailsSkipped + 1);
      return;
    }
    var fetched := FetchParticipants(t.id, env.participants);
    if fetched.Err? || fetched.value == [] {
      return;
    }
    tally' := RemindParticipantsOf(ledger, tally, t, fetched.value, env, now);
  }

  /** The pass after the fetch, against the ledger: the languages are written in place on a
      fresh array of the fetched records. */
  method RemindParticipantsOf(ledger: Ledger, tally: Tally, t: Tournament, ps: seq<Participant>,
                              env: ReminderInputs, now: Instant) returns (tally': Tally)
    modifies ledger
    ensures Progress(ledger.State(), tally') == RemindParticipants(Progress(old(ledger.State()), tally), t, ps, env, now)
  {
    var arr := new Participant[|ps|](i requires 0 <= i < |ps| => ps[i]);
    assert arr[..] == ps;
    var ok := AssignLanguages(arr);
    if !ok {
      return tally;
    }
    var withLang := arr[..];
    tally' := RemindRecipientsOf(ledger, tally, t, withLang, env, now);
  }

  /** The mailinator filter, the sends and the record, against the ledger. */
  method RemindRecipientsOf(ledger: Ledger, tally: Tally, t: Tournament, ws: seq<Participant>,
                            env: ReminderInputs, now: Instant) returns (tally': Tally)
    modifies ledger
    ensures Progress(ledger.State(), tally') == RemindRecipients(Progress(old(ledger.State()), tally), t, ws, env, now)
  {
    var mail := MailinatorParticipants(ws);
    if mail.None? {
      return tally;
    }
    var recipients := mail.value;
    var filtered := tally.participantsFiltered + (|ws| - |recipients|);
    if recipients == [] {
      return tally.(participantsFiltered := filtered);
    }
    tally' := DeliverTo(ledger, tally, t, recipients, filtered, env, now);
  }

  /** The sends and the record, against the ledger. */
  method DeliverTo(ledger: Ledger, tally: Tally, t: Tournament, recipients: seq<Participant>, filtered: nat,
                   env: ReminderInputs, now: Instant) returns (tally': Tally)
    modifies ledger
    ensures Progress(ledger.State(), tally') == Deliver(Progress(old(ledger.State()), tally), t, recipients, filtered, env, now)
  {
    ghost var st := ledger.State();
    ghost var sends := Attempts(recipients, t.id, env.subjectBound, env.sendOk, tally.calls);
    var n, log := SendReminderEmails(recipients, t.id, env.subjectBound, env.sendOk, tally.calls);
    assert n == sends.0 && log == sends.1;
    ledger.MarkEmailAsSent(t.id, Reminder, ReminderDetails(t.name, |recipients|, n), now);
    tally' := Tally(tally.emailsSent + n, tally.emailsSkipped, filtered, log);
    assert ledger.State() == Mark(st, t.id, Reminder, ReminderDetails(t.name, |recipients|, n), now);
  }

  /** `sendTournamentReminders()` against the ledger; returns the outcome and the calls made. */
  method SendTournamentReminders(ledger: Ledger, env: ReminderInputs, now: Instant)
    returns (outcome: Outcome<ReminderSummary>, calls: seq<Call>)
    modifies ledger
    ensures RunResult(ledger.State(), outcome, calls) == RemindersRun(old(ledger.State()), env, now)
  {
    ledger.CleanupOldEntries(now);
    if env.tournaments.None? {
      return Threw, [];
    }
    var due := FilterStartingIn8Hours(env.tournaments.value, now, env.parse);
    if due == [] {
      return NothingToSend, [];
    }
    ghost var start := Progress(ledger.State(), Tally(0, 0, 0, []));
    var tally := Tally(0, 0, 0, []);
    for i := 0 to |due|
      invariant Progress(ledger.State(), tally) == RemindAll(start, due[..i], env, now)
    {
      Prefixes(due, i);
      tally := RemindTournament(ledger, tally, due[i], env, now);
    }
    assert due[..|due|] == due;
    outcome := Completed(ReminderSummary(tally.emailsSent, tally.emailsSkipped, tally.participantsFiltered));
    calls := tally.calls;
  }
}
