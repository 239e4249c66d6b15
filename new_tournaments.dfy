/** `sendNewTournamentNotifications`: for each recently created tournament, one consolidated
    alert to the verified sender address listing the mailinator users, at most once per
    tournament and UTC day. */
module NewTournaments {
  import opened Wrappers
  import opened JsValues
  import opened Calendar
  import opened Sequences
  import opened EmailTracking
  import opened Tournaments
  import opened Dispatch

  /** The one address every alert goes to. */
  const NoReply: string := "noreply@tgcesports.gg"

  /** A registration record; only its email is read. */
  datatype Registration = Registration(email: JsValue)

  /** `allRegistrations.map(reg => reg.email)`. */
  function EmailsOf(regs: seq<Registration>): (r: seq<JsValue>)
    ensures |r| == |regs| && forall i :: 0 <= i < |regs| ==> r[i] == regs[i].email
  {
    seq(|regs|, i requires 0 <= i < |regs| => regs[i].email)
  }

  /** The filter callback: a truthy email containing "mailinator" in any letter case. */
  predicate IsMailinatorEmail(v: JsValue)
  {
    v.Str? && Includes(Lower(v.s), "mailinator")
  }

  /** The unique mailinator emails, `[...new Set(...)]`; None when the filter's
      `.toLowerCase()` throws on a truthy email that is not a string. */
  function MailinatorEmails(regs: seq<Registration>): (r: Option<seq<JsValue>>)
    ensures r.None? <==> exists i :: 0 <= i < |regs| && Truthy(regs[i].email) && !regs[i].email.Str?
    ensures r.Some? ==> forall v :: v in r.value <==>
      (exists i :: 0 <= i < |regs| && regs[i].email == v) && v.Str? && Includes(Lower(v.s), "mailinator")
    ensures r.Some? ==> Distinct(r.value)
  {
    if exists i :: 0 <= i < |regs| && Truthy(regs[i].email) && !regs[i].email.Str? then None
    else
      var emails := EmailsOf(regs);
      assert forall v :: v in emails <==> exists i :: 0 <= i < |regs| && regs[i].email == v;
      Some(Dedup(Filter(IsMailinatorEmail, emails)))
  }

  /** The recipients list keeps each mailinator email once, at the position where it first
      occurs among the registrations. */
  lemma MailinatorEmailsFirstOccurrences(regs: seq<Registration>) returns (idx: seq<int>)
    requires MailinatorEmails(regs).Some?
    ensures Embeds(MailinatorEmails(regs).value, EmailsOf(regs), idx)
    ensures forall j :: 0 <= j < |regs| ==>
      (j in idx <==> IsMailinatorEmail(regs[j].email) && regs[j].email !in EmailsOf(regs)[..j])
  {
    idx := DedupFilterKeepsFirstOccurrences(IsMailinatorEmail, EmailsOf(regs));
  }

  /** What a notification run reads from outside: the tournament list (None when the fetch
      throws), whether the two helpers it calls on the tournament service are bound,
      `filterRecentTournaments` as a function of the list, the registrations (None when the
      fetch throws), and the transport's answer per call number. */
  datatype NotifyInputs = NotifyInputs(
    tournaments: Option<seq<Tournament>>,
    helpersBound: bool,
    recent: seq<Tournament> -> seq<Tournament>,
    registrations: Option<seq<Registration>>,
    sendOk: nat -> bool)

  datatype NotifySummary = NotifySummary(emailsSent: nat, emailsSkipped: nat)

  datatype NTally = NTally(emailsSent: nat, emailsSkipped: nat, calls: seq<Call>)

  datatype NProgress = NProgress(store: Store, tally: NTally)

  /** One pass of the tournament loop: skip a tournament already alerted today; otherwise
      one `sendEmail` call, and only when it is accepted the ledger record and the count. */
  function NotifyOne(p: NProgress, t: Tournament, userCount: nat, sendOk: nat -> bool, now: Instant): NProgress
  {
    var st, tally := p.store, p.tally;
    if Sent(st.entries, t.id, NewTournament, now) then
      NProgress(st, tally.(emailsSkipped := tally.emailsSkipped + 1))
    else
      var calls := tally.calls + [Call(NoReply, t.id)];
      if sendOk(|tally.calls|) then
        NProgress(Mark(st, t.id, NewTournament, NewTournamentDetails(t.name, userCount), now),
                  NTally(tally.emailsSent + 1, tally.emailsSkipped, calls))
      else NProgress(st, tally.(calls := calls))
  }

  /** The tournament loop over `ts`, in order. */
  function NotifyAll(p: NProgress, ts: seq<Tournament>, userCount: nat, sendOk: nat -> bool, now: Instant): NProgress
  {
    if ts == [] then p
    else NotifyOne(NotifyAll(p, ts[..|ts| - 1], userCount, sendOk, now), ts[|ts| - 1], userCount, sendOk, now)
  }

  /** `sendNewTournamentNotifications()` at `now`, on the ledger `st`. */
  function NotifyRun(st: Store, env: NotifyInputs, now: Instant): RunResult<NotifySummary>
  {
    var cleaned := Cleanup(st, now);
    if env.tournaments.None? || !env.helpersBound then RunResult(cleaned, Threw, [])
    else
      var recent := env.recent(env.tournaments.value);
      if recent == [] then RunResult(cleaned, NothingToSend, [])
      else if env.registrations.None? then RunResult(cleaned, Threw, [])
      else
        var emails := MailinatorEmails(env.registrations.value);
        if emails.None? then RunResult(cleaned, Threw, [])
        else if emails.value == [] then RunResult(cleaned, NothingToSend, [])
        else
          var q := NotifyAll(NProgress(cleaned, NTally(0, 0, [])), recent, |emails.value|, env.sendOk, now);
          RunResult(q.store, Completed(NotifySummary(q.tally.emailsSent, q.tally.emailsSkipped)), q.tally.calls)
  }

  /** One tournament of the loop, against the ledger. */
  method NotifyTournament(ledger: Ledger, tally: NTally, t: Tournament, userCount: nat, sendOk: nat -> bool, now: Instant)
    returns (tally': NTally)
    modifies ledger
    ensures NProgress(ledger.State(), tally') == NotifyOne(NProgress(old(ledger.State()), tally), t, userCount, sendOk, now)
  {
    ghost var st := ledger.State();
    var sent := ledger.HasEmailBeenSent(t.id, NewTournament, now);
    assert sent == Sent(st.entries, t.id, NewTournament, now);
    if sent {
      return tally.(emailsSkipped := tally.emailsSkipped + 1);
    }
    var accepted := sendOk(|tally.calls|);
    var calls := tally.calls + [Call(NoReply, t.id)];
    if !accepted {
      return tally.(calls := calls);
    }
    ledger.MarkEmailAsSent(t.id, NewTournament, NewTournamentDetails(t.name, userCount), now);
    tally' := NTally(tally.emailsSent + 1, tally.emailsSkipped, calls);
    assert ledger.State() == Mark(st, t.id, NewTournament, NewTournamentDetails(t.name, userCount), now);
  }

  /** `sendNewTournamentNotifications()` against the ledger; returns the outcome and the
      calls made. */
  method SendNewTournamentNotifications(ledger: Ledger, env: NotifyInputs, now: Instant)
    returns (outcome: Outcome<NotifySummary>, calls: seq<Call>)
    modifies ledger
    ensures RunResult(ledger.State(), outcome, calls) == NotifyRun(old(ledger.State()), env, now)
  {
    ledger.CleanupOldEntries(now);
    if env.tournaments.None? || !env.helpersBound {
      return Threw, [];
    }
    var recent := env.recent(env.tournaments.value);
    if recent == [] {
      return NothingToSend, [];
    }
    if env.registrations.None? {
      return Threw, [];
    }
    var emails := MailinatorEmails(env.registrations.value);
    if emails.None? {
      return Threw, [];
    }
    if emails.value == [] {
      return NothingToSend, [];
    }
    var userCount := |emails.value|;
    ghost var start := NProgress(ledger.State(), NTally(0, 0, []));
    var tally := NTally(0, 0, []);
    for i := 0 to |recent|
      invariant NProgress(ledger.State(), tally) == NotifyAll(start, recent[..i], userCount, env.sendOk, now)
    {
      Prefixes(recent, i);
      tally := NotifyTournament(ledger, tally, recent[i], userCount, env.sendOk, now);
    }
    assert recent[..|recent|] == recent;
    outcome := Completed(NotifySummary(tally.emailsSent, tally.emailsSkipped));
    calls := tally.calls;
  }
}
