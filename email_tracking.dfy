/** The sent-email ledger: a persistent list of records keyed
    `${tournamentId}-${emailType}-${YYYY-MM-DD}` that stops the same notification
    from going out twice on one UTC day. */
module EmailTracking {
  import opened JsValues
  import opened Calendar
  import opened Sequences

  datatype EmailType = Reminder | NewTournament

  function TypeText(ty: EmailType): string
  {
    match ty
    case Reminder => "reminder"
    case NewTournament => "new_tournament"
  }

  /** The `additionalInfo` the two callers pass; none of it overlaps the key fields. */
  datatype Details =
    | NoDetails
    | ReminderDetails(tournamentName: JsValue, participantCount: nat, emailsSent: nat)
    | NewTournamentDetails(tournamentName: JsValue, userCount: nat)

  /** One record of `sentEmails`; `sentAt` is the instant its ISO timestamp names. */
  datatype Entry = Entry(key: string, tournamentId: JsValue, emailType: EmailType,
                         sentAt: Instant, date: string, details: Details)

  /** The tracking file: its `sentEmails` list and how many times it has been written. */
  datatype Store = Store(entries: seq<Entry>, saves: nat)

  /** How long records are kept. */
  const RetentionMs: int := 7 * MsPerDay

  /** `generateEmailKey(tournamentId, emailType)` evaluated at `now`. */
  function EmailKey(id: JsValue, ty: EmailType, now: Instant): string
  {
    Text(id) + "-" + TypeText(ty) + "-" + IsoDate(now)
  }

  /** For one tournament and type, the key changes exactly when the UTC day does. */
  lemma EmailKeyNamesDay(id: JsValue, ty: EmailType, now1: Instant, now2: Instant)
    ensures EmailKey(id, ty, now1) == EmailKey(id, ty, now2) <==> DayNumber(now1) == DayNumber(now2)
  {
    IsoDateNamesDay(now1, now2);
    var prefix := Text(id) + "-" + TypeText(ty) + "-";
    assert EmailKey(id, ty, now1) == prefix + IsoDate(now1);
    assert EmailKey(id, ty, now2) == prefix + IsoDate(now2);
    if EmailKey(id, ty, now1) == EmailKey(id, ty, now2) {
      assert IsoDate(now1) == EmailKey(id, ty, now1)[|prefix|..];
    }
  }

  /** `sentEmails.some(entry => entry.key === key)`. */
  function HasKey(entries: seq<Entry>, key: string): (found: bool)
    ensures found <==> exists i :: 0 <= i < |entries| && entries[i].key == key
  {
    if entries == [] then false
    else if entries[0].key == key then true
    else
      var found := HasKey(entries[1..], key);
      assert forall i :: 1 <= i < |entries| ==> entries[i] == entries[1..][i - 1];
      found
  }

  /** The number of records stored under `key`. */
  function CountKey(entries: seq<Entry>, key: string): nat
  {
    if entries == [] then 0
    else (if entries[0].key == key then 1 else 0) + CountKey(entries[1..], key)
  }

  /** The ledger's invariant: at most one record per key. */
  predicate UniqueKeys(entries: seq<Entry>)
  {
    forall i, j :: 0 <= i < j < |entries| ==> entries[i].key != entries[j].key
  }

  /** `hasEmailBeenSent(id, ty)` on the list `entries`, at `now`. */
  predicate Sent(entries: seq<Entry>, id: JsValue, ty: EmailType, now: Instant)
  {
    HasKey(entries, EmailKey(id, ty, now))
  }

  /** `markEmailAsSent(id, ty, details)` at `now`: append a record unless the key is already stored. */
  function Mark(st: Store, id: JsValue, ty: EmailType, details: Details, now: Instant): Store
  {
    var key := EmailKey(id, ty, now);
    if HasKey(st.entries, key) then st
    else Store(st.entries + [Entry(key, id, ty, now, IsoDate(now), details)], st.saves + 1)
  }

  /** The records `cleanupOldEntries` keeps: those sent after the retention cut-off. */
  function KeptAt(now: Instant): Entry -> bool
  {
    (e: Entry) => e.sentAt > now - RetentionMs
  }

  /** `cleanupOldEntries()` at `now`: drop old records; write the file only when one was dropped. */
  function Cleanup(st: Store, now: Instant): Store
  {
    var kept := Filter(KeptAt(now), st.entries);
    Store(kept, if |kept| < |st.entries| then st.saves + 1 else st.saves)
  }

  lemma {:induction false} CountKeyZero(entries: seq<Entry>, key: string)
    ensures CountKey(entries, key) == 0 <==> !HasKey(entries, key)
  {
    if entries != [] {
      CountKeyZero(entries[1..], key);
    }
  }

  lemma {:induction false} CountKeyAppend(entries: seq<Entry>, e: Entry, key: string)
    ensures CountKey(entries + [e], key) == CountKey(entries, key) + (if e.key == key then 1 else 0)
  {
    if entries != [] {
      assert (entries + [e])[1..] == entries[1..] + [e];
      CountKeyAppend(entries[1..], e, key);
    }
  }

  /** A list with unique keys holds each key at most once. */
  lemma {:induction false} UniqueKeysCount(entries: seq<Entry>, key: string)
    requires UniqueKeys(entries)
    ensures CountKey(entries, key) <= 1
  {
    if entries != [] {
      UniqueKeysCount(entries[1..], key);
      if entries[0].key == key {
        assert !HasKey(entries[1..], key);
        CountKeyZero(entries[1..], key);
      }
    }
  }

  /** After marking, the notification counts as sent for the rest of that UTC day; earlier
      records are untouched, at most one record is added, and the file is written exactly
      when one is. */
  lemma MarkRecords(st: Store, id: JsValue, ty: EmailType, details: Details, now: Instant, later: Instant)
    requires DayNumber(later) == DayNumber(now)
    ensures Sent(Mark(st, id, ty, details, now).entries, id, ty, later)
    ensures st.entries <= Mark(st, id, ty, details, now).entries
    ensures |Mark(st, id, ty, details, now).entries| == |st.entries| + (if Sent(st.entries, id, ty, now) then 0 else 1)
    ensures Mark(st, id, ty, details, now).saves == st.saves + |Mark(st, id, ty, details, now).entries| - |st.entries|
  {
    EmailKeyNamesDay(id, ty, now, later);
    var r := Mark(st, id, ty, details, now);
    if !Sent(st.entries, id, ty, now) {
      assert r.entries[|st.entries|].key == EmailKey(id, ty, later);
    }
  }

  lemma HasKeyAppend(entries: seq<Entry>, e: Entry, key: string)
    ensures HasKey(entries + [e], key) == (HasKey(entries, key) || e.key == key)
  {
    var all := entries + [e];
    if HasKey(all, key) && e.key != key {
      var i :| 0 <= i < |all| && all[i].key == key;
      assert i < |entries| && entries[i] == all[i];
    }
    if HasKey(entries, key) {
      var i :| 0 <= i < |entries| && entries[i].key == key;
      assert all[i] == entries[i];
    }
    if e.key == key {
      assert all[|entries|] == e;
    }
  }

  /** A key stays present when records are appended. */
  lemma HasKeyExtends(entries: seq<Entry>, more: seq<Entry>, key: string)
    requires entries <= more && HasKey(entries, key)
    ensures HasKey(more, key)
  {
    var i :| 0 <= i < |entries| && entries[i].key == key;
    assert more[i] == entries[i];
  }

  /** Marking one key leaves every other key's presence as it was. */
  lemma MarkOnlyTouchesItsKey(st: Store, id: JsValue, ty: EmailType, details: Details, now: Instant, key: string)
    requires key != EmailKey(id, ty, now)
    ensures HasKey(Mark(st, id, ty, details, now).entries, key) == HasKey(st.entries, key)
  {
    var k := EmailKey(id, ty, now);
    if !HasKey(st.entries, k) {
      HasKeyAppend(st.entries, Entry(k, id, ty, now, IsoDate(now), details), key);
    }
  }

  /** A second mark of the same tournament and type on the same UTC day changes nothing. */
  lemma MarkIdempotent(st: Store, id: JsValue, ty: EmailType, d1: Details, d2: Details, now1: Instant, now2: Instant)
    requires DayNumber(now1) == DayNumber(now2)
    ensures Mark(Mark(st, id, ty, d1, now1), id, ty, d2, now2) == Mark(st, id, ty, d1, now1)
  {
    MarkRecords(st, id, ty, d1, now1, now2);
  }

  /** Marking twice on one day leaves exactly one record under the key, when there was at most one. */
  lemma MarkTwiceOneRecord(st: Store, id: JsValue, ty: EmailType, d1: Details, d2: Details, now1: Instant, now2: Instant)
    requires DayNumber(now1) == DayNumber(now2)
    requires CountKey(st.entries, EmailKey(id, ty, now1)) <= 1
    ensures CountKey(Mark(Mark(st, id, ty, d1, now1), id, ty, d2, now2).entries, EmailKey(id, ty, now2)) == 1
  {
    MarkIdempotent(st, id, ty, d1, d2, now1, now2);
    EmailKeyNamesDay(id, ty, now1, now2);
    var key := EmailKey(id, ty, now1);
    CountKeyZero(st.entries, key);
    if !HasKey(st.entries, key) {
      CountKeyAppend(st.entries, Entry(key, id, ty, now1, IsoDate(now1), d1), key);
    }
  }

  lemma MarkPreservesUniqueKeys(st: Store, id: JsValue, ty: EmailType, details: Details, now: Instant)
    requires UniqueKeys(st.entries)
    ensures UniqueKeys(Mark(st, id, ty, details, now).entries)
  {
  }

  /** A record made on one UTC day does not count on any other day: the same tournament and
      type become eligible again once the date changes. */
  lemma MarkForgottenNextDay(st: Store, id: JsValue, ty: EmailType, details: Details, now: Instant, other: Instant)
    requires DayNumber(other) != DayNumber(now)
    ensures Sent(Mark(st, id, ty, details, now).entries, id, ty, other) == Sent(st.entries, id, ty, other)
  {
    EmailKeyNamesDay(id, ty, now, other);
    MarkOnlyTouchesItsKey(st, id, ty, details, now, EmailKey(id, ty, other));
  }

  /** Cleanup keeps exactly the records sent after the cut-off, in their original order, and
      writes the file exactly when it dropped something. */
  lemma CleanupKeepsRecent(st: Store, now: Instant) returns (idx: seq<int>)
    ensures Embeds(Cleanup(st, now).entries, st.entries, idx)
    ensures forall j :: 0 <= j < |st.entries| ==> (j in idx <==> st.entries[j].sentAt > now - RetentionMs)
    ensures Cleanup(st, now).saves == st.saves <==> Cleanup(st, now).entries == st.entries
    ensures Cleanup(st, now).saves <= st.saves + 1
  {
    idx := FilterSelects(KeptAt(now), st.entries);
    FilterKeepsAll(KeptAt(now), st.entries);
  }

  /** A second cleanup at the same instant removes nothing and writes nothing. */
  lemma CleanupIdempotent(st: Store, now: Instant)
    ensures Cleanup(Cleanup(st, now), now) == Cleanup(st, now)
  {
    FilterIdempotent(KeptAt(now), st.entries);
  }

  lemma CleanupPreservesUniqueKeys(st: Store, now: Instant)
    requires UniqueKeys(st.entries)
    ensures UniqueKeys(Cleanup(st, now).entries)
  {
    var idx := FilterSelects(KeptAt(now), st.entries);
    var kept := Cleanup(st, now).entries;
    forall i, j | 0 <= i < j < |kept|
      ensures kept[i].key != kept[j].key
    {
      assert kept[i] == st.entries[idx[i]] && kept[j] == st.entries[idx[j]];
    }
  }

  /** Cleanup never forgets a record made on the current UTC day. */
  lemma CleanupKeepsToday(st: Store, e: Entry, now: Instant)
    requires e in st.entries && DayNumber(e.sentAt) == DayNumber(now)
    ensures e in Cleanup(st, now).entries
  {
    SameDayClose(e.sentAt, now);
  }

  /** The ledger as one process holds it: the tracking file's contents and its write count. */
  class Ledger {
    var sentEmails: seq<Entry>
    var saves: nat

    function State(): Store
      reads this
    {
      Store(sentEmails, saves)
    }

    /** A ledger whose tracking file does not exist yet: loading it yields no records. */
    constructor ()
      ensures State() == Store([], 0)
    {
      sentEmails := [];
      saves := 0;
    }

    /** `hasEmailBeenSent`: is a record stored under today's key for this tournament and type? */
    method HasEmailBeenSent(id: JsValue, ty: EmailType, now: Instant) returns (sent: bool)
      ensures sent <==> exists i :: 0 <= i < |sentEmails| && sentEmails[i].key == EmailKey(id, ty, now)
    {
      sent := HasKey(sentEmails, EmailKey(id, ty, now));
    }

    /** `markEmailAsSent`: append today's record unless its key is already stored. */
    method MarkEmailAsSent(id: JsValue, ty: EmailType, details: Details, now: Instant)
      modifies this
      ensures State() == Mark(old(State()), id, ty, details, now)
      ensures Sent(sentEmails, id, ty, now)
      ensures UniqueKeys(old(sentEmails)) ==> UniqueKeys(sentEmails)
    {
      ghost var before := State();
      var key := EmailKey(id, ty, now);
      if !HasKey(sentEmails, key) {
        sentEmails := sentEmails + [Entry(key, id, ty, now, IsoDate(now), details)];
        saves := saves + 1;
      }
      assert State() == Mark(before, id, ty, details, now);
      MarkRecords(before, id, ty, details, now, now);
    }

    /** `cleanupOldEntries`: keep the records of the last seven days. */
    method CleanupOldEntries(now: Instant)
      modifies this
      ensures State() == Cleanup(old(State()), now)
      ensures UniqueKeys(old(sentEmails)) ==> UniqueKeys(sentEmails)
    {
      var initialCount := |sentEmails|;
      sentEmails := Filter(KeptAt(now), sentEmails);
      if |sentEmails| < initialCount {
        saves := saves + 1;
      }
      if UniqueKeys(old(sentEmails)) {
        CleanupPreservesUniqueKeys(old(State()), now);
      }
    }

    /** `getAllSentEmails`. */
    method GetAllSentEmails() returns (entries: seq<Entry>)
      ensures entries == sentEmails
    {
      entries := sentEmails;
    }

    /** `clearAllTracking`: overwrite the file with an empty list. */
    method ClearAllTracking()
      modifies this
      ensures State() == Store([], old(saves) + 1)
      ensures forall id, ty, now :: !Sent(sentEmails, id, ty, now)
    {
      sentEmails := [];
      saves := saves + 1;
    }
  }
}
