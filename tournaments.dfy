/** The tournament records the upstream API returns, the `filterTournaments` predicates,
    and the guard of the participant fetch. */
module Tournaments {
  import opened Wrappers
  import opened JsValues
  import opened Sequences

  /** The fields of a tournament record the services read. `fullName` carries the start
      date-time before its first comma. */
  datatype Tournament = Tournament(id: JsValue, name: JsValue, fullName: JsValue,
                                   registrationOpening: JsValue, registrationClosing: JsValue)

  /** A participant record; `language` is the field the reminder run writes. */
  datatype Participant = Participant(email: JsValue, name: JsValue, customUserIdentifier: JsValue,
                                     language: JsValue)

  datatype FetchError = UpstreamUnavailable | InvalidArgument

  /** A date parser (date-fns `parseISO`, or `new Date(text)`): the time value, or None for an
      Invalid Date. */
  type Parser = string -> Option<int>

  const EightHoursMs: int := 8 * 60 * 60 * 1000

  /** The start time `full_name` encodes, or None when the field is missing, not a string,
      empty before its first comma, or not a valid date. */
  function StartOf(t: Tournament, parse: Parser): Option<int>
  {
    if t.fullName.Str? && FirstSegment(t.fullName.s) != "" then parse(FirstSegment(t.fullName.s))
    else None
  }

  /** `parseISO` on a registration field after the falsy check: None when the field is
      falsy, not a string (parseISO yields an Invalid Date) or not a valid date. */
  function ParseField(v: JsValue, parse: Parser): Option<int>
  {
    if v.Str? && v.s != "" then parse(v.s) else None
  }

  /** The `upcoming` test: registration open now and the start still ahead, all strictly. */
  predicate IsUpcoming(t: Tournament, now: int, parse: Parser)
  {
    var open, close, start := ParseField(t.registrationOpening, parse),
                              ParseField(t.registrationClosing, parse), StartOf(t, parse);
    open.Some? && close.Some? && start.Some?
    && open.value < now && now < close.value && now < start.value
  }

  /** The `startingToday` test: a valid start on today's local calendar day, within the next
      eight hours, all strictly. `localDay` maps a time value to its local calendar day. */
  predicate IsStartingToday(t: Tournament, now: int, parse: Parser, localDay: int -> int)
  {
    var start := StartOf(t, parse);
    start.Some? && localDay(start.value) == localDay(now)
    && now < start.value < now + EightHoursMs
  }

  datatype Filtered = Filtered(upcoming: seq<Tournament>, startingToday: seq<Tournament>)

  /** `filterTournaments(tournaments)` at `now`. */
  function FilterTournaments(ts: seq<Tournament>, now: int, parse: Parser, localDay: int -> int): (r: Filtered)
    ensures forall t :: t in r.upcoming <==>
      t in ts && StartOf(t, parse).Some? && ParseField(t.registrationOpening, parse).Some?
      && ParseField(t.registrationClosing, parse).Some?
      && ParseField(t.registrationOpening, parse).value < now < ParseField(t.registrationClosing, parse).value
      && now < StartOf(t, parse).value
    ensures forall t :: t in r.startingToday <==>
      t in ts && StartOf(t, parse).Some? && localDay(StartOf(t, parse).value) == localDay(now)
      && now < StartOf(t, parse).value < now + EightHoursMs
  {
    Filtered(Filter(t => IsUpcoming(t, now, parse), ts),
             Filter(t => IsStartingToday(t, now, parse, localDay), ts))
  }

  /** A record whose `full_name` yields no start time is in neither list. */
  lemma NoStartExcluded(ts: seq<Tournament>, now: int, parse: Parser, localDay: int -> int, t: Tournament)
    requires !t.fullName.Str? || FirstSegment(t.fullName.s) == "" || parse(FirstSegment(t.fullName.s)).None?
    ensures t !in FilterTournaments(ts, now, parse, localDay).upcoming
    ensures t !in FilterTournaments(ts, now, parse, localDay).startingToday
  {
  }

  /** Both lists keep exactly the qualifying positions of the input, in input order. */
  lemma FilterTournamentsInOrder(ts: seq<Tournament>, now: int, parse: Parser, localDay: int -> int)
    returns (upcoming: seq<int>, today: seq<int>)
    ensures Embeds(FilterTournaments(ts, now, parse, localDay).upcoming, ts, upcoming)
    ensures forall j :: 0 <= j < |ts| ==> (j in upcoming <==> IsUpcoming(ts[j], now, parse))
    ensures Embeds(FilterTournaments(ts, now, parse, localDay).startingToday, ts, today)
    ensures forall j :: 0 <= j < |ts| ==> (j in today <==> IsStartingToday(ts[j], now, parse, localDay))
  {
    upcoming := FilterSelects(t => IsUpcoming(t, now, parse), ts);
    today := FilterSelects(t => IsStartingToday(t, now, parse, localDay), ts);
  }

  /** `fetchParticipantsByTournamentId(id)`: a falsy id is refused before any request;
      otherwise `request(id)` is the upstream answer, None when the call fails or the
      envelope has no `result`. */
  function FetchParticipants(id: JsValue, request: JsValue -> Option<seq<Participant>>): (r: Result<seq<Participant>, FetchError>)
    ensures !Truthy(id) ==> r == Err(InvalidArgument)
    ensures Truthy(id) ==> (r.Ok? <==> request(id).Some?)
    ensures Truthy(id) && request(id).None? ==> r == Err(UpstreamUnavailable)
    ensures r.Ok? ==> r.value == request(id).value
  {
    if !Truthy(id) then Err(InvalidArgument)
    else match request(id)
      case None => Err(UpstreamUnavailable)
      case Some(ps) => Ok(ps)
  }

  /** With a falsy id the answer does not depend on the upstream at all. */
  lemma EmptyIdMakesNoRequest(id: JsValue, r1: JsValue -> Option<seq<Participant>>, r2: JsValue -> Option<seq<Participant>>)
    requires !Truthy(id)
    ensures FetchParticipants(id, r1) == FetchParticipants(id, r2) == Err(InvalidArgument)
  {
  }
}
