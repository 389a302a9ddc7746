/**
 * The listings payload as the API (or a cache file) delivers it: a list of
 * channel objects, each carrying a list of schedule objects.  Every field is
 * optional here because the code reads them from JSON dictionaries; the
 * readers decide which absences are errors.  Scalar JSON values are modelled
 * as strings, durations as integers and the `new` flag as a boolean.
 */
module Listings {
  import opened Wrappers

  datatype Schedule = Schedule(
    paId: Option<string>,
    title: Option<string>,
    startAt: Option<string>,
    duration: Option<int>,
    kind: Option<string>,        // the JSON field `type`
    imageUrl: Option<string>,
    isNew: Option<bool>)         // the JSON field `new`

  datatype Channel = Channel(
    paId: Option<string>,
    title: Option<string>,
    schedules: Option<seq<Schedule>>,
    slug: Option<string>,
    logoUrl: Option<string>,
    epg: Option<string>)

  /** The deduplication key of a schedule: `(pa_id, start_at)`. */
  type ScheduleKey = (string, string)

  /**
   * The errors the pipeline raises.  In the source all but `FetchFailed` and
   * `KeyMissing` are `ValueError`s told apart by their message.
   */
  datatype Err =
    | CacheMiss(key: string)             // "No cached data available for <key> and cache_only mode is enabled"
    | FetchFailed(reportedAttempts: int) // requests.RequestException after the last retry
    | InvalidJson                        // "Invalid JSON response from API"
    | NotAList                           // "Expected JSON array from API response"
    | InvalidHourRange                   // "start_hour must be less than or equal to end_hour"
    | InvalidDateRange                   // "start_date must be less than or equal to end_date"
    | KeyMissing(field: string)          // KeyError while merging
    | InvalidDocument                    // parse_json: not JSON, or not a JSON array
    | MissingField(field: string, inSchedule: bool) // "Missing required field '<field>' in ... data"
    | InvalidStartAt                     // "Invalid start_at format"
    | StopOutOfRange                     // the stop time leaves the years datetime can hold
    | DateOverflow                       // OverflowError: a date moved past the years datetime can hold

  /** `"No cached data available" in str(e)`: only a cache miss carries that message. */
  predicate SaysNoCachedData(e: Err) {
    e.CacheMiss?
  }

  /**
   * `(s['pa_id'], s['start_at'])`; a missing key raises KeyError, `pa_id`
   * being looked up first.
   */
  function KeyOf(s: Schedule): (r: Result<ScheduleKey, Err>)
    ensures r.Success? <==> s.paId.Some? && s.startAt.Some?
    ensures r.Success? ==> r.value == (s.paId.value, s.startAt.value)
    ensures s.paId.None? ==> r == Failure(KeyMissing("pa_id"))
  {
    if s.paId.None? then Failure(KeyMissing("pa_id"))
    else if s.startAt.None? then Failure(KeyMissing("start_at"))
    else Success((s.paId.value, s.startAt.value))
  }

  /** A schedule the merge can key. */
  predicate Keyed(s: Schedule) {
    s.paId.Some? && s.startAt.Some?
  }

  function Key(s: Schedule): ScheduleKey
    requires Keyed(s)
  {
    (s.paId.value, s.startAt.value)
  }

  predicate AllKeyed(ss: seq<Schedule>) {
    forall i :: 0 <= i < |ss| ==> Keyed(ss[i])
  }

  /** A channel the merge can process without a KeyError. */
  predicate WellFormed(c: Channel) {
    c.paId.Some? && c.schedules.Some? && AllKeyed(c.schedules.value)
  }

  predicate AllWellFormed(cs: seq<Channel>) {
    forall i :: 0 <= i < |cs| ==> WellFormed(cs[i])
  }
}
