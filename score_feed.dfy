/**
 * The shape of the upstream live-score response, as far as the ticker reads
 * it, and JavaScript's truthiness of the optional strings it carries.
 * Every field the code tests with `if (x)` or `x || y` is optional here.
 */
module ScoreFeed {
  import opened Wrappers

  datatype Competitor = Competitor(
    abbreviation: Option<string>,
    shortDisplayName: Option<string>,
    displayName: Option<string>,
    score: Option<string>,
    logo: Option<string>)

  /** `fullStatus.type`: `type` is a Dafny keyword, hence `statusType`. */
  datatype StatusType = StatusType(name: Option<string>, detail: Option<string>, shortDetail: Option<string>)

  datatype FullStatus = FullStatus(statusType: Option<StatusType>)

  /** An entry of `competitors` that is `null` is `None`. */
  datatype Event = Event(
    competitors: Option<seq<Option<Competitor>>>,
    fullStatus: Option<FullStatus>,
    date: Option<string>)

  /** An entry of `events` that is `null` is `None`. */
  datatype League = League(shortName: Option<string>, name: Option<string>, events: Option<seq<Option<Event>>>)

  datatype Sport = Sport(name: Option<string>, leagues: Option<seq<League>>)

  /** The decoded JSON body of a successful response. */
  datatype Feed = Feed(sports: Option<seq<Sport>>)

  /** JavaScript truthiness of an optional string: `undefined`, `null` and `''` are falsy. */
  predicate Truthy(s: Option<string>) {
    s.Some? && s.value != ""
  }

  /** Candidate `i` is the first truthy one. */
  predicate FirstTruthyAt(candidates: seq<Option<string>>, i: int) {
    && 0 <= i < |candidates|
    && Truthy(candidates[i])
    && forall j :: 0 <= j < i ==> !Truthy(candidates[j])
  }

  predicate NoneTruthy(candidates: seq<Option<string>>) {
    forall j :: 0 <= j < |candidates| ==> !Truthy(candidates[j])
  }

  /**
   * The value of `c0 || c1 || ... || fallback`: the first truthy candidate,
   * or `fallback` when there is none.
   */
  function FirstTruthy(candidates: seq<Option<string>>, fallback: string): (r: string)
    ensures NoneTruthy(candidates) ==> r == fallback
    ensures forall i :: FirstTruthyAt(candidates, i) ==> r == candidates[i].value
    ensures r == fallback || exists i :: FirstTruthyAt(candidates, i)
  {
    if |candidates| == 0 then fallback
    else if Truthy(candidates[0]) then
      assert FirstTruthyAt(candidates, 0);
      candidates[0].value
    else
      var r := FirstTruthy(candidates[1..], fallback);
      assert forall i :: FirstTruthyAt(candidates, i) ==> i > 0 && FirstTruthyAt(candidates[1..], i - 1);
      assert forall i :: FirstTruthyAt(candidates[1..], i) ==> FirstTruthyAt(candidates, i + 1);
      r
  }
}
