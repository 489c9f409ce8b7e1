/** Baseline threshold evaluator: decides, from a feature's compatibility record
    and the configured `available` threshold, whether the feature is reported and
    with which availability. */
module Baseline {
  import opened Features

  datatype Option<T> = None | Some(value: T)

  /** Baseline status of a feature. */
  datatype Status = NotBaseline | Newly | Widely

  /** A compatibility record: the status and the year the feature became
      Baseline (absent for features that are not Baseline). */
  datatype Support = Support(status: Status, since: Option<int>)

  /** The configured `available` option: a named level or a year. */
  datatype Threshold = WidelyAvailable | NewlyAvailable | BaselineYear(year: int)

  /** The compatibility data: canonical feature key to record, owned elsewhere. */
  type Database = map<Feature, Support>

  /** A record is consistent when exactly the Baseline features carry a year. */
  predicate WellFormed(s: Support) {
    s.status == NotBaseline <==> s.since.None?
  }

  /** Whether a feature with record `s` satisfies threshold `t`. A named level
      is met exactly when the status ranks at least as high as that level. */
  predicate Meets(s: Support, t: Threshold)
    ensures t == WidelyAvailable ==> (Meets(s, t) <==> Rank(s.status) >= Rank(Widely))
    ensures t == NewlyAvailable ==> (Meets(s, t) <==> Rank(s.status) >= Rank(Newly))
  {
    match t
    case WidelyAvailable => s.status == Widely
    case NewlyAvailable => s.status == Widely || s.status == Newly
    case BaselineYear(y) => s.since.Some? && s.since.value <= y
  }

  /** The availability a report carries when `key` fails `t`, or None when
      it is not reported: unknown features never are, and the availability
      is the configured threshold itself, never the feature's own year. */
  function Evaluate(db: Database, key: Feature, t: Threshold): (r: Option<Threshold>)
    ensures key !in db ==> r == None
    ensures r.Some? ==> r.value == t
    ensures key in db ==> (r.Some? <==> !Meets(db[key], t))
  {
    if key in db && !Meets(db[key], t) then Some(t) else None
  }

  /** The levels ordered from lowest to highest. */
  function Rank(s: Status): nat {
    match s
    case NotBaseline => 0
    case Newly => 1
    case Widely => 2
  }

  /** `widely` is the stricter level: what meets it meets `newly` too. */
  lemma WidelyStricterThanNewly(s: Support)
    ensures Meets(s, WidelyAvailable) ==> Meets(s, NewlyAvailable)
  {
  }

  /** A later year threshold accepts everything an earlier one accepts. */
  lemma YearThresholdMonotone(s: Support, y1: int, y2: int)
    requires y1 <= y2
    ensures Meets(s, BaselineYear(y1)) ==> Meets(s, BaselineYear(y2))
  {
  }

  /** A consistent record that is not Baseline fails every threshold. */
  lemma NotBaselineMeetsNothing(s: Support, t: Threshold)
    requires WellFormed(s) && s.status == NotBaseline
    ensures !Meets(s, t)
  {
  }
}
