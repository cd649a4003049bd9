/**
 * The market-salary fetcher, from the point where the salary service's reply
 * has been decoded from JSON: the chain of early-return checks that rejects a
 * malformed reply, and the currency normalisation of the first result entry.
 * The request itself, the HTTP status check and JSON decoding are outside the
 * model; their failures are the `None` that `MarketSalaryFrom` receives.
 */
module MarketData {
  import opened Wrappers

  /** A decoded JSON value, as the Python `json` module hands it back. */
  datatype Json =
    | Null
    | Bool(b: bool)
    | Number(n: real)
    | Str(s: string)
    | List(items: seq<Json>)
    | Object(fields: map<string, Json>)

  /** Python truthiness of a decoded JSON value (`not x` is `!Truthy(x)`). */
  predicate Truthy(j: Json) {
    match j
    case Null => false
    case Bool(b) => b
    case Number(n) => n != 0.0
    case Str(s) => s != ""
    case List(items) => items != []
    case Object(fields) => fields != map[]
  }

  /** The canonical currency every figure is reported in. */
  const Canonical: string := "INR"

  /** Fixed approximate rate applied to any non-canonical currency. */
  const ConversionRate: real := 90.0

  /** The keys the first result entry must carry. */
  const RequiredFields: seq<string> :=
    ["median_salary", "min_salary", "max_salary", "salary_currency", "salary_period"]

  /** The normalised record handed to the offer scorer. */
  datatype MarketSalary = MarketSalary(
    median: real,
    min: real,
    max: real,
    currency: string,
    period: Json)

  /** `all(field in entry for field in required)`, field by field. */
  function AllPresent(required: seq<string>, entry: map<string, Json>): (b: bool)
    ensures b <==> forall f :: f in required ==> f in entry
  {
    if required == [] then true
    else required[0] in entry && AllPresent(required[1..], entry)
  }

  /** The reply's `status` is the string "OK" (a missing key reads as `None`). */
  predicate StatusOk(fields: map<string, Json>) {
    "status" in fields && fields["status"] == Str("OK")
  }

  /** None of `not data`, `not isinstance(data, list)`, `len(data) == 0` holds. */
  predicate HasData(fields: map<string, Json>) {
    && "data" in fields
    && Truthy(fields["data"])
    && fields["data"].List?
    && |fields["data"].items| > 0
  }

  /**
   * The first entry carries every required field. An entry that is not an
   * object never yields a record: a string or list entry either fails the
   * membership test or raises on `entry["salary_currency"]`, and a number,
   * bool or null raises on the membership test; the fetcher turns every
   * such exception into `None`.
   */
  predicate Complete(entry: Json) {
    entry.Object? && AllPresent(RequiredFields, entry.fields)
  }

  /**
   * A salary figure as a number. Python's bool is an int, so `True * 90`
   * is 90; any other kind of value is treated as no data.
   */
  function AsNumber(j: Json): Option<real> {
    match j
    case Number(n) => Some(n)
    case Bool(b) => Some(if b then 1.0 else 0.0)
    case _ => None
  }

  /** The three salary figures of a complete entry read as numbers. */
  predicate Numeric(entry: map<string, Json>) {
    && "median_salary" in entry && AsNumber(entry["median_salary"]).Some?
    && "min_salary" in entry && AsNumber(entry["min_salary"]).Some?
    && "max_salary" in entry && AsNumber(entry["max_salary"]).Some?
  }

  /**
   * Currency normalisation of one complete entry: a non-canonical currency
   * has median, min and max multiplied by the conversion rate and is
   * relabelled canonical; a canonical entry passes through unchanged. The
   * pay period is copied either way.
   */
  function Normalise(entry: map<string, Json>): (r: Option<MarketSalary>)
    requires forall f :: f in RequiredFields ==> f in entry
    ensures r.Some? <==> Numeric(entry)
    ensures r.Some? ==> r.value.currency == Canonical && r.value.period == entry["salary_period"]
    ensures r.Some? && entry["salary_currency"] != Str(Canonical) ==>
      && r.value.median == AsNumber(entry["median_salary"]).value * ConversionRate
      && r.value.min == AsNumber(entry["min_salary"]).value * ConversionRate
      && r.value.max == AsNumber(entry["max_salary"]).value * ConversionRate
    ensures r.Some? && entry["salary_currency"] == Str(Canonical) ==>
      && r.value.median == AsNumber(entry["median_salary"]).value
      && r.value.min == AsNumber(entry["min_salary"]).value
      && r.value.max == AsNumber(entry["max_salary"]).value
  {
    var median := AsNumber(entry["median_salary"]);
    var lo := AsNumber(entry["min_salary"]);
    var hi := AsNumber(entry["max_salary"]);
    if median.None? || lo.None? || hi.None? then None
    else if entry["salary_currency"] != Str(Canonical) then
      Some(MarketSalary(median.value * ConversionRate, lo.value * ConversionRate,
                        hi.value * ConversionRate, Canonical, entry["salary_period"]))
    else
      Some(MarketSalary(median.value, lo.value, hi.value,
                        entry["salary_currency"].s, entry["salary_period"]))
  }

  /**
   * The validation pipeline: each failed check is an early `None`, and only
   * the first entry of `data` is ever consulted.
   */
  function ValidateResponse(body: Json): (r: Option<MarketSalary>)
    ensures !body.Object? ==> r.None?
    ensures body.Object? && !StatusOk(body.fields) ==> r.None?
    ensures body.Object? && !HasData(body.fields) ==> r.None?
    ensures body.Object? && HasData(body.fields) && !Complete(body.fields["data"].items[0]) ==> r.None?
    ensures r.Some? ==>
      && body.Object? && StatusOk(body.fields) && HasData(body.fields)
      && Complete(body.fields["data"].items[0])
      && r == Normalise(body.fields["data"].items[0].fields)
    ensures (body.Object? && StatusOk(body.fields) && HasData(body.fields)
             && Complete(body.fields["data"].items[0])) ==>
      r == Normalise(body.fields["data"].items[0].fields)
    ensures r.Some? ==> r.value.currency == Canonical
  {
    if !body.Object? then None
    else if !StatusOk(body.fields) then None
    else if !HasData(body.fields) then None
    else
      var first := body.fields["data"].items[0];
      if !Complete(first) then None
      else Normalise(first.fields)
  }

  /**
   * The fetcher as a whole: `reply` is the decoded body, or `None` when the
   * request, the HTTP status or JSON decoding failed.
   */
  function MarketSalaryFrom(reply: Option<Json>): (r: Option<MarketSalary>)
    ensures reply.None? ==> r.None?
    ensures reply.Some? ==> r == ValidateResponse(reply.value)
  {
    match reply
    case None => None
    case Some(body) => ValidateResponse(body)
  }

  /** The reply shape of a record: a complete entry carrying its own figures. */
  function ToEntry(s: MarketSalary): (entry: map<string, Json>)
    ensures forall f :: f in RequiredFields ==> f in entry
  {
    map[
      "median_salary" := Number(s.median),
      "min_salary" := Number(s.min),
      "max_salary" := Number(s.max),
      "salary_currency" := Str(s.currency),
      "salary_period" := s.period]
  }

  /** Normalising an already normalised record gives it back: a fixed point. */
  lemma NormaliseIdempotent(entry: map<string, Json>)
    requires forall f :: f in RequiredFields ==> f in entry
    requires Normalise(entry).Some?
    ensures Normalise(ToEntry(Normalise(entry).value)) == Normalise(entry)
  {
  }

  /** A canonical entry with numeric figures is passed through unchanged. */
  lemma CanonicalIsIdentity(median: real, lo: real, hi: real, period: Json)
    ensures
      var entry := map["median_salary" := Number(median), "min_salary" := Number(lo),
                       "max_salary" := Number(hi), "salary_currency" := Str(Canonical),
                       "salary_period" := period];
      Normalise(entry) == Some(MarketSalary(median, lo, hi, Canonical, period))
  {
  }

  /** A median of 1000 in another currency becomes 90000 canonical units. */
  lemma ForeignMedianConverted(currency: string, period: Json)
    requires currency != Canonical
    ensures
      var entry := map["median_salary" := Number(1000.0), "min_salary" := Number(800.0),
                       "max_salary" := Number(1500.0), "salary_currency" := Str(currency),
                       "salary_period" := period];
      Normalise(entry) == Some(MarketSalary(90000.0, 72000.0, 135000.0, Canonical, period))
  {
  }

  /** Entries after the first never influence the outcome. */
  lemma OnlyFirstEntryConsulted(fields: map<string, Json>, first: Json, rest1: seq<Json>, rest2: seq<Json>)
    ensures ValidateResponse(Object(fields["data" := List([first] + rest1)]))
         == ValidateResponse(Object(fields["data" := List([first] + rest2)]))
  {
  }

  /** A well-formed reply with numeric figures always yields its first entry's record. */
  lemma WellFormedReplyAccepted(entry: map<string, Json>, rest: seq<Json>)
    requires forall f :: f in RequiredFields ==> f in entry
    requires Numeric(entry)
    ensures
      var reply := Object(map["status" := Str("OK"), "data" := List([Object(entry)] + rest)]);
      ValidateResponse(reply).Some? && ValidateResponse(reply) == Normalise(entry)
  {
  }

  /** A reply whose `data` list is empty is rejected, whatever its status. */
  lemma EmptyDataRejected(fields: map<string, Json>)
    ensures ValidateResponse(Object(fields["data" := List([])])).None?
  {
  }
}
