/** Validation of CubingChina evidence against the stored snapshot of the official records. */
module RecordValidation {
  import opened RecordDomain
  import opened ResultValues
  import opened Evidence

  const RECORD_MATCH := "wca_records_api_record_match"
  const NO_RECORD_MATCH := "wca_records_api_no_record_match"

  /** The key of the official records API, which differs for some countries. */
  function RecordsCountry(w: Reference, code: string): string {
    var names := if Upper(code) in w.recordsNames then w.recordsNames[Upper(code)] else "";
    if names != "" then names
    else if Upper(code) !in w.geography then ""
    else Or(w.geography[Upper(code)].displayName, w.geography[Upper(code)].wcaName)
  }

  /** The API region a result is compared in at each level, when there is one. */
  function RegionOf(w: Reference, facts: Facts, level: Level): Option<string> {
    match level
    case World => Some("")
    case Continental =>
      var continent := ContinentName(w.geography, facts.context.country);
      if continent != "" then Some("_" + continent) else None
    case National =>
      var country := RecordsCountry(w, facts.context.country);
      if country != "" then Some(country) else None
    case Personal => None
  }

  predicate AtLeastAsGood(event: string, value: int, benchmark: int) {
    !KeyLess(ComparisonKey(event, Some(benchmark)), ComparisonKey(event, Some(value)))
  }

  /** The validation row of one level: none without a region or a benchmark. */
  function RowFor(w: Reference, facts: Facts, level: Level): Option<ValidationRow> {
    if w.snapshot.None? || RegionOf(w, facts, level).None? then None
    else
      var region := RegionOf(w, facts, level).value;
      var key := BenchmarkKey(level, facts.event, facts.kind, region);
      if key !in w.snapshot.value then None
      else
        var benchmark := w.snapshot.value[key];
        Some(ValidationRow(region, facts.value, benchmark, AtLeastAsGood(facts.event, facts.value, benchmark)))
  }

  predicate AnyVerified(w: Reference, facts: Facts) {
    exists level: Level :: level in AllLevels() && RowFor(w, facts, level).Some? && RowFor(w, facts, level).value.verified
  }

  predicate HasCubingChina(l: Ledger, id: nat, value: int) {
    exists k :: k in l.observations && l.observations[k].canonical == id && l.observations[k].active
                && l.observations[k].source == CUBINGCHINA && l.observations[k].value == value
  }

  predicate HasTrusted(l: Ledger, id: nat, value: int) {
    exists k :: k in l.observations && l.observations[k].canonical == id && l.observations[k].active
                && l.observations[k].trusted && l.observations[k].value == value
  }

  /** The result carries CubingChina evidence for its current complete value. */
  predicate Judged(l: Ledger, id: nat)
    requires id in l.canonicals
  {
    HasCubingChina(l, id, l.canonicals[id].facts.value) && IsComplete(l.canonicals[id].facts.value)
  }

  /** The head's verdict comes from the records API, not from a trusted source. */
  predicate Overridden(l: Ledger, id: nat)
    requires id in l.canonicals
  {
    && Judged(l, id)
    && !HasTrusted(l, id, l.canonicals[id].facts.value)
    && l.canonicals[id].facts.reason != DISAGREEMENT
  }

  function VerdictFacts(w: Reference, facts: Facts): Facts {
    if AnyVerified(w, facts) then facts.(validation := Verified, reason := RECORD_MATCH)
    else facts.(validation := Validation.Pending, reason := NO_RECORD_MATCH)
  }

  function ValidatedHead(w: Reference, l: Ledger, id: nat): Canonical
    requires id in l.canonicals
  {
    if Overridden(l, id) then l.canonicals[id].(facts := VerdictFacts(w, l.canonicals[id].facts)) else l.canonicals[id]
  }

  ghost function DesiredRow(w: Reference, l: Ledger, v: ValidationId): Option<ValidationRow>
    requires v.result in l.canonicals
  {
    if Judged(l, v.result) then RowFor(w, l.canonicals[v.result].facts, v.level) else None
  }

  ghost function AllIds(ids: set<nat>): (all: set<ValidationId>)
    ensures forall v {:trigger v in all} :: v in all <==> v.result in ids
  {
    assert forall v: ValidationId :: v == ValidationId(v.result, v.level);
    assert forall level: Level :: level in AllLevels() by {
      forall level: Level ensures level in AllLevels() {
        LevelIsListed(level);
      }
    }
    set id, level | id in ids && level in AllLevels() :: ValidationId(id, level)
  }

  ghost function RowAfter(w: Reference, l: Ledger, ids: set<nat>, v: ValidationId): Option<ValidationRow>
    requires ids <= l.canonicals.Keys
  {
    if v.result in ids then DesiredRow(w, l, v) else Get(l.validations, v)
  }

  /** Validation rows and head verdicts of these results brought up to the snapshot; nothing enqueued. */
  ghost function Checked(w: Reference, l: Ledger, ids: set<nat>): (t: Ledger)
    requires ids <= l.canonicals.Keys
    ensures t == l.(canonicals := t.canonicals, validations := t.validations)
    ensures t.canonicals.Keys == l.canonicals.Keys
    ensures forall i :: i in l.canonicals ==> t.canonicals[i] == if i in ids then ValidatedHead(w, l, i) else l.canonicals[i]
    ensures forall v :: Get(t.validations, v) == RowAfter(w, l, ids, v)
  {
    l.(canonicals := map i | i in l.canonicals :: if i in ids then ValidatedHead(w, l, i) else l.canonicals[i],
       validations := RowsAfter(w, l, ids))
  }

  ghost function RowsAfter(w: Reference, l: Ledger, ids: set<nat>): (rows: map<ValidationId, ValidationRow>)
    requires ids <= l.canonicals.Keys
    ensures forall v :: Get(rows, v) == RowAfter(w, l, ids, v)
  {
    map v | v in l.validations.Keys + AllIds(ids) && RowAfter(w, l, ids, v).Some? :: RowAfter(w, l, ids, v).value
  }
}
