/** build_comparisons and validate_metadata: one comparison for each (scenario, TLS version, group). */
module Comparisons {
  import opened Common
  import opened Workloads
  import opened Metadata
  import opened Placement
  import opened Cells
  import opened RowReadings

  // ------------------------------------------------------------- vocabulary

  /** What all rows of a run have to agree on. */
  datatype Identity = Identity(scenario: string, stack: string, version: string, group: string)

  datatype ComparisonKey = ComparisonKey(scenario: string, version: string, group: string)

  /** Where in its comparison a run goes. */
  type Place = (Stack, Family)

  datatype Seat = Seat(key: ComparisonKey, place: Place)

  type Runs = map<Place, RunId>

  datatype Comparison = Comparison(key: ComparisonKey, id: string, runs: Runs, identities: map<RunId, Identity>)

  function IdentityOf(row: Row): Identity {
    Identity(row.key.scenario, row.key.stack, row.Get(TlsVersion), row.Get(TlsGroup))
  }

  predicate ScenarioChar(c: char) {
    'a' <= c <= 'z' || '0' <= c <= '9'
  }

  /** [a-z0-9][a-z0-9-]* */
  predicate ValidScenario(scenario: string) {
    scenario != "" && ScenarioChar(scenario[0]) && forall i :: 0 <= i < |scenario| ==>
        ScenarioChar(scenario[i]) || scenario[i] == '-'
  }

  predicate IdentityOk(x: Identity) {
    ValidScenario(x.scenario) && SupportedVersion(x.version) && SupportedGroup(x.group) && StackIdentity(x.stack).Some?
  }

  function StackOfTag(tag: string): Stack {
    match StackIdentity(tag)
    case Some(stack) => stack
    case None => Go
  }

  /** A scenario without the suffix is kept as it is: here it is not an error. */
  function SeatOf(x: Identity, family: Family): Seat {
    var stack := StackOfTag(x.stack);
    Seat(ComparisonKey(RemoveSuffix(x.scenario, ScenarioSuffix(stack)), x.version, x.group), (stack, family))
  }

  // ------------------------------------------------------------- what is accepted

  ghost predicate SomeRow(rows: multiset<Row>, id: RunId, row: Row) {
    row in rows && row.Run() == id
  }

  /** The identity of a run's rows; arbitrary when there is none. */
  ghost function IdentityOfRun(rows: multiset<Row>, id: RunId): Identity {
    if row :| SomeRow(rows, id, row) then IdentityOf(row) else Identity("", "", "", "")
  }

  ghost predicate Identified(rows: multiset<Row>, id: RunId) {
    && (exists row :: SomeRow(rows, id, row))
    && (forall a, b :: SomeRow(rows, id, a) && SomeRow(rows, id, b) ==> IdentityOf(a) == IdentityOf(b))
    && IdentityOk(IdentityOfRun(rows, id))
  }

  /** The rows of the run are its family's executions, exactly once each. */
  ghost predicate EachOnce(rows: multiset<Row>, id: RunId) {
    && Reported(rows, id) == ExpectedExecutions(id.family)
    && (forall row :: SomeRow(rows, id, row) ==> rows[row] == 1)
    && (forall a, b :: SomeRow(rows, id, a) && SomeRow(rows, id, b) && a.Execution() == b.Execution() ==> a == b)
  }

  ghost predicate Verified(rows: multiset<Row>, id: RunId) {
    forall row :: SomeRow(rows, id, row) ==> VerifiedSource(row.Get(GroupSource))
  }

  ghost function Identifiable(rows: multiset<Row>): RunId -> bool {
    id => Identified(rows, id)
  }

  ghost function RunOk(rows: multiset<Row>): RunId -> bool {
    id => Identified(rows, id) && EachOnce(rows, id) && Verified(rows, id)
  }

  ghost function SeatOfRun(rows: multiset<Row>): RunId -> Seat {
    id => SeatOf(IdentityOfRun(rows, id), id.family)
  }

  // ------------------------------------------------------------- the rows of one run

  lemma RowsOfRun(rows: seq<Row>, id: RunId, row: Row)
    ensures row in OfRun(rows, id) <==> SomeRow(multiset(rows), id, row)
    ensures SomeRow(multiset(rows), id, row) ==> multiset(OfRun(rows, id))[row] == multiset(rows)[row]
  {
    OfRunRows(rows, id);
    assert row in OfRun(rows, id) <==> multiset(OfRun(rows, id))[row] > 0;
  }

  function Identities(selected: seq<Row>): set<Identity> {
    set row | row in selected :: IdentityOf(row)
  }

  ghost predicate OneIdentity(selected: seq<Row>) {
    forall a, b :: a in selected && b in selected ==> IdentityOf(a) == IdentityOf(b)
  }

  lemma OneElement<T>(s: set<T>, x: T)
    requires x in s
    ensures |s| == 1 <==> s == {x}
  {
    assert s == {x} + (s - {x});
  }

  lemma CountIdentities(selected: seq<Row>)
    requires selected != []
    ensures |Identities(selected)| == 1 <==> OneIdentity(selected)
  {
    var x := IdentityOf(selected[0]);
    assert selected[0] in selected && x in Identities(selected);
    OneElement(Identities(selected), x);
    if OneIdentity(selected) {
      assert Identities(selected) == {x};
    }
    if Identities(selected) == {x} {
      assert forall row :: row in selected ==> IdentityOf(row) in Identities(selected);
    }
  }

  /** The rows of the run have one identity, that of any of them. */
  ghost predicate AllLike(rows: multiset<Row>, id: RunId, first: Row) {
    forall row {:trigger SomeRow(rows, id, row)} :: SomeRow(rows, id, row) ==> IdentityOf(row) == IdentityOf(first)
  }

  lemma IdentifiedBy(rows: multiset<Row>, id: RunId, first: Row)
    requires SomeRow(rows, id, first)
    ensures Identified(rows, id) <==> AllLike(rows, id, first) && IdentityOk(IdentityOf(first))
    ensures AllLike(rows, id, first) ==> IdentityOfRun(rows, id) == IdentityOf(first)
  {
  }

  lemma OneIdentityOfRun(rows: seq<Row>, id: RunId)
    requires OfRun(rows, id) != []
    ensures SomeRow(multiset(rows), id, OfRun(rows, id)[0])
    ensures OneIdentity(OfRun(rows, id)) <==> AllLike(multiset(rows), id, OfRun(rows, id)[0])
  {
    FirstIn(OfRun(rows, id));
    forall row {
      RowsOfRun(rows, id, row);
    }
  }

  lemma IdentifiedByFirst(rows: seq<Row>, id: RunId)
    ensures var selected := OfRun(rows, id);
      if selected == [] then !Identified(multiset(rows), id)
      else (Identified(multiset(rows), id) <==> OneIdentity(selected) && IdentityOk(IdentityOf(selected[0]))) &&
           (OneIdentity(selected) ==> IdentityOfRun(multiset(rows), id) == IdentityOf(selected[0]))
  {
    if OfRun(rows, id) == [] {
      forall row {
        RowsOfRun(rows, id, row);
      }
    } else {
      OneIdentityOfRun(rows, id);
      IdentifiedBy(multiset(rows), id, OfRun(rows, id)[0]);
    }
  }

  method IdentifyRun(byRun: map<RunId, seq<Row>>, id: RunId, ghost rows: seq<Row>) returns (r: Result<Identity>)
    requires Grouped(byRun, rows)
    ensures r.Ok? <==> Identified(multiset(rows), id)
    ensures r.Ok? ==> r.value == IdentityOfRun(multiset(rows), id)
  {
    IdentifiedByFirst(rows, id);
    if id !in byRun || byRun[id] == [] {
      return Rejected("No summary metadata for supplied Run ID");
    }
    CountIdentities(byRun[id]);
    if |Identities(byRun[id])| != 1 {
      return Rejected("Inconsistent scenario/stack/TLS metadata");
    }
    var identity := IdentityOf(byRun[id][0]);
    r := if IdentityOk(identity) then Ok(identity) else Rejected("Invalid scenario, TLS metadata or stack");
  }

  function ExecutionsOf(rows: seq<Row>): (executions: seq<(string, int)>)
    ensures |executions| == |rows| && forall i :: 0 <= i < |rows| ==> executions[i] == rows[i].Execution()
  {
    seq(|rows|, i requires 0 <= i < |rows| => rows[i].Execution())
  }

  lemma DistinctExecutions(rows: seq<Row>)
    ensures Distinct(ExecutionsOf(rows)) <==>
            Distinct(rows) && forall a, b :: a in rows && b in rows && a.Execution() == b.Execution() ==> a == b
  {
    if Distinct(ExecutionsOf(rows)) {
      forall a, b | a in rows && b in rows && a.Execution() == b.Execution()
        ensures a == b
      {
        var i :| 0 <= i < |rows| && rows[i] == a;
        var j :| 0 <= j < |rows| && rows[j] == b;
        assert ExecutionsOf(rows)[i] == ExecutionsOf(rows)[j];
      }
      assert forall i, j :: 0 <= i < j < |rows| ==> ExecutionsOf(rows)[i] != ExecutionsOf(rows)[j];
    }
  }

  lemma ExecutionsReported(rows: seq<Row>, id: RunId)
    ensures ToSet(ExecutionsOf(OfRun(rows, id))) == Reported(multiset(rows), id)
  {
    var selected := OfRun(rows, id);
    OfRunReports(rows, id);
    forall x
      ensures x in ToSet(ExecutionsOf(selected)) <==> x in set row | row in selected :: row.Execution()
    {
      if x in ToSet(ExecutionsOf(selected)) {
        var i :| 0 <= i < |selected| && ExecutionsOf(selected)[i] == x;
        assert selected[i] in selected;
      }
      if row :| row in selected && row.Execution() == x {
        var i :| 0 <= i < |selected| && selected[i] == row;
        assert ExecutionsOf(selected)[i] == x;
      }
    }
  }

  lemma SelectedOnce(rows: seq<Row>, id: RunId)
    ensures Distinct(OfRun(rows, id)) <==> forall row :: SomeRow(multiset(rows), id, row) ==> multiset(rows)[row] == 1
  {
    var selected := OfRun(rows, id);
    DistinctIffNoRepeats(selected);
    forall row {
      RowsOfRun(rows, id, row);
    }
    assert forall row :: row in selected <==> multiset(selected)[row] > 0;
  }

  /** The right number of rows and the right set of executions: each execution exactly once. */
  lemma CountAndSetMeanEachOnce(rows: seq<Row>, id: RunId)
    ensures (|OfRun(rows, id)| == |ExpectedExecutions(id.family)| &&
             Reported(multiset(rows), id) == ExpectedExecutions(id.family)) <==>
            EachOnce(multiset(rows), id)
  {
    var selected := OfRun(rows, id);
    ExecutionsReported(rows, id);
    DistinctIffFullSet(ExecutionsOf(selected));
    DistinctExecutions(selected);
    SelectedOnce(rows, id);
    forall row {
      RowsOfRun(rows, id, row);
    }
  }

  // ------------------------------------------------------------- runs into comparisons

  datatype Draft = Draft(runs: Runs, identities: map<RunId, Identity>)

  type Drafts = map<ComparisonKey, Draft>

  /** The drafts seat exactly the placed runs. */
  ghost predicate Seats(drafts: Drafts, placed: map<Seat, RunId>) {
    && (forall key {:trigger drafts[key].runs} :: key in drafts ==> drafts[key].runs != map[])
    && (forall key, place {:trigger Seat(key, place)} :: Seat(key, place) in placed <==>
        key in drafts && place in drafts[key].runs)
    && (forall key, place {:trigger Seat(key, place)} :: Seat(key, place) in placed ==>
        drafts[key].runs[place] == placed[Seat(key, place)])
  }

  predicate Taken(drafts: Drafts, seat: Seat) {
    seat.key in drafts && seat.place in drafts[seat.key].runs
  }

  /** Every draft remembers the identities of its runs. */
  ghost predicate Remembers(drafts: Drafts, rows: multiset<Row>) {
    forall key, place {:trigger drafts[key].runs[place]} :: key in drafts && place in drafts[key].runs ==>
      var id := drafts[key].runs[place];
      id in drafts[key].identities && drafts[key].identities[id] == IdentityOfRun(rows, id)
  }

  function AddRun(drafts: Drafts, seat: Seat, id: RunId, identity: Identity): Drafts {
    var draft := if seat.key in drafts then drafts[seat.key] else Draft(map[], map[]);
    drafts[seat.key := Draft(draft.runs[seat.place := id], draft.identities[id := identity])]
  }

  lemma AddRunSeats(drafts: Drafts, placed: map<Seat, RunId>, seat: Seat, id: RunId, identity: Identity)
    requires Seats(drafts, placed)
    ensures Seats(AddRun(drafts, seat, id, identity), placed[seat := id])
  {
    var added := AddRun(drafts, seat, id, identity);
    assert seat.place in added[seat.key].runs && seat == Seat(seat.key, seat.place);
    forall key, place
      ensures Seat(key, place) in placed[seat := id] <==> key in added && place in added[key].runs
      ensures Seat(key, place) in placed[seat := id] ==> added[key].runs[place] == placed[seat := id][Seat(key, place)]
    {
      assert Seat(key, place) in placed <==> key in drafts && place in drafts[key].runs;
    }
  }

  lemma AddRunRemembers(drafts: Drafts, rows: multiset<Row>, seat: Seat, id: RunId)
    requires Remembers(drafts, rows)
    ensures Remembers(AddRun(drafts, seat, id, IdentityOfRun(rows, id)), rows)
  {
  }

  lemma TakenIsPlaced(drafts: Drafts, placed: map<Seat, RunId>, seat: Seat)
    requires Seats(drafts, placed)
    ensures Taken(drafts, seat) <==> seat in placed
  {
    assert seat == Seat(seat.key, seat.place);
  }

  /** The dict of comparisons with its insertion order. */
  datatype Draw = Draw(drafts: Drafts, order: seq<ComparisonKey>)

  ghost predicate IsDraw(rows: multiset<Row>, ids: multiset<RunId>, d: Draw) {
    && Consistent(ids, Identifiable(rows), SeatOfRun(rows))
    && Seats(d.drafts, Placed(ids, Identifiable(rows), SeatOfRun(rows)))
    && Remembers(d.drafts, rows)
    && Distinct(d.order) && ToSet(d.order) == d.drafts.Keys
  }

  ghost function Draws(rows: multiset<Row>, ids: multiset<RunId>): iset<Draw> {
    iset d: Draw | IsDraw(rows, ids, d)
  }

  lemma DrawNext(rows: multiset<Row>, ids: multiset<RunId>, d: Draw, id: RunId)
    requires IsDraw(rows, ids, d) && Identified(rows, id)
    ensures Consistent(ids + multiset{id}, Identifiable(rows), SeatOfRun(rows)) <==>
        !Taken(d.drafts, SeatOfRun(rows)(id))
    ensures !Taken(d.drafts, SeatOfRun(rows)(id)) ==>
              IsDraw(rows, ids + multiset{id},
                    Draw(AddRun(d.drafts, SeatOfRun(rows)(id), id, IdentityOfRun(rows, id)),
                        AppendNew(d.order, SeatOfRun(rows)(id).key)))
  {
    var ok, seat := Identifiable(rows), SeatOfRun(rows);
    Next(ids, ok, seat, id);
    TakenIsPlaced(d.drafts, Placed(ids, ok, seat), seat(id));
    if !Taken(d.drafts, seat(id)) {
      PlacedNext(ids, ok, seat, id);
      AddRunSeats(d.drafts, Placed(ids, ok, seat), seat(id), id, IdentityOfRun(rows, id));
      AddRunRemembers(d.drafts, rows, seat(id), id);
    }
  }

  lemma Refused(rows: multiset<Row>, part: multiset<RunId>, whole: multiset<RunId>)
    requires part <= whole && !Consistent(part, Identifiable(rows), SeatOfRun(rows))
    ensures !Consistent(whole, Identifiable(rows), SeatOfRun(rows))
  {
    if Consistent(whole, Identifiable(rows), SeatOfRun(rows)) {
      ConsistentPart(part, whole, Identifiable(rows), SeatOfRun(rows));
    }
  }

  /** The collections of run ids that can all be identified and seated. */
  ghost function Seatable(rows: multiset<Row>): iset<multiset<RunId>> {
    iset ids: multiset<RunId> | Consistent(ids, Identifiable(rows), SeatOfRun(rows))
  }

  /** The draws of the first `i` runs. */
  ghost function DrawsTo(rows: seq<Row>, ids: seq<RunId>, i: nat): iset<Draw>
    requires i <= |ids|
  {
    Draws(multiset(rows), multiset(ids[..i]))
  }

  method DrawRun(
    byRun: map<RunId, seq<Row>>, ghost rows: seq<Row>, ids: seq<RunId>, i: nat, d: Draw)
    returns (r: Result<Draw>)
    requires Grouped(byRun, rows) && i < |ids| && d in DrawsTo(rows, ids, i)
    ensures r.Ok? ==> r.value in DrawsTo(rows, ids, i + 1)
    ensures r.Rejected? ==> multiset(ids) !in Seatable(multiset(rows))
  {
    var identity := IdentifyRun(byRun, ids[i], rows);
    PrefixNext(ids, i);
    if identity.Rejected? {
      assert ids[i] in multiset(ids) && !Identifiable(multiset(rows))(ids[i]);
      return Rejected(identity.reason);
    }
    DrawNext(multiset(rows), multiset(ids[..i]), d, ids[i]);
    var seat := SeatOf(identity.value, ids[i].family);
    if Taken(d.drafts, seat) {
      Refused(multiset(rows), multiset(ids[..i + 1]), multiset(ids));
      return Rejected("Two supplied runs occupy one seat");
    }
    r := Ok(Draw(AddRun(d.drafts, seat, ids[i], identity.value), AppendNew(d.order, seat.key)));
  }

  lemma NothingDrawn(rows: seq<Row>, ids: seq<RunId>)
    ensures Draw(map[], []) in DrawsTo(rows, ids, 0)
  {
    assert multiset(ids[..0]) == multiset{};
    assert Placed(multiset{}, Identifiable(multiset(rows)), SeatOfRun(multiset(rows))) == map[];
  }

  /** After `i` runs: a draw of them, or a refusal because not all runs can be seated. */
  ghost function DrawResults(rows: seq<Row>, ids: seq<RunId>, i: nat): iset<Result<Draw>>
    requires i <= |ids|
  {
    iset r: Result<Draw> |
      if r.Ok? then r.value in DrawsTo(rows, ids, i) else multiset(ids) !in Seatable(multiset(rows))
  }

  method DrawOrStop(
    byRun: map<RunId, seq<Row>>, ghost rows: seq<Row>, ids: seq<RunId>, i: nat, d: Draw)
    returns (r: Result<Draw>)
    requires Grouped(byRun, rows) && i < |ids| && Ok(d) in DrawResults(rows, ids, i)
    ensures r in DrawResults(rows, ids, i + 1)
  {
    r := DrawRun(byRun, rows, ids, i, d);
  }

  lemma DrawingStopped(rows: seq<Row>, ids: seq<RunId>, i: nat, r: Result<Draw>)
    requires i <= |ids| && r.Rejected? && r in DrawResults(rows, ids, i)
    ensures r in DrawResults(rows, ids, |ids|)
  {
  }

  lemma DrawingEnds(rows: seq<Row>, ids: seq<RunId>, r: Result<Draw>)
    requires r in DrawResults(rows, ids, |ids|)
    ensures r.Ok? ==> r.value in Draws(multiset(rows), multiset(ids))
    ensures r.Rejected? ==> !RunsAcceptable(multiset(rows), multiset(ids))
  {
    assert ids[..|ids|] == ids;
    if r.Rejected? {
      NotDrawn(multiset(rows), multiset(ids));
    }
  }

  /** The loop over the run ids. */
  method DrawRuns(byRun: map<RunId, seq<Row>>, ghost rows: seq<Row>, ids: seq<RunId>) returns (r: Result<Draw>)
    requires Grouped(byRun, rows)
    ensures r in DrawResults(rows, ids, |ids|)
  {
    var d := Draw(map[], []);
    NothingDrawn(rows, ids);
    for i := 0 to |ids|
      invariant Ok(d) in DrawResults(rows, ids, i)
    {
      r := DrawOrStop(byRun, rows, ids, i, d);
      if r.Rejected? {
        DrawingStopped(rows, ids, i + 1, r);
        return;
      }
      d := r.value;
    }
    r := Ok(d);
  }

  // ------------------------------------------------------------- validate_metadata

  ghost function ValidRuns(rows: multiset<Row>): iset<RunId> {
    iset id: RunId | EachOnce(rows, id) && Verified(rows, id)
  }

  /** The checks of a row against its comparison, its stack and the identity of its run. */
  predicate RowMatches(row: Row, key: ComparisonKey, stack: Stack, identity: Identity) {
    && row.Get(TlsVersion) == key.version && row.Get(TlsGroup) == key.group
    && VerifiedSource(row.Get(GroupSource))
    && StartsWith(row.key.stack, StackPrefix(stack)) && row.key.scenario == identity.scenario
  }

  /** Only the evidence of the TLS group is left to be checked: the rest is known from the run's identity. */
  lemma OnlySourceMatters(rows: multiset<Row>, id: RunId, seat: Seat, row: Row)
    requires Identified(rows, id) && seat == SeatOfRun(rows)(id) && SomeRow(rows, id, row)
    ensures RowMatches(row, seat.key, seat.place.0, IdentityOfRun(rows, id)) <==> VerifiedSource(row.Get(GroupSource))
  {
    assert IdentityOf(row) == IdentityOfRun(rows, id);
    OneStackPerTag(row.key.stack, seat.place.0);
  }

  method ValidateRun(
    seat: Seat, id: RunId, identity: Identity, byRun: map<RunId, seq<Row>>, ghost rows: seq<Row>)
    returns (ok: bool)
    requires Grouped(byRun, rows) && Identified(multiset(rows), id)
    requires seat == SeatOfRun(multiset(rows))(id) && identity == IdentityOfRun(multiset(rows), id)
    ensures ok <==> id in ValidRuns(multiset(rows))
  {
    var selected := if id in byRun then byRun[id] else [];
    CountAndSetMeanEachOnce(rows, id);
    OfRunReports(rows, id);
    if |selected| != |ExpectedExecutions(seat.place.1)| {
      return false;
    }
    if (set row | row in selected :: row.Execution()) != ExpectedExecutions(seat.place.1) {
      return false;
    }
    forall row | row in selected
      ensures SomeRow(multiset(rows), id, row)
      ensures RowMatches(row, seat.key, seat.place.0, identity) <==> VerifiedSource(row.Get(GroupSource))
    {
      RowsOfRun(rows, id, row);
      OnlySourceMatters(multiset(rows), id, seat, row);
    }
    forall row {
      RowsOfRun(rows, id, row);
    }
    ok := forall row :: row in selected ==> RowMatches(row, seat.key, seat.place.0, identity);
  }

  /** The runs of a draft are where their identities put them. */
  ghost predicate WellSeated(rows: multiset<Row>, key: ComparisonKey, draft: Draft) {
    forall place :: place in draft.runs ==>
      var id := draft.runs[place];
      && Identified(rows, id) && SeatOfRun(rows)(id) == Seat(key, place)
      && id in draft.identities && draft.identities[id] == IdentityOfRun(rows, id)
  }

  ghost function Seated(rows: multiset<Row>, key: ComparisonKey): iset<Draft> {
    iset draft: Draft | WellSeated(rows, key, draft)
  }

  /** There is no run at the place, or it is in order. */
  ghost predicate FineAt(rows: multiset<Row>, draft: Draft, place: Place) {
    place in draft.runs ==> draft.runs[place] in ValidRuns(rows)
  }

  ghost function FinePlaces(rows: multiset<Row>, draft: Draft): iset<Place> {
    iset place: Place | FineAt(rows, draft, place)
  }

  method ValidatePlace(
    key: ComparisonKey, draft: Draft, place: Place, byRun: map<RunId, seq<Row>>, ghost rows: seq<Row>)
    returns (ok: bool)
    requires Grouped(byRun, rows) && draft in Seated(multiset(rows), key)
    ensures ok <==> place in FinePlaces(multiset(rows), draft)
  {
    if place !in draft.runs {
      return true;
    }
    var id := draft.runs[place];
    ok := ValidateRun(Seat(key, place), id, draft.identities[id], byRun, rows);
  }

  const PLACES: seq<Place> := Product(STACK_ORDER, FAMILIES)

  lemma EveryPlace(place: Place)
    ensures place in PLACES
  {
    ProductElements(STACK_ORDER, FAMILIES);
    EveryStackIsOrdered(place.0);
    EveryFamilyIsOrdered(place.1);
    assert place == (place.0, place.1);
  }

  ghost predicate AllValid(rows: multiset<Row>, draft: Draft) {
    forall place: Place :: place in FinePlaces(rows, draft)
  }

  ghost predicate AllFine(places: seq<Place>, fine: iset<Place>) {
    forall place {:trigger place in fine} :: place in places ==> place in fine
  }

  lemma PlacesAreAll(rows: multiset<Row>, draft: Draft, places: seq<Place>)
    requires forall place :: place in places
    ensures AllFine(places, FinePlaces(rows, draft)) <==> AllValid(rows, draft)
  {
    if AllFine(places, FinePlaces(rows, draft)) {
      forall place: Place
        ensures place in FinePlaces(rows, draft)
      {
        assert place in places;
      }
    }
  }

  lemma AllFineNext(places: seq<Place>, fine: iset<Place>, i: nat)
    requires i < |places| && AllFine(places[..i], fine)
    ensures AllFine(places[..i + 1], fine) <==> places[i] in fine
    ensures places[i] !in fine ==> !AllFine(places, fine)
  {
    PrefixNext(places, i);
    assert places[i] in places && places[i] in places[..i + 1];
  }

  method ValidatePlaces(
    places: seq<Place>, key: ComparisonKey, draft: Draft, byRun: map<RunId, seq<Row>>, ghost rows: seq<Row>)
    returns (ok: bool)
    requires Grouped(byRun, rows) && draft in Seated(multiset(rows), key)
    ensures ok <==> AllFine(places, FinePlaces(multiset(rows), draft))
  {
    for i := 0 to |places|
      invariant AllFine(places[..i], FinePlaces(multiset(rows), draft))
    {
      AllFineNext(places, FinePlaces(multiset(rows), draft), i);
      ok := ValidatePlace(key, draft, places[i], byRun, rows);
      if !ok {
        return;
      }
    }
    assert places[..|places|] == places;
    ok := true;
  }

  /** validate_metadata, stack by stack and family by family. */
  method ValidateMetadata(
    key: ComparisonKey, draft: Draft, byRun: map<RunId, seq<Row>>, ghost rows: seq<Row>)
    returns (ok: bool)
    requires Grouped(byRun, rows) && draft in Seated(multiset(rows), key)
    ensures ok <==> AllValid(multiset(rows), draft)
  {
    ok := ValidatePlaces(PLACES, key, draft, byRun, rows);
    forall place: Place
      ensures place in PLACES
    {
      EveryPlace(place);
    }
    PlacesAreAll(multiset(rows), draft, PLACES);
  }

  // ------------------------------------------------------------- ids

  function WithoutDot(version: string): string {
    if version == "1.2" then "12" else if version == "1.3" then "13" else version
  }

  function LowerGroup(group: string): string {
    if group == "P-256" then "p-256" else if group == "X25519" then "x25519" else group
  }

  function ComparisonId(key: ComparisonKey): string {
    key.scenario + ("-tls" + WithoutDot(key.version) + "-" + LowerGroup(key.group))
  }

  predicate SupportedKey(key: ComparisonKey) {
    SupportedVersion(key.version) && SupportedGroup(key.group)
  }

  lemma SameTail(a: string, b: string, x: string, y: string)
    requires a + x == b + y && |x| == |y|
    ensures a == b && x == y
  {
    assert a == (a + x)[..|a|] && b == (b + y)[..|b|];
    assert x == (a + x)[|a|..] && y == (b + y)[|b|..];
  }

  lemma LastOfId(key: ComparisonKey)
    requires SupportedKey(key)
    ensures ComparisonId(key) != ""
    ensures ComparisonId(key)[|ComparisonId(key)| - 1] == if key.group == "P-256" then '6' else '9'
  {
  }

  /** Distinct comparisons have distinct ids, for all scenario strings. */
  lemma IdsDiffer(a: ComparisonKey, b: ComparisonKey)
    requires SupportedKey(a) && SupportedKey(b)
    ensures ComparisonId(a) == ComparisonId(b) <==> a == b
  {
    if ComparisonId(a) == ComparisonId(b) {
      LastOfId(a);
      LastOfId(b);
      assert a.group == b.group;
      var x, y := "-tls" + WithoutDot(a.version) + "-" + LowerGroup(a.group),
          "-tls" + WithoutDot(b.version) + "-" + LowerGroup(b.group);
      SameTail(a.scenario, b.scenario, x, y);
      assert x[5] == WithoutDot(a.version)[1] && y[5] == WithoutDot(b.version)[1];
    }
  }

  // ------------------------------------------------------------- the builder

  /** What the returned comparisons say about the runs and their seats. */
  ghost predicate Describes(rows: multiset<Row>, placed: map<Seat, RunId>, result: seq<Comparison>) {
    && (forall i, j :: 0 <= i < j < |result| ==> result[i].key != result[j].key && result[i].id != result[j].id)
    && (forall c {:trigger ComparisonHolds(rows, placed, c)} :: c in result ==> ComparisonHolds(rows, placed, c))
    && (forall seat {:trigger HasComparison(result, seat.key)} :: seat in placed ==> HasComparison(result, seat.key))
  }

  ghost predicate HasComparison(result: seq<Comparison>, key: ComparisonKey) {
    exists c :: c in result && c.key == key
  }

  ghost predicate ComparisonHolds(rows: multiset<Row>, placed: map<Seat, RunId>, c: Comparison) {
    && c.id == ComparisonId(c.key) && c.runs != map[]
    && (forall place :: place in c.runs <==> Seat(c.key, place) in placed)
    && (forall place :: place in c.runs ==>
          c.runs[place] == placed[Seat(c.key, place)] && c.runs[place] in c.identities &&
          c.identities[c.runs[place]] == IdentityOfRun(rows, c.runs[place]))
  }

  lemma DraftSeated(rows: multiset<Row>, ids: multiset<RunId>, d: Draw, key: ComparisonKey)
    requires IsDraw(rows, ids, d) && key in d.drafts
    ensures WellSeated(rows, key, d.drafts[key]) && SupportedKey(key)
    ensures forall place :: place in d.drafts[key].runs ==> d.drafts[key].runs[place] in ids
  {
    var placed := Placed(ids, Identifiable(rows), SeatOfRun(rows));
    forall place | place in d.drafts[key].runs
      ensures Seat(key, place) in placed && d.drafts[key].runs[place] == placed[Seat(key, place)]
    {
      assert Seat(key, place) in placed <==> key in d.drafts && place in d.drafts[key].runs;
    }
    forall place | place in d.drafts[key].runs
      ensures Identified(rows, d.drafts[key].runs[place])
      ensures SeatOfRun(rows)(d.drafts[key].runs[place]) == Seat(key, place)
    {
      assert Identifiable(rows)(d.drafts[key].runs[place]);
    }
    assert d.drafts[key].runs.Keys != {};
    var place :| place in d.drafts[key].runs.Keys;
    assert IdentityOk(IdentityOfRun(rows, d.drafts[key].runs[place]));
  }

  lemma SeatedInDraft(rows: multiset<Row>, ids: multiset<RunId>, d: Draw, id: RunId)
    requires IsDraw(rows, ids, d) && id in ids
    ensures var seat := SeatOfRun(rows)(id);
      seat.key in d.drafts && seat.place in d.drafts[seat.key].runs && d.drafts[seat.key].runs[seat.place] == id
  {
    var seat := SeatOfRun(rows)(id);
    TakenIsPlaced(d.drafts, Placed(ids, Identifiable(rows), SeatOfRun(rows)), seat);
    assert seat == Seat(seat.key, seat.place);
  }

  lemma ValidMeansOk(rows: multiset<Row>, ids: multiset<RunId>)
    ensures Consistent(ids, RunOk(rows), SeatOfRun(rows)) <==>
            Consistent(ids, Identifiable(rows), SeatOfRun(rows)) && forall id :: id in ids ==> id in ValidRuns(rows)
  {
    assert forall id :: RunOk(rows)(id) <==> Identifiable(rows)(id) && id in ValidRuns(rows);
  }

  lemma DraftRunSupplied(rows: multiset<Row>, ids: multiset<RunId>, d: Draw, key: ComparisonKey, place: Place)
    requires IsDraw(rows, ids, d) && key in d.drafts && place in d.drafts[key].runs
    ensures d.drafts[key].runs[place] in ids
  {
    DraftSeated(rows, ids, d, key);
  }

  lemma NotFine(rows: multiset<Row>, draft: Draft) returns (place: Place)
    requires !AllValid(rows, draft)
    ensures place in draft.runs && draft.runs[place] !in ValidRuns(rows)
  {
    place :| place !in FinePlaces(rows, draft);
  }

  lemma DraftInvalid(rows: multiset<Row>, ids: multiset<RunId>, d: Draw, key: ComparisonKey)
    requires d in Draws(rows, ids) && key in d.drafts && !AllValid(rows, d.drafts[key])
    ensures exists id :: id in ids && id !in ValidRuns(rows)
  {
    var place := NotFine(rows, d.drafts[key]);
    DraftRunSupplied(rows, ids, d, key, place);
  }

  lemma RunIsValid(rows: multiset<Row>, ids: multiset<RunId>, d: Draw, id: RunId)
    requires IsDraw(rows, ids, d) && id in ids && forall key :: key in d.drafts ==> AllValid(rows, d.drafts[key])
    ensures id in ValidRuns(rows)
  {
    SeatedInDraft(rows, ids, d, id);
    var seat := SeatOfRun(rows)(id);
    assert AllValid(rows, d.drafts[seat.key]);
    assert seat.place in FinePlaces(rows, d.drafts[seat.key]);
  }

  method ValidateAll(
    d: Draw, byRun: map<RunId, seq<Row>>, ghost rows: seq<Row>, ghost ids: seq<RunId>)
    returns (ok: bool)
    requires Grouped(byRun, rows) && d in Draws(multiset(rows), multiset(ids))
    ensures ok <==> forall id :: id in multiset(ids) ==> id in ValidRuns(multiset(rows))
  {
    var i := 0;
    ok := true;
    while i < |d.order| && ok
      invariant 0 <= i <= |d.order|
      invariant forall key :: key in d.order <==> key in d.drafts
      invariant ok ==> forall key :: key in d.order[..i] ==> AllValid(multiset(rows), d.drafts[key])
      invariant !ok ==> exists id :: id in multiset(ids) && id !in ValidRuns(multiset(rows))
    {
      DraftSeated(multiset(rows), multiset(ids), d, d.order[i]);
      PrefixNext(d.order, i);
      ok := ValidateMetadata(d.order[i], d.drafts[d.order[i]], byRun, rows);
      if !ok {
        DraftInvalid(multiset(rows), multiset(ids), d, d.order[i]);
      }
      i := i + 1;
    }
    if ok {
      assert d.order[..|d.order|] == d.order;
      forall id | id in multiset(ids)
        ensures id in ValidRuns(multiset(rows))
      {
        RunIsValid(multiset(rows), multiset(ids), d, id);
      }
    }
  }

  function ComparisonsOf(d: Draw): (result: seq<Comparison>)
    requires ToSet(d.order) == d.drafts.Keys
    ensures |result| == |d.order|
    ensures forall i :: 0 <= i < |d.order| ==>
              d.order[i] in d.drafts && result[i] == Listed(d.order[i], d.drafts[d.order[i]])
  {
    assert forall i :: 0 <= i < |d.order| ==> d.order[i] in ToSet(d.order);
    seq(|d.order|, i requires 0 <= i < |d.order| => Listed(d.order[i], d.drafts[d.order[i]]))
  }

  function Listed(key: ComparisonKey, draft: Draft): Comparison {
    Comparison(key, ComparisonId(key), draft.runs, draft.identities)
  }

  lemma ListedHolds(rows: multiset<Row>, ids: multiset<RunId>, d: Draw, key: ComparisonKey)
    requires IsDraw(rows, ids, d) && key in d.drafts
    ensures ComparisonHolds(rows, Placed(ids, Identifiable(rows), SeatOfRun(rows)), Listed(key, d.drafts[key]))
  {
    DraftSeated(rows, ids, d, key);
    assert forall place :: Seat(key, place) in Placed(ids, Identifiable(rows), SeatOfRun(rows)) <==>
        place in d.drafts[key].runs;
  }

  lemma IdsDistinct(rows: multiset<Row>, ids: multiset<RunId>, d: Draw)
    requires IsDraw(rows, ids, d)
    ensures forall i, j :: 0 <= i < j < |ComparisonsOf(d)| ==>
        ComparisonsOf(d)[i].key != ComparisonsOf(d)[j].key && ComparisonsOf(d)[i].id != ComparisonsOf(d)[j].id
  {
    forall i, j | 0 <= i < j < |ComparisonsOf(d)|
      ensures ComparisonsOf(d)[i].key != ComparisonsOf(d)[j].key && ComparisonsOf(d)[i].id != ComparisonsOf(d)[j].id
    {
      DraftSeated(rows, ids, d, d.order[i]);
      DraftSeated(rows, ids, d, d.order[j]);
      IdsDiffer(d.order[i], d.order[j]);
    }
  }

  lemma SeatListed(rows: multiset<Row>, ids: multiset<RunId>, d: Draw, seat: Seat)
    requires IsDraw(rows, ids, d) && seat in Placed(ids, Identifiable(rows), SeatOfRun(rows))
    ensures HasComparison(ComparisonsOf(d), seat.key)
  {
    assert seat == Seat(seat.key, seat.place) && seat.key in ToSet(d.order);
    var i :| 0 <= i < |d.order| && d.order[i] == seat.key;
    assert ComparisonsOf(d)[i] in ComparisonsOf(d);
  }

  lemma EachListedHolds(rows: multiset<Row>, ids: multiset<RunId>, d: Draw, c: Comparison)
    requires IsDraw(rows, ids, d) && c in ComparisonsOf(d)
    ensures ComparisonHolds(rows, Placed(ids, Identifiable(rows), SeatOfRun(rows)), c)
  {
    var i :| 0 <= i < |ComparisonsOf(d)| && ComparisonsOf(d)[i] == c;
    ListedHolds(rows, ids, d, d.order[i]);
  }

  lemma ListedDescribe(rows: multiset<Row>, ids: multiset<RunId>, d: Draw)
    requires d in Draws(rows, ids)
    ensures Describes(rows, Placed(ids, Identifiable(rows), SeatOfRun(rows)), ComparisonsOf(d))
  {
    IdsDistinct(rows, ids, d);
    forall c | c in ComparisonsOf(d) {
      EachListedHolds(rows, ids, d, c);
    }
    forall seat | seat in Placed(ids, Identifiable(rows), SeatOfRun(rows)) {
      SeatListed(rows, ids, d, seat);
    }
  }

  lemma SamePlacedRuns(rows: multiset<Row>, ids: multiset<RunId>)
    requires Consistent(ids, Identifiable(rows), SeatOfRun(rows)) && Consistent(ids, RunOk(rows), SeatOfRun(rows))
    ensures Placed(ids, Identifiable(rows), SeatOfRun(rows)) == Placed(ids, RunOk(rows), SeatOfRun(rows))
  {
  }

  /** Every run is in order by itself, and no two runs want one seat. */
  ghost predicate RunsAcceptable(rows: multiset<Row>, ids: multiset<RunId>) {
    Consistent(ids, RunOk(rows), SeatOfRun(rows))
  }

  ghost predicate Described(rows: multiset<Row>, ids: multiset<RunId>, result: seq<Comparison>) {
    RunsAcceptable(rows, ids) && Describes(rows, Placed(ids, RunOk(rows), SeatOfRun(rows)), result)
  }

  lemma DrawnDescribed(rows: multiset<Row>, ids: multiset<RunId>, d: Draw)
    requires d in Draws(rows, ids)
    ensures RunsAcceptable(rows, ids) <==> forall id :: id in ids ==> id in ValidRuns(rows)
    ensures RunsAcceptable(rows, ids) ==> Described(rows, ids, ComparisonsOf(d))
  {
    ValidMeansOk(rows, ids);
    ListedDescribe(rows, ids, d);
    if RunsAcceptable(rows, ids) {
      SamePlacedRuns(rows, ids);
    }
  }

  lemma NotDrawn(rows: multiset<Row>, ids: multiset<RunId>)
    requires ids !in Seatable(rows)
    ensures !RunsAcceptable(rows, ids)
  {
    ValidMeansOk(rows, ids);
  }

  method ValidateDraw(d: Draw, byRun: map<RunId, seq<Row>>, ghost rows: seq<Row>, ghost ids: seq<RunId>)
    returns (r: Result<seq<Comparison>>)
    requires Grouped(byRun, rows) && d in Draws(multiset(rows), multiset(ids))
    ensures r.Ok? <==> RunsAcceptable(multiset(rows), multiset(ids))
    ensures r.Ok? ==> Described(multiset(rows), multiset(ids), r.value)
  {
    DrawnDescribed(multiset(rows), multiset(ids), d);
    var valid := ValidateAll(d, byRun, rows, ids);
    r := if valid then Ok(ComparisonsOf(d)) else Rejected("run metadata differ from their comparison");
  }

  /**
    build_comparisons. It accepts exactly when every run has one valid identity, its family's
    executions once each and verified TLS evidence, and when no two runs want one seat.
   */
  method BuildComparisons(ids: seq<RunId>, rows: seq<Row>) returns (r: Result<seq<Comparison>>)
    ensures r.Ok? <==> RunsAcceptable(multiset(rows), multiset(ids))
    ensures r.Ok? ==> Described(multiset(rows), multiset(ids), r.value)
    ensures r.Ok? ==> ComparisonsTold(multiset(rows), multiset(ids), r.value)
  {
    var byRun := GroupByRun(rows);
    var drawn := DrawRuns(byRun, rows, ids);
    DrawingEnds(rows, ids, drawn);
    if drawn.Rejected? {
      return Rejected(drawn.reason);
    }
    r := ValidateDraw(drawn.value, byRun, rows, ids);
    if r.Ok? {
      ComparisonsAreTold(multiset(rows), multiset(ids), r.value);
    }
  }

  // ------------------------------------------------------------- what the comparisons guarantee

  lemma ComparisonOfSeat(
    rows: multiset<Row>, ids: multiset<RunId>, result: seq<Comparison>, id: RunId)
    returns (c: Comparison)
    requires Described(rows, ids, result) && id in ids
    ensures var seat := SeatOfRun(rows)(id);
      c in result && c.key == seat.key && seat.place in c.runs && c.runs[seat.place] == id
  {
    var seat := SeatOfRun(rows)(id);
    var placed := Placed(ids, RunOk(rows), SeatOfRun(rows));
    assert seat in placed && placed[seat] == id;
    assert HasComparison(result, seat.key);
    c :| c in result && c.key == seat.key;
    assert ComparisonHolds(rows, placed, c) && seat == Seat(c.key, seat.place);
  }

  lemma SeatOfPlace(rows: multiset<Row>, ids: multiset<RunId>, result: seq<Comparison>, c: Comparison, place: Place)
    requires Described(rows, ids, result) && c in result && place in c.runs
    ensures c.runs[place] in ids && SeatOfRun(rows)(c.runs[place]) == Seat(c.key, place)
  {
    assert ComparisonHolds(rows, Placed(ids, RunOk(rows), SeatOfRun(rows)), c);
  }

  /** Every supplied run is supplied once, has its executions exactly once each, and sits in exactly one seat. */
  lemma RunHasOneSeat(rows: multiset<Row>, ids: multiset<RunId>, result: seq<Comparison>, id: RunId)
    requires Described(rows, ids, result) && id in ids
    ensures ids[id] == 1 && EachOnce(rows, id)
    ensures exists c, place :: c in result && place in c.runs && c.runs[place] == id
    ensures forall c, c', place, place' ::
              (c in result && place in c.runs && c.runs[place] == id && c' in result && place' in c'.runs &&
                  c'.runs[place'] == id) ==>
              c.key == c'.key && place == place'
  {
    assert RunOk(rows)(id);
    var c := ComparisonOfSeat(rows, ids, result, id);
    forall c, place | c in result && place in c.runs && c.runs[place] == id
      ensures Seat(c.key, place) == SeatOfRun(rows)(id)
    {
      SeatOfPlace(rows, ids, result, c, place);
    }
  }

  // ------------------------------------------------------------- the comparisons and their rows

  /** All rows of the run carry these tags, and there is one. */
  ghost predicate RunReads(rows: multiset<Row>, id: RunId, x: Identity) {
    && (exists row :: SomeRow(rows, id, row))
    && (forall row {:trigger SomeRow(rows, id, row)} :: SomeRow(rows, id, row) ==>
          row.key.scenario == x.scenario && row.key.stack == x.stack &&
          row.Get(TlsVersion) == x.version && row.Get(TlsGroup) == x.group)
  }

  /** Where a run belongs: under its scenario without the stack's name, or the whole scenario if it lacks it. */
  ghost predicate SeatReads(x: Identity, family: Family, key: ComparisonKey, place: Place) {
    && StackReads(x.stack, place.0) && place.1 == family
    && key.version == x.version && key.group == x.group
    && (x.scenario == WithStack(key.scenario, place.0) ||
        (key.scenario == x.scenario && forall scenario :: x.scenario != WithStack(scenario, place.0)))
  }

  lemma SeatIsRead(x: Identity, family: Family, key: ComparisonKey, place: Place)
    requires StackIdentity(x.stack).Some?
    ensures SeatOf(x, family) == Seat(key, place) <==> SeatReads(x, family, key, place)
  {
    var stack := StackIdentity(x.stack).value;
    StackReadsIs(x.stack, place.0);
    ScenarioReads(x.scenario, place.0, key.scenario);
    if !EndsWith(x.scenario, ScenarioSuffix(place.0)) {
      forall scenario {
        ScenarioReads(x.scenario, place.0, scenario);
      }
    } else {
      ScenarioReads(x.scenario, place.0, RemoveSuffix(x.scenario, ScenarioSuffix(place.0)));
    }
  }

  lemma RunIsRead(rows: multiset<Row>, id: RunId, x: Identity)
    ensures RunReads(rows, id, x) ==> IdentityOfRun(rows, id) == x
    ensures Identified(rows, id) ==> RunReads(rows, id, IdentityOfRun(rows, id))
    ensures RunReads(rows, id, x) && IdentityOk(x) ==> Identified(rows, id)
  {
  }

  /** The output directory of a comparison, for example s2-vm-tls13-x25519. */
  predicate IdReads(id: string, key: ComparisonKey) {
    id == key.scenario
          + (if key.version == "1.2" then "-tls12" else "-tls13")
          + (if key.group == "P-256" then "-p-256" else "-x25519")
  }

  lemma IdIsRead(key: ComparisonKey)
    requires SupportedKey(key)
    ensures IdReads(ComparisonId(key), key)
  {
    var version, group := WithoutDot(key.version), LowerGroup(key.group);
    assert "-tls" + version + "-" + group == ("-tls" + version) + ("-" + group);
    assert key.scenario + (("-tls" + version) + ("-" + group)) == key.scenario + ("-tls" + version) + ("-" + group);
  }

  /** The run sits where its tags say. */
  ghost predicate SitsWhereRead(rows: multiset<Row>, id: RunId, result: seq<Comparison>) {
    exists c, place, x :: c in result && SitsAt(rows, id, c, place, x)
  }

  ghost predicate SitsAt(rows: multiset<Row>, id: RunId, c: Comparison, place: Place, x: Identity) {
    && place in c.runs && c.runs[place] == id
    && RunReads(rows, id, x) && SeatReads(x, id.family, c.key, place)
    && id in c.identities && c.identities[id] == x
  }

  /** The comparisons hold exactly the supplied runs, each where its tags say, and have the ids of their keys. */
  ghost predicate ComparisonsTold(rows: multiset<Row>, ids: multiset<RunId>, result: seq<Comparison>) {
    && (forall i, j :: 0 <= i < j < |result| ==> result[i].key != result[j].key && result[i].id != result[j].id)
    && (forall c {:trigger IdReads(c.id, c.key)} :: c in result ==> IdReads(c.id, c.key))
    && (forall c, place {:trigger c.runs[place]} :: c in result && place in c.runs ==> c.runs[place] in ids)
    && (forall id {:trigger SitsWhereRead(rows, id, result)} :: id in ids ==> SitsWhereRead(rows, id, result))
  }

  lemma SitsThere(rows: multiset<Row>, ids: multiset<RunId>, result: seq<Comparison>, id: RunId)
    requires Described(rows, ids, result) && id in ids
    ensures SitsWhereRead(rows, id, result)
  {
    var c := ComparisonOfSeat(rows, ids, result, id);
    var seat, x := SeatOfRun(rows)(id), IdentityOfRun(rows, id);
    assert RunOk(rows)(id) && ComparisonHolds(rows, Placed(ids, RunOk(rows), SeatOfRun(rows)), c);
    RunIsRead(rows, id, x);
    SeatIsRead(x, id.family, seat.key, seat.place);
    assert SitsAt(rows, id, c, seat.place, x);
  }

  lemma KeyIsSupported(rows: multiset<Row>, ids: multiset<RunId>, result: seq<Comparison>, c: Comparison)
    requires Described(rows, ids, result) && c in result
    ensures SupportedKey(c.key) && c.id == ComparisonId(c.key)
  {
    assert ComparisonHolds(rows, Placed(ids, RunOk(rows), SeatOfRun(rows)), c);
    assert c.runs.Keys != {};
    var place :| place in c.runs.Keys;
    SeatOfPlace(rows, ids, result, c, place);
    assert RunOk(rows)(c.runs[place]);
  }

  lemma ComparisonsAreTold(rows: multiset<Row>, ids: multiset<RunId>, result: seq<Comparison>)
    requires Described(rows, ids, result)
    ensures ComparisonsTold(rows, ids, result)
  {
    forall c | c in result
      ensures IdReads(c.id, c.key)
    {
      KeyIsSupported(rows, ids, result, c);
      IdIsRead(c.key);
    }
    forall c, place | c in result && place in c.runs
      ensures c.runs[place] in ids
    {
      SeatOfPlace(rows, ids, result, c, place);
    }
    forall id | id in ids {
      SitsThere(rows, ids, result, id);
    }
  }

  /** Runs of different stacks with one scenario and one TLS configuration are compared with each other. */
  lemma StacksAreCompared(
    rows: multiset<Row>, ids: multiset<RunId>, result: seq<Comparison>, a: RunId, b: RunId, x: Identity, y: Identity,
    scenario: string, stack: Stack, stack': Stack)
    returns (c: Comparison)
    requires ComparisonsTold(rows, ids, result) && a in ids && b in ids && RunReads(rows, a, x) && RunReads(rows, b, y)
    requires StackReads(x.stack, stack) && x.scenario == WithStack(scenario, stack)
    requires StackReads(y.stack, stack') && y.scenario == WithStack(scenario, stack')
    requires x.version == y.version && x.group == y.group
    ensures c in result && c.key == ComparisonKey(scenario, x.version, x.group)
    ensures (stack, a.family) in c.runs && c.runs[(stack, a.family)] == a
    ensures (stack', b.family) in c.runs && c.runs[(stack', b.family)] == b
  {
    c := SitsIn(rows, ids, result, a, x, scenario, stack);
    var d := SitsIn(rows, ids, result, b, y, scenario, stack');
    assert c == d;
  }

  /** A run with its stack's name at the end of its scenario sits under the scenario without it. */
  lemma SitsIn(
    rows: multiset<Row>, ids: multiset<RunId>, result: seq<Comparison>, id: RunId, x: Identity, scenario: string,
    stack: Stack)
    returns (c: Comparison)
    requires ComparisonsTold(rows, ids, result) && id in ids && RunReads(rows, id, x)
    requires StackReads(x.stack, stack) && x.scenario == WithStack(scenario, stack)
    ensures c in result && c.key == ComparisonKey(scenario, x.version, x.group)
    ensures (stack, id.family) in c.runs && c.runs[(stack, id.family)] == id
  {
    assert SitsWhereRead(rows, id, result);
    var d, place, y :| d in result && SitsAt(rows, id, d, place, y);
    c := d;
    RunIsRead(rows, id, x);
    RunIsRead(rows, id, y);
    OneSeatRead(x, id.family, scenario, stack, c.key, place);
  }

  lemma OneSeatRead(x: Identity, family: Family, scenario: string, stack: Stack, key: ComparisonKey, place: Place)
    requires SeatReads(x, family, key, place) && StackReads(x.stack, stack) && x.scenario == WithStack(scenario, stack)
    ensures key == ComparisonKey(scenario, x.version, x.group) && place == (stack, family)
  {
    StackReadsIs(x.stack, stack);
    StackReadsIs(x.stack, place.0);
    ScenarioReads(x.scenario, stack, scenario);
    ScenarioReads(x.scenario, stack, key.scenario);
  }

  // ------------------------------------------------------------- what is accepted, in the columns' words

  /** Lower-case letters, digits and hyphens, not beginning with a hyphen. */
  predicate TagFits(tag: string) {
    && |tag| > 0 && tag[0] != '-'
    && forall i :: 0 <= i < |tag| ==> 'a' <= tag[i] <= 'z' || '0' <= tag[i] <= '9' || tag[i] == '-'
  }

  /** The tags that all rows of a run share are supported ones. */
  ghost predicate TagsFit(rows: multiset<Row>, id: RunId, x: Identity, stack: Stack) {
    && RunReads(rows, id, x) && TagFits(x.scenario) && StackReads(x.stack, stack)
    && x.version in {"1.2", "1.3"} && x.group in {"P-256", "X25519"}
  }

  /** Each execution of the plan is reported by one row, and every row has the evidence. */
  ghost predicate RowsFit(rows: multiset<Row>, id: RunId) {
    && ReportsThePlan(rows, id)
    && (forall row {:trigger SomeRow(rows, id, row)} :: SomeRow(rows, id, row) ==>
          rows[row] == 1 && row.Get(GroupSource) == "openssl-preflight")
    && (forall a, b {:trigger SomeRow(rows, id, a), SomeRow(rows, id, b)} ::
          SomeRow(rows, id, a) && SomeRow(rows, id, b) &&
          a.key.profile == b.key.profile && a.key.index == b.key.index ==>
            a == b)
  }

  ghost predicate RunFits(rows: multiset<Row>, id: RunId) {
    RowsFit(rows, id) && exists x, stack :: TagsFit(rows, id, x, stack)
  }

  lemma IdentityFits(rows: multiset<Row>, id: RunId)
    ensures Identified(rows, id) <==> exists x, stack :: TagsFit(rows, id, x, stack)
  {
    if Identified(rows, id) {
      var x := IdentityOfRun(rows, id);
      RunIsRead(rows, id, x);
      StackReadsIs(x.stack, StackIdentity(x.stack).value);
      assert TagsFit(rows, id, x, StackIdentity(x.stack).value);
    }
    if x, stack :| TagsFit(rows, id, x, stack) {
      StackReadsIs(x.stack, stack);
      RunIsRead(rows, id, x);
    }
  }

  lemma RunOkIsRead(rows: multiset<Row>, id: RunId)
    ensures RunOk(rows)(id) <==> RunFits(rows, id)
  {
    IdentityFits(rows, id);
    ReportsIs(rows, id);
  }

  /** Two runs whose tags say the same place. */
  ghost predicate SameSeatRead(rows: multiset<Row>, a: RunId, b: RunId) {
    exists x, y, key, place ::
      && RunReads(rows, a, x) && SeatReads(x, a.family, key, place)
      && RunReads(rows, b, y) && SeatReads(y, b.family, key, place)
  }

  lemma SeatsAreRead(rows: multiset<Row>, a: RunId, b: RunId)
    requires Identified(rows, a) && Identified(rows, b)
    ensures SameSeatRead(rows, a, b) <==> SeatOfRun(rows)(a) == SeatOfRun(rows)(b)
  {
    var x, y := IdentityOfRun(rows, a), IdentityOfRun(rows, b);
    RunIsRead(rows, a, x);
    RunIsRead(rows, b, y);
    forall key, place
      ensures SeatReads(x, a.family, key, place) <==> SeatOf(x, a.family) == Seat(key, place)
      ensures SeatReads(y, b.family, key, place) <==> SeatOf(y, b.family) == Seat(key, place)
    {
      SeatIsRead(x, a.family, key, place);
      SeatIsRead(y, b.family, key, place);
    }
    if SameSeatRead(rows, a, b) {
      var x', y', key, place :| RunReads(rows, a, x') && SeatReads(x', a.family, key, place) &&
        RunReads(rows, b, y') && SeatReads(y', b.family, key, place);
      RunIsRead(rows, a, x');
      RunIsRead(rows, b, y');
    }
    if SeatOfRun(rows)(a) == SeatOfRun(rows)(b) {
      var seat := SeatOfRun(rows)(a);
      assert SeatReads(x, a.family, seat.key, seat.place) && SeatReads(y, b.family, seat.key, seat.place);
    }
  }

  /** Each run once and fitting, and no two in one place. */
  ghost predicate RunsFit(rows: multiset<Row>, ids: multiset<RunId>) {
    && (forall id {:trigger RunFits(rows, id)} :: id in ids ==> ids[id] == 1 && RunFits(rows, id))
    && (forall a, b {:trigger SameSeatRead(rows, a, b)} :: a in ids && b in ids && SameSeatRead(rows, a, b) ==> a == b)
  }

  lemma FitIsAcceptable(rows: multiset<Row>, ids: multiset<RunId>)
    requires RunsFit(rows, ids)
    ensures RunsAcceptable(rows, ids)
  {
    forall id | id in ids
      ensures ids[id] == 1 && RunOk(rows)(id)
    {
      assert RunFits(rows, id);
      RunOkIsRead(rows, id);
    }
    forall a, b | a in ids && b in ids && SeatOfRun(rows)(a) == SeatOfRun(rows)(b)
      ensures a == b
    {
      assert RunOk(rows)(a) && RunOk(rows)(b);
      SeatsAreRead(rows, a, b);
    }
  }

  lemma AcceptableFits(rows: multiset<Row>, ids: multiset<RunId>)
    requires RunsAcceptable(rows, ids)
    ensures RunsFit(rows, ids)
  {
    forall id | id in ids
      ensures ids[id] == 1 && RunFits(rows, id)
    {
      assert RunOk(rows)(id);
      RunOkIsRead(rows, id);
    }
    forall a, b | a in ids && b in ids && SameSeatRead(rows, a, b)
      ensures a == b
    {
      assert RunOk(rows)(a) && RunOk(rows)(b);
      SeatsAreRead(rows, a, b);
    }
  }

  /** Exactly such runs are accepted. */
  lemma RunsAcceptableIsRead(rows: multiset<Row>, ids: multiset<RunId>)
    ensures RunsAcceptable(rows, ids) <==> RunsFit(rows, ids)
  {
    if RunsFit(rows, ids) {
      FitIsAcceptable(rows, ids);
    } else if RunsAcceptable(rows, ids) {
      AcceptableFits(rows, ids);
      assert false;
    }
  }
}
