/** What a scenario summary accepts, in the words of the rows' columns. */
module SummaryReadings {
  import opened Workloads
  import opened Metadata
  import opened Placement
  import opened Cells
  import opened RowReadings
  import opened ScenarioGroups
  import opened ScenarioSummaries

  predicate SameTls(a: Row, b: Row) {
    a.Get(TlsVersion) == b.Get(TlsVersion) && a.Get(TlsGroup) == b.Get(TlsGroup)
  }

  /** Rows of one profile have the same settings. */
  ghost predicate OneSetting(a: Row, b: Row) {
    forall scenario, stack, repeat, scenario', stack', repeat', profile
      {:trigger RowReads(a, scenario, stack, profile, repeat), RowReads(b, scenario', stack', profile, repeat')} ::
      RowReads(a, scenario, stack, profile, repeat) && RowReads(b, scenario', stack', profile, repeat') ==>
        SameSettings(a, b)
  }

  /** The scenario of `a` was run three times on the stack of `b`, as `b` was. */
  ghost predicate Crosses(ids: multiset<RunId>, rows: multiset<Row>, a: Row, b: Row) {
    forall scenario, stack, profile, repeat, scenario', stack', profile', repeat', k: nat
      {:trigger RowReads(a, scenario, stack, profile, repeat), RowReads(b, scenario', stack', profile', repeat'),
         HasTwin(ids, rows, b, scenario, stack', profile', k)} ::
      RowReads(a, scenario, stack, profile, repeat) && RowReads(b, scenario', stack', profile', repeat') && k < 3 ==>
        HasTwin(ids, rows, b, scenario, stack', profile', k)
  }

  /** A run of another scenario. */
  ghost predicate Rivals(a: Row, b: Row) {
    exists scenario, stack, profile, repeat, scenario', stack', profile', repeat' ::
      && RowReads(a, scenario, stack, profile, repeat) && RowReads(b, scenario', stack', profile', repeat')
      && scenario != scenario'
  }

  ghost predicate HasRival(ids: multiset<RunId>, rows: multiset<Row>, a: Row) {
    exists b :: b in rows && b.key.run in ids && SameTls(a, b) && Rivals(a, b)
  }

  /**
    Rows that can be summarized. Within a TLS configuration there are two scenarios or more, every
    scenario was run three times in every profile on all stacks of that profile, and a profile has one setting.
   */
  ghost predicate RowsSummarizable(ids: multiset<RunId>, rows: multiset<Row>) {
    RowsAcceptable(ids, rows) && AllHaveRivals(ids, rows) && AllCross(ids, rows)
  }

  ghost predicate AllHaveRivals(ids: multiset<RunId>, rows: multiset<Row>) {
    forall a {:trigger HasRival(ids, rows, a)} :: a in rows && a.key.run in ids ==> HasRival(ids, rows, a)
  }

  ghost predicate AllCross(ids: multiset<RunId>, rows: multiset<Row>) {
    forall a, b {:trigger SameTls(a, b)} ::
      a in rows && b in rows && a.key.run in ids && b.key.run in ids && SameTls(a, b) ==>
        OneSetting(a, b) && Crosses(ids, rows, a, b)
  }

  // ------------------------------------------------------------- the same of slots

  ghost predicate SlotsCross(cells: CellMap, s: Slot, t: Slot) {
    && (SameName(s.cell, t.cell) ==> s.cell == t.cell)
    && forall k: nat {:trigger SlotId(s.id.scenario, t.id.stack, k)} ::
         k < 3 ==> Occupied(cells, Slot(t.cell, SlotId(s.id.scenario, t.id.stack, k)))
  }

  ghost predicate SlotHasRival(cells: CellMap, s: Slot) {
    exists t :: Occupied(cells, t) && KeyOf(s.cell) == KeyOf(t.cell) && s.id.scenario != t.id.scenario
  }

  ghost predicate SlotsMatch(cells: CellMap) {
    && (forall s {:trigger SlotHasRival(cells, s)} :: Occupied(cells, s) ==> s.id.repeat < 3 && SlotHasRival(cells, s))
    && (forall s, t {:trigger SlotsCross(cells, s, t)} ::
          Occupied(cells, s) && Occupied(cells, t) && KeyOf(s.cell) == KeyOf(t.cell) ==> SlotsCross(cells, s, t))
  }

  lemma OtherElement<T>(s: set<T>, x: T) returns (y: T)
    requires x in s && |s| >= 2
    ensures y in s && y != x
  {
    assert |s - {x}| >= 1;
    y :| y in s - {x};
  }

  lemma TwoElements<T>(s: set<T>, x: T, y: T)
    requires x in s && y in s && x != y
    ensures |s| >= 2
  {
    assert {x, y} <= s;
    assert s == {x, y} + (s - {x, y});
  }

  lemma RectanglesHaveRivals(cells: CellMap, s: Slot)
    requires Groupable(cells) && Occupied(cells, s)
    ensures s.id.repeat < 3 && SlotHasRival(cells, s)
  {
    var executions := cells[s.cell];
    assert Rectangular(executions) && s.id.scenario in ScenariosOf(executions);
    var scenario := OtherElement(ScenariosOf(executions), s.id.scenario);
    var id :| id in executions && id.scenario == scenario;
    assert Occupied(cells, Slot(s.cell, id));
  }

  lemma RectanglesCross(cells: CellMap, s: Slot, t: Slot)
    requires Groupable(cells) && Occupied(cells, s) && Occupied(cells, t) && KeyOf(s.cell) == KeyOf(t.cell)
    ensures SlotsCross(cells, s, t)
  {
    assert Together(cells, s.cell, t.cell) && Rectangular(cells[t.cell]);
    assert s.id.scenario in ScenariosOf(cells[s.cell]) && t.id.stack in StacksOf(cells[t.cell]);
  }

  lemma CrossedSlot(cells: CellMap, s: Slot, t: Slot, k: nat)
    requires SlotsMatch(cells) && Occupied(cells, s) && Occupied(cells, t) && KeyOf(s.cell) == KeyOf(t.cell) && k < 3
    ensures SlotId(s.id.scenario, t.id.stack, k) in cells[t.cell]
    ensures SameName(s.cell, t.cell) ==> s.cell == t.cell
  {
    assert SlotsCross(cells, s, t);
    assert Occupied(cells, Slot(t.cell, SlotId(s.id.scenario, t.id.stack, k)));
  }

  lemma MatchIsRectangular(cells: CellMap, key: CellKey)
    requires SlotsMatch(cells) && key in cells && cells[key] != map[]
    ensures Rectangular(cells[key])
  {
    var executions := cells[key];
    var id :| id in executions;
    assert Occupied(cells, Slot(key, id)) && SlotHasRival(cells, Slot(key, id));
    var t :| Occupied(cells, t) && KeyOf(key) == KeyOf(t.cell) && id.scenario != t.id.scenario;
    CrossedSlot(cells, t, Slot(key, id), 0);
    TwoElements(ScenariosOf(executions), id.scenario, t.id.scenario);
    forall a | a in executions
      ensures a.repeat < 3
    {
      assert SlotHasRival(cells, Slot(key, a));
    }
    forall scenario, stack, repeat: nat
      | scenario in ScenariosOf(executions) && stack in StacksOf(executions) && repeat < 3
      ensures SlotId(scenario, stack, repeat) in executions
    {
      var a :| a in executions && a.scenario == scenario;
      var b :| b in executions && b.stack == stack;
      CrossedSlot(cells, Slot(key, a), Slot(key, b), repeat);
    }
  }

  lemma MatchSharesScenarios(cells: CellMap, a: CellKey, b: CellKey)
    requires SlotsMatch(cells) && a in cells && b in cells && KeyOf(a) == KeyOf(b) && cells[b] != map[]
    ensures ScenariosOf(cells[a]) <= ScenariosOf(cells[b])
    ensures cells[a] != map[] && SameName(a, b) ==> a == b
  {
    var t :| t in cells[b];
    forall id | id in cells[a]
      ensures id.scenario in ScenariosOf(cells[b]) && (SameName(a, b) ==> a == b)
    {
      CrossedSlot(cells, Slot(a, id), Slot(b, t), 0);
    }
  }

  lemma GroupableIsMatched(cells: CellMap)
    requires forall key {:trigger cells[key]} :: key in cells ==> cells[key] != map[]
    ensures Groupable(cells) <==> SlotsMatch(cells)
  {
    if Groupable(cells) {
      forall s | Occupied(cells, s) {
        RectanglesHaveRivals(cells, s);
      }
      forall s, t | Occupied(cells, s) && Occupied(cells, t) && KeyOf(s.cell) == KeyOf(t.cell) {
        RectanglesCross(cells, s, t);
      }
    }
    if SlotsMatch(cells) {
      forall key | key in cells {
        MatchIsRectangular(cells, key);
      }
      forall a, b | a in cells && b in cells && KeyOf(a) == KeyOf(b)
        ensures Together(cells, a, b)
      {
        MatchSharesScenarios(cells, a, b);
        MatchSharesScenarios(cells, b, a);
      }
    }
  }

  // ------------------------------------------------------------- rows and their slots

  lemma RivalIsSlot(a: Row, b: Row)
    requires RowOk(a) && RowOk(b)
    ensures SameTls(a, b) && Rivals(a, b) <==>
            (KeyOf(SlotOf(a).cell) == KeyOf(SlotOf(b).cell) && SlotOf(a).id.scenario != SlotOf(b).id.scenario)
  {
    var scenario, stack, profile, repeat := OneReading(a);
    var scenario', stack', profile', repeat' := OneReading(b);
  }

  lemma RivalIsPlaced(ids: multiset<RunId>, rows: multiset<Row>, a: Row)
    requires Acceptable(RULES, ids, rows) && RowOk(a)
    ensures HasRival(ids, rows, a) <==> SlotHasRival(CellsFrom(RULES, ids, rows), SlotOf(a))
  {
    var cells := CellsFrom(RULES, ids, rows);
    if b :| b in rows && b.key.run in ids && SameTls(a, b) && Rivals(a, b) {
      SupplyOk(RULES, ids, rows, b);
      RowOccupies(RULES, ids, rows, b);
      RivalIsSlot(a, b);
    }
    if SlotHasRival(cells, SlotOf(a)) {
      var t :| Occupied(cells, t) && KeyOf(SlotOf(a).cell) == KeyOf(t.cell) && SlotOf(a).id.scenario != t.id.scenario;
      var b := RowInSlot(ids, rows, t);
      RivalIsSlot(a, b);
    }
  }

  lemma RowInSlot(ids: multiset<RunId>, rows: multiset<Row>, slot: Slot) returns (row: Row)
    requires Acceptable(RULES, ids, rows) && Occupied(CellsFrom(RULES, ids, rows), slot)
    ensures row in rows && row.key.run in ids && RowOk(row) && SlotOf(row) == slot
  {
    OccupiedByRow(RULES, ids, rows, slot);
    row := Placed(Supplied(ids, rows), RULES.ok, RULES.slot)[slot];
    assert row in Supplied(ids, rows) && RULES.ok(row);
  }

  lemma SettingIsCell(a: Row, b: Row)
    requires RowOk(a) && RowOk(b) && SameTls(a, b)
    ensures OneSetting(a, b) <==> (SameName(SlotOf(a).cell, SlotOf(b).cell) ==> SlotOf(a).cell == SlotOf(b).cell)
  {
    var scenario, stack, profile, repeat := OneReading(a);
    var scenario', stack', profile', repeat' := OneReading(b);
    if profile == profile' {
      assert a.key.run.family == b.key.run.family;
      SettingsEqual(a, b);
      assert OneSetting(a, b) <==> SameSettings(a, b);
    }
  }

  lemma CrossIsPlaced(ids: multiset<RunId>, rows: multiset<Row>, a: Row, b: Row)
    requires Acceptable(RULES, ids, rows) && RowOk(a) && RowOk(b)
    ensures Crosses(ids, rows, a, b) <==>
            forall k: nat :: k < 3 ==> HasTwin(ids, rows, b, ScenarioOf(a), StackOf(b), ProfileOf(b).0, k)
  {
    var scenario, stack, profile, repeat := OneReading(a);
    var scenario', stack', profile', repeat' := OneReading(b);
    if Crosses(ids, rows, a, b) {
      forall k: nat | k < 3
        ensures HasTwin(ids, rows, b, scenario, stack', profile', k)
      {
        assert RowReads(a, scenario, stack, profile, repeat) && RowReads(b, scenario', stack', profile', repeat');
      }
    }
  }

  lemma CrossIsSlots(ids: multiset<RunId>, rows: multiset<Row>, a: Row, b: Row)
    requires Acceptable(RULES, ids, rows) && RowOk(a) && RowOk(b) && SameTls(a, b)
    ensures OneSetting(a, b) && Crosses(ids, rows, a, b) <==>
            SlotsCross(CellsFrom(RULES, ids, rows), SlotOf(a), SlotOf(b))
  {
    var cells, s, t := CellsFrom(RULES, ids, rows), SlotOf(a), SlotOf(b);
    SettingIsCell(a, b);
    CrossIsPlaced(ids, rows, a, b);
    forall k: nat
      ensures HasTwin(ids, rows, b, ScenarioOf(a), StackOf(b), ProfileOf(b).0, k) <==>
              Occupied(cells, Slot(t.cell, SlotId(s.id.scenario, t.id.stack, k)))
    {
      TwinIsPlaced(ids, rows, b, ScenarioOf(a), StackOf(b), k);
      OccupiedByRow(RULES, ids, rows, Slot(t.cell, SlotId(s.id.scenario, t.id.stack, k)));
    }
  }

  lemma SlotMatches(ids: multiset<RunId>, rows: multiset<Row>, s: Slot)
    requires Acceptable(RULES, ids, rows) && AllHaveRivals(ids, rows) && Occupied(CellsFrom(RULES, ids, rows), s)
    ensures s.id.repeat < 3 && SlotHasRival(CellsFrom(RULES, ids, rows), s)
  {
    var a := RowInSlot(ids, rows, s);
    RepeatIsSmall(a);
    RivalIsPlaced(ids, rows, a);
    assert HasRival(ids, rows, a);
  }

  lemma SlotsAreCrossed(ids: multiset<RunId>, rows: multiset<Row>, s: Slot, t: Slot)
    requires Acceptable(RULES, ids, rows) && AllCross(ids, rows) && KeyOf(s.cell) == KeyOf(t.cell)
    requires Occupied(CellsFrom(RULES, ids, rows), s) && Occupied(CellsFrom(RULES, ids, rows), t)
    ensures SlotsCross(CellsFrom(RULES, ids, rows), s, t)
  {
    var a := RowInSlot(ids, rows, s);
    var b := RowInSlot(ids, rows, t);
    SlotTls(a, b);
    CrossIsSlots(ids, rows, a, b);
  }

  lemma RowsMatch(ids: multiset<RunId>, rows: multiset<Row>)
    requires Acceptable(RULES, ids, rows) && AllHaveRivals(ids, rows) && AllCross(ids, rows)
    ensures SlotsMatch(CellsFrom(RULES, ids, rows))
  {
    var cells := CellsFrom(RULES, ids, rows);
    forall s | Occupied(cells, s) {
      SlotMatches(ids, rows, s);
    }
    forall s, t | Occupied(cells, s) && Occupied(cells, t) && KeyOf(s.cell) == KeyOf(t.cell) {
      SlotsAreCrossed(ids, rows, s, t);
    }
  }

  lemma SlotTls(a: Row, b: Row)
    ensures SameTls(a, b) <==> KeyOf(SlotOf(a).cell) == KeyOf(SlotOf(b).cell)
  {
  }

  lemma MatchCrosses(cells: CellMap, s: Slot, t: Slot)
    requires SlotsMatch(cells) && Occupied(cells, s) && Occupied(cells, t) && KeyOf(s.cell) == KeyOf(t.cell)
    ensures SlotsCross(cells, s, t)
  {
  }

  lemma MatchedRow(ids: multiset<RunId>, rows: multiset<Row>, a: Row)
    requires Acceptable(RULES, ids, rows) && SlotsMatch(CellsFrom(RULES, ids, rows)) && a in rows && a.key.run in ids
    ensures RowOk(a) && Occupied(CellsFrom(RULES, ids, rows), SlotOf(a)) && HasRival(ids, rows, a)
  {
    SupplyOk(RULES, ids, rows, a);
    RowOccupies(RULES, ids, rows, a);
    RivalIsPlaced(ids, rows, a);
    assert SlotHasRival(CellsFrom(RULES, ids, rows), SlotOf(a));
  }

  lemma MatchedRows(ids: multiset<RunId>, rows: multiset<Row>, a: Row, b: Row)
    requires Acceptable(RULES, ids, rows) && SlotsMatch(CellsFrom(RULES, ids, rows)) && SameTls(a, b)
    requires a in rows && b in rows && a.key.run in ids && b.key.run in ids
    ensures OneSetting(a, b) && Crosses(ids, rows, a, b)
  {
    MatchedRow(ids, rows, a);
    MatchedRow(ids, rows, b);
    SlotTls(a, b);
    MatchCrosses(CellsFrom(RULES, ids, rows), SlotOf(a), SlotOf(b));
    CrossIsSlots(ids, rows, a, b);
  }

  lemma MatchHasRivals(ids: multiset<RunId>, rows: multiset<Row>)
    requires Acceptable(RULES, ids, rows) && SlotsMatch(CellsFrom(RULES, ids, rows))
    ensures AllHaveRivals(ids, rows)
  {
    forall a | a in rows && a.key.run in ids {
      MatchedRow(ids, rows, a);
    }
  }

  lemma MatchIsCrossed(ids: multiset<RunId>, rows: multiset<Row>)
    requires Acceptable(RULES, ids, rows) && SlotsMatch(CellsFrom(RULES, ids, rows))
    ensures AllCross(ids, rows)
  {
    forall a, b | a in rows && b in rows && a.key.run in ids && b.key.run in ids && SameTls(a, b) {
      MatchedRows(ids, rows, a, b);
    }
  }

  lemma NoEmptyCells(ids: multiset<RunId>, rows: multiset<Row>, key: CellKey)
    requires Acceptable(RULES, ids, rows) && key in CellsFrom(RULES, ids, rows)
    ensures CellsFrom(RULES, ids, rows)[key] != map[]
  {
    CellsOfTabulates(TableOf(RULES, Supplied(ids, rows)));
  }

  /** The builder of the scenario summary accepts exactly rows that can be summarized. */
  lemma SummarizableIsRead(ids: multiset<RunId>, rows: multiset<Row>)
    ensures Summarizable(RULES, ids, rows) <==> RowsSummarizable(ids, rows)
  {
    AcceptableIsRead(ids, rows);
    if Acceptable(RULES, ids, rows) {
      forall key | key in CellsFrom(RULES, ids, rows) {
        NoEmptyCells(ids, rows, key);
      }
      GroupableIsMatched(CellsFrom(RULES, ids, rows));
      if SlotsMatch(CellsFrom(RULES, ids, rows)) {
        MatchHasRivals(ids, rows);
        MatchIsCrossed(ids, rows);
      }
      if AllHaveRivals(ids, rows) && AllCross(ids, rows) {
        RowsMatch(ids, rows);
      }
    }
  }
}
