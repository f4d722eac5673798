/**
 * The foreign-key, key and type invariants that the table declarations keep,
 * proved table by table on the constant registry and then stated for every
 * table name.
 */
module Registry {
  import opened Schema

  /** Every column of `cols[i..]` has an allowed type. */
  predicate TypesFrom(cols: seq<Column>, i: nat)
    decreases |cols| - i
  {
    i >= |cols| || (ColumnTyped(cols[i]) && TypesFrom(cols, i + 1))
  }

  lemma {:induction false} TypesMeaning(cols: seq<Column>, i: nat)
    requires TypesFrom(cols, i)
    ensures forall k :: i <= k < |cols| ==> ColumnTyped(cols[k])
    decreases |cols| - i
  {
    if i < |cols| {
      TypesMeaning(cols, i + 1);
    }
  }

  lemma AllSound0(t: Table)
    requires ForeignKeys(t) == []
    ensures forall fk :: fk in ForeignKeys(t) ==> SoundForeignKey(t, fk)
  {
  }

  lemma AllSound1(t: Table, a: ForeignKeyConstraint)
    requires ForeignKeys(t) == [a] && SoundForeignKey(t, a)
    ensures forall fk :: fk in ForeignKeys(t) ==> SoundForeignKey(t, fk)
  {
  }

  /** The members of a two-element list. */
  lemma Cover2(l: seq<ForeignKeyConstraint>, a: ForeignKeyConstraint, b: ForeignKeyConstraint)
    requires l == [a, b]
    ensures forall fk :: fk in l ==> fk == a || fk == b
  {
  }

  /** The members of a three-element list. */
  lemma Cover3(l: seq<ForeignKeyConstraint>, a: ForeignKeyConstraint, b: ForeignKeyConstraint, c: ForeignKeyConstraint)
    requires l == [a, b, c]
    ensures forall fk :: fk in l ==> fk == a || fk == b || fk == c
  {
  }

  lemma AllSound2(t: Table, a: ForeignKeyConstraint, b: ForeignKeyConstraint)
    requires ForeignKeys(t) == [a, b] && SoundForeignKey(t, a) && SoundForeignKey(t, b)
    ensures forall fk :: fk in ForeignKeys(t) ==> SoundForeignKey(t, fk)
  {
    Cover2(ForeignKeys(t), a, b);
  }

  lemma AllSound3(t: Table, a: ForeignKeyConstraint, b: ForeignKeyConstraint, c: ForeignKeyConstraint)
    requires ForeignKeys(t) == [a, b, c] && SoundForeignKey(t, a) && SoundForeignKey(t, b) && SoundForeignKey(t, c)
    ensures forall fk :: fk in ForeignKeys(t) ==> SoundForeignKey(t, fk)
  {
    Cover3(ForeignKeys(t), a, b, c);
  }

  // ---------------------------------------------------------------------------
  // Table by table: the list of foreign keys, each foreign key on its own,
  // the column types and the association check.

  /** A list of 2 different names. */
  lemma Distinct2(s: seq<ColName>, a: ColName, b: ColName)
    requires s == [a, b]
    requires a != b
    ensures DistinctNames(s)
  {
  }

  /** A list of 3 different names. */
  lemma Distinct3(s: seq<ColName>, a: ColName, b: ColName, c: ColName)
    requires s == [a, b, c]
    requires a !in [b, c] && b != c
    ensures DistinctNames(s)
  {
  }

  /** A list of 4 different names. */
  lemma Distinct4(s: seq<ColName>, a: ColName, b: ColName, c: ColName, d: ColName)
    requires s == [a, b, c, d]
    requires a !in [b, c, d] && b !in [c, d] && c != d
    ensures DistinctNames(s)
  {
  }

  /** A list of 5 different names. */
  lemma Distinct5(s: seq<ColName>, a: ColName, b: ColName, c: ColName, d: ColName, e: ColName)
    requires s == [a, b, c, d, e]
    requires a !in [b, c, d, e] && b !in [c, d, e] && c !in [d, e] && d != e
    ensures DistinctNames(s)
  {
  }

  /** A list of 9 different names. */
  lemma Distinct9(s: seq<ColName>, a: ColName, b: ColName, c: ColName, d: ColName, e: ColName, f: ColName, g: ColName, h: ColName, i: ColName)
    requires s == [a, b, c, d, e, f, g, h, i]
    requires a !in [b, c, d, e, f, g, h, i] && b !in [c, d, e, f, g, h, i] && c !in [d, e, f, g, h, i] && d !in [e, f, g, h, i] && e !in [f, g, h, i] && f !in [g, h, i] && g !in [h, i] && h != i
    ensures DistinctNames(s)
  {
  }

  // `Year`

  lemma YearColumnNames()
    ensures ColumnNames(YearTable.columns) == [Slug, Name]
  {
  }

  lemma YearForeignKeyList()
    ensures ForeignKeys(YearTable) == []
  {
  }

  lemma YearForeignKeysListed()
    ensures forall fk :: fk in ForeignKeys(YearTable) ==> SoundForeignKey(YearTable, fk)
  {
    YearForeignKeyList();
    AllSound0(YearTable);
  }

  lemma YearForeignKeysSound()
    ensures forall fk :: fk in ForeignKeys(TableOf(Year)) ==> SoundForeignKey(TableOf(Year), fk)
  {
    YearForeignKeysListed();
    assert TableOf(Year) == YearTable;
  }

  lemma YearDistinctColumns()
    ensures DistinctNames(ColumnNames(TableOf(Year).columns))
  {
    YearColumnNames();
    Distinct2(ColumnNames(YearTable.columns), Slug, Name);
    assert TableOf(Year) == YearTable;
  }

  lemma YearTyped()
    ensures TypesFrom(TableOf(Year).columns, 0)
  {
    assert TableOf(Year) == YearTable;
  }

  lemma YearPrimaryKey()
    ensures PrimaryKey(YearTable) == {Slug}
  {
  }

  lemma YearForeignKeyColumns()
    ensures ForeignKeyColumns(YearTable) == {}
  {
    YearForeignKeyList();
  }

  lemma YearKeyed()
    ensures ForeignKeyColumns(TableOf(Year)) != PrimaryKey(TableOf(Year))
  {
    YearPrimaryKey();
    YearForeignKeyColumns();
    assert TableOf(Year) == YearTable;
  }

  // `Country`

  lemma CountryColumnNames()
    ensures ColumnNames(CountryTable.columns) == [Slug, Name, Abbr]
  {
  }

  lemma CountryForeignKeyList()
    ensures ForeignKeys(CountryTable) == []
  {
  }

  lemma CountryForeignKeysListed()
    ensures forall fk :: fk in ForeignKeys(CountryTable) ==> SoundForeignKey(CountryTable, fk)
  {
    CountryForeignKeyList();
    AllSound0(CountryTable);
  }

  lemma CountryForeignKeysSound()
    ensures forall fk :: fk in ForeignKeys(TableOf(Country)) ==> SoundForeignKey(TableOf(Country), fk)
  {
    CountryForeignKeysListed();
    assert TableOf(Country) == CountryTable;
  }

  lemma CountryDistinctColumns()
    ensures DistinctNames(ColumnNames(TableOf(Country).columns))
  {
    CountryColumnNames();
    Distinct3(ColumnNames(CountryTable.columns), Slug, Name, Abbr);
    assert TableOf(Country) == CountryTable;
  }

  lemma CountryTyped()
    ensures TypesFrom(TableOf(Country).columns, 0)
  {
    assert TableOf(Country) == CountryTable;
  }

  lemma CountryPrimaryKey()
    ensures PrimaryKey(CountryTable) == {Slug}
  {
  }

  lemma CountryForeignKeyColumns()
    ensures ForeignKeyColumns(CountryTable) == {}
  {
    CountryForeignKeyList();
  }

  lemma CountryKeyed()
    ensures ForeignKeyColumns(TableOf(Country)) != PrimaryKey(TableOf(Country))
  {
    CountryPrimaryKey();
    CountryForeignKeyColumns();
    assert TableOf(Country) == CountryTable;
  }

  // `CountryState`

  lemma CountryStateColumnNames()
    ensures ColumnNames(CountryStateTable.columns) == [CountrySlug, Slug, Name, Abbr]
  {
  }

  lemma CountryStateForeignKeyList()
    ensures ForeignKeys(CountryStateTable) == [ColumnForeignKey(CountryStateTable.columns[0])]
  {
  }

  lemma CountryStateForeignKey0Columns()
    ensures WellShaped(ColumnForeignKey(CountryStateTable.columns[0]))
    ensures forall c :: c in ColumnForeignKey(CountryStateTable.columns[0]).columns ==> HasColumn(CountryStateTable, c)
  {
    CountryStateColumnNames();
  }

  lemma CountryStateForeignKey0Target()
    ensures |ColumnForeignKey(CountryStateTable.columns[0]).refColumns| > 0 && ReferencesKey(CountryStateTable, ColumnForeignKey(CountryStateTable.columns[0]))
  {
    assert TableOf(Country) == CountryTable;
  }

  lemma CountryStateForeignKey0()
    ensures SoundForeignKey(CountryStateTable, ColumnForeignKey(CountryStateTable.columns[0]))
  {
    CountryStateForeignKey0Columns();
    CountryStateForeignKey0Target();
  }

  lemma CountryStateForeignKeysListed()
    ensures forall fk :: fk in ForeignKeys(CountryStateTable) ==> SoundForeignKey(CountryStateTable, fk)
  {
    CountryStateForeignKeyList();
    CountryStateForeignKey0();
    AllSound1(CountryStateTable, ColumnForeignKey(CountryStateTable.columns[0]));
  }

  lemma CountryStateForeignKeysSound()
    ensures forall fk :: fk in ForeignKeys(TableOf(CountryState)) ==> SoundForeignKey(TableOf(CountryState), fk)
  {
    CountryStateForeignKeysListed();
    assert TableOf(CountryState) == CountryStateTable;
  }

  lemma CountryStateDistinctColumns()
    ensures DistinctNames(ColumnNames(TableOf(CountryState).columns))
  {
    CountryStateColumnNames();
    Distinct4(ColumnNames(CountryStateTable.columns), CountrySlug, Slug, Name, Abbr);
    assert TableOf(CountryState) == CountryStateTable;
  }

  lemma CountryStateTyped()
    ensures TypesFrom(TableOf(CountryState).columns, 0)
  {
    assert TableOf(CountryState) == CountryStateTable;
  }

  lemma CountryStatePrimaryKey()
    ensures PrimaryKey(CountryStateTable) == {CountrySlug, Slug}
  {
  }

  lemma CountryStateForeignKeyColumns()
    ensures ForeignKeyColumns(CountryStateTable) == {CountrySlug}
  {
    CountryStateForeignKeyList();
  }

  lemma CountryStateKeyed()
    ensures ForeignKeyColumns(TableOf(CountryState)) != PrimaryKey(TableOf(CountryState))
  {
    CountryStatePrimaryKey();
    CountryStateForeignKeyColumns();
    assert TableOf(CountryState) == CountryStateTable;
  }

  // `Make`

  lemma MakeColumnNames()
    ensures ColumnNames(MakeTable.columns) == [Slug, Name]
  {
  }

  lemma MakeForeignKeyList()
    ensures ForeignKeys(MakeTable) == []
  {
  }

  lemma MakeForeignKeysListed()
    ensures forall fk :: fk in ForeignKeys(MakeTable) ==> SoundForeignKey(MakeTable, fk)
  {
    MakeForeignKeyList();
    AllSound0(MakeTable);
  }

  lemma MakeForeignKeysSound()
    ensures forall fk :: fk in ForeignKeys(TableOf(Make)) ==> SoundForeignKey(TableOf(Make), fk)
  {
    MakeForeignKeysListed();
    assert TableOf(Make) == MakeTable;
  }

  lemma MakeDistinctColumns()
    ensures DistinctNames(ColumnNames(TableOf(Make).columns))
  {
    MakeColumnNames();
    Distinct2(ColumnNames(MakeTable.columns), Slug, Name);
    assert TableOf(Make) == MakeTable;
  }

  lemma MakeTyped()
    ensures TypesFrom(TableOf(Make).columns, 0)
  {
    assert TableOf(Make) == MakeTable;
  }

  lemma MakePrimaryKey()
    ensures PrimaryKey(MakeTable) == {Slug}
  {
  }

  lemma MakeForeignKeyColumns()
    ensures ForeignKeyColumns(MakeTable) == {}
  {
    MakeForeignKeyList();
  }

  lemma MakeKeyed()
    ensures ForeignKeyColumns(TableOf(Make)) != PrimaryKey(TableOf(Make))
  {
    MakePrimaryKey();
    MakeForeignKeyColumns();
    assert TableOf(Make) == MakeTable;
  }

  // `MakeYear`

  lemma MakeYearColumnNames()
    ensures ColumnNames(MakeYearTable.columns) == [MakeSlug, YearSlug]
  {
  }

  lemma MakeYearForeignKeyList()
    ensures ForeignKeys(MakeYearTable) == [ColumnForeignKey(MakeYearTable.columns[0]), ColumnForeignKey(MakeYearTable.columns[1])]
  {
  }

  lemma MakeYearForeignKey0Columns()
    ensures WellShaped(ColumnForeignKey(MakeYearTable.columns[0]))
    ensures forall c :: c in ColumnForeignKey(MakeYearTable.columns[0]).columns ==> HasColumn(MakeYearTable, c)
  {
    MakeYearColumnNames();
  }

  lemma MakeYearForeignKey0Target()
    ensures |ColumnForeignKey(MakeYearTable.columns[0]).refColumns| > 0 && ReferencesKey(MakeYearTable, ColumnForeignKey(MakeYearTable.columns[0]))
  {
    assert TableOf(Make) == MakeTable;
  }

  lemma MakeYearForeignKey0()
    ensures SoundForeignKey(MakeYearTable, ColumnForeignKey(MakeYearTable.columns[0]))
  {
    MakeYearForeignKey0Columns();
    MakeYearForeignKey0Target();
  }

  lemma MakeYearForeignKey1Columns()
    ensures WellShaped(ColumnForeignKey(MakeYearTable.columns[1]))
    ensures forall c :: c in ColumnForeignKey(MakeYearTable.columns[1]).columns ==> HasColumn(MakeYearTable, c)
  {
    MakeYearColumnNames();
  }

  lemma MakeYearForeignKey1Target()
    ensures |ColumnForeignKey(MakeYearTable.columns[1]).refColumns| > 0 && ReferencesKey(MakeYearTable, ColumnForeignKey(MakeYearTable.columns[1]))
  {
    assert TableOf(Year) == YearTable;
  }

  lemma MakeYearForeignKey1()
    ensures SoundForeignKey(MakeYearTable, ColumnForeignKey(MakeYearTable.columns[1]))
  {
    MakeYearForeignKey1Columns();
    MakeYearForeignKey1Target();
  }

  lemma MakeYearForeignKeysListed()
    ensures forall fk :: fk in ForeignKeys(MakeYearTable) ==> SoundForeignKey(MakeYearTable, fk)
  {
    MakeYearForeignKeyList();
    MakeYearForeignKey0();
    MakeYearForeignKey1();
    AllSound2(MakeYearTable, ColumnForeignKey(MakeYearTable.columns[0]), ColumnForeignKey(MakeYearTable.columns[1]));
  }

  lemma MakeYearForeignKeysSound()
    ensures forall fk :: fk in ForeignKeys(TableOf(MakeYear)) ==> SoundForeignKey(TableOf(MakeYear), fk)
  {
    MakeYearForeignKeysListed();
    assert TableOf(MakeYear) == MakeYearTable;
  }

  lemma MakeYearDistinctColumns()
    ensures DistinctNames(ColumnNames(TableOf(MakeYear).columns))
  {
    MakeYearColumnNames();
    Distinct2(ColumnNames(MakeYearTable.columns), MakeSlug, YearSlug);
    assert TableOf(MakeYear) == MakeYearTable;
  }

  lemma MakeYearTyped()
    ensures TypesFrom(TableOf(MakeYear).columns, 0)
  {
    assert TableOf(MakeYear) == MakeYearTable;
  }

  lemma MakeYearPrimaryKey()
    ensures PrimaryKey(MakeYearTable) == {MakeSlug, YearSlug}
  {
  }

  lemma MakeYearForeignKeyColumns()
    ensures ForeignKeyColumns(MakeYearTable) == {MakeSlug, YearSlug}
  {
    MakeYearForeignKeyList();
  }

  lemma MakeYearKeyed()
    ensures ForeignKeyColumns(TableOf(MakeYear)) == PrimaryKey(TableOf(MakeYear))
  {
    MakeYearPrimaryKey();
    MakeYearForeignKeyColumns();
    assert TableOf(MakeYear) == MakeYearTable;
  }

  // `MakeModel`

  lemma MakeModelColumnNames()
    ensures ColumnNames(MakeModelTable.columns) == [MakeSlug, Slug, Name]
  {
  }

  lemma MakeModelForeignKeyList()
    ensures ForeignKeys(MakeModelTable) == [ColumnForeignKey(MakeModelTable.columns[0])]
  {
  }

  lemma MakeModelForeignKey0Columns()
    ensures WellShaped(ColumnForeignKey(MakeModelTable.columns[0]))
    ensures forall c :: c in ColumnForeignKey(MakeModelTable.columns[0]).columns ==> HasColumn(MakeModelTable, c)
  {
    MakeModelColumnNames();
  }

  lemma MakeModelForeignKey0Target()
    ensures |ColumnForeignKey(MakeModelTable.columns[0]).refColumns| > 0 && ReferencesKey(MakeModelTable, ColumnForeignKey(MakeModelTable.columns[0]))
  {
    assert TableOf(Make) == MakeTable;
  }

  lemma MakeModelForeignKey0()
    ensures SoundForeignKey(MakeModelTable, ColumnForeignKey(MakeModelTable.columns[0]))
  {
    MakeModelForeignKey0Columns();
    MakeModelForeignKey0Target();
  }

  lemma MakeModelForeignKeysListed()
    ensures forall fk :: fk in ForeignKeys(MakeModelTable) ==> SoundForeignKey(MakeModelTable, fk)
  {
    MakeModelForeignKeyList();
    MakeModelForeignKey0();
    AllSound1(MakeModelTable, ColumnForeignKey(MakeModelTable.columns[0]));
  }

  lemma MakeModelForeignKeysSound()
    ensures forall fk :: fk in ForeignKeys(TableOf(MakeModel)) ==> SoundForeignKey(TableOf(MakeModel), fk)
  {
    MakeModelForeignKeysListed();
    assert TableOf(MakeModel) == MakeModelTable;
  }

  lemma MakeModelDistinctColumns()
    ensures DistinctNames(ColumnNames(TableOf(MakeModel).columns))
  {
    MakeModelColumnNames();
    Distinct3(ColumnNames(MakeModelTable.columns), MakeSlug, Slug, Name);
    assert TableOf(MakeModel) == MakeModelTable;
  }

  lemma MakeModelTyped()
    ensures TypesFrom(TableOf(MakeModel).columns, 0)
  {
    assert TableOf(MakeModel) == MakeModelTable;
  }

  lemma MakeModelPrimaryKey()
    ensures PrimaryKey(MakeModelTable) == {MakeSlug, Slug}
  {
  }

  lemma MakeModelForeignKeyColumns()
    ensures ForeignKeyColumns(MakeModelTable) == {MakeSlug}
  {
    MakeModelForeignKeyList();
  }

  lemma MakeModelKeyed()
    ensures ForeignKeyColumns(TableOf(MakeModel)) != PrimaryKey(TableOf(MakeModel))
  {
    MakeModelPrimaryKey();
    MakeModelForeignKeyColumns();
    assert TableOf(MakeModel) == MakeModelTable;
  }

  // `MakeModelYear`

  lemma MakeModelYearColumnNames()
    ensures ColumnNames(MakeModelYearTable.columns) == [MakeSlug, ModelSlug, YearSlug]
  {
  }

  lemma MakeModelYearForeignKeyList()
    ensures ForeignKeys(MakeModelYearTable) == [MakeModelYearTable.foreignKeys[0], MakeModelYearTable.foreignKeys[1]]
  {
  }

  lemma MakeModelYearForeignKey0Columns()
    ensures WellShaped(MakeModelYearTable.foreignKeys[0])
    ensures forall c :: c in MakeModelYearTable.foreignKeys[0].columns ==> HasColumn(MakeModelYearTable, c)
  {
    MakeModelYearColumnNames();
  }

  lemma MakeModelYearForeignKey0Target()
    ensures |MakeModelYearTable.foreignKeys[0].refColumns| > 0 && ReferencesKey(MakeModelYearTable, MakeModelYearTable.foreignKeys[0])
  {
    assert TableOf(MakeModel) == MakeModelTable;
  }

  lemma MakeModelYearForeignKey0()
    ensures SoundForeignKey(MakeModelYearTable, MakeModelYearTable.foreignKeys[0])
  {
    MakeModelYearForeignKey0Columns();
    MakeModelYearForeignKey0Target();
  }

  lemma MakeModelYearForeignKey1Columns()
    ensures WellShaped(MakeModelYearTable.foreignKeys[1])
    ensures forall c :: c in MakeModelYearTable.foreignKeys[1].columns ==> HasColumn(MakeModelYearTable, c)
  {
    MakeModelYearColumnNames();
  }

  lemma MakeModelYearForeignKey1Target()
    ensures |MakeModelYearTable.foreignKeys[1].refColumns| > 0 && ReferencesKey(MakeModelYearTable, MakeModelYearTable.foreignKeys[1])
  {
    assert TableOf(MakeYear) == MakeYearTable;
  }

  lemma MakeModelYearForeignKey1()
    ensures SoundForeignKey(MakeModelYearTable, MakeModelYearTable.foreignKeys[1])
  {
    MakeModelYearForeignKey1Columns();
    MakeModelYearForeignKey1Target();
  }

  lemma MakeModelYearForeignKeysListed()
    ensures forall fk :: fk in ForeignKeys(MakeModelYearTable) ==> SoundForeignKey(MakeModelYearTable, fk)
  {
    MakeModelYearForeignKeyList();
    MakeModelYearForeignKey0();
    MakeModelYearForeignKey1();
    AllSound2(MakeModelYearTable, MakeModelYearTable.foreignKeys[0], MakeModelYearTable.foreignKeys[1]);
  }

  lemma MakeModelYearForeignKeysSound()
    ensures forall fk :: fk in ForeignKeys(TableOf(MakeModelYear)) ==> SoundForeignKey(TableOf(MakeModelYear), fk)
  {
    MakeModelYearForeignKeysListed();
    assert TableOf(MakeModelYear) == MakeModelYearTable;
  }

  lemma MakeModelYearDistinctColumns()
    ensures DistinctNames(ColumnNames(TableOf(MakeModelYear).columns))
  {
    MakeModelYearColumnNames();
    Distinct3(ColumnNames(MakeModelYearTable.columns), MakeSlug, ModelSlug, YearSlug);
    assert TableOf(MakeModelYear) == MakeModelYearTable;
  }

  lemma MakeModelYearTyped()
    ensures TypesFrom(TableOf(MakeModelYear).columns, 0)
  {
    assert TableOf(MakeModelYear) == MakeModelYearTable;
  }

  lemma MakeModelYearPrimaryKey()
    ensures PrimaryKey(MakeModelYearTable) == {MakeSlug, ModelSlug, YearSlug}
  {
  }

  lemma MakeModelYearForeignKeyColumns()
    ensures ForeignKeyColumns(MakeModelYearTable) == {MakeSlug, ModelSlug, YearSlug}
  {
    MakeModelYearForeignKeyList();
  }

  lemma MakeModelYearKeyed()
    ensures ForeignKeyColumns(TableOf(MakeModelYear)) == PrimaryKey(TableOf(MakeModelYear))
  {
    MakeModelYearPrimaryKey();
    MakeModelYearForeignKeyColumns();
    assert TableOf(MakeModelYear) == MakeModelYearTable;
  }

  // `Buyer`

  lemma BuyerColumnNames()
    ensures ColumnNames(BuyerTable.columns) == [Slug, Name]
  {
  }

  lemma BuyerForeignKeyList()
    ensures ForeignKeys(BuyerTable) == []
  {
  }

  lemma BuyerForeignKeysListed()
    ensures forall fk :: fk in ForeignKeys(BuyerTable) ==> SoundForeignKey(BuyerTable, fk)
  {
    BuyerForeignKeyList();
    AllSound0(BuyerTable);
  }

  lemma BuyerForeignKeysSound()
    ensures forall fk :: fk in ForeignKeys(TableOf(Buyer)) ==> SoundForeignKey(TableOf(Buyer), fk)
  {
    BuyerForeignKeysListed();
    assert TableOf(Buyer) == BuyerTable;
  }

  lemma BuyerDistinctColumns()
    ensures DistinctNames(ColumnNames(TableOf(Buyer).columns))
  {
    BuyerColumnNames();
    Distinct2(ColumnNames(BuyerTable.columns), Slug, Name);
    assert TableOf(Buyer) == BuyerTable;
  }

  lemma BuyerTyped()
    ensures TypesFrom(TableOf(Buyer).columns, 0)
  {
    assert TableOf(Buyer) == BuyerTable;
  }

  lemma BuyerPrimaryKey()
    ensures PrimaryKey(BuyerTable) == {Slug}
  {
  }

  lemma BuyerForeignKeyColumns()
    ensures ForeignKeyColumns(BuyerTable) == {}
  {
    BuyerForeignKeyList();
  }

  lemma BuyerKeyed()
    ensures ForeignKeyColumns(TableOf(Buyer)) != PrimaryKey(TableOf(Buyer))
  {
    BuyerPrimaryKey();
    BuyerForeignKeyColumns();
    assert TableOf(Buyer) == BuyerTable;
  }

  // `BuyerYear`

  lemma BuyerYearColumnNames()
    ensures ColumnNames(BuyerYearTable.columns) == [BuyerSlug, YearSlug]
  {
  }

  lemma BuyerYearForeignKeyList()
    ensures ForeignKeys(BuyerYearTable) == [ColumnForeignKey(BuyerYearTable.columns[0]), ColumnForeignKey(BuyerYearTable.columns[1])]
  {
  }

  lemma BuyerYearForeignKey0Columns()
    ensures WellShaped(ColumnForeignKey(BuyerYearTable.columns[0]))
    ensures forall c :: c in ColumnForeignKey(BuyerYearTable.columns[0]).columns ==> HasColumn(BuyerYearTable, c)
  {
    BuyerYearColumnNames();
  }

  lemma BuyerYearForeignKey0Target()
    ensures |ColumnForeignKey(BuyerYearTable.columns[0]).refColumns| > 0 && ReferencesKey(BuyerYearTable, ColumnForeignKey(BuyerYearTable.columns[0]))
  {
    assert TableOf(Buyer) == BuyerTable;
  }

  lemma BuyerYearForeignKey0()
    ensures SoundForeignKey(BuyerYearTable, ColumnForeignKey(BuyerYearTable.columns[0]))
  {
    BuyerYearForeignKey0Columns();
    BuyerYearForeignKey0Target();
  }

  lemma BuyerYearForeignKey1Columns()
    ensures WellShaped(ColumnForeignKey(BuyerYearTable.columns[1]))
    ensures forall c :: c in ColumnForeignKey(BuyerYearTable.columns[1]).columns ==> HasColumn(BuyerYearTable, c)
  {
    BuyerYearColumnNames();
  }

  lemma BuyerYearForeignKey1Target()
    ensures |ColumnForeignKey(BuyerYearTable.columns[1]).refColumns| > 0 && ReferencesKey(BuyerYearTable, ColumnForeignKey(BuyerYearTable.columns[1]))
  {
    assert TableOf(Year) == YearTable;
  }

  lemma BuyerYearForeignKey1()
    ensures SoundForeignKey(BuyerYearTable, ColumnForeignKey(BuyerYearTable.columns[1]))
  {
    BuyerYearForeignKey1Columns();
    BuyerYearForeignKey1Target();
  }

  lemma BuyerYearForeignKeysListed()
    ensures forall fk :: fk in ForeignKeys(BuyerYearTable) ==> SoundForeignKey(BuyerYearTable, fk)
  {
    BuyerYearForeignKeyList();
    BuyerYearForeignKey0();
    BuyerYearForeignKey1();
    AllSound2(BuyerYearTable, ColumnForeignKey(BuyerYearTable.columns[0]), ColumnForeignKey(BuyerYearTable.columns[1]));
  }

  lemma BuyerYearForeignKeysSound()
    ensures forall fk :: fk in ForeignKeys(TableOf(BuyerYear)) ==> SoundForeignKey(TableOf(BuyerYear), fk)
  {
    BuyerYearForeignKeysListed();
    assert TableOf(BuyerYear) == BuyerYearTable;
  }

  lemma BuyerYearDistinctColumns()
    ensures DistinctNames(ColumnNames(TableOf(BuyerYear).columns))
  {
    BuyerYearColumnNames();
    Distinct2(ColumnNames(BuyerYearTable.columns), BuyerSlug, YearSlug);
    assert TableOf(BuyerYear) == BuyerYearTable;
  }

  lemma BuyerYearTyped()
    ensures TypesFrom(TableOf(BuyerYear).columns, 0)
  {
    assert TableOf(BuyerYear) == BuyerYearTable;
  }

  lemma BuyerYearPrimaryKey()
    ensures PrimaryKey(BuyerYearTable) == {BuyerSlug, YearSlug}
  {
  }

  lemma BuyerYearForeignKeyColumns()
    ensures ForeignKeyColumns(BuyerYearTable) == {BuyerSlug, YearSlug}
  {
    BuyerYearForeignKeyList();
  }

  lemma BuyerYearKeyed()
    ensures ForeignKeyColumns(TableOf(BuyerYear)) == PrimaryKey(TableOf(BuyerYear))
  {
    BuyerYearPrimaryKey();
    BuyerYearForeignKeyColumns();
    assert TableOf(BuyerYear) == BuyerYearTable;
  }

  // `BuyerMake`

  lemma BuyerMakeColumnNames()
    ensures ColumnNames(BuyerMakeTable.columns) == [BuyerSlug, MakeSlug]
  {
  }

  lemma BuyerMakeForeignKeyList()
    ensures ForeignKeys(BuyerMakeTable) == [ColumnForeignKey(BuyerMakeTable.columns[0]), ColumnForeignKey(BuyerMakeTable.columns[1])]
  {
  }

  lemma BuyerMakeForeignKey0Columns()
    ensures WellShaped(ColumnForeignKey(BuyerMakeTable.columns[0]))
    ensures forall c :: c in ColumnForeignKey(BuyerMakeTable.columns[0]).columns ==> HasColumn(BuyerMakeTable, c)
  {
    BuyerMakeColumnNames();
  }

  lemma BuyerMakeForeignKey0Target()
    ensures |ColumnForeignKey(BuyerMakeTable.columns[0]).refColumns| > 0 && ReferencesKey(BuyerMakeTable, ColumnForeignKey(BuyerMakeTable.columns[0]))
  {
    assert TableOf(Buyer) == BuyerTable;
  }

  lemma BuyerMakeForeignKey0()
    ensures SoundForeignKey(BuyerMakeTable, ColumnForeignKey(BuyerMakeTable.columns[0]))
  {
    BuyerMakeForeignKey0Columns();
    BuyerMakeForeignKey0Target();
  }

  lemma BuyerMakeForeignKey1Columns()
    ensures WellShaped(ColumnForeignKey(BuyerMakeTable.columns[1]))
    ensures forall c :: c in ColumnForeignKey(BuyerMakeTable.columns[1]).columns ==> HasColumn(BuyerMakeTable, c)
  {
    BuyerMakeColumnNames();
  }

  lemma BuyerMakeForeignKey1Target()
    ensures |ColumnForeignKey(BuyerMakeTable.columns[1]).refColumns| > 0 && ReferencesKey(BuyerMakeTable, ColumnForeignKey(BuyerMakeTable.columns[1]))
  {
    assert TableOf(Make) == MakeTable;
  }

  lemma BuyerMakeForeignKey1()
    ensures SoundForeignKey(BuyerMakeTable, ColumnForeignKey(BuyerMakeTable.columns[1]))
  {
    BuyerMakeForeignKey1Columns();
    BuyerMakeForeignKey1Target();
  }

  lemma BuyerMakeForeignKeysListed()
    ensures forall fk :: fk in ForeignKeys(BuyerMakeTable) ==> SoundForeignKey(BuyerMakeTable, fk)
  {
    BuyerMakeForeignKeyList();
    BuyerMakeForeignKey0();
    BuyerMakeForeignKey1();
    AllSound2(BuyerMakeTable, ColumnForeignKey(BuyerMakeTable.columns[0]), ColumnForeignKey(BuyerMakeTable.columns[1]));
  }

  lemma BuyerMakeForeignKeysSound()
    ensures forall fk :: fk in ForeignKeys(TableOf(BuyerMake)) ==> SoundForeignKey(TableOf(BuyerMake), fk)
  {
    BuyerMakeForeignKeysListed();
    assert TableOf(BuyerMake) == BuyerMakeTable;
  }

  lemma BuyerMakeDistinctColumns()
    ensures DistinctNames(ColumnNames(TableOf(BuyerMake).columns))
  {
    BuyerMakeColumnNames();
    Distinct2(ColumnNames(BuyerMakeTable.columns), BuyerSlug, MakeSlug);
    assert TableOf(BuyerMake) == BuyerMakeTable;
  }

  lemma BuyerMakeTyped()
    ensures TypesFrom(TableOf(BuyerMake).columns, 0)
  {
    assert TableOf(BuyerMake) == BuyerMakeTable;
  }

  lemma BuyerMakePrimaryKey()
    ensures PrimaryKey(BuyerMakeTable) == {BuyerSlug, MakeSlug}
  {
  }

  lemma BuyerMakeForeignKeyColumns()
    ensures ForeignKeyColumns(BuyerMakeTable) == {BuyerSlug, MakeSlug}
  {
    BuyerMakeForeignKeyList();
  }

  lemma BuyerMakeKeyed()
    ensures ForeignKeyColumns(TableOf(BuyerMake)) == PrimaryKey(TableOf(BuyerMake))
  {
    BuyerMakePrimaryKey();
    BuyerMakeForeignKeyColumns();
    assert TableOf(BuyerMake) == BuyerMakeTable;
  }

  // `BuyerMakeYear`

  lemma BuyerMakeYearColumnNames()
    ensures ColumnNames(BuyerMakeYearTable.columns) == [BuyerSlug, MakeSlug, YearSlug]
  {
  }

  lemma BuyerMakeYearForeignKeyList()
    ensures ForeignKeys(BuyerMakeYearTable) == [BuyerMakeYearTable.foreignKeys[0], BuyerMakeYearTable.foreignKeys[1]]
  {
  }

  lemma BuyerMakeYearForeignKey0Columns()
    ensures WellShaped(BuyerMakeYearTable.foreignKeys[0])
    ensures forall c :: c in BuyerMakeYearTable.foreignKeys[0].columns ==> HasColumn(BuyerMakeYearTable, c)
  {
    BuyerMakeYearColumnNames();
  }

  lemma BuyerMakeYearForeignKey0Target()
    ensures |BuyerMakeYearTable.foreignKeys[0].refColumns| > 0 && ReferencesKey(BuyerMakeYearTable, BuyerMakeYearTable.foreignKeys[0])
  {
    assert TableOf(BuyerMake) == BuyerMakeTable;
  }

  lemma BuyerMakeYearForeignKey0()
    ensures SoundForeignKey(BuyerMakeYearTable, BuyerMakeYearTable.foreignKeys[0])
  {
    BuyerMakeYearForeignKey0Columns();
    BuyerMakeYearForeignKey0Target();
  }

  lemma BuyerMakeYearForeignKey1Columns()
    ensures WellShaped(BuyerMakeYearTable.foreignKeys[1])
    ensures forall c :: c in BuyerMakeYearTable.foreignKeys[1].columns ==> HasColumn(BuyerMakeYearTable, c)
  {
    BuyerMakeYearColumnNames();
  }

  lemma BuyerMakeYearForeignKey1Target()
    ensures |BuyerMakeYearTable.foreignKeys[1].refColumns| > 0 && ReferencesKey(BuyerMakeYearTable, BuyerMakeYearTable.foreignKeys[1])
  {
    assert TableOf(MakeYear) == MakeYearTable;
  }

  lemma BuyerMakeYearForeignKey1()
    ensures SoundForeignKey(BuyerMakeYearTable, BuyerMakeYearTable.foreignKeys[1])
  {
    BuyerMakeYearForeignKey1Columns();
    BuyerMakeYearForeignKey1Target();
  }

  lemma BuyerMakeYearForeignKeysListed()
    ensures forall fk :: fk in ForeignKeys(BuyerMakeYearTable) ==> SoundForeignKey(BuyerMakeYearTable, fk)
  {
    BuyerMakeYearForeignKeyList();
    BuyerMakeYearForeignKey0();
    BuyerMakeYearForeignKey1();
    AllSound2(BuyerMakeYearTable, BuyerMakeYearTable.foreignKeys[0], BuyerMakeYearTable.foreignKeys[1]);
  }

  lemma BuyerMakeYearForeignKeysSound()
    ensures forall fk :: fk in ForeignKeys(TableOf(BuyerMakeYear)) ==> SoundForeignKey(TableOf(BuyerMakeYear), fk)
  {
    BuyerMakeYearForeignKeysListed();
    assert TableOf(BuyerMakeYear) == BuyerMakeYearTable;
  }

  lemma BuyerMakeYearDistinctColumns()
    ensures DistinctNames(ColumnNames(TableOf(BuyerMakeYear).columns))
  {
    BuyerMakeYearColumnNames();
    Distinct3(ColumnNames(BuyerMakeYearTable.columns), BuyerSlug, MakeSlug, YearSlug);
    assert TableOf(BuyerMakeYear) == BuyerMakeYearTable;
  }

  lemma BuyerMakeYearTyped()
    ensures TypesFrom(TableOf(BuyerMakeYear).columns, 0)
  {
    assert TableOf(BuyerMakeYear) == BuyerMakeYearTable;
  }

  lemma BuyerMakeYearPrimaryKey()
    ensures PrimaryKey(BuyerMakeYearTable) == {BuyerSlug, MakeSlug, YearSlug}
  {
  }

  lemma BuyerMakeYearForeignKeyColumns()
    ensures ForeignKeyColumns(BuyerMakeYearTable) == {BuyerSlug, MakeSlug, YearSlug}
  {
    BuyerMakeYearForeignKeyList();
  }

  lemma BuyerMakeYearKeyed()
    ensures ForeignKeyColumns(TableOf(BuyerMakeYear)) == PrimaryKey(TableOf(BuyerMakeYear))
  {
    BuyerMakeYearPrimaryKey();
    BuyerMakeYearForeignKeyColumns();
    assert TableOf(BuyerMakeYear) == BuyerMakeYearTable;
  }

  // `BuyerMakeModel`

  lemma BuyerMakeModelColumnNames()
    ensures ColumnNames(BuyerMakeModelTable.columns) == [BuyerSlug, MakeSlug, ModelSlug]
  {
  }

  lemma BuyerMakeModelForeignKeyList()
    ensures ForeignKeys(BuyerMakeModelTable) == [ColumnForeignKey(BuyerMakeModelTable.columns[0]), BuyerMakeModelTable.foreignKeys[0], BuyerMakeModelTable.foreignKeys[1]]
  {
  }

  lemma BuyerMakeModelForeignKey0Columns()
    ensures WellShaped(ColumnForeignKey(BuyerMakeModelTable.columns[0]))
    ensures forall c :: c in ColumnForeignKey(BuyerMakeModelTable.columns[0]).columns ==> HasColumn(BuyerMakeModelTable, c)
  {
    BuyerMakeModelColumnNames();
  }

  lemma BuyerMakeModelForeignKey0Target()
    ensures |ColumnForeignKey(BuyerMakeModelTable.columns[0]).refColumns| > 0 && ReferencesKey(BuyerMakeModelTable, ColumnForeignKey(BuyerMakeModelTable.columns[0]))
  {
    assert TableOf(Buyer) == BuyerTable;
  }

  lemma BuyerMakeModelForeignKey0()
    ensures SoundForeignKey(BuyerMakeModelTable, ColumnForeignKey(BuyerMakeModelTable.columns[0]))
  {
    BuyerMakeModelForeignKey0Columns();
    BuyerMakeModelForeignKey0Target();
  }

  lemma BuyerMakeModelForeignKey1Columns()
    ensures WellShaped(BuyerMakeModelTable.foreignKeys[0])
    ensures forall c :: c in BuyerMakeModelTable.foreignKeys[0].columns ==> HasColumn(BuyerMakeModelTable, c)
  {
    BuyerMakeModelColumnNames();
  }

  lemma BuyerMakeModelForeignKey1Target()
    ensures |BuyerMakeModelTable.foreignKeys[0].refColumns| > 0 && ReferencesKey(BuyerMakeModelTable, BuyerMakeModelTable.foreignKeys[0])
  {
    assert TableOf(BuyerMake) == BuyerMakeTable;
  }

  lemma BuyerMakeModelForeignKey1()
    ensures SoundForeignKey(BuyerMakeModelTable, BuyerMakeModelTable.foreignKeys[0])
  {
    BuyerMakeModelForeignKey1Columns();
    BuyerMakeModelForeignKey1Target();
  }

  lemma BuyerMakeModelForeignKey2Columns()
    ensures WellShaped(BuyerMakeModelTable.foreignKeys[1])
    ensures forall c :: c in BuyerMakeModelTable.foreignKeys[1].columns ==> HasColumn(BuyerMakeModelTable, c)
  {
    BuyerMakeModelColumnNames();
  }

  lemma BuyerMakeModelForeignKey2Target()
    ensures |BuyerMakeModelTable.foreignKeys[1].refColumns| > 0 && ReferencesKey(BuyerMakeModelTable, BuyerMakeModelTable.foreignKeys[1])
  {
    assert TableOf(MakeModel) == MakeModelTable;
  }

  lemma BuyerMakeModelForeignKey2()
    ensures SoundForeignKey(BuyerMakeModelTable, BuyerMakeModelTable.foreignKeys[1])
  {
    BuyerMakeModelForeignKey2Columns();
    BuyerMakeModelForeignKey2Target();
  }

  lemma BuyerMakeModelForeignKeysListed()
    ensures forall fk :: fk in ForeignKeys(BuyerMakeModelTable) ==> SoundForeignKey(BuyerMakeModelTable, fk)
  {
    BuyerMakeModelForeignKeyList();
    BuyerMakeModelForeignKey0();
    BuyerMakeModelForeignKey1();
    BuyerMakeModelForeignKey2();
    AllSound3(BuyerMakeModelTable, ColumnForeignKey(BuyerMakeModelTable.columns[0]), BuyerMakeModelTable.foreignKeys[0], BuyerMakeModelTable.foreignKeys[1]);
  }

  lemma BuyerMakeModelForeignKeysSound()
    ensures forall fk :: fk in ForeignKeys(TableOf(BuyerMakeModel)) ==> SoundForeignKey(TableOf(BuyerMakeModel), fk)
  {
    BuyerMakeModelForeignKeysListed();
    assert TableOf(BuyerMakeModel) == BuyerMakeModelTable;
  }

  lemma BuyerMakeModelDistinctColumns()
    ensures DistinctNames(ColumnNames(TableOf(BuyerMakeModel).columns))
  {
    BuyerMakeModelColumnNames();
    Distinct3(ColumnNames(BuyerMakeModelTable.columns), BuyerSlug, MakeSlug, ModelSlug);
    assert TableOf(BuyerMakeModel) == BuyerMakeModelTable;
  }

  lemma BuyerMakeModelTyped()
    ensures TypesFrom(TableOf(BuyerMakeModel).columns, 0)
  {
    assert TableOf(BuyerMakeModel) == BuyerMakeModelTable;
  }

  lemma BuyerMakeModelPrimaryKey()
    ensures PrimaryKey(BuyerMakeModelTable) == {BuyerSlug, MakeSlug, ModelSlug}
  {
  }

  lemma BuyerMakeModelForeignKeyColumns()
    ensures ForeignKeyColumns(BuyerMakeModelTable) == {BuyerSlug, MakeSlug, ModelSlug}
  {
    BuyerMakeModelForeignKeyList();
  }

  lemma BuyerMakeModelKeyed()
    ensures ForeignKeyColumns(TableOf(BuyerMakeModel)) == PrimaryKey(TableOf(BuyerMakeModel))
  {
    BuyerMakeModelPrimaryKey();
    BuyerMakeModelForeignKeyColumns();
    assert TableOf(BuyerMakeModel) == BuyerMakeModelTable;
  }

  // `BuyerMakeModelYear`

  lemma BuyerMakeModelYearColumnNames()
    ensures ColumnNames(BuyerMakeModelYearTable.columns) == [BuyerSlug, MakeSlug, ModelSlug, YearSlug]
  {
  }

  lemma BuyerMakeModelYearForeignKeyList()
    ensures ForeignKeys(BuyerMakeModelYearTable) == [BuyerMakeModelYearTable.foreignKeys[0], BuyerMakeModelYearTable.foreignKeys[1]]
  {
  }

  lemma BuyerMakeModelYearForeignKey0Columns()
    ensures WellShaped(BuyerMakeModelYearTable.foreignKeys[0])
    ensures forall c :: c in BuyerMakeModelYearTable.foreignKeys[0].columns ==> HasColumn(BuyerMakeModelYearTable, c)
  {
    BuyerMakeModelYearColumnNames();
  }

  lemma BuyerMakeModelYearForeignKey0Target()
    ensures |BuyerMakeModelYearTable.foreignKeys[0].refColumns| > 0 && ReferencesKey(BuyerMakeModelYearTable, BuyerMakeModelYearTable.foreignKeys[0])
  {
    assert TableOf(BuyerMakeModel) == BuyerMakeModelTable;
  }

  lemma BuyerMakeModelYearForeignKey0()
    ensures SoundForeignKey(BuyerMakeModelYearTable, BuyerMakeModelYearTable.foreignKeys[0])
  {
    BuyerMakeModelYearForeignKey0Columns();
    BuyerMakeModelYearForeignKey0Target();
  }

  lemma BuyerMakeModelYearForeignKey1Columns()
    ensures WellShaped(BuyerMakeModelYearTable.foreignKeys[1])
    ensures forall c :: c in BuyerMakeModelYearTable.foreignKeys[1].columns ==> HasColumn(BuyerMakeModelYearTable, c)
  {
    BuyerMakeModelYearColumnNames();
  }

  lemma BuyerMakeModelYearForeignKey1Target()
    ensures |BuyerMakeModelYearTable.foreignKeys[1].refColumns| > 0 && ReferencesKey(BuyerMakeModelYearTable, BuyerMakeModelYearTable.foreignKeys[1])
  {
    assert TableOf(BuyerMakeYear) == BuyerMakeYearTable;
  }

  lemma BuyerMakeModelYearForeignKey1()
    ensures SoundForeignKey(BuyerMakeModelYearTable, BuyerMakeModelYearTable.foreignKeys[1])
  {
    BuyerMakeModelYearForeignKey1Columns();
    BuyerMakeModelYearForeignKey1Target();
  }

  lemma BuyerMakeModelYearForeignKeysListed()
    ensures forall fk :: fk in ForeignKeys(BuyerMakeModelYearTable) ==> SoundForeignKey(BuyerMakeModelYearTable, fk)
  {
    BuyerMakeModelYearForeignKeyList();
    BuyerMakeModelYearForeignKey0();
    BuyerMakeModelYearForeignKey1();
    AllSound2(BuyerMakeModelYearTable, BuyerMakeModelYearTable.foreignKeys[0], BuyerMakeModelYearTable.foreignKeys[1]);
  }

  lemma BuyerMakeModelYearForeignKeysSound()
    ensures forall fk :: fk in ForeignKeys(TableOf(BuyerMakeModelYear)) ==> SoundForeignKey(TableOf(BuyerMakeModelYear), fk)
  {
    BuyerMakeModelYearForeignKeysListed();
    assert TableOf(BuyerMakeModelYear) == BuyerMakeModelYearTable;
  }

  lemma BuyerMakeModelYearDistinctColumns()
    ensures DistinctNames(ColumnNames(TableOf(BuyerMakeModelYear).columns))
  {
    BuyerMakeModelYearColumnNames();
    Distinct4(ColumnNames(BuyerMakeModelYearTable.columns), BuyerSlug, MakeSlug, ModelSlug, YearSlug);
    assert TableOf(BuyerMakeModelYear) == BuyerMakeModelYearTable;
  }

  lemma BuyerMakeModelYearTyped()
    ensures TypesFrom(TableOf(BuyerMakeModelYear).columns, 0)
  {
    assert TableOf(BuyerMakeModelYear) == BuyerMakeModelYearTable;
  }

  lemma BuyerMakeModelYearPrimaryKey()
    ensures PrimaryKey(BuyerMakeModelYearTable) == {BuyerSlug, MakeSlug, ModelSlug, YearSlug}
  {
  }

  lemma BuyerMakeModelYearForeignKeyColumns()
    ensures ForeignKeyColumns(BuyerMakeModelYearTable) == {BuyerSlug, MakeSlug, ModelSlug, YearSlug}
  {
    BuyerMakeModelYearForeignKeyList();
  }

  lemma BuyerMakeModelYearKeyed()
    ensures ForeignKeyColumns(TableOf(BuyerMakeModelYear)) == PrimaryKey(TableOf(BuyerMakeModelYear))
  {
    BuyerMakeModelYearPrimaryKey();
    BuyerMakeModelYearForeignKeyColumns();
    assert TableOf(BuyerMakeModelYear) == BuyerMakeModelYearTable;
  }

  // `BuyerTier`

  lemma BuyerTierColumnNames()
    ensures ColumnNames(BuyerTierTable.columns) == [BuyerSlug, Slug, Name]
  {
  }

  lemma BuyerTierForeignKeyList()
    ensures ForeignKeys(BuyerTierTable) == [ColumnForeignKey(BuyerTierTable.columns[0])]
  {
  }

  lemma BuyerTierForeignKey0Columns()
    ensures WellShaped(ColumnForeignKey(BuyerTierTable.columns[0]))
    ensures forall c :: c in ColumnForeignKey(BuyerTierTable.columns[0]).columns ==> HasColumn(BuyerTierTable, c)
  {
    BuyerTierColumnNames();
  }

  lemma BuyerTierForeignKey0Target()
    ensures |ColumnForeignKey(BuyerTierTable.columns[0]).refColumns| > 0 && ReferencesKey(BuyerTierTable, ColumnForeignKey(BuyerTierTable.columns[0]))
  {
    assert TableOf(Buyer) == BuyerTable;
  }

  lemma BuyerTierForeignKey0()
    ensures SoundForeignKey(BuyerTierTable, ColumnForeignKey(BuyerTierTable.columns[0]))
  {
    BuyerTierForeignKey0Columns();
    BuyerTierForeignKey0Target();
  }

  lemma BuyerTierForeignKeysListed()
    ensures forall fk :: fk in ForeignKeys(BuyerTierTable) ==> SoundForeignKey(BuyerTierTable, fk)
  {
    BuyerTierForeignKeyList();
    BuyerTierForeignKey0();
    AllSound1(BuyerTierTable, ColumnForeignKey(BuyerTierTable.columns[0]));
  }

  lemma BuyerTierForeignKeysSound()
    ensures forall fk :: fk in ForeignKeys(TableOf(BuyerTier)) ==> SoundForeignKey(TableOf(BuyerTier), fk)
  {
    BuyerTierForeignKeysListed();
    assert TableOf(BuyerTier) == BuyerTierTable;
  }

  lemma BuyerTierDistinctColumns()
    ensures DistinctNames(ColumnNames(TableOf(BuyerTier).columns))
  {
    BuyerTierColumnNames();
    Distinct3(ColumnNames(BuyerTierTable.columns), BuyerSlug, Slug, Name);
    assert TableOf(BuyerTier) == BuyerTierTable;
  }

  lemma BuyerTierTyped()
    ensures TypesFrom(TableOf(BuyerTier).columns, 0)
  {
    assert TableOf(BuyerTier) == BuyerTierTable;
  }

  lemma BuyerTierPrimaryKey()
    ensures PrimaryKey(BuyerTierTable) == {BuyerSlug, Slug}
  {
  }

  lemma BuyerTierForeignKeyColumns()
    ensures ForeignKeyColumns(BuyerTierTable) == {BuyerSlug}
  {
    BuyerTierForeignKeyList();
  }

  lemma BuyerTierKeyed()
    ensures ForeignKeyColumns(TableOf(BuyerTier)) != PrimaryKey(TableOf(BuyerTier))
  {
    BuyerTierPrimaryKey();
    BuyerTierForeignKeyColumns();
    assert TableOf(BuyerTier) == BuyerTierTable;
  }

  // `LegacyBuyerTier`

  lemma LegacyBuyerTierColumnNames()
    ensures ColumnNames(LegacyBuyerTierTable.columns) == [BuyerSlug, BuyerTierSlug, LegacyId, LegacyName]
  {
  }

  lemma LegacyBuyerTierForeignKeyList()
    ensures ForeignKeys(LegacyBuyerTierTable) == [LegacyBuyerTierTable.foreignKeys[0]]
  {
  }

  lemma LegacyBuyerTierForeignKey0Columns()
    ensures WellShaped(LegacyBuyerTierTable.foreignKeys[0])
    ensures forall c :: c in LegacyBuyerTierTable.foreignKeys[0].columns ==> HasColumn(LegacyBuyerTierTable, c)
  {
    LegacyBuyerTierColumnNames();
  }

  lemma LegacyBuyerTierForeignKey0Target()
    ensures |LegacyBuyerTierTable.foreignKeys[0].refColumns| > 0 && ReferencesKey(LegacyBuyerTierTable, LegacyBuyerTierTable.foreignKeys[0])
  {
    assert TableOf(BuyerTier) == BuyerTierTable;
  }

  lemma LegacyBuyerTierForeignKey0()
    ensures SoundForeignKey(LegacyBuyerTierTable, LegacyBuyerTierTable.foreignKeys[0])
  {
    LegacyBuyerTierForeignKey0Columns();
    LegacyBuyerTierForeignKey0Target();
  }

  lemma LegacyBuyerTierForeignKeysListed()
    ensures forall fk :: fk in ForeignKeys(LegacyBuyerTierTable) ==> SoundForeignKey(LegacyBuyerTierTable, fk)
  {
    LegacyBuyerTierForeignKeyList();
    LegacyBuyerTierForeignKey0();
    AllSound1(LegacyBuyerTierTable, LegacyBuyerTierTable.foreignKeys[0]);
  }

  lemma LegacyBuyerTierForeignKeysSound()
    ensures forall fk :: fk in ForeignKeys(TableOf(LegacyBuyerTier)) ==> SoundForeignKey(TableOf(LegacyBuyerTier), fk)
  {
    LegacyBuyerTierForeignKeysListed();
    assert TableOf(LegacyBuyerTier) == LegacyBuyerTierTable;
  }

  lemma LegacyBuyerTierDistinctColumns()
    ensures DistinctNames(ColumnNames(TableOf(LegacyBuyerTier).columns))
  {
    LegacyBuyerTierColumnNames();
    Distinct4(ColumnNames(LegacyBuyerTierTable.columns), BuyerSlug, BuyerTierSlug, LegacyId, LegacyName);
    assert TableOf(LegacyBuyerTier) == LegacyBuyerTierTable;
  }

  lemma LegacyBuyerTierTyped()
    ensures TypesFrom(TableOf(LegacyBuyerTier).columns, 0)
  {
    assert TableOf(LegacyBuyerTier) == LegacyBuyerTierTable;
  }

  lemma LegacyBuyerTierPrimaryKey()
    ensures PrimaryKey(LegacyBuyerTierTable) == {BuyerSlug, BuyerTierSlug}
  {
  }

  lemma LegacyBuyerTierForeignKeyColumns()
    ensures ForeignKeyColumns(LegacyBuyerTierTable) == {BuyerSlug, BuyerTierSlug}
  {
    LegacyBuyerTierForeignKeyList();
  }

  lemma LegacyBuyerTierKeyed()
    ensures ForeignKeyColumns(TableOf(LegacyBuyerTier)) == PrimaryKey(TableOf(LegacyBuyerTier))
  {
    LegacyBuyerTierPrimaryKey();
    LegacyBuyerTierForeignKeyColumns();
    assert TableOf(LegacyBuyerTier) == LegacyBuyerTierTable;
  }

  // `BuyerTierYear`

  lemma BuyerTierYearColumnNames()
    ensures ColumnNames(BuyerTierYearTable.columns) == [BuyerSlug, TierSlug, YearSlug]
  {
  }

  lemma BuyerTierYearForeignKeyList()
    ensures ForeignKeys(BuyerTierYearTable) == [BuyerTierYearTable.foreignKeys[0], BuyerTierYearTable.foreignKeys[1]]
  {
  }

  lemma BuyerTierYearForeignKey0Columns()
    ensures WellShaped(BuyerTierYearTable.foreignKeys[0])
    ensures forall c :: c in BuyerTierYearTable.foreignKeys[0].columns ==> HasColumn(BuyerTierYearTable, c)
  {
    BuyerTierYearColumnNames();
  }

  lemma BuyerTierYearForeignKey0Target()
    ensures |BuyerTierYearTable.foreignKeys[0].refColumns| > 0 && ReferencesKey(BuyerTierYearTable, BuyerTierYearTable.foreignKeys[0])
  {
    assert TableOf(BuyerTier) == BuyerTierTable;
  }

  lemma BuyerTierYearForeignKey0()
    ensures SoundForeignKey(BuyerTierYearTable, BuyerTierYearTable.foreignKeys[0])
  {
    BuyerTierYearForeignKey0Columns();
    BuyerTierYearForeignKey0Target();
  }

  lemma BuyerTierYearForeignKey1Columns()
    ensures WellShaped(BuyerTierYearTable.foreignKeys[1])
    ensures forall c :: c in BuyerTierYearTable.foreignKeys[1].columns ==> HasColumn(BuyerTierYearTable, c)
  {
    BuyerTierYearColumnNames();
  }

  lemma BuyerTierYearForeignKey1Target()
    ensures |BuyerTierYearTable.foreignKeys[1].refColumns| > 0 && ReferencesKey(BuyerTierYearTable, BuyerTierYearTable.foreignKeys[1])
  {
    assert TableOf(BuyerYear) == BuyerYearTable;
  }

  lemma BuyerTierYearForeignKey1()
    ensures SoundForeignKey(BuyerTierYearTable, BuyerTierYearTable.foreignKeys[1])
  {
    BuyerTierYearForeignKey1Columns();
    BuyerTierYearForeignKey1Target();
  }

  lemma BuyerTierYearForeignKeysListed()
    ensures forall fk :: fk in ForeignKeys(BuyerTierYearTable) ==> SoundForeignKey(BuyerTierYearTable, fk)
  {
    BuyerTierYearForeignKeyList();
    BuyerTierYearForeignKey0();
    BuyerTierYearForeignKey1();
    AllSound2(BuyerTierYearTable, BuyerTierYearTable.foreignKeys[0], BuyerTierYearTable.foreignKeys[1]);
  }

  lemma BuyerTierYearForeignKeysSound()
    ensures forall fk :: fk in ForeignKeys(TableOf(BuyerTierYear)) ==> SoundForeignKey(TableOf(BuyerTierYear), fk)
  {
    BuyerTierYearForeignKeysListed();
    assert TableOf(BuyerTierYear) == BuyerTierYearTable;
  }

  lemma BuyerTierYearDistinctColumns()
    ensures DistinctNames(ColumnNames(TableOf(BuyerTierYear).columns))
  {
    BuyerTierYearColumnNames();
    Distinct3(ColumnNames(BuyerTierYearTable.columns), BuyerSlug, TierSlug, YearSlug);
    assert TableOf(BuyerTierYear) == BuyerTierYearTable;
  }

  lemma BuyerTierYearTyped()
    ensures TypesFrom(TableOf(BuyerTierYear).columns, 0)
  {
    assert TableOf(BuyerTierYear) == BuyerTierYearTable;
  }

  lemma BuyerTierYearPrimaryKey()
    ensures PrimaryKey(BuyerTierYearTable) == {BuyerSlug, TierSlug, YearSlug}
  {
  }

  lemma BuyerTierYearForeignKeyColumns()
    ensures ForeignKeyColumns(BuyerTierYearTable) == {BuyerSlug, TierSlug, YearSlug}
  {
    BuyerTierYearForeignKeyList();
  }

  lemma BuyerTierYearKeyed()
    ensures ForeignKeyColumns(TableOf(BuyerTierYear)) == PrimaryKey(TableOf(BuyerTierYear))
  {
    BuyerTierYearPrimaryKey();
    BuyerTierYearForeignKeyColumns();
    assert TableOf(BuyerTierYear) == BuyerTierYearTable;
  }

  // `BuyerTierMake`

  lemma BuyerTierMakeColumnNames()
    ensures ColumnNames(BuyerTierMakeTable.columns) == [BuyerSlug, TierSlug, MakeSlug]
  {
  }

  lemma BuyerTierMakeForeignKeyList()
    ensures ForeignKeys(BuyerTierMakeTable) == [BuyerTierMakeTable.foreignKeys[0], BuyerTierMakeTable.foreignKeys[1]]
  {
  }

  lemma BuyerTierMakeForeignKey0Columns()
    ensures WellShaped(BuyerTierMakeTable.foreignKeys[0])
    ensures forall c :: c in BuyerTierMakeTable.foreignKeys[0].columns ==> HasColumn(BuyerTierMakeTable, c)
  {
    BuyerTierMakeColumnNames();
  }

  lemma BuyerTierMakeForeignKey0Target()
    ensures |BuyerTierMakeTable.foreignKeys[0].refColumns| > 0 && ReferencesKey(BuyerTierMakeTable, BuyerTierMakeTable.foreignKeys[0])
  {
    assert TableOf(BuyerTier) == BuyerTierTable;
  }

  lemma BuyerTierMakeForeignKey0()
    ensures SoundForeignKey(BuyerTierMakeTable, BuyerTierMakeTable.foreignKeys[0])
  {
    BuyerTierMakeForeignKey0Columns();
    BuyerTierMakeForeignKey0Target();
  }

  lemma BuyerTierMakeForeignKey1Columns()
    ensures WellShaped(BuyerTierMakeTable.foreignKeys[1])
    ensures forall c :: c in BuyerTierMakeTable.foreignKeys[1].columns ==> HasColumn(BuyerTierMakeTable, c)
  {
    BuyerTierMakeColumnNames();
  }

  lemma BuyerTierMakeForeignKey1Target()
    ensures |BuyerTierMakeTable.foreignKeys[1].refColumns| > 0 && ReferencesKey(BuyerTierMakeTable, BuyerTierMakeTable.foreignKeys[1])
  {
    assert TableOf(BuyerMake) == BuyerMakeTable;
  }

  lemma BuyerTierMakeForeignKey1()
    ensures SoundForeignKey(BuyerTierMakeTable, BuyerTierMakeTable.foreignKeys[1])
  {
    BuyerTierMakeForeignKey1Columns();
    BuyerTierMakeForeignKey1Target();
  }

  lemma BuyerTierMakeForeignKeysListed()
    ensures forall fk :: fk in ForeignKeys(BuyerTierMakeTable) ==> SoundForeignKey(BuyerTierMakeTable, fk)
  {
    BuyerTierMakeForeignKeyList();
    BuyerTierMakeForeignKey0();
    BuyerTierMakeForeignKey1();
    AllSound2(BuyerTierMakeTable, BuyerTierMakeTable.foreignKeys[0], BuyerTierMakeTable.foreignKeys[1]);
  }

  lemma BuyerTierMakeForeignKeysSound()
    ensures forall fk :: fk in ForeignKeys(TableOf(BuyerTierMake)) ==> SoundForeignKey(TableOf(BuyerTierMake), fk)
  {
    BuyerTierMakeForeignKeysListed();
    assert TableOf(BuyerTierMake) == BuyerTierMakeTable;
  }

  lemma BuyerTierMakeDistinctColumns()
    ensures DistinctNames(ColumnNames(TableOf(BuyerTierMake).columns))
  {
    BuyerTierMakeColumnNames();
    Distinct3(ColumnNames(BuyerTierMakeTable.columns), BuyerSlug, TierSlug, MakeSlug);
    assert TableOf(BuyerTierMake) == BuyerTierMakeTable;
  }

  lemma BuyerTierMakeTyped()
    ensures TypesFrom(TableOf(BuyerTierMake).columns, 0)
  {
    assert TableOf(BuyerTierMake) == BuyerTierMakeTable;
  }

  lemma BuyerTierMakePrimaryKey()
    ensures PrimaryKey(BuyerTierMakeTable) == {BuyerSlug, TierSlug, MakeSlug}
  {
  }

  lemma BuyerTierMakeForeignKeyColumns()
    ensures ForeignKeyColumns(BuyerTierMakeTable) == {BuyerSlug, TierSlug, MakeSlug}
  {
    BuyerTierMakeForeignKeyList();
  }

  lemma BuyerTierMakeKeyed()
    ensures ForeignKeyColumns(TableOf(BuyerTierMake)) == PrimaryKey(TableOf(BuyerTierMake))
  {
    BuyerTierMakePrimaryKey();
    BuyerTierMakeForeignKeyColumns();
    assert TableOf(BuyerTierMake) == BuyerTierMakeTable;
  }

  // `BuyerTierMakeYear`

  lemma BuyerTierMakeYearColumnNames()
    ensures ColumnNames(BuyerTierMakeYearTable.columns) == [BuyerSlug, TierSlug, MakeSlug, YearSlug]
  {
  }

  lemma BuyerTierMakeYearForeignKeyList()
    ensures ForeignKeys(BuyerTierMakeYearTable) == [BuyerTierMakeYearTable.foreignKeys[0], BuyerTierMakeYearTable.foreignKeys[1]]
  {
  }

  lemma BuyerTierMakeYearForeignKey0Columns()
    ensures WellShaped(BuyerTierMakeYearTable.foreignKeys[0])
    ensures forall c :: c in BuyerTierMakeYearTable.foreignKeys[0].columns ==> HasColumn(BuyerTierMakeYearTable, c)
  {
    BuyerTierMakeYearColumnNames();
  }

  lemma BuyerTierMakeYearForeignKey0Target()
    ensures |BuyerTierMakeYearTable.foreignKeys[0].refColumns| > 0 && ReferencesKey(BuyerTierMakeYearTable, BuyerTierMakeYearTable.foreignKeys[0])
  {
    assert TableOf(BuyerTierMake) == BuyerTierMakeTable;
  }

  lemma BuyerTierMakeYearForeignKey0()
    ensures SoundForeignKey(BuyerTierMakeYearTable, BuyerTierMakeYearTable.foreignKeys[0])
  {
    BuyerTierMakeYearForeignKey0Columns();
    BuyerTierMakeYearForeignKey0Target();
  }

  lemma BuyerTierMakeYearForeignKey1Columns()
    ensures WellShaped(BuyerTierMakeYearTable.foreignKeys[1])
    ensures forall c :: c in BuyerTierMakeYearTable.foreignKeys[1].columns ==> HasColumn(BuyerTierMakeYearTable, c)
  {
    BuyerTierMakeYearColumnNames();
  }

  lemma BuyerTierMakeYearForeignKey1Target()
    ensures |BuyerTierMakeYearTable.foreignKeys[1].refColumns| > 0 && ReferencesKey(BuyerTierMakeYearTable, BuyerTierMakeYearTable.foreignKeys[1])
  {
    assert TableOf(BuyerTierYear) == BuyerTierYearTable;
  }

  lemma BuyerTierMakeYearForeignKey1()
    ensures SoundForeignKey(BuyerTierMakeYearTable, BuyerTierMakeYearTable.foreignKeys[1])
  {
    BuyerTierMakeYearForeignKey1Columns();
    BuyerTierMakeYearForeignKey1Target();
  }

  lemma BuyerTierMakeYearForeignKeysListed()
    ensures forall fk :: fk in ForeignKeys(BuyerTierMakeYearTable) ==> SoundForeignKey(BuyerTierMakeYearTable, fk)
  {
    BuyerTierMakeYearForeignKeyList();
    BuyerTierMakeYearForeignKey0();
    BuyerTierMakeYearForeignKey1();
    AllSound2(BuyerTierMakeYearTable, BuyerTierMakeYearTable.foreignKeys[0], BuyerTierMakeYearTable.foreignKeys[1]);
  }

  lemma BuyerTierMakeYearForeignKeysSound()
    ensures forall fk :: fk in ForeignKeys(TableOf(BuyerTierMakeYear)) ==> SoundForeignKey(TableOf(BuyerTierMakeYear), fk)
  {
    BuyerTierMakeYearForeignKeysListed();
    assert TableOf(BuyerTierMakeYear) == BuyerTierMakeYearTable;
  }

  lemma BuyerTierMakeYearDistinctColumns()
    ensures DistinctNames(ColumnNames(TableOf(BuyerTierMakeYear).columns))
  {
    BuyerTierMakeYearColumnNames();
    Distinct4(ColumnNames(BuyerTierMakeYearTable.columns), BuyerSlug, TierSlug, MakeSlug, YearSlug);
    assert TableOf(BuyerTierMakeYear) == BuyerTierMakeYearTable;
  }

  lemma BuyerTierMakeYearTyped()
    ensures TypesFrom(TableOf(BuyerTierMakeYear).columns, 0)
  {
    assert TableOf(BuyerTierMakeYear) == BuyerTierMakeYearTable;
  }

  lemma BuyerTierMakeYearPrimaryKey()
    ensures PrimaryKey(BuyerTierMakeYearTable) == {BuyerSlug, TierSlug, MakeSlug, YearSlug}
  {
  }

  lemma BuyerTierMakeYearForeignKeyColumns()
    ensures ForeignKeyColumns(BuyerTierMakeYearTable) == {BuyerSlug, TierSlug, MakeSlug, YearSlug}
  {
    BuyerTierMakeYearForeignKeyList();
  }

  lemma BuyerTierMakeYearKeyed()
    ensures ForeignKeyColumns(TableOf(BuyerTierMakeYear)) == PrimaryKey(TableOf(BuyerTierMakeYear))
  {
    BuyerTierMakeYearPrimaryKey();
    BuyerTierMakeYearForeignKeyColumns();
    assert TableOf(BuyerTierMakeYear) == BuyerTierMakeYearTable;
  }

  // `BuyerTierMakeModel`

  lemma BuyerTierMakeModelColumnNames()
    ensures ColumnNames(BuyerTierMakeModelTable.columns) == [BuyerSlug, TierSlug, MakeSlug, ModelSlug]
  {
  }

  lemma BuyerTierMakeModelForeignKeyList()
    ensures ForeignKeys(BuyerTierMakeModelTable) == [BuyerTierMakeModelTable.foreignKeys[0], BuyerTierMakeModelTable.foreignKeys[1]]
  {
  }

  lemma BuyerTierMakeModelForeignKey0Columns()
    ensures WellShaped(BuyerTierMakeModelTable.foreignKeys[0])
    ensures forall c :: c in BuyerTierMakeModelTable.foreignKeys[0].columns ==> HasColumn(BuyerTierMakeModelTable, c)
  {
    BuyerTierMakeModelColumnNames();
  }

  lemma BuyerTierMakeModelForeignKey0Target()
    ensures |BuyerTierMakeModelTable.foreignKeys[0].refColumns| > 0 && ReferencesKey(BuyerTierMakeModelTable, BuyerTierMakeModelTable.foreignKeys[0])
  {
    assert TableOf(BuyerTierMake) == BuyerTierMakeTable;
  }

  lemma BuyerTierMakeModelForeignKey0()
    ensures SoundForeignKey(BuyerTierMakeModelTable, BuyerTierMakeModelTable.foreignKeys[0])
  {
    BuyerTierMakeModelForeignKey0Columns();
    BuyerTierMakeModelForeignKey0Target();
  }

  lemma BuyerTierMakeModelForeignKey1Columns()
    ensures WellShaped(BuyerTierMakeModelTable.foreignKeys[1])
    ensures forall c :: c in BuyerTierMakeModelTable.foreignKeys[1].columns ==> HasColumn(BuyerTierMakeModelTable, c)
  {
    BuyerTierMakeModelColumnNames();
  }

  lemma BuyerTierMakeModelForeignKey1Target()
    ensures |BuyerTierMakeModelTable.foreignKeys[1].refColumns| > 0 && ReferencesKey(BuyerTierMakeModelTable, BuyerTierMakeModelTable.foreignKeys[1])
  {
    assert TableOf(BuyerMakeModel) == BuyerMakeModelTable;
  }

  lemma BuyerTierMakeModelForeignKey1()
    ensures SoundForeignKey(BuyerTierMakeModelTable, BuyerTierMakeModelTable.foreignKeys[1])
  {
    BuyerTierMakeModelForeignKey1Columns();
    BuyerTierMakeModelForeignKey1Target();
  }

  lemma BuyerTierMakeModelForeignKeysListed()
    ensures forall fk :: fk in ForeignKeys(BuyerTierMakeModelTable) ==> SoundForeignKey(BuyerTierMakeModelTable, fk)
  {
    BuyerTierMakeModelForeignKeyList();
    BuyerTierMakeModelForeignKey0();
    BuyerTierMakeModelForeignKey1();
    AllSound2(BuyerTierMakeModelTable, BuyerTierMakeModelTable.foreignKeys[0], BuyerTierMakeModelTable.foreignKeys[1]);
  }

  lemma BuyerTierMakeModelForeignKeysSound()
    ensures forall fk :: fk in ForeignKeys(TableOf(BuyerTierMakeModel)) ==> SoundForeignKey(TableOf(BuyerTierMakeModel), fk)
  {
    BuyerTierMakeModelForeignKeysListed();
    assert TableOf(BuyerTierMakeModel) == BuyerTierMakeModelTable;
  }

  lemma BuyerTierMakeModelDistinctColumns()
    ensures DistinctNames(ColumnNames(TableOf(BuyerTierMakeModel).columns))
  {
    BuyerTierMakeModelColumnNames();
    Distinct4(ColumnNames(BuyerTierMakeModelTable.columns), BuyerSlug, TierSlug, MakeSlug, ModelSlug);
    assert TableOf(BuyerTierMakeModel) == BuyerTierMakeModelTable;
  }

  lemma BuyerTierMakeModelTyped()
    ensures TypesFrom(TableOf(BuyerTierMakeModel).columns, 0)
  {
    assert TableOf(BuyerTierMakeModel) == BuyerTierMakeModelTable;
  }

  lemma BuyerTierMakeModelPrimaryKey()
    ensures PrimaryKey(BuyerTierMakeModelTable) == {BuyerSlug, TierSlug, MakeSlug, ModelSlug}
  {
  }

  lemma BuyerTierMakeModelForeignKeyColumns()
    ensures ForeignKeyColumns(BuyerTierMakeModelTable) == {BuyerSlug, TierSlug, MakeSlug, ModelSlug}
  {
    BuyerTierMakeModelForeignKeyList();
  }

  lemma BuyerTierMakeModelKeyed()
    ensures ForeignKeyColumns(TableOf(BuyerTierMakeModel)) == PrimaryKey(TableOf(BuyerTierMakeModel))
  {
    BuyerTierMakeModelPrimaryKey();
    BuyerTierMakeModelForeignKeyColumns();
    assert TableOf(BuyerTierMakeModel) == BuyerTierMakeModelTable;
  }

  // `BuyerTierMakeModelYear`

  lemma BuyerTierMakeModelYearColumnNames()
    ensures ColumnNames(BuyerTierMakeModelYearTable.columns) == [BuyerSlug, TierSlug, MakeSlug, ModelSlug, YearSlug]
  {
  }

  lemma BuyerTierMakeModelYearForeignKeyList()
    ensures ForeignKeys(BuyerTierMakeModelYearTable) == [BuyerTierMakeModelYearTable.foreignKeys[0], BuyerTierMakeModelYearTable.foreignKeys[1]]
  {
  }

  lemma BuyerTierMakeModelYearForeignKey0Columns()
    ensures WellShaped(BuyerTierMakeModelYearTable.foreignKeys[0])
    ensures forall c :: c in BuyerTierMakeModelYearTable.foreignKeys[0].columns ==> HasColumn(BuyerTierMakeModelYearTable, c)
  {
    BuyerTierMakeModelYearColumnNames();
  }

  lemma BuyerTierMakeModelYearForeignKey0Target()
    ensures |BuyerTierMakeModelYearTable.foreignKeys[0].refColumns| > 0 && ReferencesKey(BuyerTierMakeModelYearTable, BuyerTierMakeModelYearTable.foreignKeys[0])
  {
    assert TableOf(BuyerTierMakeModel) == BuyerTierMakeModelTable;
  }

  lemma BuyerTierMakeModelYearForeignKey0()
    ensures SoundForeignKey(BuyerTierMakeModelYearTable, BuyerTierMakeModelYearTable.foreignKeys[0])
  {
    BuyerTierMakeModelYearForeignKey0Columns();
    BuyerTierMakeModelYearForeignKey0Target();
  }

  lemma BuyerTierMakeModelYearForeignKey1Columns()
    ensures WellShaped(BuyerTierMakeModelYearTable.foreignKeys[1])
    ensures forall c :: c in BuyerTierMakeModelYearTable.foreignKeys[1].columns ==> HasColumn(BuyerTierMakeModelYearTable, c)
  {
    BuyerTierMakeModelYearColumnNames();
  }

  lemma BuyerTierMakeModelYearForeignKey1Target()
    ensures |BuyerTierMakeModelYearTable.foreignKeys[1].refColumns| > 0 && ReferencesKey(BuyerTierMakeModelYearTable, BuyerTierMakeModelYearTable.foreignKeys[1])
  {
    assert TableOf(BuyerTierMakeYear) == BuyerTierMakeYearTable;
  }

  lemma BuyerTierMakeModelYearForeignKey1()
    ensures SoundForeignKey(BuyerTierMakeModelYearTable, BuyerTierMakeModelYearTable.foreignKeys[1])
  {
    BuyerTierMakeModelYearForeignKey1Columns();
    BuyerTierMakeModelYearForeignKey1Target();
  }

  lemma BuyerTierMakeModelYearForeignKeysListed()
    ensures forall fk :: fk in ForeignKeys(BuyerTierMakeModelYearTable) ==> SoundForeignKey(BuyerTierMakeModelYearTable, fk)
  {
    BuyerTierMakeModelYearForeignKeyList();
    BuyerTierMakeModelYearForeignKey0();
    BuyerTierMakeModelYearForeignKey1();
    AllSound2(BuyerTierMakeModelYearTable, BuyerTierMakeModelYearTable.foreignKeys[0], BuyerTierMakeModelYearTable.foreignKeys[1]);
  }

  lemma BuyerTierMakeModelYearForeignKeysSound()
    ensures forall fk :: fk in ForeignKeys(TableOf(BuyerTierMakeModelYear)) ==> SoundForeignKey(TableOf(BuyerTierMakeModelYear), fk)
  {
    BuyerTierMakeModelYearForeignKeysListed();
    assert TableOf(BuyerTierMakeModelYear) == BuyerTierMakeModelYearTable;
  }

  lemma BuyerTierMakeModelYearDistinctColumns()
    ensures DistinctNames(ColumnNames(TableOf(BuyerTierMakeModelYear).columns))
  {
    BuyerTierMakeModelYearColumnNames();
    Distinct5(ColumnNames(BuyerTierMakeModelYearTable.columns), BuyerSlug, TierSlug, MakeSlug, ModelSlug, YearSlug);
    assert TableOf(BuyerTierMakeModelYear) == BuyerTierMakeModelYearTable;
  }

  lemma BuyerTierMakeModelYearTyped()
    ensures TypesFrom(TableOf(BuyerTierMakeModelYear).columns, 0)
  {
    assert TableOf(BuyerTierMakeModelYear) == BuyerTierMakeModelYearTable;
  }

  lemma BuyerTierMakeModelYearPrimaryKey()
    ensures PrimaryKey(BuyerTierMakeModelYearTable) == {BuyerSlug, TierSlug, MakeSlug, ModelSlug, YearSlug}
  {
  }

  lemma BuyerTierMakeModelYearForeignKeyColumns()
    ensures ForeignKeyColumns(BuyerTierMakeModelYearTable) == {BuyerSlug, TierSlug, MakeSlug, ModelSlug, YearSlug}
  {
    BuyerTierMakeModelYearForeignKeyList();
  }

  lemma BuyerTierMakeModelYearKeyed()
    ensures ForeignKeyColumns(TableOf(BuyerTierMakeModelYear)) == PrimaryKey(TableOf(BuyerTierMakeModelYear))
  {
    BuyerTierMakeModelYearPrimaryKey();
    BuyerTierMakeModelYearForeignKeyColumns();
    assert TableOf(BuyerTierMakeModelYear) == BuyerTierMakeModelYearTable;
  }

  // `BuyerDealer`

  lemma BuyerDealerColumnNames()
    ensures ColumnNames(BuyerDealerTable.columns) == [BuyerSlug, Code, Name, Address, City, State, Zipcode, CountrySlug, Phone]
  {
  }

  lemma BuyerDealerForeignKeyList()
    ensures ForeignKeys(BuyerDealerTable) == [ColumnForeignKey(BuyerDealerTable.columns[0]), BuyerDealerTable.foreignKeys[0]]
  {
  }

  lemma BuyerDealerForeignKey0Columns()
    ensures WellShaped(ColumnForeignKey(BuyerDealerTable.columns[0]))
    ensures forall c :: c in ColumnForeignKey(BuyerDealerTable.columns[0]).columns ==> HasColumn(BuyerDealerTable, c)
  {
    BuyerDealerColumnNames();
  }

  lemma BuyerDealerForeignKey0Target()
    ensures |ColumnForeignKey(BuyerDealerTable.columns[0]).refColumns| > 0 && ReferencesKey(BuyerDealerTable, ColumnForeignKey(BuyerDealerTable.columns[0]))
  {
    assert TableOf(Buyer) == BuyerTable;
  }

  lemma BuyerDealerForeignKey0()
    ensures SoundForeignKey(BuyerDealerTable, ColumnForeignKey(BuyerDealerTable.columns[0]))
  {
    BuyerDealerForeignKey0Columns();
    BuyerDealerForeignKey0Target();
  }

  lemma BuyerDealerForeignKey1Columns()
    ensures WellShaped(BuyerDealerTable.foreignKeys[0])
    ensures forall c :: c in BuyerDealerTable.foreignKeys[0].columns ==> HasColumn(BuyerDealerTable, c)
  {
    BuyerDealerColumnNames();
  }

  lemma BuyerDealerForeignKey1Target()
    ensures |BuyerDealerTable.foreignKeys[0].refColumns| > 0 && ReferencesKey(BuyerDealerTable, BuyerDealerTable.foreignKeys[0])
  {
    assert TableOf(CountryState) == CountryStateTable;
  }

  lemma BuyerDealerForeignKey1()
    ensures SoundForeignKey(BuyerDealerTable, BuyerDealerTable.foreignKeys[0])
  {
    BuyerDealerForeignKey1Columns();
    BuyerDealerForeignKey1Target();
  }

  lemma BuyerDealerForeignKeysListed()
    ensures forall fk :: fk in ForeignKeys(BuyerDealerTable) ==> SoundForeignKey(BuyerDealerTable, fk)
  {
    BuyerDealerForeignKeyList();
    BuyerDealerForeignKey0();
    BuyerDealerForeignKey1();
    AllSound2(BuyerDealerTable, ColumnForeignKey(BuyerDealerTable.columns[0]), BuyerDealerTable.foreignKeys[0]);
  }

  lemma BuyerDealerForeignKeysSound()
    ensures forall fk :: fk in ForeignKeys(TableOf(BuyerDealer)) ==> SoundForeignKey(TableOf(BuyerDealer), fk)
  {
    BuyerDealerForeignKeysListed();
    assert TableOf(BuyerDealer) == BuyerDealerTable;
  }

  lemma BuyerDealerDistinctColumns()
    ensures DistinctNames(ColumnNames(TableOf(BuyerDealer).columns))
  {
    BuyerDealerColumnNames();
    Distinct9(ColumnNames(BuyerDealerTable.columns), BuyerSlug, Code, Name, Address, City, State, Zipcode, CountrySlug, Phone);
    assert TableOf(BuyerDealer) == BuyerDealerTable;
  }

  lemma BuyerDealerTyped()
    ensures TypesFrom(TableOf(BuyerDealer).columns, 0)
  {
    assert TableOf(BuyerDealer) == BuyerDealerTable;
  }

  lemma BuyerDealerPrimaryKey()
    ensures PrimaryKey(BuyerDealerTable) == {BuyerSlug, Code}
  {
  }

  lemma BuyerDealerForeignKeyColumns()
    ensures ForeignKeyColumns(BuyerDealerTable) == {BuyerSlug, CountrySlug, State}
  {
    BuyerDealerForeignKeyList();
  }

  lemma BuyerDealerKeyed()
    ensures ForeignKeyColumns(TableOf(BuyerDealer)) != PrimaryKey(TableOf(BuyerDealer))
  {
    BuyerDealerPrimaryKey();
    BuyerDealerForeignKeyColumns();
    assert TableOf(BuyerDealer) == BuyerDealerTable;
  }

  // `BuyerDealerYear`

  lemma BuyerDealerYearColumnNames()
    ensures ColumnNames(BuyerDealerYearTable.columns) == [BuyerSlug, DealerCode, YearSlug]
  {
  }

  lemma BuyerDealerYearForeignKeyList()
    ensures ForeignKeys(BuyerDealerYearTable) == [BuyerDealerYearTable.foreignKeys[0], BuyerDealerYearTable.foreignKeys[1]]
  {
  }

  lemma BuyerDealerYearForeignKey0Columns()
    ensures WellShaped(BuyerDealerYearTable.foreignKeys[0])
    ensures forall c :: c in BuyerDealerYearTable.foreignKeys[0].columns ==> HasColumn(BuyerDealerYearTable, c)
  {
    BuyerDealerYearColumnNames();
  }

  lemma BuyerDealerYearForeignKey0Target()
    ensures |BuyerDealerYearTable.foreignKeys[0].refColumns| > 0 && ReferencesKey(BuyerDealerYearTable, BuyerDealerYearTable.foreignKeys[0])
  {
    assert TableOf(BuyerDealer) == BuyerDealerTable;
  }

  lemma BuyerDealerYearForeignKey0()
    ensures SoundForeignKey(BuyerDealerYearTable, BuyerDealerYearTable.foreignKeys[0])
  {
    BuyerDealerYearForeignKey0Columns();
    BuyerDealerYearForeignKey0Target();
  }

  lemma BuyerDealerYearForeignKey1Columns()
    ensures WellShaped(BuyerDealerYearTable.foreignKeys[1])
    ensures forall c :: c in BuyerDealerYearTable.foreignKeys[1].columns ==> HasColumn(BuyerDealerYearTable, c)
  {
    BuyerDealerYearColumnNames();
  }

  lemma BuyerDealerYearForeignKey1Target()
    ensures |BuyerDealerYearTable.foreignKeys[1].refColumns| > 0 && ReferencesKey(BuyerDealerYearTable, BuyerDealerYearTable.foreignKeys[1])
  {
    assert TableOf(BuyerYear) == BuyerYearTable;
  }

  lemma BuyerDealerYearForeignKey1()
    ensures SoundForeignKey(BuyerDealerYearTable, BuyerDealerYearTable.foreignKeys[1])
  {
    BuyerDealerYearForeignKey1Columns();
    BuyerDealerYearForeignKey1Target();
  }

  lemma BuyerDealerYearForeignKeysListed()
    ensures forall fk :: fk in ForeignKeys(BuyerDealerYearTable) ==> SoundForeignKey(BuyerDealerYearTable, fk)
  {
    BuyerDealerYearForeignKeyList();
    BuyerDealerYearForeignKey0();
    BuyerDealerYearForeignKey1();
    AllSound2(BuyerDealerYearTable, BuyerDealerYearTable.foreignKeys[0], BuyerDealerYearTable.foreignKeys[1]);
  }

  lemma BuyerDealerYearForeignKeysSound()
    ensures forall fk :: fk in ForeignKeys(TableOf(BuyerDealerYear)) ==> SoundForeignKey(TableOf(BuyerDealerYear), fk)
  {
    BuyerDealerYearForeignKeysListed();
    assert TableOf(BuyerDealerYear) == BuyerDealerYearTable;
  }

  lemma BuyerDealerYearDistinctColumns()
    ensures DistinctNames(ColumnNames(TableOf(BuyerDealerYear).columns))
  {
    BuyerDealerYearColumnNames();
    Distinct3(ColumnNames(BuyerDealerYearTable.columns), BuyerSlug, DealerCode, YearSlug);
    assert TableOf(BuyerDealerYear) == BuyerDealerYearTable;
  }

  lemma BuyerDealerYearTyped()
    ensures TypesFrom(TableOf(BuyerDealerYear).columns, 0)
  {
    assert TableOf(BuyerDealerYear) == BuyerDealerYearTable;
  }

  lemma BuyerDealerYearPrimaryKey()
    ensures PrimaryKey(BuyerDealerYearTable) == {BuyerSlug, DealerCode, YearSlug}
  {
  }

  lemma BuyerDealerYearForeignKeyColumns()
    ensures ForeignKeyColumns(BuyerDealerYearTable) == {BuyerSlug, DealerCode, YearSlug}
  {
    BuyerDealerYearForeignKeyList();
  }

  lemma BuyerDealerYearKeyed()
    ensures ForeignKeyColumns(TableOf(BuyerDealerYear)) == PrimaryKey(TableOf(BuyerDealerYear))
  {
    BuyerDealerYearPrimaryKey();
    BuyerDealerYearForeignKeyColumns();
    assert TableOf(BuyerDealerYear) == BuyerDealerYearTable;
  }

  // `BuyerDealerMake`

  lemma BuyerDealerMakeColumnNames()
    ensures ColumnNames(BuyerDealerMakeTable.columns) == [BuyerSlug, DealerCode, MakeSlug]
  {
  }

  lemma BuyerDealerMakeForeignKeyList()
    ensures ForeignKeys(BuyerDealerMakeTable) == [BuyerDealerMakeTable.foreignKeys[0], BuyerDealerMakeTable.foreignKeys[1]]
  {
  }

  lemma BuyerDealerMakeForeignKey0Columns()
    ensures WellShaped(BuyerDealerMakeTable.foreignKeys[0])
    ensures forall c :: c in BuyerDealerMakeTable.foreignKeys[0].columns ==> HasColumn(BuyerDealerMakeTable, c)
  {
    BuyerDealerMakeColumnNames();
  }

  lemma BuyerDealerMakeForeignKey0Target()
    ensures |BuyerDealerMakeTable.foreignKeys[0].refColumns| > 0 && ReferencesKey(BuyerDealerMakeTable, BuyerDealerMakeTable.foreignKeys[0])
  {
    assert TableOf(BuyerDealer) == BuyerDealerTable;
  }

  lemma BuyerDealerMakeForeignKey0()
    ensures SoundForeignKey(BuyerDealerMakeTable, BuyerDealerMakeTable.foreignKeys[0])
  {
    BuyerDealerMakeForeignKey0Columns();
    BuyerDealerMakeForeignKey0Target();
  }

  lemma BuyerDealerMakeForeignKey1Columns()
    ensures WellShaped(BuyerDealerMakeTable.foreignKeys[1])
    ensures forall c :: c in BuyerDealerMakeTable.foreignKeys[1].columns ==> HasColumn(BuyerDealerMakeTable, c)
  {
    BuyerDealerMakeColumnNames();
  }

  lemma BuyerDealerMakeForeignKey1Target()
    ensures |BuyerDealerMakeTable.foreignKeys[1].refColumns| > 0 && ReferencesKey(BuyerDealerMakeTable, BuyerDealerMakeTable.foreignKeys[1])
  {
    assert TableOf(BuyerMake) == BuyerMakeTable;
  }

  lemma BuyerDealerMakeForeignKey1()
    ensures SoundForeignKey(BuyerDealerMakeTable, BuyerDealerMakeTable.foreignKeys[1])
  {
    BuyerDealerMakeForeignKey1Columns();
    BuyerDealerMakeForeignKey1Target();
  }

  lemma BuyerDealerMakeForeignKeysListed()
    ensures forall fk :: fk in ForeignKeys(BuyerDealerMakeTable) ==> SoundForeignKey(BuyerDealerMakeTable, fk)
  {
    BuyerDealerMakeForeignKeyList();
    BuyerDealerMakeForeignKey0();
    BuyerDealerMakeForeignKey1();
    AllSound2(BuyerDealerMakeTable, BuyerDealerMakeTable.foreignKeys[0], BuyerDealerMakeTable.foreignKeys[1]);
  }

  lemma BuyerDealerMakeForeignKeysSound()
    ensures forall fk :: fk in ForeignKeys(TableOf(BuyerDealerMake)) ==> SoundForeignKey(TableOf(BuyerDealerMake), fk)
  {
    BuyerDealerMakeForeignKeysListed();
    assert TableOf(BuyerDealerMake) == BuyerDealerMakeTable;
  }

  lemma BuyerDealerMakeDistinctColumns()
    ensures DistinctNames(ColumnNames(TableOf(BuyerDealerMake).columns))
  {
    BuyerDealerMakeColumnNames();
    Distinct3(ColumnNames(BuyerDealerMakeTable.columns), BuyerSlug, DealerCode, MakeSlug);
    assert TableOf(BuyerDealerMake) == BuyerDealerMakeTable;
  }

  lemma BuyerDealerMakeTyped()
    ensures TypesFrom(TableOf(BuyerDealerMake).columns, 0)
  {
    assert TableOf(BuyerDealerMake) == BuyerDealerMakeTable;
  }

  lemma BuyerDealerMakePrimaryKey()
    ensures PrimaryKey(BuyerDealerMakeTable) == {BuyerSlug, DealerCode, MakeSlug}
  {
  }

  lemma BuyerDealerMakeForeignKeyColumns()
    ensures ForeignKeyColumns(BuyerDealerMakeTable) == {BuyerSlug, DealerCode, MakeSlug}
  {
    BuyerDealerMakeForeignKeyList();
  }

  lemma BuyerDealerMakeKeyed()
    ensures ForeignKeyColumns(TableOf(BuyerDealerMake)) == PrimaryKey(TableOf(BuyerDealerMake))
  {
    BuyerDealerMakePrimaryKey();
    BuyerDealerMakeForeignKeyColumns();
    assert TableOf(BuyerDealerMake) == BuyerDealerMakeTable;
  }

  // `BuyerDealerMakeYear`

  lemma BuyerDealerMakeYearColumnNames()
    ensures ColumnNames(BuyerDealerMakeYearTable.columns) == [BuyerSlug, DealerCode, MakeSlug, YearSlug]
  {
  }

  lemma BuyerDealerMakeYearForeignKeyList()
    ensures ForeignKeys(BuyerDealerMakeYearTable) == [BuyerDealerMakeYearTable.foreignKeys[0], BuyerDealerMakeYearTable.foreignKeys[1]]
  {
  }

  lemma BuyerDealerMakeYearForeignKey0Columns()
    ensures WellShaped(BuyerDealerMakeYearTable.foreignKeys[0])
    ensures forall c :: c in BuyerDealerMakeYearTable.foreignKeys[0].columns ==> HasColumn(BuyerDealerMakeYearTable, c)
  {
    BuyerDealerMakeYearColumnNames();
  }

  lemma BuyerDealerMakeYearForeignKey0Target()
    ensures |BuyerDealerMakeYearTable.foreignKeys[0].refColumns| > 0 && ReferencesKey(BuyerDealerMakeYearTable, BuyerDealerMakeYearTable.foreignKeys[0])
  {
    assert TableOf(BuyerDealerMake) == BuyerDealerMakeTable;
  }

  lemma BuyerDealerMakeYearForeignKey0()
    ensures SoundForeignKey(BuyerDealerMakeYearTable, BuyerDealerMakeYearTable.foreignKeys[0])
  {
    BuyerDealerMakeYearForeignKey0Columns();
    BuyerDealerMakeYearForeignKey0Target();
  }

  lemma BuyerDealerMakeYearForeignKey1Columns()
    ensures WellShaped(BuyerDealerMakeYearTable.foreignKeys[1])
    ensures forall c :: c in BuyerDealerMakeYearTable.foreignKeys[1].columns ==> HasColumn(BuyerDealerMakeYearTable, c)
  {
    BuyerDealerMakeYearColumnNames();
  }

  lemma BuyerDealerMakeYearForeignKey1Target()
    ensures |BuyerDealerMakeYearTable.foreignKeys[1].refColumns| > 0 && ReferencesKey(BuyerDealerMakeYearTable, BuyerDealerMakeYearTable.foreignKeys[1])
  {
    assert TableOf(BuyerDealerYear) == BuyerDealerYearTable;
  }

  lemma BuyerDealerMakeYearForeignKey1()
    ensures SoundForeignKey(BuyerDealerMakeYearTable, BuyerDealerMakeYearTable.foreignKeys[1])
  {
    BuyerDealerMakeYearForeignKey1Columns();
    BuyerDealerMakeYearForeignKey1Target();
  }

  lemma BuyerDealerMakeYearForeignKeysListed()
    ensures forall fk :: fk in ForeignKeys(BuyerDealerMakeYearTable) ==> SoundForeignKey(BuyerDealerMakeYearTable, fk)
  {
    BuyerDealerMakeYearForeignKeyList();
    BuyerDealerMakeYearForeignKey0();
    BuyerDealerMakeYearForeignKey1();
    AllSound2(BuyerDealerMakeYearTable, BuyerDealerMakeYearTable.foreignKeys[0], BuyerDealerMakeYearTable.foreignKeys[1]);
  }

  lemma BuyerDealerMakeYearForeignKeysSound()
    ensures forall fk :: fk in ForeignKeys(TableOf(BuyerDealerMakeYear)) ==> SoundForeignKey(TableOf(BuyerDealerMakeYear), fk)
  {
    BuyerDealerMakeYearForeignKeysListed();
    assert TableOf(BuyerDealerMakeYear) == BuyerDealerMakeYearTable;
  }

  lemma BuyerDealerMakeYearDistinctColumns()
    ensures DistinctNames(ColumnNames(TableOf(BuyerDealerMakeYear).columns))
  {
    BuyerDealerMakeYearColumnNames();
    Distinct4(ColumnNames(BuyerDealerMakeYearTable.columns), BuyerSlug, DealerCode, MakeSlug, YearSlug);
    assert TableOf(BuyerDealerMakeYear) == BuyerDealerMakeYearTable;
  }

  lemma BuyerDealerMakeYearTyped()
    ensures TypesFrom(TableOf(BuyerDealerMakeYear).columns, 0)
  {
    assert TableOf(BuyerDealerMakeYear) == BuyerDealerMakeYearTable;
  }

  lemma BuyerDealerMakeYearPrimaryKey()
    ensures PrimaryKey(BuyerDealerMakeYearTable) == {BuyerSlug, DealerCode, MakeSlug, YearSlug}
  {
  }

  lemma BuyerDealerMakeYearForeignKeyColumns()
    ensures ForeignKeyColumns(BuyerDealerMakeYearTable) == {BuyerSlug, DealerCode, MakeSlug, YearSlug}
  {
    BuyerDealerMakeYearForeignKeyList();
  }

  lemma BuyerDealerMakeYearKeyed()
    ensures ForeignKeyColumns(TableOf(BuyerDealerMakeYear)) == PrimaryKey(TableOf(BuyerDealerMakeYear))
  {
    BuyerDealerMakeYearPrimaryKey();
    BuyerDealerMakeYearForeignKeyColumns();
    assert TableOf(BuyerDealerMakeYear) == BuyerDealerMakeYearTable;
  }

  // `BuyerDealerMakeModel`

  lemma BuyerDealerMakeModelColumnNames()
    ensures ColumnNames(BuyerDealerMakeModelTable.columns) == [BuyerSlug, DealerCode, MakeSlug, ModelSlug]
  {
  }

  lemma BuyerDealerMakeModelForeignKeyList()
    ensures ForeignKeys(BuyerDealerMakeModelTable) == [BuyerDealerMakeModelTable.foreignKeys[0], BuyerDealerMakeModelTable.foreignKeys[1]]
  {
  }

  lemma BuyerDealerMakeModelForeignKey0Columns()
    ensures WellShaped(BuyerDealerMakeModelTable.foreignKeys[0])
    ensures forall c :: c in BuyerDealerMakeModelTable.foreignKeys[0].columns ==> HasColumn(BuyerDealerMakeModelTable, c)
  {
    BuyerDealerMakeModelColumnNames();
  }

  lemma BuyerDealerMakeModelForeignKey0Target()
    ensures |BuyerDealerMakeModelTable.foreignKeys[0].refColumns| > 0 && ReferencesKey(BuyerDealerMakeModelTable, BuyerDealerMakeModelTable.foreignKeys[0])
  {
    assert TableOf(BuyerDealerMake) == BuyerDealerMakeTable;
  }

  lemma BuyerDealerMakeModelForeignKey0()
    ensures SoundForeignKey(BuyerDealerMakeModelTable, BuyerDealerMakeModelTable.foreignKeys[0])
  {
    BuyerDealerMakeModelForeignKey0Columns();
    BuyerDealerMakeModelForeignKey0Target();
  }

  lemma BuyerDealerMakeModelForeignKey1Columns()
    ensures WellShaped(BuyerDealerMakeModelTable.foreignKeys[1])
    ensures forall c :: c in BuyerDealerMakeModelTable.foreignKeys[1].columns ==> HasColumn(BuyerDealerMakeModelTable, c)
  {
    BuyerDealerMakeModelColumnNames();
  }

  lemma BuyerDealerMakeModelForeignKey1Target()
    ensures |BuyerDealerMakeModelTable.foreignKeys[1].refColumns| > 0 && ReferencesKey(BuyerDealerMakeModelTable, BuyerDealerMakeModelTable.foreignKeys[1])
  {
    assert TableOf(BuyerMakeModel) == BuyerMakeModelTable;
  }

  lemma BuyerDealerMakeModelForeignKey1()
    ensures SoundForeignKey(BuyerDealerMakeModelTable, BuyerDealerMakeModelTable.foreignKeys[1])
  {
    BuyerDealerMakeModelForeignKey1Columns();
    BuyerDealerMakeModelForeignKey1Target();
  }

  lemma BuyerDealerMakeModelForeignKeysListed()
    ensures forall fk :: fk in ForeignKeys(BuyerDealerMakeModelTable) ==> SoundForeignKey(BuyerDealerMakeModelTable, fk)
  {
    BuyerDealerMakeModelForeignKeyList();
    BuyerDealerMakeModelForeignKey0();
    BuyerDealerMakeModelForeignKey1();
    AllSound2(BuyerDealerMakeModelTable, BuyerDealerMakeModelTable.foreignKeys[0], BuyerDealerMakeModelTable.foreignKeys[1]);
  }

  lemma BuyerDealerMakeModelForeignKeysSound()
    ensures forall fk :: fk in ForeignKeys(TableOf(BuyerDealerMakeModel)) ==> SoundForeignKey(TableOf(BuyerDealerMakeModel), fk)
  {
    BuyerDealerMakeModelForeignKeysListed();
    assert TableOf(BuyerDealerMakeModel) == BuyerDealerMakeModelTable;
  }

  lemma BuyerDealerMakeModelDistinctColumns()
    ensures DistinctNames(ColumnNames(TableOf(BuyerDealerMakeModel).columns))
  {
    BuyerDealerMakeModelColumnNames();
    Distinct4(ColumnNames(BuyerDealerMakeModelTable.columns), BuyerSlug, DealerCode, MakeSlug, ModelSlug);
    assert TableOf(BuyerDealerMakeModel) == BuyerDealerMakeModelTable;
  }

  lemma BuyerDealerMakeModelTyped()
    ensures TypesFrom(TableOf(BuyerDealerMakeModel).columns, 0)
  {
    assert TableOf(BuyerDealerMakeModel) == BuyerDealerMakeModelTable;
  }

  lemma BuyerDealerMakeModelPrimaryKey()
    ensures PrimaryKey(BuyerDealerMakeModelTable) == {BuyerSlug, DealerCode, MakeSlug, ModelSlug}
  {
  }

  lemma BuyerDealerMakeModelForeignKeyColumns()
    ensures ForeignKeyColumns(BuyerDealerMakeModelTable) == {BuyerSlug, DealerCode, MakeSlug, ModelSlug}
  {
    BuyerDealerMakeModelForeignKeyList();
  }

  lemma BuyerDealerMakeModelKeyed()
    ensures ForeignKeyColumns(TableOf(BuyerDealerMakeModel)) == PrimaryKey(TableOf(BuyerDealerMakeModel))
  {
    BuyerDealerMakeModelPrimaryKey();
    BuyerDealerMakeModelForeignKeyColumns();
    assert TableOf(BuyerDealerMakeModel) == BuyerDealerMakeModelTable;
  }

  // `BuyerDealerMakeModelYear`

  lemma BuyerDealerMakeModelYearColumnNames()
    ensures ColumnNames(BuyerDealerMakeModelYearTable.columns) == [BuyerSlug, DealerCode, MakeSlug, ModelSlug, YearSlug]
  {
  }

  lemma BuyerDealerMakeModelYearForeignKeyList()
    ensures ForeignKeys(BuyerDealerMakeModelYearTable) == [BuyerDealerMakeModelYearTable.foreignKeys[0], BuyerDealerMakeModelYearTable.foreignKeys[1]]
  {
  }

  lemma BuyerDealerMakeModelYearForeignKey0Columns()
    ensures WellShaped(BuyerDealerMakeModelYearTable.foreignKeys[0])
    ensures forall c :: c in BuyerDealerMakeModelYearTable.foreignKeys[0].columns ==> HasColumn(BuyerDealerMakeModelYearTable, c)
  {
    BuyerDealerMakeModelYearColumnNames();
  }

  lemma BuyerDealerMakeModelYearForeignKey0Target()
    ensures |BuyerDealerMakeModelYearTable.foreignKeys[0].refColumns| > 0 && ReferencesKey(BuyerDealerMakeModelYearTable, BuyerDealerMakeModelYearTable.foreignKeys[0])
  {
    assert TableOf(BuyerDealerMakeModel) == BuyerDealerMakeModelTable;
  }

  lemma BuyerDealerMakeModelYearForeignKey0()
    ensures SoundForeignKey(BuyerDealerMakeModelYearTable, BuyerDealerMakeModelYearTable.foreignKeys[0])
  {
    BuyerDealerMakeModelYearForeignKey0Columns();
    BuyerDealerMakeModelYearForeignKey0Target();
  }

  lemma BuyerDealerMakeModelYearForeignKey1Columns()
    ensures WellShaped(BuyerDealerMakeModelYearTable.foreignKeys[1])
    ensures forall c :: c in BuyerDealerMakeModelYearTable.foreignKeys[1].columns ==> HasColumn(BuyerDealerMakeModelYearTable, c)
  {
    BuyerDealerMakeModelYearColumnNames();
  }

  lemma BuyerDealerMakeModelYearForeignKey1Target()
    ensures |BuyerDealerMakeModelYearTable.foreignKeys[1].refColumns| > 0 && ReferencesKey(BuyerDealerMakeModelYearTable, BuyerDealerMakeModelYearTable.foreignKeys[1])
  {
    assert TableOf(BuyerDealerMakeYear) == BuyerDealerMakeYearTable;
  }

  lemma BuyerDealerMakeModelYearForeignKey1()
    ensures SoundForeignKey(BuyerDealerMakeModelYearTable, BuyerDealerMakeModelYearTable.foreignKeys[1])
  {
    BuyerDealerMakeModelYearForeignKey1Columns();
    BuyerDealerMakeModelYearForeignKey1Target();
  }

  lemma BuyerDealerMakeModelYearForeignKeysListed()
    ensures forall fk :: fk in ForeignKeys(BuyerDealerMakeModelYearTable) ==> SoundForeignKey(BuyerDealerMakeModelYearTable, fk)
  {
    BuyerDealerMakeModelYearForeignKeyList();
    BuyerDealerMakeModelYearForeignKey0();
    BuyerDealerMakeModelYearForeignKey1();
    AllSound2(BuyerDealerMakeModelYearTable, BuyerDealerMakeModelYearTable.foreignKeys[0], BuyerDealerMakeModelYearTable.foreignKeys[1]);
  }

  lemma BuyerDealerMakeModelYearForeignKeysSound()
    ensures forall fk :: fk in ForeignKeys(TableOf(BuyerDealerMakeModelYear)) ==> SoundForeignKey(TableOf(BuyerDealerMakeModelYear), fk)
  {
    BuyerDealerMakeModelYearForeignKeysListed();
    assert TableOf(BuyerDealerMakeModelYear) == BuyerDealerMakeModelYearTable;
  }

  lemma BuyerDealerMakeModelYearDistinctColumns()
    ensures DistinctNames(ColumnNames(TableOf(BuyerDealerMakeModelYear).columns))
  {
    BuyerDealerMakeModelYearColumnNames();
    Distinct5(ColumnNames(BuyerDealerMakeModelYearTable.columns), BuyerSlug, DealerCode, MakeSlug, ModelSlug, YearSlug);
    assert TableOf(BuyerDealerMakeModelYear) == BuyerDealerMakeModelYearTable;
  }

  lemma BuyerDealerMakeModelYearTyped()
    ensures TypesFrom(TableOf(BuyerDealerMakeModelYear).columns, 0)
  {
    assert TableOf(BuyerDealerMakeModelYear) == BuyerDealerMakeModelYearTable;
  }

  lemma BuyerDealerMakeModelYearPrimaryKey()
    ensures PrimaryKey(BuyerDealerMakeModelYearTable) == {BuyerSlug, DealerCode, MakeSlug, ModelSlug, YearSlug}
  {
  }

  lemma BuyerDealerMakeModelYearForeignKeyColumns()
    ensures ForeignKeyColumns(BuyerDealerMakeModelYearTable) == {BuyerSlug, DealerCode, MakeSlug, ModelSlug, YearSlug}
  {
    BuyerDealerMakeModelYearForeignKeyList();
  }

  lemma BuyerDealerMakeModelYearKeyed()
    ensures ForeignKeyColumns(TableOf(BuyerDealerMakeModelYear)) == PrimaryKey(TableOf(BuyerDealerMakeModelYear))
  {
    BuyerDealerMakeModelYearPrimaryKey();
    BuyerDealerMakeModelYearForeignKeyColumns();
    assert TableOf(BuyerDealerMakeModelYear) == BuyerDealerMakeModelYearTable;
  }

  // `BuyerTierDealerCoverage`

  lemma BuyerTierDealerCoverageColumnNames()
    ensures ColumnNames(BuyerTierDealerCoverageTable.columns) == [BuyerTierSlug, DealerCode, Zipcode, Distance]
  {
  }

  lemma BuyerTierDealerCoverageForeignKeyList()
    ensures ForeignKeys(BuyerTierDealerCoverageTable) == []
  {
  }

  lemma BuyerTierDealerCoverageForeignKeysListed()
    ensures forall fk :: fk in ForeignKeys(BuyerTierDealerCoverageTable) ==> SoundForeignKey(BuyerTierDealerCoverageTable, fk)
  {
    BuyerTierDealerCoverageForeignKeyList();
    AllSound0(BuyerTierDealerCoverageTable);
  }

  lemma BuyerTierDealerCoverageForeignKeysSound()
    ensures forall fk :: fk in ForeignKeys(TableOf(BuyerTierDealerCoverage)) ==> SoundForeignKey(TableOf(BuyerTierDealerCoverage), fk)
  {
    BuyerTierDealerCoverageForeignKeysListed();
    assert TableOf(BuyerTierDealerCoverage) == BuyerTierDealerCoverageTable;
  }

  lemma BuyerTierDealerCoverageDistinctColumns()
    ensures DistinctNames(ColumnNames(TableOf(BuyerTierDealerCoverage).columns))
  {
    BuyerTierDealerCoverageColumnNames();
    Distinct4(ColumnNames(BuyerTierDealerCoverageTable.columns), BuyerTierSlug, DealerCode, Zipcode, Distance);
    assert TableOf(BuyerTierDealerCoverage) == BuyerTierDealerCoverageTable;
  }

  lemma BuyerTierDealerCoverageTyped()
    ensures TypesFrom(TableOf(BuyerTierDealerCoverage).columns, 0)
  {
    assert TableOf(BuyerTierDealerCoverage) == BuyerTierDealerCoverageTable;
  }

  lemma BuyerTierDealerCoveragePrimaryKey()
    ensures PrimaryKey(BuyerTierDealerCoverageTable) == {BuyerTierSlug, DealerCode, Zipcode}
  {
  }

  lemma BuyerTierDealerCoverageForeignKeyColumns()
    ensures ForeignKeyColumns(BuyerTierDealerCoverageTable) == {}
  {
    BuyerTierDealerCoverageForeignKeyList();
  }

  lemma BuyerTierDealerCoverageKeyed()
    ensures ForeignKeyColumns(TableOf(BuyerTierDealerCoverage)) != PrimaryKey(TableOf(BuyerTierDealerCoverage))
  {
    BuyerTierDealerCoveragePrimaryKey();
    BuyerTierDealerCoverageForeignKeyColumns();
    assert TableOf(BuyerTierDealerCoverage) == BuyerTierDealerCoverageTable;
  }

  lemma TableForeignKeysSound1(n: TableName)
    requires n == Year || n == Country || n == CountryState || n == Make || n == MakeYear || n == MakeModel || n == MakeModelYear || n == Buyer || n == BuyerYear
    ensures forall fk :: fk in ForeignKeys(TableOf(n)) ==> SoundForeignKey(TableOf(n), fk)
  {
    if n == Year {
      YearForeignKeysSound();
    } else if n == Country {
      CountryForeignKeysSound();
    } else if n == CountryState {
      CountryStateForeignKeysSound();
    } else if n == Make {
      MakeForeignKeysSound();
    } else if n == MakeYear {
      MakeYearForeignKeysSound();
    } else if n == MakeModel {
      MakeModelForeignKeysSound();
    } else if n == MakeModelYear {
      MakeModelYearForeignKeysSound();
    } else if n == Buyer {
      BuyerForeignKeysSound();
    } else {
      BuyerYearForeignKeysSound();
    }
  }

  lemma TableForeignKeysSound2(n: TableName)
    requires n == BuyerMake || n == BuyerMakeYear || n == BuyerMakeModel || n == BuyerMakeModelYear || n == BuyerTier || n == LegacyBuyerTier || n == BuyerTierYear || n == BuyerTierMake || n == BuyerTierMakeYear
    ensures forall fk :: fk in ForeignKeys(TableOf(n)) ==> SoundForeignKey(TableOf(n), fk)
  {
    if n == BuyerMake {
      BuyerMakeForeignKeysSound();
    } else if n == BuyerMakeYear {
      BuyerMakeYearForeignKeysSound();
    } else if n == BuyerMakeModel {
      BuyerMakeModelForeignKeysSound();
    } else if n == BuyerMakeModelYear {
      BuyerMakeModelYearForeignKeysSound();
    } else if n == BuyerTier {
      BuyerTierForeignKeysSound();
    } else if n == LegacyBuyerTier {
      LegacyBuyerTierForeignKeysSound();
    } else if n == BuyerTierYear {
      BuyerTierYearForeignKeysSound();
    } else if n == BuyerTierMake {
      BuyerTierMakeForeignKeysSound();
    } else {
      BuyerTierMakeYearForeignKeysSound();
    }
  }

  lemma TableForeignKeysSound3(n: TableName)
    requires n == BuyerTierMakeModel || n == BuyerTierMakeModelYear || n == BuyerDealer || n == BuyerDealerYear || n == BuyerDealerMake || n == BuyerDealerMakeYear || n == BuyerDealerMakeModel || n == BuyerDealerMakeModelYear || n == BuyerTierDealerCoverage
    ensures forall fk :: fk in ForeignKeys(TableOf(n)) ==> SoundForeignKey(TableOf(n), fk)
  {
    if n == BuyerTierMakeModel {
      BuyerTierMakeModelForeignKeysSound();
    } else if n == BuyerTierMakeModelYear {
      BuyerTierMakeModelYearForeignKeysSound();
    } else if n == BuyerDealer {
      BuyerDealerForeignKeysSound();
    } else if n == BuyerDealerYear {
      BuyerDealerYearForeignKeysSound();
    } else if n == BuyerDealerMake {
      BuyerDealerMakeForeignKeysSound();
    } else if n == BuyerDealerMakeYear {
      BuyerDealerMakeYearForeignKeysSound();
    } else if n == BuyerDealerMakeModel {
      BuyerDealerMakeModelForeignKeysSound();
    } else if n == BuyerDealerMakeModelYear {
      BuyerDealerMakeModelYearForeignKeysSound();
    } else {
      BuyerTierDealerCoverageForeignKeysSound();
    }
  }

  lemma TableForeignKeysSound(n: TableName)
    ensures forall fk :: fk in ForeignKeys(TableOf(n)) ==> SoundForeignKey(TableOf(n), fk)
  {
    if n == Year || n == Country || n == CountryState || n == Make || n == MakeYear || n == MakeModel || n == MakeModelYear || n == Buyer || n == BuyerYear {
      TableForeignKeysSound1(n);
    } else if n == BuyerMake || n == BuyerMakeYear || n == BuyerMakeModel || n == BuyerMakeModelYear || n == BuyerTier || n == LegacyBuyerTier || n == BuyerTierYear || n == BuyerTierMake || n == BuyerTierMakeYear {
      TableForeignKeysSound2(n);
    } else {
      TableForeignKeysSound3(n);
    }
  }

  lemma ColumnsDistinct1(n: TableName)
    requires n == Year || n == Country || n == CountryState || n == Make || n == MakeYear || n == MakeModel || n == MakeModelYear || n == Buyer || n == BuyerYear
    ensures DistinctNames(ColumnNames(TableOf(n).columns))
  {
    if n == Year {
      YearDistinctColumns();
    } else if n == Country {
      CountryDistinctColumns();
    } else if n == CountryState {
      CountryStateDistinctColumns();
    } else if n == Make {
      MakeDistinctColumns();
    } else if n == MakeYear {
      MakeYearDistinctColumns();
    } else if n == MakeModel {
      MakeModelDistinctColumns();
    } else if n == MakeModelYear {
      MakeModelYearDistinctColumns();
    } else if n == Buyer {
      BuyerDistinctColumns();
    } else {
      BuyerYearDistinctColumns();
    }
  }

  lemma ColumnsDistinct2(n: TableName)
    requires n == BuyerMake || n == BuyerMakeYear || n == BuyerMakeModel || n == BuyerMakeModelYear || n == BuyerTier || n == LegacyBuyerTier || n == BuyerTierYear || n == BuyerTierMake || n == BuyerTierMakeYear
    ensures DistinctNames(ColumnNames(TableOf(n).columns))
  {
    if n == BuyerMake {
      BuyerMakeDistinctColumns();
    } else if n == BuyerMakeYear {
      BuyerMakeYearDistinctColumns();
    } else if n == BuyerMakeModel {
      BuyerMakeModelDistinctColumns();
    } else if n == BuyerMakeModelYear {
      BuyerMakeModelYearDistinctColumns();
    } else if n == BuyerTier {
      BuyerTierDistinctColumns();
    } else if n == LegacyBuyerTier {
      LegacyBuyerTierDistinctColumns();
    } else if n == BuyerTierYear {
      BuyerTierYearDistinctColumns();
    } else if n == BuyerTierMake {
      BuyerTierMakeDistinctColumns();
    } else {
      BuyerTierMakeYearDistinctColumns();
    }
  }

  lemma ColumnsDistinct3(n: TableName)
    requires n == BuyerTierMakeModel || n == BuyerTierMakeModelYear || n == BuyerDealer || n == BuyerDealerYear || n == BuyerDealerMake || n == BuyerDealerMakeYear || n == BuyerDealerMakeModel || n == BuyerDealerMakeModelYear || n == BuyerTierDealerCoverage
    ensures DistinctNames(ColumnNames(TableOf(n).columns))
  {
    if n == BuyerTierMakeModel {
      BuyerTierMakeModelDistinctColumns();
    } else if n == BuyerTierMakeModelYear {
      BuyerTierMakeModelYearDistinctColumns();
    } else if n == BuyerDealer {
      BuyerDealerDistinctColumns();
    } else if n == BuyerDealerYear {
      BuyerDealerYearDistinctColumns();
    } else if n == BuyerDealerMake {
      BuyerDealerMakeDistinctColumns();
    } else if n == BuyerDealerMakeYear {
      BuyerDealerMakeYearDistinctColumns();
    } else if n == BuyerDealerMakeModel {
      BuyerDealerMakeModelDistinctColumns();
    } else if n == BuyerDealerMakeModelYear {
      BuyerDealerMakeModelYearDistinctColumns();
    } else {
      BuyerTierDealerCoverageDistinctColumns();
    }
  }

  lemma ColumnsDistinct(n: TableName)
    ensures DistinctNames(ColumnNames(TableOf(n).columns))
  {
    if n == Year || n == Country || n == CountryState || n == Make || n == MakeYear || n == MakeModel || n == MakeModelYear || n == Buyer || n == BuyerYear {
      ColumnsDistinct1(n);
    } else if n == BuyerMake || n == BuyerMakeYear || n == BuyerMakeModel || n == BuyerMakeModelYear || n == BuyerTier || n == LegacyBuyerTier || n == BuyerTierYear || n == BuyerTierMake || n == BuyerTierMakeYear {
      ColumnsDistinct2(n);
    } else {
      ColumnsDistinct3(n);
    }
  }

  lemma TableTyped1(n: TableName)
    requires n == Year || n == Country || n == CountryState || n == Make || n == MakeYear || n == MakeModel || n == MakeModelYear || n == Buyer || n == BuyerYear
    ensures TypesFrom(TableOf(n).columns, 0)
  {
    if n == Year {
      YearTyped();
    } else if n == Country {
      CountryTyped();
    } else if n == CountryState {
      CountryStateTyped();
    } else if n == Make {
      MakeTyped();
    } else if n == MakeYear {
      MakeYearTyped();
    } else if n == MakeModel {
      MakeModelTyped();
    } else if n == MakeModelYear {
      MakeModelYearTyped();
    } else if n == Buyer {
      BuyerTyped();
    } else {
      BuyerYearTyped();
    }
  }

  lemma TableTyped2(n: TableName)
    requires n == BuyerMake || n == BuyerMakeYear || n == BuyerMakeModel || n == BuyerMakeModelYear || n == BuyerTier || n == LegacyBuyerTier || n == BuyerTierYear || n == BuyerTierMake || n == BuyerTierMakeYear
    ensures TypesFrom(TableOf(n).columns, 0)
  {
    if n == BuyerMake {
      BuyerMakeTyped();
    } else if n == BuyerMakeYear {
      BuyerMakeYearTyped();
    } else if n == BuyerMakeModel {
      BuyerMakeModelTyped();
    } else if n == BuyerMakeModelYear {
      BuyerMakeModelYearTyped();
    } else if n == BuyerTier {
      BuyerTierTyped();
    } else if n == LegacyBuyerTier {
      LegacyBuyerTierTyped();
    } else if n == BuyerTierYear {
      BuyerTierYearTyped();
    } else if n == BuyerTierMake {
      BuyerTierMakeTyped();
    } else {
      BuyerTierMakeYearTyped();
    }
  }

  lemma TableTyped3(n: TableName)
    requires n == BuyerTierMakeModel || n == BuyerTierMakeModelYear || n == BuyerDealer || n == BuyerDealerYear || n == BuyerDealerMake || n == BuyerDealerMakeYear || n == BuyerDealerMakeModel || n == BuyerDealerMakeModelYear || n == BuyerTierDealerCoverage
    ensures TypesFrom(TableOf(n).columns, 0)
  {
    if n == BuyerTierMakeModel {
      BuyerTierMakeModelTyped();
    } else if n == BuyerTierMakeModelYear {
      BuyerTierMakeModelYearTyped();
    } else if n == BuyerDealer {
      BuyerDealerTyped();
    } else if n == BuyerDealerYear {
      BuyerDealerYearTyped();
    } else if n == BuyerDealerMake {
      BuyerDealerMakeTyped();
    } else if n == BuyerDealerMakeYear {
      BuyerDealerMakeYearTyped();
    } else if n == BuyerDealerMakeModel {
      BuyerDealerMakeModelTyped();
    } else if n == BuyerDealerMakeModelYear {
      BuyerDealerMakeModelYearTyped();
    } else {
      BuyerTierDealerCoverageTyped();
    }
  }

  lemma TableTyped(n: TableName)
    ensures TypesFrom(TableOf(n).columns, 0)
  {
    if n == Year || n == Country || n == CountryState || n == Make || n == MakeYear || n == MakeModel || n == MakeModelYear || n == Buyer || n == BuyerYear {
      TableTyped1(n);
    } else if n == BuyerMake || n == BuyerMakeYear || n == BuyerMakeModel || n == BuyerMakeModelYear || n == BuyerTier || n == LegacyBuyerTier || n == BuyerTierYear || n == BuyerTierMake || n == BuyerTierMakeYear {
      TableTyped2(n);
    } else {
      TableTyped3(n);
    }
  }

  lemma AssociationKeys1(n: TableName)
    requires n == Year || n == Country || n == CountryState || n == Make || n == MakeYear || n == MakeModel || n == MakeModelYear || n == Buyer || n == BuyerYear
    ensures ForeignKeyColumns(TableOf(n)) == PrimaryKey(TableOf(n)) <==> IsAssociation(n)
  {
    if n == Year {
      YearKeyed();
    } else if n == Country {
      CountryKeyed();
    } else if n == CountryState {
      CountryStateKeyed();
    } else if n == Make {
      MakeKeyed();
    } else if n == MakeYear {
      MakeYearKeyed();
    } else if n == MakeModel {
      MakeModelKeyed();
    } else if n == MakeModelYear {
      MakeModelYearKeyed();
    } else if n == Buyer {
      BuyerKeyed();
    } else {
      BuyerYearKeyed();
    }
  }

  lemma AssociationKeys2(n: TableName)
    requires n == BuyerMake || n == BuyerMakeYear || n == BuyerMakeModel || n == BuyerMakeModelYear || n == BuyerTier || n == LegacyBuyerTier || n == BuyerTierYear || n == BuyerTierMake || n == BuyerTierMakeYear
    ensures ForeignKeyColumns(TableOf(n)) == PrimaryKey(TableOf(n)) <==> IsAssociation(n)
  {
    if n == BuyerMake {
      BuyerMakeKeyed();
    } else if n == BuyerMakeYear {
      BuyerMakeYearKeyed();
    } else if n == BuyerMakeModel {
      BuyerMakeModelKeyed();
    } else if n == BuyerMakeModelYear {
      BuyerMakeModelYearKeyed();
    } else if n == BuyerTier {
      BuyerTierKeyed();
    } else if n == LegacyBuyerTier {
      LegacyBuyerTierKeyed();
    } else if n == BuyerTierYear {
      BuyerTierYearKeyed();
    } else if n == BuyerTierMake {
      BuyerTierMakeKeyed();
    } else {
      BuyerTierMakeYearKeyed();
    }
  }

  lemma AssociationKeys3(n: TableName)
    requires n == BuyerTierMakeModel || n == BuyerTierMakeModelYear || n == BuyerDealer || n == BuyerDealerYear || n == BuyerDealerMake || n == BuyerDealerMakeYear || n == BuyerDealerMakeModel || n == BuyerDealerMakeModelYear || n == BuyerTierDealerCoverage
    ensures ForeignKeyColumns(TableOf(n)) == PrimaryKey(TableOf(n)) <==> IsAssociation(n)
  {
    if n == BuyerTierMakeModel {
      BuyerTierMakeModelKeyed();
    } else if n == BuyerTierMakeModelYear {
      BuyerTierMakeModelYearKeyed();
    } else if n == BuyerDealer {
      BuyerDealerKeyed();
    } else if n == BuyerDealerYear {
      BuyerDealerYearKeyed();
    } else if n == BuyerDealerMake {
      BuyerDealerMakeKeyed();
    } else if n == BuyerDealerMakeYear {
      BuyerDealerMakeYearKeyed();
    } else if n == BuyerDealerMakeModel {
      BuyerDealerMakeModelKeyed();
    } else if n == BuyerDealerMakeModelYear {
      BuyerDealerMakeModelYearKeyed();
    } else {
      BuyerTierDealerCoverageKeyed();
    }
  }

  lemma AssociationKeys(n: TableName)
    ensures ForeignKeyColumns(TableOf(n)) == PrimaryKey(TableOf(n)) <==> IsAssociation(n)
  {
    if n == Year || n == Country || n == CountryState || n == Make || n == MakeYear || n == MakeModel || n == MakeModelYear || n == Buyer || n == BuyerYear {
      AssociationKeys1(n);
    } else if n == BuyerMake || n == BuyerMakeYear || n == BuyerMakeModel || n == BuyerMakeModelYear || n == BuyerTier || n == LegacyBuyerTier || n == BuyerTierYear || n == BuyerTierMake || n == BuyerTierMakeYear {
      AssociationKeys2(n);
    } else {
      AssociationKeys3(n);
    }
  }

  // ---------------------------------------------------------------------------
  // The invariants, for every table

  /** Every foreign key has equally many local and referenced columns, all in one target table. */
  lemma ForeignKeysWellShaped(n: TableName)
    ensures forall fk :: fk in ForeignKeys(TableOf(n)) ==> WellShaped(fk)
  {
    TableForeignKeysSound(n);
  }

  /** Every local column of every foreign key is a declared column of the same table. */
  lemma ForeignKeyColumnsDeclared(n: TableName)
    ensures forall fk, c :: fk in ForeignKeys(TableOf(n)) && c in fk.columns ==> HasColumn(TableOf(n), c)
  {
    TableForeignKeysSound(n);
  }

  /**
   * Every foreign key references the whole primary key of its target, except
   * `buyer_dealer(country_slug, state)`, which references the unique
   * constraint `country_state(country_slug, abbr)`.
   */
  lemma ForeignKeysReferenceKeys(n: TableName)
    ensures forall fk :: fk in ForeignKeys(TableOf(n)) ==>
      && |fk.refColumns| > 0
      && (RefColumns(fk) == PrimaryKey(TableOf(Target(fk))) || IsDealerStateKey(TableOf(n), fk))
  {
    TableForeignKeysSound(n);
  }

  /** Only `String` and `Integer` columns occur, and `Integer` exactly for `legacy_id` and `distance`. */
  lemma ColumnTypes(n: TableName)
    ensures forall col :: col in TableOf(n).columns ==> ColumnTyped(col)
  {
    TableTyped(n);
    TypesMeaning(TableOf(n).columns, 0);
  }

  /** The coverage table declares no foreign key; its key is tier, dealer and zip code. */
  lemma CoverageTableKeys()
    ensures ForeignKeys(TableOf(BuyerTierDealerCoverage)) == []
    ensures PrimaryKey(TableOf(BuyerTierDealerCoverage)) == {BuyerTierSlug, DealerCode, Zipcode}
  {
    BuyerTierDealerCoverageForeignKeyList();
    BuyerTierDealerCoveragePrimaryKey();
    assert TableOf(BuyerTierDealerCoverage) == BuyerTierDealerCoverageTable;
  }

  /** The column order of `buyer_dealer`, which is the order the importer writes its rows in. */
  lemma DealerColumnOrder()
    ensures ColumnNames(TableOf(BuyerDealer).columns)
      == [BuyerSlug, Code, Name, Address, City, State, Zipcode, CountrySlug, Phone]
  {
    BuyerDealerColumnNames();
    assert TableOf(BuyerDealer) == BuyerDealerTable;
  }

  // ---------------------------------------------------------------------------
  // The plain column lists agree with the declarations

  lemma YearColumnOrder()
    ensures ColumnOrder(Year) == ColumnNames(TableOf(Year).columns)
  {
  }

  lemma CountryColumnOrder()
    ensures ColumnOrder(Country) == ColumnNames(TableOf(Country).columns)
  {
  }

  lemma CountryStateColumnOrder()
    ensures ColumnOrder(CountryState) == ColumnNames(TableOf(CountryState).columns)
  {
  }

  lemma MakeColumnOrder()
    ensures ColumnOrder(Make) == ColumnNames(TableOf(Make).columns)
  {
  }

  lemma MakeYearColumnOrder()
    ensures ColumnOrder(MakeYear) == ColumnNames(TableOf(MakeYear).columns)
  {
  }

  lemma MakeModelColumnOrder()
    ensures ColumnOrder(MakeModel) == ColumnNames(TableOf(MakeModel).columns)
  {
  }

  lemma MakeModelYearColumnOrder()
    ensures ColumnOrder(MakeModelYear) == ColumnNames(TableOf(MakeModelYear).columns)
  {
  }

  lemma BuyerColumnOrder()
    ensures ColumnOrder(Buyer) == ColumnNames(TableOf(Buyer).columns)
  {
  }

  lemma BuyerYearColumnOrder()
    ensures ColumnOrder(BuyerYear) == ColumnNames(TableOf(BuyerYear).columns)
  {
  }

  lemma BuyerMakeColumnOrder()
    ensures ColumnOrder(BuyerMake) == ColumnNames(TableOf(BuyerMake).columns)
  {
  }

  lemma BuyerMakeYearColumnOrder()
    ensures ColumnOrder(BuyerMakeYear) == ColumnNames(TableOf(BuyerMakeYear).columns)
  {
  }

  lemma BuyerMakeModelColumnOrder()
    ensures ColumnOrder(BuyerMakeModel) == ColumnNames(TableOf(BuyerMakeModel).columns)
  {
  }

  lemma BuyerMakeModelYearColumnOrder()
    ensures ColumnOrder(BuyerMakeModelYear) == ColumnNames(TableOf(BuyerMakeModelYear).columns)
  {
  }

  lemma BuyerTierColumnOrder()
    ensures ColumnOrder(BuyerTier) == ColumnNames(TableOf(BuyerTier).columns)
  {
  }

  lemma LegacyBuyerTierColumnOrder()
    ensures ColumnOrder(LegacyBuyerTier) == ColumnNames(TableOf(LegacyBuyerTier).columns)
  {
  }

  lemma BuyerTierYearColumnOrder()
    ensures ColumnOrder(BuyerTierYear) == ColumnNames(TableOf(BuyerTierYear).columns)
  {
  }

  lemma BuyerTierMakeColumnOrder()
    ensures ColumnOrder(BuyerTierMake) == ColumnNames(TableOf(BuyerTierMake).columns)
  {
  }

  lemma BuyerTierMakeYearColumnOrder()
    ensures ColumnOrder(BuyerTierMakeYear) == ColumnNames(TableOf(BuyerTierMakeYear).columns)
  {
  }

  lemma BuyerTierMakeModelColumnOrder()
    ensures ColumnOrder(BuyerTierMakeModel) == ColumnNames(TableOf(BuyerTierMakeModel).columns)
  {
  }

  lemma BuyerTierMakeModelYearColumnOrder()
    ensures ColumnOrder(BuyerTierMakeModelYear) == ColumnNames(TableOf(BuyerTierMakeModelYear).columns)
  {
  }

  lemma BuyerDealerColumnOrder()
    ensures ColumnOrder(BuyerDealer) == ColumnNames(TableOf(BuyerDealer).columns)
  {
  }

  lemma BuyerDealerYearColumnOrder()
    ensures ColumnOrder(BuyerDealerYear) == ColumnNames(TableOf(BuyerDealerYear).columns)
  {
  }

  lemma BuyerDealerMakeColumnOrder()
    ensures ColumnOrder(BuyerDealerMake) == ColumnNames(TableOf(BuyerDealerMake).columns)
  {
  }

  lemma BuyerDealerMakeYearColumnOrder()
    ensures ColumnOrder(BuyerDealerMakeYear) == ColumnNames(TableOf(BuyerDealerMakeYear).columns)
  {
  }

  lemma BuyerDealerMakeModelColumnOrder()
    ensures ColumnOrder(BuyerDealerMakeModel) == ColumnNames(TableOf(BuyerDealerMakeModel).columns)
  {
  }

  lemma BuyerDealerMakeModelYearColumnOrder()
    ensures ColumnOrder(BuyerDealerMakeModelYear) == ColumnNames(TableOf(BuyerDealerMakeModelYear).columns)
  {
  }

  lemma BuyerTierDealerCoverageColumnOrder()
    ensures ColumnOrder(BuyerTierDealerCoverage) == ColumnNames(TableOf(BuyerTierDealerCoverage).columns)
  {
  }

  lemma ColumnOrderDeclared1(n: TableName)
    requires n == Year || n == Country || n == CountryState || n == Make || n == MakeYear || n == MakeModel || n == MakeModelYear || n == Buyer || n == BuyerYear
    ensures ColumnOrder(n) == ColumnNames(TableOf(n).columns)
  {
    if n == Year {
      YearColumnOrder();
    } else if n == Country {
      CountryColumnOrder();
    } else if n == CountryState {
      CountryStateColumnOrder();
    } else if n == Make {
      MakeColumnOrder();
    } else if n == MakeYear {
      MakeYearColumnOrder();
    } else if n == MakeModel {
      MakeModelColumnOrder();
    } else if n == MakeModelYear {
      MakeModelYearColumnOrder();
    } else if n == Buyer {
      BuyerColumnOrder();
    } else {
      BuyerYearColumnOrder();
    }
  }

  lemma ColumnOrderDeclared2(n: TableName)
    requires n == BuyerMake || n == BuyerMakeYear || n == BuyerMakeModel || n == BuyerMakeModelYear || n == BuyerTier || n == LegacyBuyerTier || n == BuyerTierYear || n == BuyerTierMake || n == BuyerTierMakeYear
    ensures ColumnOrder(n) == ColumnNames(TableOf(n).columns)
  {
    if n == BuyerMake {
      BuyerMakeColumnOrder();
    } else if n == BuyerMakeYear {
      BuyerMakeYearColumnOrder();
    } else if n == BuyerMakeModel {
      BuyerMakeModelColumnOrder();
    } else if n == BuyerMakeModelYear {
      BuyerMakeModelYearColumnOrder();
    } else if n == BuyerTier {
      BuyerTierColumnOrder();
    } else if n == LegacyBuyerTier {
      LegacyBuyerTierColumnOrder();
    } else if n == BuyerTierYear {
      BuyerTierYearColumnOrder();
    } else if n == BuyerTierMake {
      BuyerTierMakeColumnOrder();
    } else {
      BuyerTierMakeYearColumnOrder();
    }
  }

  lemma ColumnOrderDeclared3(n: TableName)
    requires n == BuyerTierMakeModel || n == BuyerTierMakeModelYear || n == BuyerDealer || n == BuyerDealerYear || n == BuyerDealerMake || n == BuyerDealerMakeYear || n == BuyerDealerMakeModel || n == BuyerDealerMakeModelYear || n == BuyerTierDealerCoverage
    ensures ColumnOrder(n) == ColumnNames(TableOf(n).columns)
  {
    if n == BuyerTierMakeModel {
      BuyerTierMakeModelColumnOrder();
    } else if n == BuyerTierMakeModelYear {
      BuyerTierMakeModelYearColumnOrder();
    } else if n == BuyerDealer {
      BuyerDealerColumnOrder();
    } else if n == BuyerDealerYear {
      BuyerDealerYearColumnOrder();
    } else if n == BuyerDealerMake {
      BuyerDealerMakeColumnOrder();
    } else if n == BuyerDealerMakeYear {
      BuyerDealerMakeYearColumnOrder();
    } else if n == BuyerDealerMakeModel {
      BuyerDealerMakeModelColumnOrder();
    } else if n == BuyerDealerMakeModelYear {
      BuyerDealerMakeModelYearColumnOrder();
    } else {
      BuyerTierDealerCoverageColumnOrder();
    }
  }

  /** `self.columns` as written out in `ColumnOrder` is the declared column order of every table. */
  lemma ColumnOrderDeclared(n: TableName)
    ensures ColumnOrder(n) == ColumnNames(TableOf(n).columns)
  {
    if n == Year || n == Country || n == CountryState || n == Make || n == MakeYear || n == MakeModel || n == MakeModelYear || n == Buyer || n == BuyerYear {
      ColumnOrderDeclared1(n);
    } else if n == BuyerMake || n == BuyerMakeYear || n == BuyerMakeModel || n == BuyerMakeModelYear || n == BuyerTier || n == LegacyBuyerTier || n == BuyerTierYear || n == BuyerTierMake || n == BuyerTierMakeYear {
      ColumnOrderDeclared2(n);
    } else {
      ColumnOrderDeclared3(n);
    }
  }

  // ---------------------------------------------------------------------------
  // The plain column type lists agree with the declarations

  lemma YearColumnTypeOrder()
    ensures ColumnTypeOrder(Year) == ColumnTypeList(TableOf(Year).columns)
  {
  }

  lemma CountryColumnTypeOrder()
    ensures ColumnTypeOrder(Country) == ColumnTypeList(TableOf(Country).columns)
  {
  }

  lemma CountryStateColumnTypeOrder()
    ensures ColumnTypeOrder(CountryState) == ColumnTypeList(TableOf(CountryState).columns)
  {
  }

  lemma MakeColumnTypeOrder()
    ensures ColumnTypeOrder(Make) == ColumnTypeList(TableOf(Make).columns)
  {
  }

  lemma MakeYearColumnTypeOrder()
    ensures ColumnTypeOrder(MakeYear) == ColumnTypeList(TableOf(MakeYear).columns)
  {
  }

  lemma MakeModelColumnTypeOrder()
    ensures ColumnTypeOrder(MakeModel) == ColumnTypeList(TableOf(MakeModel).columns)
  {
  }

  lemma MakeModelYearColumnTypeOrder()
    ensures ColumnTypeOrder(MakeModelYear) == ColumnTypeList(TableOf(MakeModelYear).columns)
  {
  }

  lemma BuyerColumnTypeOrder()
    ensures ColumnTypeOrder(Buyer) == ColumnTypeList(TableOf(Buyer).columns)
  {
  }

  lemma BuyerYearColumnTypeOrder()
    ensures ColumnTypeOrder(BuyerYear) == ColumnTypeList(TableOf(BuyerYear).columns)
  {
  }

  lemma BuyerMakeColumnTypeOrder()
    ensures ColumnTypeOrder(BuyerMake) == ColumnTypeList(TableOf(BuyerMake).columns)
  {
  }

  lemma BuyerMakeYearColumnTypeOrder()
    ensures ColumnTypeOrder(BuyerMakeYear) == ColumnTypeList(TableOf(BuyerMakeYear).columns)
  {
  }

  lemma BuyerMakeModelColumnTypeOrder()
    ensures ColumnTypeOrder(BuyerMakeModel) == ColumnTypeList(TableOf(BuyerMakeModel).columns)
  {
  }

  lemma BuyerMakeModelYearColumnTypeOrder()
    ensures ColumnTypeOrder(BuyerMakeModelYear) == ColumnTypeList(TableOf(BuyerMakeModelYear).columns)
  {
  }

  lemma BuyerTierColumnTypeOrder()
    ensures ColumnTypeOrder(BuyerTier) == ColumnTypeList(TableOf(BuyerTier).columns)
  {
  }

  lemma LegacyBuyerTierColumnTypeOrder()
    ensures ColumnTypeOrder(LegacyBuyerTier) == ColumnTypeList(TableOf(LegacyBuyerTier).columns)
  {
  }

  lemma BuyerTierYearColumnTypeOrder()
    ensures ColumnTypeOrder(BuyerTierYear) == ColumnTypeList(TableOf(BuyerTierYear).columns)
  {
  }

  lemma BuyerTierMakeColumnTypeOrder()
    ensures ColumnTypeOrder(BuyerTierMake) == ColumnTypeList(TableOf(BuyerTierMake).columns)
  {
  }

  lemma BuyerTierMakeYearColumnTypeOrder()
    ensures ColumnTypeOrder(BuyerTierMakeYear) == ColumnTypeList(TableOf(BuyerTierMakeYear).columns)
  {
  }

  lemma BuyerTierMakeModelColumnTypeOrder()
    ensures ColumnTypeOrder(BuyerTierMakeModel) == ColumnTypeList(TableOf(BuyerTierMakeModel).columns)
  {
  }

  lemma BuyerTierMakeModelYearColumnTypeOrder()
    ensures ColumnTypeOrder(BuyerTierMakeModelYear) == ColumnTypeList(TableOf(BuyerTierMakeModelYear).columns)
  {
  }

  lemma BuyerDealerColumnTypeOrder()
    ensures ColumnTypeOrder(BuyerDealer) == ColumnTypeList(TableOf(BuyerDealer).columns)
  {
  }

  lemma BuyerDealerYearColumnTypeOrder()
    ensures ColumnTypeOrder(BuyerDealerYear) == ColumnTypeList(TableOf(BuyerDealerYear).columns)
  {
  }

  lemma BuyerDealerMakeColumnTypeOrder()
    ensures ColumnTypeOrder(BuyerDealerMake) == ColumnTypeList(TableOf(BuyerDealerMake).columns)
  {
  }

  lemma BuyerDealerMakeYearColumnTypeOrder()
    ensures ColumnTypeOrder(BuyerDealerMakeYear) == ColumnTypeList(TableOf(BuyerDealerMakeYear).columns)
  {
  }

  lemma BuyerDealerMakeModelColumnTypeOrder()
    ensures ColumnTypeOrder(BuyerDealerMakeModel) == ColumnTypeList(TableOf(BuyerDealerMakeModel).columns)
  {
  }

  lemma BuyerDealerMakeModelYearColumnTypeOrder()
    ensures ColumnTypeOrder(BuyerDealerMakeModelYear) == ColumnTypeList(TableOf(BuyerDealerMakeModelYear).columns)
  {
  }

  lemma BuyerTierDealerCoverageColumnTypeOrder()
    ensures ColumnTypeOrder(BuyerTierDealerCoverage) == ColumnTypeList(TableOf(BuyerTierDealerCoverage).columns)
  {
  }

  lemma ColumnTypeOrderDeclared1(n: TableName)
    requires n == Year || n == Country || n == CountryState || n == Make || n == MakeYear || n == MakeModel || n == MakeModelYear || n == Buyer || n == BuyerYear
    ensures ColumnTypeOrder(n) == ColumnTypeList(TableOf(n).columns)
  {
    if n == Year {
      YearColumnTypeOrder();
    } else if n == Country {
      CountryColumnTypeOrder();
    } else if n == CountryState {
      CountryStateColumnTypeOrder();
    } else if n == Make {
      MakeColumnTypeOrder();
    } else if n == MakeYear {
      MakeYearColumnTypeOrder();
    } else if n == MakeModel {
      MakeModelColumnTypeOrder();
    } else if n == MakeModelYear {
      MakeModelYearColumnTypeOrder();
    } else if n == Buyer {
      BuyerColumnTypeOrder();
    } else {
      BuyerYearColumnTypeOrder();
    }
  }

  lemma ColumnTypeOrderDeclared2(n: TableName)
    requires n == BuyerMake || n == BuyerMakeYear || n == BuyerMakeModel || n == BuyerMakeModelYear || n == BuyerTier || n == LegacyBuyerTier || n == BuyerTierYear || n == BuyerTierMake || n == BuyerTierMakeYear
    ensures ColumnTypeOrder(n) == ColumnTypeList(TableOf(n).columns)
  {
    if n == BuyerMake {
      BuyerMakeColumnTypeOrder();
    } else if n == BuyerMakeYear {
      BuyerMakeYearColumnTypeOrder();
    } else if n == BuyerMakeModel {
      BuyerMakeModelColumnTypeOrder();
    } else if n == BuyerMakeModelYear {
      BuyerMakeModelYearColumnTypeOrder();
    } else if n == BuyerTier {
      BuyerTierColumnTypeOrder();
    } else if n == LegacyBuyerTier {
      LegacyBuyerTierColumnTypeOrder();
    } else if n == BuyerTierYear {
      BuyerTierYearColumnTypeOrder();
    } else if n == BuyerTierMake {
      BuyerTierMakeColumnTypeOrder();
    } else {
      BuyerTierMakeYearColumnTypeOrder();
    }
  }

  lemma ColumnTypeOrderDeclared3(n: TableName)
    requires n == BuyerTierMakeModel || n == BuyerTierMakeModelYear || n == BuyerDealer || n == BuyerDealerYear || n == BuyerDealerMake || n == BuyerDealerMakeYear || n == BuyerDealerMakeModel || n == BuyerDealerMakeModelYear || n == BuyerTierDealerCoverage
    ensures ColumnTypeOrder(n) == ColumnTypeList(TableOf(n).columns)
  {
    if n == BuyerTierMakeModel {
      BuyerTierMakeModelColumnTypeOrder();
    } else if n == BuyerTierMakeModelYear {
      BuyerTierMakeModelYearColumnTypeOrder();
    } else if n == BuyerDealer {
      BuyerDealerColumnTypeOrder();
    } else if n == BuyerDealerYear {
      BuyerDealerYearColumnTypeOrder();
    } else if n == BuyerDealerMake {
      BuyerDealerMakeColumnTypeOrder();
    } else if n == BuyerDealerMakeYear {
      BuyerDealerMakeYearColumnTypeOrder();
    } else if n == BuyerDealerMakeModel {
      BuyerDealerMakeModelColumnTypeOrder();
    } else if n == BuyerDealerMakeModelYear {
      BuyerDealerMakeModelYearColumnTypeOrder();
    } else {
      BuyerTierDealerCoverageColumnTypeOrder();
    }
  }

  /** `self.column_types` as written out in `ColumnTypeOrder` gives every table's declared types in column order. */
  lemma ColumnTypeOrderDeclared(n: TableName)
    ensures ColumnTypeOrder(n) == ColumnTypeList(TableOf(n).columns)
  {
    if n == Year || n == Country || n == CountryState || n == Make || n == MakeYear || n == MakeModel || n == MakeModelYear || n == Buyer || n == BuyerYear {
      ColumnTypeOrderDeclared1(n);
    } else if n == BuyerMake || n == BuyerMakeYear || n == BuyerMakeModel || n == BuyerMakeModelYear || n == BuyerTier || n == LegacyBuyerTier || n == BuyerTierYear || n == BuyerTierMake || n == BuyerTierMakeYear {
      ColumnTypeOrderDeclared2(n);
    } else {
      ColumnTypeOrderDeclared3(n);
    }
  }
}
