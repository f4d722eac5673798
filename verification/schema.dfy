/**
 * The schema registry: every table the importer loads, with its columns in
 * declaration order, their types, primary keys, unique constraints and
 * foreign keys (both the one-column `ForeignKey` written on a column and the
 * composite `ForeignKeyConstraint` written on the table).
 */
module Schema {
  import opened Wrappers

  datatype TableName =
    | Year | Country | CountryState
    | Make | MakeYear | MakeModel | MakeModelYear
    | Buyer | BuyerYear | BuyerMake | BuyerMakeYear | BuyerMakeModel | BuyerMakeModelYear
    | BuyerTier | LegacyBuyerTier | BuyerTierYear | BuyerTierMake | BuyerTierMakeYear
    | BuyerTierMakeModel | BuyerTierMakeModelYear
    | BuyerDealer | BuyerDealerYear | BuyerDealerMake | BuyerDealerMakeYear
    | BuyerDealerMakeModel | BuyerDealerMakeModelYear
    | BuyerTierDealerCoverage

  datatype ColName =
    | Slug | Name | Abbr | CountrySlug | MakeSlug | YearSlug | ModelSlug | BuyerSlug
    | TierSlug | BuyerTierSlug | LegacyId | LegacyName | Code | Address | City | State
    | Zipcode | Phone | DealerCode | Distance

  /** A column type; `Other` stands for any type but `String` and `Integer`. */
  datatype ColType = StringType(length: nat) | IntegerType | OtherType(typeName: string)

  datatype ColumnRef = ColumnRef(table: TableName, column: ColName)

  /**
   * A column. `nullable` follows SQLAlchemy: false for primary-key columns and
   * for `nullable=False`, true otherwise. `references` is the target of a
   * `ForeignKey(...)` written on the column itself.
   */
  datatype Column = Column(
    name: ColName, colType: ColType, primaryKey: bool, nullable: bool, references: Option<ColumnRef>)

  datatype ForeignKeyConstraint = ForeignKeyConstraint(columns: seq<ColName>, refColumns: seq<ColumnRef>)

  datatype Table = Table(
    name: TableName, columns: seq<Column>, uniques: seq<seq<ColName>>, foreignKeys: seq<ForeignKeyConstraint>)

  function TableText(n: TableName): string {
    match n
    case Year => "year"
    case Country => "country"
    case CountryState => "country_state"
    case Make => "make"
    case MakeYear => "make_year"
    case MakeModel => "make_model"
    case MakeModelYear => "make_model_year"
    case Buyer => "buyer"
    case BuyerYear => "buyer_year"
    case BuyerMake => "buyer_make"
    case BuyerMakeYear => "buyer_make_year"
    case BuyerMakeModel => "buyer_make_model"
    case BuyerMakeModelYear => "buyer_make_model_year"
    case BuyerTier => "buyer_tier"
    case LegacyBuyerTier => "legacy_buyer_tier"
    case BuyerTierYear => "buyer_tier_year"
    case BuyerTierMake => "buyer_tier_make"
    case BuyerTierMakeYear => "buyer_tier_make_year"
    case BuyerTierMakeModel => "buyer_tier_make_model"
    case BuyerTierMakeModelYear => "buyer_tier_make_model_year"
    case BuyerDealer => "buyer_dealer"
    case BuyerDealerYear => "buyer_dealer_year"
    case BuyerDealerMake => "buyer_dealer_make"
    case BuyerDealerMakeYear => "buyer_dealer_make_year"
    case BuyerDealerMakeModel => "buyer_dealer_make_model"
    case BuyerDealerMakeModelYear => "buyer_dealer_make_model_year"
    case BuyerTierDealerCoverage => "buyer_tier_dealer_coverage"
  }

  function ColText(c: ColName): string {
    match c
    case Slug => "slug"
    case Name => "name"
    case Abbr => "abbr"
    case CountrySlug => "country_slug"
    case MakeSlug => "make_slug"
    case YearSlug => "year_slug"
    case ModelSlug => "model_slug"
    case BuyerSlug => "buyer_slug"
    case TierSlug => "tier_slug"
    case BuyerTierSlug => "buyer_tier_slug"
    case LegacyId => "legacy_id"
    case LegacyName => "legacy_name"
    case Code => "code"
    case Address => "address"
    case City => "city"
    case State => "state"
    case Zipcode => "zipcode"
    case Phone => "phone"
    case DealerCode => "dealer_code"
    case Distance => "distance"
  }

  const YearTable := Table(Year,
    [Column(Slug, StringType(50), true, false, None),
     Column(Name, StringType(50), false, false, None)],
    [[Name]],
    [])

  const CountryTable := Table(Country,
    [Column(Slug, StringType(50), true, false, None),
     Column(Name, StringType(50), false, false, None),
     Column(Abbr, StringType(50), false, false, None)],
    [[Name], [Abbr]],
    [])

  const CountryStateTable := Table(CountryState,
    [Column(CountrySlug, StringType(50), true, false, Some(ColumnRef(Country, Slug))),
     Column(Slug, StringType(50), true, false, None),
     Column(Name, StringType(50), false, false, None),
     Column(Abbr, StringType(50), false, false, None)],
    [[CountrySlug, Name], [CountrySlug, Abbr]],
    [])

  const MakeTable := Table(Make,
    [Column(Slug, StringType(50), true, false, None),
     Column(Name, StringType(50), false, false, None)],
    [[Name]],
    [])

  const MakeYearTable := Table(MakeYear,
    [Column(MakeSlug, StringType(50), true, false, Some(ColumnRef(Make, Slug))),
     Column(YearSlug, StringType(50), true, false, Some(ColumnRef(Year, Slug)))],
    [],
    [])

  const MakeModelTable := Table(MakeModel,
    [Column(MakeSlug, StringType(50), true, false, Some(ColumnRef(Make, Slug))),
     Column(Slug, StringType(50), true, false, None),
     Column(Name, StringType(50), false, false, None)],
    [[MakeSlug, Name]],
    [])

  const MakeModelYearTable := Table(MakeModelYear,
    [Column(MakeSlug, StringType(50), true, false, None),
     Column(ModelSlug, StringType(50), true, false, None),
     Column(YearSlug, StringType(50), true, false, None)],
    [],
    [ForeignKeyConstraint([MakeSlug, ModelSlug],
        [ColumnRef(MakeModel, MakeSlug), ColumnRef(MakeModel, Slug)]),
     ForeignKeyConstraint([MakeSlug, YearSlug],
        [ColumnRef(MakeYear, MakeSlug), ColumnRef(MakeYear, YearSlug)])])

  const BuyerTable := Table(Buyer,
    [Column(Slug, StringType(50), true, false, None),
     Column(Name, StringType(50), false, false, None)],
    [[Name]],
    [])

  const BuyerYearTable := Table(BuyerYear,
    [Column(BuyerSlug, StringType(50), true, false, Some(ColumnRef(Buyer, Slug))),
     Column(YearSlug, StringType(50), true, false, Some(ColumnRef(Year, Slug)))],
    [],
    [])

  const BuyerMakeTable := Table(BuyerMake,
    [Column(BuyerSlug, StringType(50), true, false, Some(ColumnRef(Buyer, Slug))),
     Column(MakeSlug, StringType(50), true, false, Some(ColumnRef(Make, Slug)))],
    [],
    [])

  const BuyerMakeYearTable := Table(BuyerMakeYear,
    [Column(BuyerSlug, StringType(50), true, false, None),
     Column(MakeSlug, StringType(50), true, false, None),
     Column(YearSlug, StringType(50), true, false, None)],
    [],
    [ForeignKeyConstraint([BuyerSlug, MakeSlug],
        [ColumnRef(BuyerMake, BuyerSlug), ColumnRef(BuyerMake, MakeSlug)]),
     ForeignKeyConstraint([MakeSlug, YearSlug],
        [ColumnRef(MakeYear, MakeSlug), ColumnRef(MakeYear, YearSlug)])])

  const BuyerMakeModelTable := Table(BuyerMakeModel,
    [Column(BuyerSlug, StringType(50), true, false, Some(ColumnRef(Buyer, Slug))),
     Column(MakeSlug, StringType(50), true, false, None),
     Column(ModelSlug, StringType(50), true, false, None)],
    [],
    [ForeignKeyConstraint([BuyerSlug, MakeSlug],
        [ColumnRef(BuyerMake, BuyerSlug), ColumnRef(BuyerMake, MakeSlug)]),
     ForeignKeyConstraint([MakeSlug, ModelSlug],
        [ColumnRef(MakeModel, MakeSlug), ColumnRef(MakeModel, Slug)])])

  const BuyerMakeModelYearTable := Table(BuyerMakeModelYear,
    [Column(BuyerSlug, StringType(50), true, false, None),
     Column(MakeSlug, StringType(50), true, false, None),
     Column(ModelSlug, StringType(50), true, false, None),
     Column(YearSlug, StringType(50), true, false, None)],
    [],
    [ForeignKeyConstraint([BuyerSlug, MakeSlug, ModelSlug],
        [ColumnRef(BuyerMakeModel, BuyerSlug), ColumnRef(BuyerMakeModel, MakeSlug), ColumnRef(BuyerMakeModel, ModelSlug)]),
     ForeignKeyConstraint([BuyerSlug, MakeSlug, YearSlug],
        [ColumnRef(BuyerMakeYear, BuyerSlug), ColumnRef(BuyerMakeYear, MakeSlug), ColumnRef(BuyerMakeYear, YearSlug)])])

  const BuyerTierTable := Table(BuyerTier,
    [Column(BuyerSlug, StringType(50), true, false, Some(ColumnRef(Buyer, Slug))),
     Column(Slug, StringType(50), true, false, None),
     Column(Name, StringType(50), false, false, None)],
    [[BuyerSlug, Name]],
    [])

  const LegacyBuyerTierTable := Table(LegacyBuyerTier,
    [Column(BuyerSlug, StringType(50), true, false, None),
     Column(BuyerTierSlug, StringType(50), true, false, None),
     Column(LegacyId, IntegerType, false, false, None),
     Column(LegacyName, StringType(50), false, false, None)],
    [[LegacyId], [LegacyName]],
    [ForeignKeyConstraint([BuyerSlug, BuyerTierSlug],
        [ColumnRef(BuyerTier, BuyerSlug), ColumnRef(BuyerTier, Slug)])])

  const BuyerTierYearTable := Table(BuyerTierYear,
    [Column(BuyerSlug, StringType(50), true, false, None),
     Column(TierSlug, StringType(50), true, false, None),
     Column(YearSlug, StringType(50), true, false, None)],
    [],
    [ForeignKeyConstraint([BuyerSlug, TierSlug],
        [ColumnRef(BuyerTier, BuyerSlug), ColumnRef(BuyerTier, Slug)]),
     ForeignKeyConstraint([BuyerSlug, YearSlug],
        [ColumnRef(BuyerYear, BuyerSlug), ColumnRef(BuyerYear, YearSlug)])])

  const BuyerTierMakeTable := Table(BuyerTierMake,
    [Column(BuyerSlug, StringType(50), true, false, None),
     Column(TierSlug, StringType(50), true, false, None),
     Column(MakeSlug, StringType(50), true, false, None)],
    [],
    [ForeignKeyConstraint([BuyerSlug, TierSlug],
        [ColumnRef(BuyerTier, BuyerSlug), ColumnRef(BuyerTier, Slug)]),
     ForeignKeyConstraint([BuyerSlug, MakeSlug],
        [ColumnRef(BuyerMake, BuyerSlug), ColumnRef(BuyerMake, MakeSlug)])])

  const BuyerTierMakeYearTable := Table(BuyerTierMakeYear,
    [Column(BuyerSlug, StringType(50), true, false, None),
     Column(TierSlug, StringType(50), true, false, None),
     Column(MakeSlug, StringType(50), true, false, None),
     Column(YearSlug, StringType(50), true, false, None)],
    [],
    [ForeignKeyConstraint([BuyerSlug, TierSlug, MakeSlug],
        [ColumnRef(BuyerTierMake, BuyerSlug), ColumnRef(BuyerTierMake, TierSlug), ColumnRef(BuyerTierMake, MakeSlug)]),
     ForeignKeyConstraint([BuyerSlug, TierSlug, YearSlug],
        [ColumnRef(BuyerTierYear, BuyerSlug), ColumnRef(BuyerTierYear, TierSlug), ColumnRef(BuyerTierYear, YearSlug)])])

  const BuyerTierMakeModelTable := Table(BuyerTierMakeModel,
    [Column(BuyerSlug, StringType(50), true, false, None),
     Column(TierSlug, StringType(50), true, false, None),
     Column(MakeSlug, StringType(50), true, false, None),
     Column(ModelSlug, StringType(50), true, false, None)],
    [],
    [ForeignKeyConstraint([BuyerSlug, TierSlug, MakeSlug],
        [ColumnRef(BuyerTierMake, BuyerSlug), ColumnRef(BuyerTierMake, TierSlug), ColumnRef(BuyerTierMake, MakeSlug)]),
     ForeignKeyConstraint([BuyerSlug, MakeSlug, ModelSlug],
        [ColumnRef(BuyerMakeModel, BuyerSlug), ColumnRef(BuyerMakeModel, MakeSlug), ColumnRef(BuyerMakeModel, ModelSlug)])])

  const BuyerTierMakeModelYearTable := Table(BuyerTierMakeModelYear,
    [Column(BuyerSlug, StringType(50), true, false, None),
     Column(TierSlug, StringType(50), true, false, None),
     Column(MakeSlug, StringType(50), true, false, None),
     Column(ModelSlug, StringType(50), true, false, None),
     Column(YearSlug, StringType(50), true, false, None)],
    [],
    [ForeignKeyConstraint([BuyerSlug, TierSlug, MakeSlug, ModelSlug],
        [ColumnRef(BuyerTierMakeModel, BuyerSlug), ColumnRef(BuyerTierMakeModel, TierSlug), ColumnRef(BuyerTierMakeModel, MakeSlug), ColumnRef(BuyerTierMakeModel, ModelSlug)]),
     ForeignKeyConstraint([BuyerSlug, TierSlug, MakeSlug, YearSlug],
        [ColumnRef(BuyerTierMakeYear, BuyerSlug), ColumnRef(BuyerTierMakeYear, TierSlug), ColumnRef(BuyerTierMakeYear, MakeSlug), ColumnRef(BuyerTierMakeYear, YearSlug)])])

  const BuyerDealerTable := Table(BuyerDealer,
    [Column(BuyerSlug, StringType(50), true, false, Some(ColumnRef(Buyer, Slug))),
     Column(Code, StringType(50), true, false, None),
     Column(Name, StringType(255), false, true, None),
     Column(Address, StringType(255), false, true, None),
     Column(City, StringType(255), false, true, None),
     Column(State, StringType(50), false, true, None),
     Column(Zipcode, StringType(255), false, true, None),
     Column(CountrySlug, StringType(50), false, true, None),
     Column(Phone, StringType(255), false, true, None)],
    [[BuyerSlug, Name, Address, City, State, Zipcode]],
    [ForeignKeyConstraint([CountrySlug, State],
        [ColumnRef(CountryState, CountrySlug), ColumnRef(CountryState, Abbr)])])

  const BuyerDealerYearTable := Table(BuyerDealerYear,
    [Column(BuyerSlug, StringType(50), true, false, None),
     Column(DealerCode, StringType(50), true, false, None),
     Column(YearSlug, StringType(50), true, false, None)],
    [],
    [ForeignKeyConstraint([BuyerSlug, DealerCode],
        [ColumnRef(BuyerDealer, BuyerSlug), ColumnRef(BuyerDealer, Code)]),
     ForeignKeyConstraint([BuyerSlug, YearSlug],
        [ColumnRef(BuyerYear, BuyerSlug), ColumnRef(BuyerYear, YearSlug)])])

  const BuyerDealerMakeTable := Table(BuyerDealerMake,
    [Column(BuyerSlug, StringType(50), true, false, None),
     Column(DealerCode, StringType(50), true, false, None),
     Column(MakeSlug, StringType(50), true, false, None)],
    [],
    [ForeignKeyConstraint([BuyerSlug, DealerCode],
        [ColumnRef(BuyerDealer, BuyerSlug), ColumnRef(BuyerDealer, Code)]),
     ForeignKeyConstraint([BuyerSlug, MakeSlug],
        [ColumnRef(BuyerMake, BuyerSlug), ColumnRef(BuyerMake, MakeSlug)])])

  const BuyerDealerMakeYearTable := Table(BuyerDealerMakeYear,
    [Column(BuyerSlug, StringType(50), true, false, None),
     Column(DealerCode, StringType(50), true, false, None),
     Column(MakeSlug, StringType(50), true, false, None),
     Column(YearSlug, StringType(50), true, false, None)],
    [],
    [ForeignKeyConstraint([BuyerSlug, DealerCode, MakeSlug],
        [ColumnRef(BuyerDealerMake, BuyerSlug), ColumnRef(BuyerDealerMake, DealerCode), ColumnRef(BuyerDealerMake, MakeSlug)]),
     ForeignKeyConstraint([BuyerSlug, DealerCode, YearSlug],
        [ColumnRef(BuyerDealerYear, BuyerSlug), ColumnRef(BuyerDealerYear, DealerCode), ColumnRef(BuyerDealerYear, YearSlug)])])

  const BuyerDealerMakeModelTable := Table(BuyerDealerMakeModel,
    [Column(BuyerSlug, StringType(50), true, false, None),
     Column(DealerCode, StringType(50), true, false, None),
     Column(MakeSlug, StringType(50), true, false, None),
     Column(ModelSlug, StringType(50), true, false, None)],
    [],
    [ForeignKeyConstraint([BuyerSlug, DealerCode, MakeSlug],
        [ColumnRef(BuyerDealerMake, BuyerSlug), ColumnRef(BuyerDealerMake, DealerCode), ColumnRef(BuyerDealerMake, MakeSlug)]),
     ForeignKeyConstraint([BuyerSlug, MakeSlug, ModelSlug],
        [ColumnRef(BuyerMakeModel, BuyerSlug), ColumnRef(BuyerMakeModel, MakeSlug), ColumnRef(BuyerMakeModel, ModelSlug)])])

  const BuyerDealerMakeModelYearTable := Table(BuyerDealerMakeModelYear,
    [Column(BuyerSlug, StringType(50), true, false, None),
     Column(DealerCode, StringType(50), true, false, None),
     Column(MakeSlug, StringType(50), true, false, None),
     Column(ModelSlug, StringType(50), true, false, None),
     Column(YearSlug, StringType(50), true, false, None)],
    [],
    [ForeignKeyConstraint([BuyerSlug, DealerCode, MakeSlug, ModelSlug],
        [ColumnRef(BuyerDealerMakeModel, BuyerSlug), ColumnRef(BuyerDealerMakeModel, DealerCode), ColumnRef(BuyerDealerMakeModel, MakeSlug), ColumnRef(BuyerDealerMakeModel, ModelSlug)]),
     ForeignKeyConstraint([BuyerSlug, DealerCode, MakeSlug, YearSlug],
        [ColumnRef(BuyerDealerMakeYear, BuyerSlug), ColumnRef(BuyerDealerMakeYear, DealerCode), ColumnRef(BuyerDealerMakeYear, MakeSlug), ColumnRef(BuyerDealerMakeYear, YearSlug)])])

  const BuyerTierDealerCoverageTable := Table(BuyerTierDealerCoverage,
    [Column(BuyerTierSlug, StringType(50), true, false, None),
     Column(DealerCode, StringType(50), true, false, None),
     Column(Zipcode, StringType(255), true, false, None),
     Column(Distance, IntegerType, false, true, None)],
    [],
    [])

  /** The table a name denotes (the importer's `tables_by_name[...]`). */
  function TableOf(n: TableName): (t: Table)
    ensures t.name == n
  {
    match n
    case Year => YearTable
    case Country => CountryTable
    case CountryState => CountryStateTable
    case Make => MakeTable
    case MakeYear => MakeYearTable
    case MakeModel => MakeModelTable
    case MakeModelYear => MakeModelYearTable
    case Buyer => BuyerTable
    case BuyerYear => BuyerYearTable
    case BuyerMake => BuyerMakeTable
    case BuyerMakeYear => BuyerMakeYearTable
    case BuyerMakeModel => BuyerMakeModelTable
    case BuyerMakeModelYear => BuyerMakeModelYearTable
    case BuyerTier => BuyerTierTable
    case LegacyBuyerTier => LegacyBuyerTierTable
    case BuyerTierYear => BuyerTierYearTable
    case BuyerTierMake => BuyerTierMakeTable
    case BuyerTierMakeYear => BuyerTierMakeYearTable
    case BuyerTierMakeModel => BuyerTierMakeModelTable
    case BuyerTierMakeModelYear => BuyerTierMakeModelYearTable
    case BuyerDealer => BuyerDealerTable
    case BuyerDealerYear => BuyerDealerYearTable
    case BuyerDealerMake => BuyerDealerMakeTable
    case BuyerDealerMakeYear => BuyerDealerMakeYearTable
    case BuyerDealerMakeModel => BuyerDealerMakeModelTable
    case BuyerDealerMakeModelYear => BuyerDealerMakeModelYearTable
    case BuyerTierDealerCoverage => BuyerTierDealerCoverageTable
  }

  /**
   * The column names of each table in declaration order, written out once
   * more as a plain list: this is what the importer reads as `self.columns`,
   * and reasoning about it need not unfold the whole registry. The lemma
   * `Registry.ColumnOrderDeclared` proves it equals the names of
   * `TableOf(n).columns`.
   */
  function ColumnOrder(n: TableName): seq<ColName> {
    match n
    case Year => [Slug, Name]
    case Country => [Slug, Name, Abbr]
    case CountryState => [CountrySlug, Slug, Name, Abbr]
    case Make => [Slug, Name]
    case MakeYear => [MakeSlug, YearSlug]
    case MakeModel => [MakeSlug, Slug, Name]
    case MakeModelYear => [MakeSlug, ModelSlug, YearSlug]
    case Buyer => [Slug, Name]
    case BuyerYear => [BuyerSlug, YearSlug]
    case BuyerMake => [BuyerSlug, MakeSlug]
    case BuyerMakeYear => [BuyerSlug, MakeSlug, YearSlug]
    case BuyerMakeModel => [BuyerSlug, MakeSlug, ModelSlug]
    case BuyerMakeModelYear => [BuyerSlug, MakeSlug, ModelSlug, YearSlug]
    case BuyerTier => [BuyerSlug, Slug, Name]
    case LegacyBuyerTier => [BuyerSlug, BuyerTierSlug, LegacyId, LegacyName]
    case BuyerTierYear => [BuyerSlug, TierSlug, YearSlug]
    case BuyerTierMake => [BuyerSlug, TierSlug, MakeSlug]
    case BuyerTierMakeYear => [BuyerSlug, TierSlug, MakeSlug, YearSlug]
    case BuyerTierMakeModel => [BuyerSlug, TierSlug, MakeSlug, ModelSlug]
    case BuyerTierMakeModelYear => [BuyerSlug, TierSlug, MakeSlug, ModelSlug, YearSlug]
    case BuyerDealer => [BuyerSlug, Code, Name, Address, City, State, Zipcode, CountrySlug, Phone]
    case BuyerDealerYear => [BuyerSlug, DealerCode, YearSlug]
    case BuyerDealerMake => [BuyerSlug, DealerCode, MakeSlug]
    case BuyerDealerMakeYear => [BuyerSlug, DealerCode, MakeSlug, YearSlug]
    case BuyerDealerMakeModel => [BuyerSlug, DealerCode, MakeSlug, ModelSlug]
    case BuyerDealerMakeModelYear => [BuyerSlug, DealerCode, MakeSlug, ModelSlug, YearSlug]
    case BuyerTierDealerCoverage => [BuyerTierSlug, DealerCode, Zipcode, Distance]
  }

  /**
   * The column types of each table, in the order of `ColumnOrder`: the
   * importer's `self.column_types`, read column by column. The lemma
   * `Registry.ColumnTypeOrderDeclared` proves it equals the types of
   * `TableOf(n).columns`.
   */
  function ColumnTypeOrder(n: TableName): seq<ColType> {
    match n
    case Year => [StringType(50), StringType(50)]
    case Country => [StringType(50), StringType(50), StringType(50)]
    case CountryState => [StringType(50), StringType(50), StringType(50), StringType(50)]
    case Make => [StringType(50), StringType(50)]
    case MakeYear => [StringType(50), StringType(50)]
    case MakeModel => [StringType(50), StringType(50), StringType(50)]
    case MakeModelYear => [StringType(50), StringType(50), StringType(50)]
    case Buyer => [StringType(50), StringType(50)]
    case BuyerYear => [StringType(50), StringType(50)]
    case BuyerMake => [StringType(50), StringType(50)]
    case BuyerMakeYear => [StringType(50), StringType(50), StringType(50)]
    case BuyerMakeModel => [StringType(50), StringType(50), StringType(50)]
    case BuyerMakeModelYear => [StringType(50), StringType(50), StringType(50), StringType(50)]
    case BuyerTier => [StringType(50), StringType(50), StringType(50)]
    case LegacyBuyerTier => [StringType(50), StringType(50), IntegerType, StringType(50)]
    case BuyerTierYear => [StringType(50), StringType(50), StringType(50)]
    case BuyerTierMake => [StringType(50), StringType(50), StringType(50)]
    case BuyerTierMakeYear => [StringType(50), StringType(50), StringType(50), StringType(50)]
    case BuyerTierMakeModel => [StringType(50), StringType(50), StringType(50), StringType(50)]
    case BuyerTierMakeModelYear => [StringType(50), StringType(50), StringType(50), StringType(50), StringType(50)]
    case BuyerDealer => [StringType(50), StringType(50), StringType(255), StringType(255), StringType(255), StringType(50), StringType(255), StringType(50), StringType(255)]
    case BuyerDealerYear => [StringType(50), StringType(50), StringType(50)]
    case BuyerDealerMake => [StringType(50), StringType(50), StringType(50)]
    case BuyerDealerMakeYear => [StringType(50), StringType(50), StringType(50), StringType(50)]
    case BuyerDealerMakeModel => [StringType(50), StringType(50), StringType(50), StringType(50)]
    case BuyerDealerMakeModelYear => [StringType(50), StringType(50), StringType(50), StringType(50), StringType(50)]
    case BuyerTierDealerCoverage => [StringType(50), StringType(50), StringType(255), IntegerType]
  }

  // ---------------------------------------------------------------------------
  // Derived views of a table

  /** The column types, in declaration order. */
  function ColumnTypeList(cols: seq<Column>): (types: seq<ColType>)
    ensures |types| == |cols|
    ensures forall i :: 0 <= i < |cols| ==> types[i] == cols[i].colType
  {
    seq(|cols|, i requires 0 <= i < |cols| => cols[i].colType)
  }

  /** The column names, in declaration order (the importer's column order). */
  function ColumnNames(cols: seq<Column>): (names: seq<ColName>)
    ensures |names| == |cols|
    ensures forall i :: 0 <= i < |cols| ==> names[i] == cols[i].name
  {
    seq(|cols|, i requires 0 <= i < |cols| => cols[i].name)
  }

  /** No name occurs twice. */
  predicate DistinctNames(names: seq<ColName>) {
    forall a, b :: 0 <= a < b < |names| ==> names[a] != names[b]
  }

  /** Different columns have different SQL names. */
  lemma ColTextInjective(a: ColName, b: ColName)
    requires a != b
    ensures ColText(a) != ColText(b)
  {
  }

  predicate HasColumn(t: Table, c: ColName) {
    c in ColumnNames(t.columns)
  }

  /** The names of the key columns of `cols[i..]`. */
  function KeysFrom(cols: seq<Column>, i: nat): set<ColName>
    decreases |cols| - i
  {
    if i >= |cols| then {}
    else (if cols[i].primaryKey then {cols[i].name} else {}) + KeysFrom(cols, i + 1)
  }

  /** The primary key as a set of column names. */
  function PrimaryKey(t: Table): set<ColName> {
    KeysFrom(t.columns, 0)
  }

  /** Every foreign key of a table: those written on columns first, then the composite ones. */
  function ForeignKeys(t: Table): seq<ForeignKeyConstraint> {
    ColumnForeignKeysFrom(t.columns, 0) + t.foreignKeys
  }

  /** The one-column foreign key that a `ForeignKey(...)` written on a column declares. */
  function ColumnForeignKey(col: Column): ForeignKeyConstraint
    requires col.references.Some?
  {
    ForeignKeyConstraint([col.name], [col.references.value])
  }

  /** The one-column foreign keys of `cols[i..]`, in column order. */
  function ColumnForeignKeysFrom(cols: seq<Column>, i: nat): (fks: seq<ForeignKeyConstraint>)
    ensures forall fk :: fk in fks ==>
      exists k :: i <= k < |cols| && cols[k].references.Some? && fk == ColumnForeignKey(cols[k])
    ensures forall k :: i <= k < |cols| && cols[k].references.Some? ==> ColumnForeignKey(cols[k]) in fks
    decreases |cols| - i
  {
    if i >= |cols| then []
    else (if cols[i].references.Some? then [ColumnForeignKey(cols[i])] else []) + ColumnForeignKeysFrom(cols, i + 1)
  }

  /** The names in `cs[i..]`, as a set. */
  function NamesFrom(cs: seq<ColName>, i: nat): set<ColName>
    decreases |cs| - i
  {
    if i >= |cs| then {} else {cs[i]} + NamesFrom(cs, i + 1)
  }

  /** The union of the local columns of `fks[i..]`. */
  function LocalColumnsFrom(fks: seq<ForeignKeyConstraint>, i: nat): set<ColName>
    decreases |fks| - i
  {
    if i >= |fks| then {} else NamesFrom(fks[i].columns, 0) + LocalColumnsFrom(fks, i + 1)
  }

  /** The union of the local columns of all foreign keys of a table. */
  function ForeignKeyColumns(t: Table): set<ColName> {
    LocalColumnsFrom(ForeignKeys(t), 0)
  }

  /** The table a foreign key points to: that of its first referenced column. */
  function Target(fk: ForeignKeyConstraint): TableName
    requires |fk.refColumns| > 0
  {
    fk.refColumns[0].table
  }

  /** The names of the columns `refs[j..]` points at. */
  function RefNamesFrom(refs: seq<ColumnRef>, j: nat): set<ColName>
    decreases |refs| - j
  {
    if j >= |refs| then {} else {refs[j].column} + RefNamesFrom(refs, j + 1)
  }

  function RefColumns(fk: ForeignKeyConstraint): set<ColName> {
    RefNamesFrom(fk.refColumns, 0)
  }

  // ---------------------------------------------------------------------------
  // What the views mean

  lemma {:induction false} KeysFromMeaning(cols: seq<Column>, i: nat, c: ColName)
    ensures c in KeysFrom(cols, i) <==> exists k :: i <= k < |cols| && cols[k].primaryKey && cols[k].name == c
    decreases |cols| - i
  {
    if i < |cols| {
      KeysFromMeaning(cols, i + 1, c);
    }
  }

  lemma {:induction false} NamesFromMeaning(cs: seq<ColName>, i: nat, c: ColName)
    ensures c in NamesFrom(cs, i) <==> exists k :: i <= k < |cs| && cs[k] == c
    decreases |cs| - i
  {
    if i < |cs| {
      NamesFromMeaning(cs, i + 1, c);
    }
  }

  lemma {:induction false} LocalColumnsMeaning(fks: seq<ForeignKeyConstraint>, i: nat, c: ColName)
    ensures c in LocalColumnsFrom(fks, i) <==> exists k :: i <= k < |fks| && c in fks[k].columns
    decreases |fks| - i
  {
    if i < |fks| {
      NamesFromMeaning(fks[i].columns, 0, c);
      LocalColumnsMeaning(fks, i + 1, c);
    }
  }

  lemma {:induction false} RefNamesMeaning(refs: seq<ColumnRef>, j: nat, c: ColName)
    ensures c in RefNamesFrom(refs, j) <==> exists k :: j <= k < |refs| && refs[k].column == c
    decreases |refs| - j
  {
    if j < |refs| {
      RefNamesMeaning(refs, j + 1, c);
    }
  }

  /** The primary key is the set of names of the columns declared `primary_key=True`. */
  lemma PrimaryKeyMeaning(t: Table, c: ColName)
    ensures c in PrimaryKey(t) <==> exists col :: col in t.columns && col.primaryKey && col.name == c
  {
    KeysFromMeaning(t.columns, 0, c);
    if c in PrimaryKey(t) {
      var k :| 0 <= k < |t.columns| && t.columns[k].primaryKey && t.columns[k].name == c;
      assert t.columns[k] in t.columns;
    }
  }

  /** A name is a foreign-key column when some foreign key of the table lists it. */
  lemma ForeignKeyColumnsMeaning(t: Table, c: ColName)
    ensures c in ForeignKeyColumns(t) <==> exists fk :: fk in ForeignKeys(t) && c in fk.columns
  {
    var fks := ForeignKeys(t);
    LocalColumnsMeaning(fks, 0, c);
    if c in ForeignKeyColumns(t) {
      var k :| 0 <= k < |fks| && c in fks[k].columns;
      assert fks[k] in fks;
    }
  }

  // ---------------------------------------------------------------------------
  // Invariants the declarations keep

  /** Equally many local and referenced columns, all referenced ones in one table. */
  predicate WellShaped(fk: ForeignKeyConstraint) {
    && |fk.columns| == |fk.refColumns| > 0
    && forall r :: r in fk.refColumns ==> r.table == Target(fk)
  }

  /**
   * The one foreign key that does not point at a primary key:
   * `buyer_dealer(country_slug, state)` points at the unique constraint
   * `country_state(country_slug, abbr)`.
   */
  predicate IsDealerStateKey(t: Table, fk: ForeignKeyConstraint) {
    && t.name == BuyerDealer
    && fk.columns == [CountrySlug, State]
    && fk.refColumns == [ColumnRef(CountryState, CountrySlug), ColumnRef(CountryState, Abbr)]
    && [CountrySlug, Abbr] in TableOf(CountryState).uniques
  }

  /**
   * The pure association tables: their primary key is made of foreign-key
   * columns only. The others are the entity tables (`year`, `country`,
   * `make`, `buyer`), the tables keyed by a parent and a slug of their own
   * (`country_state`, `make_model`, `buyer_tier`, `buyer_dealer`) and the
   * coverage table, which declares no foreign key.
   */
  predicate IsAssociation(n: TableName) {
    match n
    case MakeYear | MakeModelYear | BuyerYear | BuyerMake | BuyerMakeYear | BuyerMakeModel
       | BuyerMakeModelYear | LegacyBuyerTier | BuyerTierYear | BuyerTierMake | BuyerTierMakeYear
       | BuyerTierMakeModel | BuyerTierMakeModelYear | BuyerDealerYear | BuyerDealerMake
       | BuyerDealerMakeYear | BuyerDealerMakeModel | BuyerDealerMakeModelYear => true
    case _ => false
  }


  /** The referenced columns are the whole primary key of the target, or the one exception. */
  predicate ReferencesKey(t: Table, fk: ForeignKeyConstraint)
    requires |fk.refColumns| > 0
  {
    RefColumns(fk) == PrimaryKey(TableOf(Target(fk))) || IsDealerStateKey(t, fk)
  }

  /** A foreign key of `t` that is well shaped, local to `t` and aimed at a key. */
  predicate SoundForeignKey(t: Table, fk: ForeignKeyConstraint) {
    && WellShaped(fk)
    && (forall c :: c in fk.columns ==> HasColumn(t, c))
    && ReferencesKey(t, fk)
  }

  /** Only `String` and `Integer` columns, and `Integer` exactly for `legacy_id` and `distance`. */
  predicate ColumnTyped(col: Column) {
    && (col.colType.StringType? || col.colType.IntegerType?)
    && (col.colType.IntegerType? <==> col.name in {LegacyId, Distance})
  }
}
