/**
 * The static tree of SQL generator classes: for each class, the table it
 * fills, the document key that selects it under its parent (`column_key`),
 * the column its parent's identity is handed down under (`foreign_key`), its
 * children (`__subgenerators__`) and which `transform_data` it runs.
 * Python wires the classes together by name; here the wiring is a function
 * of the class.
 */
module Generators {
  import opened Wrappers
  import opened Schema

  datatype GeneratorClass =
    | BaseSQLGenerator
    | YearSQLGenerator
    | CountrySQLGenerator
    | CountryStateSQLGenerator
    | MakeSQLGenerator
    | MakeYearSQLGenerator
    | MakeModelSQLGenerator
    | MakeModelYearSQLGenerator
    | BuyerSQLGenerator
    | BuyerYearSQLGenerator
    | BuyerMakeSQLGenerator
    | BuyerMakeYearSQLGenerator
    | BuyerMakeModelSQLGenerator
    | BuyerMakeModelYearSQLGenerator
    | BuyerTierSQLGenerator
    | LegacyBuyerTierSQLGenerator
    | BuyerTierYearSQLGenerator
    | BuyerTierMakeSQLGenerator
    | BuyerTierMakeYearSQLGenerator
    | BuyerTierMakeModelSQLGenerator
    | BuyerTierMakeModelYearSQLGenerator
    | BuyerDealerSQLGenerator
    | BuyerDealerYearSQLGenerator
    | BuyerDealerMakeSQLGenerator
    | BuyerDealerMakeYearSQLGenerator
    | BuyerDealerMakeModelSQLGenerator
    | BuyerDealerMakeModelYearSQLGenerator

  /** Which `transform_data` a class runs before walking its data. */
  datatype Transform =
    | Identity          // BaseSQLGenerator.transform_data
    | YearList          // YearSQLSubgenerator.transform_data
    | MakeSlugFromKey   // BuyerMakeSQLGenerator.transform_data
    | LegacyFields      // LegacyBuyerTierSQLGenerator.transform_data

  /** The classes derived from `YearSQLSubgenerator`. */
  predicate IsYearSubgenerator(g: GeneratorClass) {
    g in {MakeYearSQLGenerator, MakeModelYearSQLGenerator, BuyerYearSQLGenerator,
          BuyerMakeYearSQLGenerator, BuyerMakeModelYearSQLGenerator, BuyerTierYearSQLGenerator,
          BuyerTierMakeYearSQLGenerator, BuyerTierMakeModelYearSQLGenerator,
          BuyerDealerYearSQLGenerator, BuyerDealerMakeYearSQLGenerator,
          BuyerDealerMakeModelYearSQLGenerator}
  }

  /** The class attribute `table`; the base class has none. */
  function TableNameOf(g: GeneratorClass): Option<TableName> {
    match g
    case BaseSQLGenerator => None
    case YearSQLGenerator => Some(Year)
    case CountrySQLGenerator => Some(Country)
    case CountryStateSQLGenerator => Some(CountryState)
    case MakeSQLGenerator => Some(Make)
    case MakeYearSQLGenerator => Some(MakeYear)
    case MakeModelSQLGenerator => Some(MakeModel)
    case MakeModelYearSQLGenerator => Some(MakeModelYear)
    case BuyerSQLGenerator => Some(Buyer)
    case BuyerYearSQLGenerator => Some(BuyerYear)
    case BuyerMakeSQLGenerator => Some(BuyerMake)
    case BuyerMakeYearSQLGenerator => Some(BuyerMakeYear)
    case BuyerMakeModelSQLGenerator => Some(BuyerMakeModel)
    case BuyerMakeModelYearSQLGenerator => Some(BuyerMakeModelYear)
    case BuyerTierSQLGenerator => Some(BuyerTier)
    case LegacyBuyerTierSQLGenerator => Some(LegacyBuyerTier)
    case BuyerTierYearSQLGenerator => Some(BuyerTierYear)
    case BuyerTierMakeSQLGenerator => Some(BuyerTierMake)
    case BuyerTierMakeYearSQLGenerator => Some(BuyerTierMakeYear)
    case BuyerTierMakeModelSQLGenerator => Some(BuyerTierMakeModel)
    case BuyerTierMakeModelYearSQLGenerator => Some(BuyerTierMakeModelYear)
    case BuyerDealerSQLGenerator => Some(BuyerDealer)
    case BuyerDealerYearSQLGenerator => Some(BuyerDealerYear)
    case BuyerDealerMakeSQLGenerator => Some(BuyerDealerMake)
    case BuyerDealerMakeYearSQLGenerator => Some(BuyerDealerMakeYear)
    case BuyerDealerMakeModelSQLGenerator => Some(BuyerDealerMakeModel)
    case BuyerDealerMakeModelYearSQLGenerator => Some(BuyerDealerMakeModelYear)
  }

  /** The class attribute `column_key`; the year subgenerators inherit `'years'`. */
  function ColumnKey(g: GeneratorClass): Option<string> {
    if IsYearSubgenerator(g) then Some("years")
    else
      match g
      case BaseSQLGenerator => None
      case YearSQLGenerator => Some("years")
      case CountrySQLGenerator => Some("countries")
      case CountryStateSQLGenerator => Some("states")
      case MakeSQLGenerator => Some("makes")
      case MakeModelSQLGenerator => Some("models")
      case BuyerSQLGenerator => Some("buyers")
      case BuyerMakeSQLGenerator => Some("makes")
      case BuyerMakeModelSQLGenerator => Some("models")
      case BuyerTierSQLGenerator => Some("tiers")
      case LegacyBuyerTierSQLGenerator => Some("legacy")
      case BuyerTierMakeSQLGenerator => Some("makes")
      case BuyerTierMakeModelSQLGenerator => Some("models")
      case BuyerDealerSQLGenerator => Some("dealers")
      case BuyerDealerMakeSQLGenerator => Some("makes")
      case BuyerDealerMakeModelSQLGenerator => Some("models")
      case _ => None
  }

  /** The class attribute `foreign_key`; the root and the four top-level classes declare none. */
  function ForeignKeyOf(g: GeneratorClass): Option<ColName> {
    match g
    case CountryStateSQLGenerator => Some(CountrySlug)
    case MakeYearSQLGenerator => Some(MakeSlug)
    case MakeModelSQLGenerator => Some(MakeSlug)
    case MakeModelYearSQLGenerator => Some(ModelSlug)
    case LegacyBuyerTierSQLGenerator => Some(BuyerTierSlug)
    case BaseSQLGenerator => None
    case YearSQLGenerator => None
    case CountrySQLGenerator => None
    case MakeSQLGenerator => None
    case BuyerSQLGenerator => None
    case _ => Some(BuyerSlug)
  }

  /** The class attribute `__subgenerators__`, in declaration order. */
  function Subgenerators(g: GeneratorClass): (cs: seq<GeneratorClass>)
    ensures forall c :: c in cs ==> Height(c) < Height(g)
  {
    match g
    case BaseSQLGenerator => [YearSQLGenerator, CountrySQLGenerator, MakeSQLGenerator, BuyerSQLGenerator]
    case CountrySQLGenerator => [CountryStateSQLGenerator]
    case MakeSQLGenerator => [MakeYearSQLGenerator, MakeModelSQLGenerator]
    case MakeModelSQLGenerator => [MakeModelYearSQLGenerator]
    case BuyerSQLGenerator =>
      [BuyerYearSQLGenerator, BuyerMakeSQLGenerator, BuyerTierSQLGenerator, BuyerDealerSQLGenerator]
    case BuyerMakeSQLGenerator => [BuyerMakeYearSQLGenerator, BuyerMakeModelSQLGenerator]
    case BuyerMakeModelSQLGenerator => [BuyerMakeModelYearSQLGenerator]
    case BuyerTierSQLGenerator =>
      [LegacyBuyerTierSQLGenerator, BuyerTierYearSQLGenerator, BuyerTierMakeSQLGenerator]
    case BuyerTierMakeSQLGenerator => [BuyerTierMakeYearSQLGenerator, BuyerTierMakeModelSQLGenerator]
    case BuyerTierMakeModelSQLGenerator => [BuyerTierMakeModelYearSQLGenerator]
    case BuyerDealerSQLGenerator => [BuyerDealerYearSQLGenerator, BuyerDealerMakeSQLGenerator]
    case BuyerDealerMakeSQLGenerator => [BuyerDealerMakeYearSQLGenerator, BuyerDealerMakeModelSQLGenerator]
    case BuyerDealerMakeModelSQLGenerator => [BuyerDealerMakeModelYearSQLGenerator]
    case _ => []
  }

  function TransformOf(g: GeneratorClass): Transform {
    if IsYearSubgenerator(g) then YearList
    else if g == BuyerMakeSQLGenerator then MakeSlugFromKey
    else if g == LegacyBuyerTierSQLGenerator then LegacyFields
    else Identity
  }

  /** How many levels of generators lie below a class; it bounds the recursion of the walk. */
  function Height(g: GeneratorClass): nat {
    match g
    case BaseSQLGenerator => 5
    case BuyerSQLGenerator => 4
    case BuyerTierSQLGenerator => 3
    case BuyerDealerSQLGenerator => 3
    case MakeSQLGenerator => 2
    case BuyerMakeSQLGenerator => 2
    case BuyerTierMakeSQLGenerator => 2
    case BuyerDealerMakeSQLGenerator => 2
    case CountrySQLGenerator => 1
    case MakeModelSQLGenerator => 1
    case BuyerMakeModelSQLGenerator => 1
    case BuyerTierMakeModelSQLGenerator => 1
    case BuyerDealerMakeModelSQLGenerator => 1
    case _ => 0
  }

  /**
   * `self.columns`: the names of the table's columns in declaration order.
   * The filter `column not in self.subgenerators` compares `Column` objects
   * with strings, so it never removes a column.
   */
  function ColumnsOf(g: GeneratorClass): (cols: seq<ColName>)
    requires TableNameOf(g).Some?
  {
    ColumnOrder(TableNameOf(g).value)
  }

  /** The `column_key`s of a list of classes, as the keys of the `subgenerators` dict. */
  function ColumnKeys(cs: seq<GeneratorClass>): (ks: seq<Option<string>>)
    ensures |ks| == |cs|
    ensures forall i :: 0 <= i < |cs| ==> ks[i] == ColumnKey(cs[i])
  {
    seq(|cs|, i requires 0 <= i < |cs| => ColumnKey(cs[i]))
  }

  // ---------------------------------------------------------------------------
  // Properties of the tree

  /** The root dispatches exactly the four top-level document keys. */
  lemma RootKeys()
    ensures ColumnKeys(Subgenerators(BaseSQLGenerator))
      == [Some("years"), Some("countries"), Some("makes"), Some("buyers")]
  {
  }

  /**
   * Below every class, the children have pairwise different `column_key`s,
   * so the `subgenerators` dict keeps all of them.
   */
  lemma SiblingKeysDistinct(g: GeneratorClass)
    ensures forall i :: 0 <= i < |Subgenerators(g)| ==> ColumnKey(Subgenerators(g)[i]).Some?
    ensures forall i, j :: 0 <= i < j < |Subgenerators(g)| ==>
      ColumnKey(Subgenerators(g)[i]).Some? && ColumnKey(Subgenerators(g)[i]) != ColumnKey(Subgenerators(g)[j])
  {
  }
}
