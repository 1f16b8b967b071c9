/**
 * The domain vocabulary of the inspection app: problem categories, the
 * five-level severity ordinal, property types, and the records that the
 * analyser, the report generator and the store pass around.
 */
module Types {
  import opened Wrappers

  /** The fifteen kinds of house problem the detector can report. */
  datatype ProblemCategory =
    | WallDamage | FurnitureWear | PlumbingElectric | Flooring | Ceiling
    | WindowDoor | Bathroom | Kitchen | Lighting | Painting
    | Mold | WaterDamage | PestInfestation | SafetyHazard | Other

  /** The string tag each category carries at run time (its enum value). */
  function CategoryTag(c: ProblemCategory): string {
    match c
    case WallDamage => "wall_damage"
    case FurnitureWear => "furniture_wear"
    case PlumbingElectric => "plumbing_electric"
    case Flooring => "flooring"
    case Ceiling => "ceiling"
    case WindowDoor => "window_door"
    case Bathroom => "bathroom"
    case Kitchen => "kitchen"
    case Lighting => "lighting"
    case Painting => "painting"
    case Mold => "mold"
    case WaterDamage => "water_damage"
    case PestInfestation => "pest_infestation"
    case SafetyHazard => "safety_hazard"
    case Other => "other"
  }

  /** Reads a tag back into its category; `None` for any other string. */
  function CategoryFromTag(s: string): (r: Option<ProblemCategory>)
    ensures r.Some? ==> CategoryTag(r.value) == s
  {
    if s == "wall_damage" then Some(WallDamage)
    else if s == "furniture_wear" then Some(FurnitureWear)
    else if s == "plumbing_electric" then Some(PlumbingElectric)
    else if s == "flooring" then Some(Flooring)
    else if s == "ceiling" then Some(Ceiling)
    else if s == "window_door" then Some(WindowDoor)
    else if s == "bathroom" then Some(Bathroom)
    else if s == "kitchen" then Some(Kitchen)
    else if s == "lighting" then Some(Lighting)
    else if s == "painting" then Some(Painting)
    else if s == "mold" then Some(Mold)
    else if s == "water_damage" then Some(WaterDamage)
    else if s == "pest_infestation" then Some(PestInfestation)
    else if s == "safety_hazard" then Some(SafetyHazard)
    else if s == "other" then Some(Other)
    else None
  }

  /** Every tag reads back as its own category, so the fifteen tags are pairwise distinct. */
  lemma CategoryTagRoundTrip(c: ProblemCategory)
    ensures CategoryFromTag(CategoryTag(c)) == Some(c)
  {
  }

  lemma CategoryTagInjective(a: ProblemCategory, b: ProblemCategory)
    requires CategoryTag(a) == CategoryTag(b)
    ensures a == b
  {
    CategoryTagRoundTrip(a);
    CategoryTagRoundTrip(b);
  }

  /** No category tag contains a hyphen (the analyser's key separator). */
  lemma CategoryTagHasNoHyphen(c: ProblemCategory)
    ensures '-' !in CategoryTag(c)
    ensures |CategoryTag(c)| > 0
  {
  }

  /** The five severity levels, in increasing order of seriousness. */
  datatype SeverityLevel = Minor | Low | Moderate | High | Critical

  /** The numeric value of each level, as the enum assigns it. */
  function Ordinal(s: SeverityLevel): (n: int)
    ensures 1 <= n <= 5
  {
    match s
    case Minor => 1
    case Low => 2
    case Moderate => 3
    case High => 4
    case Critical => 5
  }

  /** The level with a given number, if any. */
  function SeverityFromOrdinal(n: int): (r: Option<SeverityLevel>)
    ensures r.Some? <==> 1 <= n <= 5
    ensures r.Some? ==> Ordinal(r.value) == n
  {
    if n == 1 then Some(Minor)
    else if n == 2 then Some(Low)
    else if n == 3 then Some(Moderate)
    else if n == 4 then Some(High)
    else if n == 5 then Some(Critical)
    else None
  }

  /** The levels take exactly the integers 1..5, one each, in declaration order. */
  lemma SeverityOrdinalRoundTrip(s: SeverityLevel)
    ensures SeverityFromOrdinal(Ordinal(s)) == Some(s)
  {
  }

  lemma SeverityOrder()
    ensures Ordinal(Minor) < Ordinal(Low) < Ordinal(Moderate) < Ordinal(High) < Ordinal(Critical)
  {
  }

  /** The five kinds of property an inspection can be for. */
  datatype PropertyType = Apartment | House | Villa | Office | Commercial

  function PropertyTypeTag(t: PropertyType): string {
    match t
    case Apartment => "apartment"
    case House => "house"
    case Villa => "villa"
    case Office => "office"
    case Commercial => "commercial"
  }

  const AllPropertyTypes: seq<PropertyType> := [Apartment, House, Villa, Office, Commercial]

  /** Exactly five property types, with pairwise-distinct tags. */
  lemma PropertyTypesDistinct()
    ensures |AllPropertyTypes| == 5
    ensures forall t: PropertyType :: t in AllPropertyTypes
    ensures forall i, j :: 0 <= i < j < |AllPropertyTypes| ==>
      PropertyTypeTag(AllPropertyTypes[i]) != PropertyTypeTag(AllPropertyTypes[j])
  {
    forall t: PropertyType ensures t in AllPropertyTypes {
      match t
      case Apartment => assert AllPropertyTypes[0] == t;
      case House => assert AllPropertyTypes[1] == t;
      case Villa => assert AllPropertyTypes[2] == t;
      case Office => assert AllPropertyTypes[3] == t;
      case Commercial => assert AllPropertyTypes[4] == t;
    }
  }

  /** One row of the category table: the Chinese display label and the icon name. */
  datatype CategoryConfig = CategoryConfig(displayLabel: string, icon: string)

  /** The category table; as a Dafny function it is total by construction. */
  function CategoryInfo(c: ProblemCategory): CategoryConfig {
    match c
    case WallDamage => CategoryConfig("墙面损坏", "wall")
    case FurnitureWear => CategoryConfig("家具磨损", "sofa")
    case PlumbingElectric => CategoryConfig("水电设施", "zap")
    case Flooring => CategoryConfig("地板问题", "floor")
    case Ceiling => CategoryConfig("天花板问题", "ceiling")
    case WindowDoor => CategoryConfig("门窗问题", "door")
    case Bathroom => CategoryConfig("卫生间问题", "bath")
    case Kitchen => CategoryConfig("厨房问题", "kitchen")
    case Lighting => CategoryConfig("照明问题", "lightbulb")
    case Painting => CategoryConfig("油漆问题", "paint")
    case Mold => CategoryConfig("霉斑问题", "mold")
    case WaterDamage => CategoryConfig("水渍问题", "water")
    case PestInfestation => CategoryConfig("虫害问题", "bug")
    case SafetyHazard => CategoryConfig("安全隐患", "alert")
    case Other => CategoryConfig("其他问题", "other")
  }

  const AllCategories: seq<ProblemCategory> :=
    [WallDamage, FurnitureWear, PlumbingElectric, Flooring, Ceiling,
     WindowDoor, Bathroom, Kitchen, Lighting, Painting,
     Mold, WaterDamage, PestInfestation, SafetyHazard, Other]

  /** The table lists fifteen categories, every category has a row, and no two rows share a label. */
  lemma CategoryTableComplete()
    ensures |AllCategories| == 15
    ensures forall c: ProblemCategory :: c in AllCategories
    ensures forall i, j :: 0 <= i < j < |AllCategories| ==> AllCategories[i] != AllCategories[j]
  {
    forall c: ProblemCategory ensures c in AllCategories {
      var k := CategoryIndex(c);
      assert AllCategories[k] == c;
    }
  }

  /** The position of each category in `AllCategories`. */
  function CategoryIndex(c: ProblemCategory): (k: nat)
    ensures k < |AllCategories| && AllCategories[k] == c
  {
    match c
    case WallDamage => 0
    case FurnitureWear => 1
    case PlumbingElectric => 2
    case Flooring => 3
    case Ceiling => 4
    case WindowDoor => 5
    case Bathroom => 6
    case Kitchen => 7
    case Lighting => 8
    case Painting => 9
    case Mold => 10
    case WaterDamage => 11
    case PestInfestation => 12
    case SafetyHazard => 13
    case Other => 14
  }

  lemma CategoryLabelsDistinct(a: ProblemCategory, b: ProblemCategory)
    requires a != b
    ensures CategoryInfo(a).displayLabel != CategoryInfo(b).displayLabel
  {
  }

  /** A rectangle in image pixel coordinates. */
  datatype BoundingBox = BoundingBox(x: real, y: real, width: real, height: real)

  /**
   * One detected problem. `severity` is the raw number the enum stands for
   * (it is not range-checked at run time); `frameTimestamp` is in seconds.
   */
  datatype HouseProblem = HouseProblem(
    id: string,
    category: ProblemCategory,
    description: string,
    severity: int,
    confidence: real,
    location: string,
    frameTimestamp: Option<real>,
    imageData: Option<string>,
    boundingBox: Option<BoundingBox>,
    repairSuggestion: string,
    estimatedCost: int)

  /** The derived figures shown on a report. */
  datatype ReportSummary = ReportSummary(
    totalProblems: int,
    criticalCount: int,
    highCount: int,
    moderateCount: int,
    lowCount: int,
    totalEstimatedCost: int,
    overallScore: int)

  /** One inspection; `createdAt` is the clock reading, passed in by the caller. */
  datatype InspectionReport = InspectionReport(
    id: string,
    createdAt: int,
    propertyType: PropertyType,
    address: Option<string>,
    problems: seq<HouseProblem>,
    summary: ReportSummary,
    videoUrl: Option<string>,
    thumbnailUrl: Option<string>)

  datatype VideoCaptureState = VideoCaptureState(
    isRecording: bool,
    duration: real,
    isProcessing: bool,
    progress: real)

  datatype AIAnalysisState = AIAnalysisState(
    isAnalyzing: bool,
    currentFrame: int,
    totalFrames: int,
    modelLoaded: bool)
}
