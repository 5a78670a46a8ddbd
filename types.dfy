/**
 * The data model of types.ts: the closed enumeration of six photography
 * scenarios with their display strings, the blueprint record, and the two
 * records exchanged with the user interface.
 */
module Types {

  datatype Option<T> = None | Some(value: T)

  /** The six shot categories, declared in this order. */
  datatype ScenarioType =
    | LifestyleHero
    | MacroTexture
    | EnvironmentalStory
    | HumanConnection
    | ArtisticFlatLay
    | CatalogStandard

  /** The string value each enumeration member carries. */
  function Value(t: ScenarioType): string {
    match t
    case LifestyleHero => "Lifestyle Hero"
    case MacroTexture => "Macro Texture"
    case EnvironmentalStory => "Environmental Story"
    case HumanConnection => "Human Connection"
    case ArtisticFlatLay => "Artistic Flat-lay"
    case CatalogStandard => "Catalog Standard"
  }

  /** `Object.values(ScenarioType)`: the members in declaration order. */
  const AllScenarios: seq<ScenarioType> :=
    [LifestyleHero, MacroTexture, EnvironmentalStory, HumanConnection, ArtisticFlatLay, CatalogStandard]

  /** The position of a scenario in declaration order; every member has one. */
  function Ordinal(t: ScenarioType): (i: nat)
    ensures i < |AllScenarios| == 6 && AllScenarios[i] == t
  {
    match t
    case LifestyleHero => 0
    case MacroTexture => 1
    case EnvironmentalStory => 2
    case HumanConnection => 3
    case ArtisticFlatLay => 4
    case CatalogStandard => 5
  }

  /** No member is listed twice, so each of the six appears exactly once. */
  lemma AllScenariosDistinct()
    ensures forall i, j :: 0 <= i < |AllScenarios| && 0 <= j < |AllScenarios| && AllScenarios[i] == AllScenarios[j] ==> i == j
    ensures forall i :: 0 <= i < |AllScenarios| ==> Ordinal(AllScenarios[i]) == i
  {
    forall i | 0 <= i < |AllScenarios| ensures Ordinal(AllScenarios[i]) == i {
    }
  }

  /** The display strings are pairwise distinct: no two members share a value. */
  lemma ValueInjective(a: ScenarioType, b: ScenarioType)
    requires Value(a) == Value(b)
    ensures a == b
  {
  }

  /** One prompt blueprint: eleven text sections plus the scenario it was made for. */
  datatype PromptBlueprint = PromptBlueprint(
    header: string,
    scene: string,
    placement: string,
    supportingProps: string,
    dynamicElements: string,
    lighting: string,
    camera: string,
    color: string,
    techSpecs: string,
    quality: string,
    negativePrompts: string,
    scenarioType: ScenarioType)

  /** What a generation hands to the interface: the blueprints and an optional analysis. */
  datatype GenerationResult = GenerationResult(blueprints: seq<PromptBlueprint>, analysis: Option<string>)

  /** What the user submits: a name and a category, and an optional base64 image. */
  datatype ProductInput = ProductInput(name: string, category: string, image: Option<string>)

  /** A blueprint sequence that covers the scenarios one for one, in declaration order. */
  predicate CoversScenarios(blueprints: seq<PromptBlueprint>) {
    && |blueprints| == |AllScenarios|
    && forall i :: 0 <= i < |blueprints| ==> blueprints[i].scenarioType == AllScenarios[i]
  }

  /** In a covering sequence every scenario appears at exactly one position. */
  lemma CoveringIsOneForOne(blueprints: seq<PromptBlueprint>, t: ScenarioType)
    requires CoversScenarios(blueprints)
    ensures 0 <= Ordinal(t) < |blueprints| && blueprints[Ordinal(t)].scenarioType == t
    ensures forall i :: 0 <= i < |blueprints| && blueprints[i].scenarioType == t ==> i == Ordinal(t)
  {
    AllScenariosDistinct();
  }
}
