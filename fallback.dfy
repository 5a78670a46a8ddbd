/**
 * The offline blueprint generator of constants.ts: keyword flags derived
 * from the category string, a first-match-wins choice of camera, lighting
 * and technical specification, and one record per scenario in declaration
 * order. Everything here is a total function of the product name and the
 * category; nothing is read from outside.
 */
module Fallback {
  import opened Text
  import opened Types

  /** The fixed category list offered by the form (constants.ts, `CATEGORIES`). */
  const Categories: seq<string> := [
    "Beauty & Personal Care",
    "Health, Household & Baby Care",
    "Clothing, Shoes & Jewelry",
    "Women's Fashion",
    "Men's Fashion",
    "Kids' & Baby Fashion",
    "Luxury Stores",
    "Electronics & Tech",
    "Cell Phones & Accessories",
    "Computers & Tablets",
    "Home & Kitchen",
    "Pet Supplies",
    "Garden & Outdoor",
    "Appliances",
    "Tools & Home Improvement",
    "Automotive Parts",
    "Grocery & Gourmet Food",
    "Sports & Outdoors",
    "Musical Instruments",
    "Office Products",
    "Toys & Games",
    "Arts, Crafts & Sewing",
    "Books & Media",
    "Collectibles & Fine Art",
    "Handmade Products",
    "Luggage & Travel Gear",
    "Industrial & Scientific"
  ]

  /** The form offers twenty-seven categories, none of them twice. */
  lemma CategoriesDistinct()
    ensures |Categories| == 27
    ensures forall i, j :: 0 <= i < j < |Categories| ==> Categories[i] != Categories[j]
  {
  }

  // ---------------------------------------------------------------------
  // Category flags
  // ---------------------------------------------------------------------

  /** Six independent domain flags computed from the category text. */
  datatype CategoryFlags = CategoryFlags(
    isFashion: bool,
    isTech: bool,
    isHome: bool,
    isLuxury: bool,
    isSmall: bool,
    isPet: bool)

  /** Each flag holds exactly when one of its keywords occurs, case-sensitively,
      somewhere in the category. */
  function Classify(category: string): (f: CategoryFlags)
    ensures f.isFashion <==> Occurs(category, "Fashion") || Occurs(category, "Clothing") || Occurs(category, "Jewelry")
    ensures f.isTech <==> Occurs(category, "Electronics") || Occurs(category, "Computers") || Occurs(category, "Phones")
    ensures f.isHome <==> Occurs(category, "Home") || Occurs(category, "Appliances") || Occurs(category, "Garden")
    ensures f.isLuxury <==> Occurs(category, "Luxury") || Occurs(category, "Jewelry") || Occurs(category, "Fine Art")
    ensures f.isSmall <==> Occurs(category, "Beauty") || Occurs(category, "Jewelry") || Occurs(category, "Grocery")
    ensures f.isPet <==> Occurs(category, "Pet")
  {
    CategoryFlags(
      isFashion := Contains(category, "Fashion") || Contains(category, "Clothing") || Contains(category, "Jewelry"),
      isTech := Contains(category, "Electronics") || Contains(category, "Computers") || Contains(category, "Phones"),
      isHome := Contains(category, "Home") || Contains(category, "Appliances") || Contains(category, "Garden"),
      isLuxury := Contains(category, "Luxury") || Contains(category, "Jewelry") || Contains(category, "Fine Art"),
      isSmall := Contains(category, "Beauty") || Contains(category, "Jewelry") || Contains(category, "Grocery"),
      isPet := Contains(category, "Pet"))
  }

  // ---------------------------------------------------------------------
  // Camera, lighting and technical specification
  // ---------------------------------------------------------------------

  const DefaultCamera := "Hasselblad H6D-400c, 80mm lens"
  const DefaultLighting := "Soft-box diffused studio lighting"
  const DefaultTechSpecs := "8K, highly detailed, raw photo format"

  const LuxuryCamera := "Phase One XF, 100mm Trichromatic lens"
  const LuxuryLighting := "Cinematic rim lighting with subtle lens flares and high contrast"
  const LuxuryTechSpecs := "Ultra-high fidelity, 16K textures, ray-traced reflections"

  const FashionCamera := "Sony A1 with 85mm f/1.4 G Master lens"
  const FashionLighting := "Natural window light with a soft bounce reflector"

  const TechCamera := "Leica SL2, 50mm Summilux lens"
  const TechLighting := "Clean futuristic neon accents and cold white key lights"

  const PetCamera := "Sony A9 III with 70-200mm f/2.8 GM II lens"
  const PetLighting := "High-speed sync flash or bright, flicker-free LED panels"
  const PetTechSpecs := "Action-freeze 1/2000s shutter, ultra-sharp fur detail"

  const MacroCamera := "Sony A7R V with 90mm f/2.8 Macro lens"
  const MacroLighting := "Ring flash for even light distribution across fine textures"

  /** The three equipment fields chosen together for one blueprint. */
  datatype Rig = Rig(camera: string, lighting: string, techSpecs: string)

  const DefaultRig := Rig(DefaultCamera, DefaultLighting, DefaultTechSpecs)

  /** The `let camera/lighting/techSpecs` defaults and the if/else-if chain that
      may replace them: luxury, then fashion, then tech, then pet, then a small
      product shot as a macro texture. The last branch is never reached when
      any earlier flag holds; that precedence is kept as written. */
  function Equipment(f: CategoryFlags, t: ScenarioType): Rig {
    if f.isLuxury then Rig(LuxuryCamera, LuxuryLighting, LuxuryTechSpecs)
    else if f.isFashion then Rig(FashionCamera, FashionLighting, DefaultTechSpecs)
    else if f.isTech then Rig(TechCamera, TechLighting, DefaultTechSpecs)
    else if f.isPet then Rig(PetCamera, PetLighting, PetTechSpecs)
    else if f.isSmall && t == MacroTexture then Rig(MacroCamera, MacroLighting, DefaultTechSpecs)
    else DefaultRig
  }

  /** The guard of one override rule. */
  datatype Guard = WhenLuxury | WhenFashion | WhenTech | WhenPet | WhenSmallMacro

  predicate Holds(g: Guard, f: CategoryFlags, t: ScenarioType) {
    match g
    case WhenLuxury => f.isLuxury
    case WhenFashion => f.isFashion
    case WhenTech => f.isTech
    case WhenPet => f.isPet
    case WhenSmallMacro => f.isSmall && t == MacroTexture
  }

  /** An override replaces camera and lighting, and the technical
      specification when it names one. */
  datatype Override = Override(guard: Guard, camera: string, lighting: string, techSpecs: Option<string>)

  /** The precedence chain as an ordered rule table. */
  const Overrides: seq<Override> := [
    Override(WhenLuxury, LuxuryCamera, LuxuryLighting, Some(LuxuryTechSpecs)),
    Override(WhenFashion, FashionCamera, FashionLighting, None),
    Override(WhenTech, TechCamera, TechLighting, None),
    Override(WhenPet, PetCamera, PetLighting, Some(PetTechSpecs)),
    Override(WhenSmallMacro, MacroCamera, MacroLighting, None)
  ]

  function ApplyOverride(o: Override, base: Rig): Rig {
    Rig(o.camera, o.lighting, match o.techSpecs case Some(s) => s case None => base.techSpecs)
  }

  /** The first rule whose guard holds is applied to the defaults; the
      defaults stand when no rule holds. */
  function FirstMatch(rules: seq<Override>, f: CategoryFlags, t: ScenarioType, base: Rig): Rig
    decreases |rules|
  {
    if rules == [] then base
    else if Holds(rules[0].guard, f, t) then ApplyOverride(rules[0], base)
    else FirstMatch(rules[1..], f, t, base)
  }

  /** The if/else-if chain is the ordered rule table applied first-match-wins
      to the defaults. */
  lemma EquipmentIsFirstMatch(f: CategoryFlags, t: ScenarioType)
    ensures Equipment(f, t) == FirstMatch(Overrides, f, t, DefaultRig)
  {
    forall k | 0 <= k < |Overrides|
      ensures Overrides[k..][0] == Overrides[k] && Overrides[k..][1..] == Overrides[k + 1..]
    {
    }
    var d := DefaultRig;
    if !f.isLuxury {
      assert FirstMatch(Overrides, f, t, d) == FirstMatch(Overrides[1..], f, t, d);
      if !f.isFashion {
        assert FirstMatch(Overrides[1..], f, t, d) == FirstMatch(Overrides[2..], f, t, d);
        if !f.isTech {
          assert FirstMatch(Overrides[2..], f, t, d) == FirstMatch(Overrides[3..], f, t, d);
          if !f.isPet {
            assert FirstMatch(Overrides[3..], f, t, d) == FirstMatch(Overrides[4..], f, t, d);
            assert Overrides[5..] == [];
            assert FirstMatch(Overrides[4..], f, t, d) ==
              if f.isSmall && t == MacroTexture then ApplyOverride(Overrides[4], d) else FirstMatch(Overrides[5..], f, t, d);
          }
        }
      }
    }
  }

  /** The macro preset is chosen exactly for a small product shot as a macro
      texture when no luxury, fashion, tech or pet flag holds. */
  lemma MacroPresetOnlyWhen(f: CategoryFlags, t: ScenarioType)
    ensures Equipment(f, t).camera == MacroCamera <==>
      (t == MacroTexture && f.isSmall && !f.isLuxury && !f.isFashion && !f.isTech && !f.isPet)
    ensures Equipment(f, t).camera == MacroCamera ==> Equipment(f, t).lighting == MacroLighting
  {
    assert MacroCamera[6] != PetCamera[6] && MacroCamera[6] != FashionCamera[6];
    assert MacroCamera[0] != LuxuryCamera[0];
    assert |MacroCamera| != |TechCamera| && |MacroCamera| != |DefaultCamera|;
  }

  /** A pet category with no higher flag gets the pet preset for every
      scenario, the macro texture shot included. */
  lemma PetPresetEverywhere(f: CategoryFlags, t: ScenarioType)
    requires f.isPet && !f.isLuxury && !f.isFashion && !f.isTech
    ensures Equipment(f, t) == Rig(PetCamera, PetLighting, PetTechSpecs)
  {
  }

  /** The technical specification keeps its default unless the luxury preset
      applies or the pet preset applies (pet with neither fashion nor tech). */
  lemma TechSpecsDefault(f: CategoryFlags, t: ScenarioType)
    ensures Equipment(f, t).techSpecs == DefaultTechSpecs <==>
      (!f.isLuxury && !(f.isPet && !f.isFashion && !f.isTech))
  {
    assert |DefaultTechSpecs| != |LuxuryTechSpecs| && |DefaultTechSpecs| != |PetTechSpecs|;
  }

  /** All three equipment fields keep their defaults exactly when no rule applies. */
  lemma DefaultsExactlyWhenNoRule(f: CategoryFlags, t: ScenarioType)
    ensures Equipment(f, t) == DefaultRig <==>
      (!f.isLuxury && !f.isFashion && !f.isTech && !f.isPet && !(f.isSmall && t == MacroTexture))
  {
    assert DefaultCamera[0] != LuxuryCamera[0] && DefaultCamera[0] != FashionCamera[0];
    assert DefaultCamera[0] != TechCamera[0] && DefaultCamera[0] != PetCamera[0] && DefaultCamera[0] != MacroCamera[0];
  }

  // ---------------------------------------------------------------------
  // Scene and the flag-driven text fields
  // ---------------------------------------------------------------------

  const SkinText := "Featuring models with authentic skin textures, natural pores, diverse complexions, and candid human expressions."
  const PetText := "Capturing authentic animal expressions, detailed fur textures, and natural animal-human interactions."

  const FullBodyPlacement := "Full body or three-quarter shot with natural posture."
  const GoldenRatioPlacement := "Golden ratio composition with purposeful negative space."
  const HomeProps := "Living room environment with high-end Scandinavian furniture."
  const GenericProps := "Understated premium props that complement the product color story."
  const PetMotion := "Active motion blur on moving tails or soft-focus flying toys."
  const GenericMotion := "Subtle atmospheric dust particles or soft-focus background motion."
  const TechColor := "Monochromatic with sharp accent highlights."
  const NaturalColor := "Natural, organic color palette with accurate skin tones."
  const QualityText := "Masterpiece quality, sharp focus on primary product, soft natural fall-off."
  const NegativeText := "Plastic skin, airbrushed, CGI, doll-like faces, over-saturated, blurry, watermarks, bad anatomy, artificial fur sheen."

  /** Shots that feature people. */
  predicate IsHumanFocused(t: ScenarioType) {
    t == HumanConnection || t == LifestyleHero
  }

  /** The opening sentence of every scene, naming the category. */
  // The literal is split after its first letter, which the trimming proofs use.
  function SceneBase(category: string): string {
    "A" + " professional commercial environment optimized for " + category
  }

  function SkinDirective(t: ScenarioType): string {
    if IsHumanFocused(t) then SkinText else ""
  }

  function PetDirective(isPet: bool): string {
    if isPet then PetText else ""
  }

  /** The template string of the scene field, trimmed. */
  function Scene(category: string, t: ScenarioType, isPet: bool): string {
    Trim(SceneBase(category) + ". " + SkinDirective(t) + " " + PetDirective(isPet))
  }

  /** What trimming leaves of the scene template in each of its four cases:
      the base sentence and a full stop, then the skin directive for people
      shots and the pet directive for pet categories. Only the separating
      blanks at the end are removed, so a pet directive without a skin
      directive follows two blanks. */
  lemma SceneShape(category: string, t: ScenarioType, isPet: bool)
    ensures Scene(category, t, isPet) ==
      if IsHumanFocused(t) && isPet then SceneBase(category) + ". " + SkinText + " " + PetText
      else if IsHumanFocused(t) then SceneBase(category) + ". " + SkinText
      else if isPet then SceneBase(category) + ".  " + PetText
      else SceneBase(category) + "."
  {
    var base := SceneBase(category);
    DirectivesEndInStop();
    if IsHumanFocused(t) && isPet {
      TrimTemplate(base, SkinText, PetText);
    } else if IsHumanFocused(t) {
      TrimTemplate(base, SkinText, "");
    } else if isPet {
      TrimTemplate(base, "", PetText);
      DoubleBlank(base, PetText);
    } else {
      TrimTemplate(base, "", "");
    }
  }

  /** An empty skin directive leaves its two neighbouring blanks side by side. */
  lemma DoubleBlank(a: string, b: string)
    ensures a + ". " + "" + " " + b == a + ".  " + b
  {
    assert ". " + "" + " " == ".  ";
  }

  /** Both directives end in a full stop. */
  lemma DirectivesEndInStop()
    ensures |SkinText| > 0 && SkinText[|SkinText| - 1] == '.'
    ensures |PetText| > 0 && PetText[|PetText| - 1] == '.'
  {
  }

  /** Trimming the template `base. skin pet` for any opening sentence and any
      two directives that end in visible characters: only the blanks left
      at the end by empty directives are removed. */
  lemma TrimTemplate(base: string, skin: string, pet: string)
    requires |base| > 0 && !IsWhitespace(base[0])
    requires skin == [] || !IsWhitespace(skin[|skin| - 1])
    requires pet == [] || !IsWhitespace(pet[|pet| - 1])
    ensures Trim(base + ". " + skin + " " + pet) ==
      if pet != [] then base + ". " + skin + " " + pet
      else if skin != [] then base + ". " + skin
      else base + "."
  {
    var s := base + ". " + skin + " " + pet;
    if pet != [] {
      assert s[0] == base[0] && s[|s| - 1] == pet[|pet| - 1];
      assert s + "" == s;
      TrimPadded(s, "");
    } else if skin != [] {
      var x := base + ". " + skin;
      assert x[0] == base[0] && x[|x| - 1] == skin[|skin| - 1];
      assert s == x + " ";
      TrimPadded(x, " ");
    } else {
      var x := base + ".";
      assert x[0] == base[0];
      assert s == x + "  ";
      TrimPadded(x, "  ");
    }
  }

  // ---------------------------------------------------------------------
  // The generator
  // ---------------------------------------------------------------------

  /** The record built for one scenario. */
  function MakeBlueprint(productName: string, category: string, f: CategoryFlags, t: ScenarioType): PromptBlueprint {
    var rig := Equipment(f, t);
    PromptBlueprint(
      header := "Commercial " + Value(t) + " for " + productName,
      scene := Scene(category, t, f.isPet),
      placement := if f.isFashion && IsHumanFocused(t) then FullBodyPlacement else GoldenRatioPlacement,
      supportingProps := if f.isHome then HomeProps else GenericProps,
      dynamicElements := if f.isPet then PetMotion else GenericMotion,
      lighting := rig.lighting,
      camera := rig.camera,
      color := if f.isTech then TechColor else NaturalColor,
      techSpecs := rig.techSpecs,
      quality := QualityText,
      negativePrompts := NegativeText,
      scenarioType := t)
  }

  /** `getFallbackBlueprints`: one blueprint per scenario, in declaration order. */
  function GetFallbackBlueprints(productName: string, category: string): (r: seq<PromptBlueprint>)
    ensures CoversScenarios(r)
  {
    var f := Classify(category);
    seq(|AllScenarios|, i requires 0 <= i < |AllScenarios| => MakeBlueprint(productName, category, f, AllScenarios[i]))
  }
}
