/**
 * What the offline generator promises about every blueprint set it
 * produces, for any product name and any category text, and worked
 * examples on concrete categories.
 */
module FallbackProperties {
  import opened Text
  import opened Types
  import opened Fallback

  /** Every scenario has exactly one blueprint, and it sits at the scenario's
      position in declaration order. */
  lemma EachScenarioOnce(productName: string, category: string, t: ScenarioType)
    ensures var r := GetFallbackBlueprints(productName, category);
      && |r| == 6
      && r[Ordinal(t)].scenarioType == t
      && forall i :: 0 <= i < |r| && r[i].scenarioType == t ==> i == Ordinal(t)
  {
    CoveringIsOneForOne(GetFallbackBlueprints(productName, category), t);
  }

  /** The header is "Commercial ", the scenario's display string, " for " and
      the product name. */
  lemma HeaderNamesScenario(productName: string, category: string, i: nat)
    requires i < 6
    ensures GetFallbackBlueprints(productName, category)[i].header
         == "Commercial " + Value(AllScenarios[i]) + " for " + productName
  {
  }

  /** Two blueprints of one set never share a header. */
  lemma HeadersDistinct(productName: string, category: string, i: nat, j: nat)
    requires i < 6 && j < 6
    requires GetFallbackBlueprints(productName, category)[i].header
          == GetFallbackBlueprints(productName, category)[j].header
    ensures i == j
  {
    var a, b := Value(AllScenarios[i]), Value(AllScenarios[j]);
    HeaderNamesScenario(productName, category, i);
    HeaderNamesScenario(productName, category, j);
    HeaderCancel(a, b, productName);
    ValueInjective(AllScenarios[i], AllScenarios[j]);
    AllScenariosDistinct();
  }

  /** Equal headers for one product name carry equal scenario strings. */
  lemma HeaderCancel(a: string, b: string, productName: string)
    requires "Commercial " + a + " for " + productName == "Commercial " + b + " for " + productName
    ensures a == b
  {
    var h := "Commercial " + a + " for " + productName;
    var n := |"Commercial "|;
    assert |a| == |b|;
    assert a == h[n..n + |a|];
    assert b == h[n..n + |b|];
  }

  /** The scene is the base sentence with a full stop, then the skin
      directive exactly for the people-focused scenarios and the pet
      directive exactly for pet categories; with neither it is the base
      sentence and a full stop alone. */
  lemma FallbackScene(productName: string, category: string, i: nat)
    requires i < 6
    ensures var t, pet := AllScenarios[i], Classify(category).isPet;
      GetFallbackBlueprints(productName, category)[i].scene ==
        if IsHumanFocused(t) && pet then SceneBase(category) + ". " + SkinText + " " + PetText
        else if IsHumanFocused(t) then SceneBase(category) + ". " + SkinText
        else if pet then SceneBase(category) + ".  " + PetText
        else SceneBase(category) + "."
  {
    SceneShape(category, AllScenarios[i], Classify(category).isPet);
  }

  /** The full-body placement is used exactly for fashion categories in the
      people-focused scenarios; every other blueprint gets the golden-ratio
      placement. */
  lemma PlacementFullBodyIff(productName: string, category: string, i: nat)
    requires i < 6
    ensures var p := GetFallbackBlueprints(productName, category)[i].placement;
      && (p == FullBodyPlacement <==> Classify(category).isFashion && IsHumanFocused(AllScenarios[i]))
      && (p != FullBodyPlacement ==> p == GoldenRatioPlacement)
  {
    assert |FullBodyPlacement| != |GoldenRatioPlacement|;
  }

  /** Home categories get the living-room props and all others the generic
      premium props; the props of any two blueprints, of any two inputs,
      agree exactly when the two categories agree on the home flag. */
  lemma PropsDependOnlyOnHome(p1: string, c1: string, i: nat, p2: string, c2: string, j: nat)
    requires i < 6 && j < 6
    ensures GetFallbackBlueprints(p1, c1)[i].supportingProps == if Classify(c1).isHome then HomeProps else GenericProps
    ensures GetFallbackBlueprints(p1, c1)[i].supportingProps == GetFallbackBlueprints(p2, c2)[j].supportingProps
        <==> Classify(c1).isHome == Classify(c2).isHome
  {
    assert |HomeProps| != |GenericProps|;
  }

  /** Pet categories get the motion-blur text and all others the atmospheric
      motion; the dynamic elements agree exactly when the pet flags agree. */
  lemma MotionDependsOnlyOnPet(p1: string, c1: string, i: nat, p2: string, c2: string, j: nat)
    requires i < 6 && j < 6
    ensures GetFallbackBlueprints(p1, c1)[i].dynamicElements == if Classify(c1).isPet then PetMotion else GenericMotion
    ensures GetFallbackBlueprints(p1, c1)[i].dynamicElements == GetFallbackBlueprints(p2, c2)[j].dynamicElements
        <==> Classify(c1).isPet == Classify(c2).isPet
  {
    assert |PetMotion| != |GenericMotion|;
  }

  /** Tech categories get the monochrome direction and all others the natural
      palette; the colour direction agrees exactly when the tech flags agree. */
  lemma ColorDependsOnlyOnTech(p1: string, c1: string, i: nat, p2: string, c2: string, j: nat)
    requires i < 6 && j < 6
    ensures GetFallbackBlueprints(p1, c1)[i].color == if Classify(c1).isTech then TechColor else NaturalColor
    ensures GetFallbackBlueprints(p1, c1)[i].color == GetFallbackBlueprints(p2, c2)[j].color
        <==> Classify(c1).isTech == Classify(c2).isTech
  {
    assert |TechColor| != |NaturalColor|;
  }

  /** Quality and negative prompts are the same two literals in every
      blueprint of every input. */
  lemma FixedLiterals(productName: string, category: string, i: nat)
    requires i < 6
    ensures GetFallbackBlueprints(productName, category)[i].quality == QualityText
    ensures GetFallbackBlueprints(productName, category)[i].negativePrompts == NegativeText
  {
  }

  /** None of the eleven text fields is ever empty. */
  lemma AllFieldsNonEmpty(productName: string, category: string, i: nat)
    requires i < 6
    ensures var b := GetFallbackBlueprints(productName, category)[i];
      && b.header != [] && b.scene != [] && b.placement != [] && b.supportingProps != []
      && b.dynamicElements != [] && b.lighting != [] && b.camera != [] && b.color != []
      && b.techSpecs != [] && b.quality != [] && b.negativePrompts != []
  {
    FallbackScene(productName, category, i);
  }

  /** Camera, lighting and technical specification of each blueprint are
      those of the first override rule that applies to its category and
      scenario, or the defaults. */
  lemma EquipmentByRuleTable(productName: string, category: string, i: nat)
    requires i < 6
    ensures var b := GetFallbackBlueprints(productName, category)[i];
      Rig(b.camera, b.lighting, b.techSpecs) == FirstMatch(Overrides, Classify(category), AllScenarios[i], DefaultRig)
  {
    EquipmentIsFirstMatch(Classify(category), AllScenarios[i]);
  }

  /** The macro lens appears exactly in the macro texture blueprint of a
      small-product category that is neither luxury, fashion, tech nor pet. */
  lemma MacroCameraOnlyWhen(productName: string, category: string, i: nat)
    requires i < 6
    ensures var f := Classify(category);
      GetFallbackBlueprints(productName, category)[i].camera == MacroCamera <==>
        (AllScenarios[i] == MacroTexture && f.isSmall && !f.isLuxury && !f.isFashion && !f.isTech && !f.isPet)
  {
    MacroPresetOnlyWhen(Classify(category), AllScenarios[i]);
  }

  /** In a pet category with no higher flag every blueprint, the macro
      texture one included, uses the pet camera, lighting and specification. */
  lemma PetPresetInEveryBlueprint(productName: string, category: string, i: nat)
    requires i < 6
    requires var f := Classify(category); f.isPet && !f.isLuxury && !f.isFashion && !f.isTech
    ensures var b := GetFallbackBlueprints(productName, category)[i];
      b.camera == PetCamera && b.lighting == PetLighting && b.techSpecs == PetTechSpecs
  {
    PetPresetEverywhere(Classify(category), AllScenarios[i]);
  }

  /** The technical specification is the default one unless the luxury or the
      pet rule applied; the fashion, tech and macro rules leave it alone. */
  lemma TechSpecsDefaultUnlessLuxuryOrPet(productName: string, category: string, i: nat)
    requires i < 6
    ensures var f := Classify(category);
      GetFallbackBlueprints(productName, category)[i].techSpecs == DefaultTechSpecs <==>
        (!f.isLuxury && !(f.isPet && !f.isFashion && !f.isTech))
  {
    TechSpecsDefault(Classify(category), AllScenarios[i]);
  }

  /** The result has the shape of a generation result: whatever analysis text
      accompanies it, its blueprints cover the scenarios one for one. */
  lemma FallbackIsGenerationResult(productName: string, category: string, analysis: Option<string>)
    ensures CoversScenarios(GenerationResult(GetFallbackBlueprints(productName, category), analysis).blueprints)
  {
  }

  // ---------------------------------------------------------------------
  // Concrete cases
  // ---------------------------------------------------------------------

  /** The capital initials of the tech, home and pet keywords. */
  const TechHomePetInitials: set<char> := {'E', 'C', 'P', 'H', 'A', 'G'}

  /** The capital initials of all fourteen keywords. */
  const KeywordInitials: set<char> := {'F', 'C', 'J', 'E', 'P', 'H', 'A', 'G', 'L', 'B'}

  /** A category naming jewellery and no tech, home or pet keyword raises the
      fashion, luxury and small-product flags and no other: the flags are
      independent tests, and one keyword may raise several. This covers
      "Clothing, Shoes & Jewelry" as well as "Luxury Jewelry Boutique". */
  lemma JewelryRaisesThreeFlags(c: string)
    requires Occurs(c, "Jewelry")
    requires !Occurs(c, "Electronics") && !Occurs(c, "Computers") && !Occurs(c, "Phones")
    requires !Occurs(c, "Home") && !Occurs(c, "Appliances") && !Occurs(c, "Garden")
    requires !Occurs(c, "Pet")
    ensures Classify(c) == CategoryFlags(
      isFashion := true, isTech := false, isHome := false, isLuxury := true, isSmall := true, isPet := false)
  {
  }

  /** A category without any of the keywords' capital initials raises no
      flag: the matching is case-sensitive, and unmatched text falls through
      to all-false. */
  lemma NoInitialsRaisesNothing(c: string)
    requires Avoids(c, KeywordInitials)
    ensures Classify(c) == CategoryFlags(false, false, false, false, false, false)
  {
    var bad := KeywordInitials;
    AvoidedCharNotContained(c, bad, "Fashion", 0);
    AvoidedCharNotContained(c, bad, "Clothing", 0);
    AvoidedCharNotContained(c, bad, "Jewelry", 0);
    AvoidedCharNotContained(c, bad, "Electronics", 0);
    AvoidedCharNotContained(c, bad, "Computers", 0);
    AvoidedCharNotContained(c, bad, "Phones", 0);
    AvoidedCharNotContained(c, bad, "Home", 0);
    AvoidedCharNotContained(c, bad, "Appliances", 0);
    AvoidedCharNotContained(c, bad, "Garden", 0);
    AvoidedCharNotContained(c, bad, "Luxury", 0);
    AvoidedCharNotContained(c, bad, "Fine Art", 0);
    AvoidedCharNotContained(c, bad, "Beauty", 0);
    AvoidedCharNotContained(c, bad, "Grocery", 0);
    AvoidedCharNotContained(c, bad, "Pet", 0);
  }

  /** A category that starts with "Pet" and has no other keyword's initial
      (and no "h", which rules out "Phones") raises the pet flag alone. */
  lemma PetOnlyFlags(c: string)
    requires "Pet" <= c && Avoids(c, KeywordInitials - {'P'} + {'h'})
    ensures Classify(c) == CategoryFlags(false, false, false, false, false, true)
  {
    var bad := KeywordInitials - {'P'} + {'h'};
    AvoidedCharNotContained(c, bad, "Fashion", 0);
    AvoidedCharNotContained(c, bad, "Clothing", 0);
    AvoidedCharNotContained(c, bad, "Jewelry", 0);
    AvoidedCharNotContained(c, bad, "Electronics", 0);
    AvoidedCharNotContained(c, bad, "Computers", 0);
    AvoidedCharNotContained(c, bad, "Phones", 1);
    AvoidedCharNotContained(c, bad, "Home", 0);
    AvoidedCharNotContained(c, bad, "Appliances", 0);
    AvoidedCharNotContained(c, bad, "Garden", 0);
    AvoidedCharNotContained(c, bad, "Luxury", 0);
    AvoidedCharNotContained(c, bad, "Fine Art", 0);
    AvoidedCharNotContained(c, bad, "Beauty", 0);
    AvoidedCharNotContained(c, bad, "Grocery", 0);
    assert c[0..] == c;
  }

  /** A category written without capital letters raises no flag, whatever
      words it spells: "luxury fashion jewelry" is not a luxury, fashion or
      small-product category. */
  lemma LowerCaseRaisesNothing(c: string)
    requires forall i :: 0 <= i < |c| ==> !('A' <= c[i] <= 'Z')
    ensures Classify(c) == CategoryFlags(false, false, false, false, false, false)
  {
    assert Avoids(c, KeywordInitials);
    NoInitialsRaisesNothing(c);
  }

  const LuxuryBoutique := "Luxury Jewelry Boutique"
  const LowerCaseJewelry := "luxury fashion jewelry"
  const Widgets := "Miscellaneous Widgets"

  lemma LuxuryBoutiquePremises()
    ensures Avoids(LuxuryBoutique, TechHomePetInitials)
    ensures "Jewelry" <= LuxuryBoutique[7..]
  {
  }

  /** "Luxury Jewelry Boutique" raises the fashion, luxury and small-product flags. */
  lemma LuxuryBoutiqueFlags()
    ensures Classify(LuxuryBoutique) == CategoryFlags(
      isFashion := true, isTech := false, isHome := false, isLuxury := true, isSmall := true, isPet := false)
  {
    var c, bad := LuxuryBoutique, TechHomePetInitials;
    LuxuryBoutiquePremises();
    assert Occurs(c, "Jewelry");
    AvoidedCharNotContained(c, bad, "Electronics", 0);
    AvoidedCharNotContained(c, bad, "Computers", 0);
    AvoidedCharNotContained(c, bad, "Phones", 0);
    AvoidedCharNotContained(c, bad, "Home", 0);
    AvoidedCharNotContained(c, bad, "Appliances", 0);
    AvoidedCharNotContained(c, bad, "Garden", 0);
    AvoidedCharNotContained(c, bad, "Pet", 0);
    JewelryRaisesThreeFlags(c);
  }

  /** Characters of the tech, home and pet keywords that "Clothing, Shoes &
      Jewelry" never uses. */
  const ClothingAvoided: set<char> := {'E', 'P', 'H', 'A', 'G', 'm'}

  lemma ClothingShoesJewelryPremises()
    ensures Categories[2] == "Clothing, Shoes & " + "Jewelry"
    ensures Avoids(Categories[2], ClothingAvoided)
  {
  }

  /** Any category that names jewellery and avoids those characters raises
      fashion, luxury and small product and no other flag. */
  lemma JewelryAvoidingOthers(c: string)
    requires Occurs(c, "Jewelry") && Avoids(c, ClothingAvoided)
    ensures Classify(c) == CategoryFlags(
      isFashion := true, isTech := false, isHome := false, isLuxury := true, isSmall := true, isPet := false)
  {
    var bad := ClothingAvoided;
    AvoidedCharNotContained(c, bad, "Electronics", 0);
    AvoidedCharNotContained(c, bad, "Computers", 2);
    AvoidedCharNotContained(c, bad, "Phones", 0);
    AvoidedCharNotContained(c, bad, "Home", 0);
    AvoidedCharNotContained(c, bad, "Appliances", 0);
    AvoidedCharNotContained(c, bad, "Garden", 0);
    AvoidedCharNotContained(c, bad, "Pet", 0);
    JewelryRaisesThreeFlags(c);
  }

  /** "Clothing, Shoes & Jewelry" from the category list raises the fashion,
      luxury and small-product flags and no other. */
  lemma ClothingShoesJewelryFlags()
    ensures Classify(Categories[2]) == CategoryFlags(
      isFashion := true, isTech := false, isHome := false, isLuxury := true, isSmall := true, isPet := false)
  {
    ClothingShoesJewelryPremises();
    EndingOccurs("Clothing, Shoes & ", "Jewelry");
    JewelryAvoidingOthers(Categories[2]);
  }

  /** "luxury fashion jewelry" raises nothing: the keywords are capitalised. */
  lemma LowerCaseJewelryFlags()
    ensures Classify(LowerCaseJewelry) == CategoryFlags(false, false, false, false, false, false)
  {
    assert Avoids(LowerCaseJewelry, KeywordInitials);
    NoInitialsRaisesNothing(LowerCaseJewelry);
  }

  lemma PetSuppliesPremises()
    ensures Categories[11] == "Pet Supplies"
    ensures "Pet" <= Categories[11]
    ensures Avoids(Categories[11], KeywordInitials - {'P'} + {'h'})
  {
  }

  /** "Pet Supplies" from the category list raises the pet flag alone. */
  lemma PetSuppliesFlags()
    ensures Classify(Categories[11]) == CategoryFlags(false, false, false, false, false, true)
  {
    PetSuppliesPremises();
    PetOnlyFlags(Categories[11]);
  }

  /** In "Pet Supplies" the macro texture shot gets the pet camera, lighting
      and specification: the small-product macro rule is never consulted. */
  lemma PetSuppliesMacroUsesPetPreset()
    ensures Equipment(Classify(Categories[11]), MacroTexture) == Rig(PetCamera, PetLighting, PetTechSpecs)
  {
    PetSuppliesFlags();
    PetPresetEverywhere(Classify(Categories[11]), MacroTexture);
  }

  /** An unrecognised category raises no flag, and every blueprint keeps the
      default camera, lighting and specification. */
  lemma UnmatchedCategoryKeepsDefaults(productName: string, i: nat)
    requires i < 6
    ensures Classify(Widgets) == CategoryFlags(false, false, false, false, false, false)
    ensures var b := GetFallbackBlueprints(productName, Widgets)[i];
      b.camera == DefaultCamera && b.lighting == DefaultLighting && b.techSpecs == DefaultTechSpecs
  {
    assert Avoids(Widgets, KeywordInitials);
    NoInitialsRaisesNothing(Widgets);
    DefaultsExactlyWhenNoRule(Classify(Widgets), AllScenarios[i]);
  }

  lemma WomensFashionPremises()
    ensures Categories[3] == "Women's Fashion"
    ensures "Fashion" <= Categories[3][8..]
  {
  }

  /** "Women's Fashion" from the category list raises the fashion flag, so its
      people-focused blueprints use the full-body placement. */
  lemma WomensFashionFlag()
    ensures Classify(Categories[3]).isFashion
  {
    WomensFashionPremises();
    assert Occurs(Categories[3], "Fashion");
  }
}
