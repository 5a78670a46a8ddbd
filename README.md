# Fallback prompt-blueprint generator

This project models the computational core of a single-page tool. The tool turns a product name and a product category into six photography prompt blueprints, one for each shot scenario.

When the remote generator is unavailable, the tool uses a deterministic offline generator, `getFallbackBlueprints`, which works in three steps:

- It derives six keyword flags from the category text. These flags are fashion, tech, home, luxury, small product and pet. Each is a case-sensitive substring test.
- It chooses camera, lighting and technical specification by a first-match-wins precedence chain: luxury, then fashion, then tech, then pet, then a small product shot as a macro texture.
- It builds one eleven-field blueprint per scenario, in the scenarios' declaration order.

The project also models two expressions of the card that displays a blueprint:

- the labelled section list;
- the prompt template that flattens a blueprint into one string for the clipboard.

The project has five modules:

- `Text` (text.dfy): `includes` as `Contains`, proved equal to an occurrence predicate, and ECMAScript `trim` as `Trim`, with its white-space set written out.
- `Types` (types.dfy): the six-member scenario enumeration with its display strings, and the blueprint, generation-result and product-input records.
- `Fallback` (fallback.dfy): the category list, the flags, the precedence chain, the scene template and the generator.
- `FallbackProperties` (fallback_properties.dfy): what every generated blueprint set satisfies, and worked examples on concrete categories.
- `PromptCard` (prompt_card.dfy): `sections` and `fullPrompt`.

The records of types.ts are datatypes with the source's fields: `Types.PromptBlueprint` (types.ts:11-24) has the eleven text fields and the scenario tag, `Types.GenerationResult` (types.ts:26-29) a required blueprint list and an optional analysis, and `Types.ProductInput` (types.ts:31-35) a required name and category and an optional image. An optional field is an `Option`.

The chain of `let` reassignments works on locals only. It is modelled as one conditional expression, `Fallback.Equipment`. That expression is proved equal to an ordered rule table applied first-match-wins (`Fallback.FirstMatch` over `Fallback.Overrides`).

The small-product macro branch is modelled exactly as written. It is never reached when a luxury, fashion, tech or pet flag holds.

Source paths below are relative to the repository root.

## Model

| member | source | states |
|---|---|---|
| Types.Value | types.ts:3-8 | each member carries its display string; stated by `Types.ValueInjective`: no two members share one |
| Types.Ordinal | types.ts:2-9 | every scenario has a position among the six members, and the declaration-order list holds it there |
| Types.AllScenariosDistinct | types.ts:2-9 | the six members are listed once each, and position and member determine each other |
| Types.ValueInjective | types.ts:3-8 | two members with the same display string are the same member |
| Types.CoveringIsOneForOne | types.ts:2-9 | in a blueprint list that covers the scenarios in order, each scenario sits at exactly one position, its own |
| Text.Contains | constants.ts:34-39 | the substring test is true exactly when the keyword starts at some index of the category |
| Text.TrimStart | constants.ts:73 | the result is a suffix that does not start with white space, and only white space was removed |
| Text.TrimEnd | constants.ts:73 | the result is a prefix that does not end with white space, and only white space was removed |
| Text.Trim | constants.ts:73 | the result is a slice that neither starts nor ends with white space, and white space alone is cut on both sides |
| Text.TrimEndPadded | constants.ts:73 | trailing white space after a visibly ending string is exactly what is removed |
| Text.TrimPadded | constants.ts:73 | trimming a visibly bounded string followed by white space gives back that string |
| Text.AvoidedCharNotContained | constants.ts:34-39 | a keyword with a character the category never uses does not occur in it |
| Text.EndingOccurs | constants.ts:34-39 | proof step for the worked category examples: a keyword at the end of a category occurs in it |
| Fallback.CategoriesDistinct | constants.ts:3-31 | `Fallback.Categories` is the form's list of twenty-seven categories, none listed twice |
| Fallback.Classify | constants.ts:34-39 | each of the six flags holds exactly when one of its keywords occurs, case-sensitively, in the category |
| Fallback.Equipment | constants.ts:42-64 | the defaults and the if/else-if chain as one conditional; its contract is stated by `Fallback.EquipmentIsFirstMatch`, `Fallback.MacroPresetOnlyWhen`, `Fallback.PetPresetEverywhere`, `Fallback.TechSpecsDefault` and `Fallback.DefaultsExactlyWhenNoRule` |
| Fallback.FirstMatch | constants.ts:47-64 | first-match-wins over an ordered rule table (`Fallback.Overrides`, the chain's five branches in order), the independent reference `Fallback.EquipmentIsFirstMatch` proves the chain equal to |
| Fallback.EquipmentIsFirstMatch | constants.ts:42-64 | camera, lighting and specification are the first applicable rule of the ordered table luxury > fashion > tech > pet > small-and-macro applied to the defaults |
| Fallback.MacroPresetOnlyWhen | constants.ts:57-64 | the macro camera is chosen exactly for a macro texture shot of a small product with no luxury, fashion, tech or pet flag, and it comes with the ring-flash lighting |
| Fallback.PetPresetEverywhere | constants.ts:57-60 | a pet category with no higher flag gets the pet camera, lighting and specification for every scenario, macro texture included |
| Fallback.TechSpecsDefault | constants.ts:45-64 | the specification stays the default exactly when neither the luxury nor the pet branch is taken |
| Fallback.DefaultsExactlyWhenNoRule | constants.ts:42-64 | all three equipment fields keep their defaults exactly when no branch's condition holds |
| Fallback.SceneBase | constants.ts:44 | the opening sentence naming the category; its use is stated by `Fallback.SceneShape` |
| Fallback.SkinDirective | constants.ts:66-67 | the skin directive, non-empty exactly for the people-focused shots; stated by `Fallback.SceneShape` |
| Fallback.PetDirective | constants.ts:68 | the pet directive, non-empty exactly for pet categories; stated by `Fallback.SceneShape` |
| Fallback.Scene | constants.ts:73 | the trimmed scene template; stated by `Fallback.SceneShape` |
| Fallback.SceneShape | constants.ts:66-68 | the trimmed scene in each of the four cases: skin directive exactly for people-focused shots, pet directive exactly for pet categories, base sentence and full stop alone otherwise |
| Fallback.TrimTemplate | constants.ts:73 | trimming `base. skin pet` removes only the blanks that empty directives leave at the end |
| Fallback.DoubleBlank | constants.ts:73 | proof step for `Fallback.SceneShape`: with the skin directive empty and a pet directive present, two blanks separate the full stop and the pet directive |
| Fallback.DirectivesEndInStop | constants.ts:67-68 | proof step for `Fallback.SceneShape`: both directive texts end in a full stop |
| Fallback.MakeBlueprint | constants.ts:70-83 | the record for one scenario; its fields are stated by the `FallbackProperties` lemmas from `HeaderNamesScenario` to `TechSpecsDefaultUnlessLuxuryOrPet` |
| Fallback.GetFallbackBlueprints | constants.ts:41 | the result covers the six scenarios one for one, in declaration order |
| FallbackProperties.EachScenarioOnce | constants.ts:41 | exactly six blueprints, and each scenario has one blueprint, at its own position |
| FallbackProperties.HeaderNamesScenario | constants.ts:72 | the header is "Commercial ", the scenario's display string, " for " and the product name |
| FallbackProperties.HeadersDistinct | constants.ts:72 | two blueprints of one result never share a header |
| FallbackProperties.HeaderCancel | constants.ts:72 | equal headers for one product name carry equal scenario strings |
| FallbackProperties.FallbackScene | constants.ts:66-73 | each blueprint's scene: the base sentence for the category, then the skin directive exactly when people-focused, then the pet directive exactly when pet |
| FallbackProperties.PlacementFullBodyIff | constants.ts:74 | the full-body placement appears exactly for fashion categories in people-focused shots, and the golden-ratio one otherwise |
| FallbackProperties.PropsDependOnlyOnHome | constants.ts:75 | home categories get the living-room props and every other category the generic premium props, and the props of any two blueprints of any two inputs agree exactly when their home flags agree |
| FallbackProperties.MotionDependsOnlyOnPet | constants.ts:76 | pet categories get the motion-blur text and every other category the atmospheric-motion text, and the dynamic elements agree exactly when the pet flags agree |
| FallbackProperties.ColorDependsOnlyOnTech | constants.ts:79 | tech categories get the monochrome direction and every other category the natural palette, and the colour direction agrees exactly when the tech flags agree |
| FallbackProperties.FixedLiterals | constants.ts:81-82 | quality and negative prompts are the same two literals for every input and scenario |
| FallbackProperties.AllFieldsNonEmpty | constants.ts:70-83 | none of the eleven text fields is ever empty |
| FallbackProperties.EquipmentByRuleTable | constants.ts:42-64 | every blueprint's camera, lighting and specification come from the first applicable rule, or the defaults |
| FallbackProperties.MacroCameraOnlyWhen | constants.ts:61-63 | the macro camera appears exactly in the macro texture blueprint of a small category with no higher flag |
| FallbackProperties.PetPresetInEveryBlueprint | constants.ts:57-60 | with the pet flag and no higher flag, all six blueprints use the pet preset |
| FallbackProperties.TechSpecsDefaultUnlessLuxuryOrPet | constants.ts:45-64 | the fashion, tech and macro branches leave the specification at "8K, highly detailed, raw photo format" |
| FallbackProperties.FallbackIsGenerationResult | types.ts:26-29 | proof step, reading `Fallback.GetFallbackBlueprints`' contract through the record: the generated list, with any analysis text or none, forms a generation result that covers the scenarios |
| FallbackProperties.JewelryRaisesThreeFlags | constants.ts:34-39 | a category in which "Jewelry" occurs and none of the seven tech, home and pet keywords occurs raises exactly fashion, luxury and small product |
| FallbackProperties.JewelryAvoidingOthers | constants.ts:34-39 | a category containing "Jewelry" and none of the characters E, P, H, A, G and m raises exactly fashion, luxury and small product |
| FallbackProperties.ClothingShoesJewelryPremises | constants.ts:6 | proof step: the third category is "Clothing, Shoes & " followed by "Jewelry", and avoids those characters |
| FallbackProperties.ClothingShoesJewelryFlags | constants.ts:6 | "Clothing, Shoes & Jewelry" raises fashion, luxury and small product and nothing else |
| FallbackProperties.NoInitialsRaisesNothing | constants.ts:34-39 | a category without any keyword's capital initial raises no flag |
| FallbackProperties.PetOnlyFlags | constants.ts:34-39 | a category starting with "Pet" and free of the other keywords' initials and of "h" raises only the pet flag |
| FallbackProperties.LowerCaseRaisesNothing | constants.ts:34-39 | a category without capital letters raises no flag: the tests are case-sensitive |
| FallbackProperties.LuxuryBoutiquePremises | constants.ts:34-39 | proof step: "Luxury Jewelry Boutique" contains "Jewelry" and none of the tech, home or pet initials |
| FallbackProperties.LuxuryBoutiqueFlags | constants.ts:34-39 | "Luxury Jewelry Boutique" raises fashion, luxury and small product and nothing else |
| FallbackProperties.LowerCaseJewelryFlags | constants.ts:34-39 | "luxury fashion jewelry" raises no flag |
| FallbackProperties.PetSuppliesPremises | constants.ts:15 | proof step: the twelfth category is "Pet Supplies", which starts with "Pet" and avoids the other initials |
| FallbackProperties.PetSuppliesFlags | constants.ts:15 | "Pet Supplies" raises the pet flag alone |
| FallbackProperties.PetSuppliesMacroUsesPetPreset | constants.ts:57-64 | in "Pet Supplies" the macro texture shot gets the pet preset, not the macro one |
| FallbackProperties.UnmatchedCategoryKeepsDefaults | constants.ts:42-45 | "Miscellaneous Widgets" raises no flag, and every blueprint keeps the default camera, lighting and specification |
| FallbackProperties.WomensFashionPremises | constants.ts:7 | proof step: the fourth category is "Women's Fashion", and "Fashion" occurs in it |
| FallbackProperties.WomensFashionFlag | constants.ts:7 | "Women's Fashion" raises the fashion flag |
| PromptCard.Sections | components/PromptCard.tsx:23-33 | the titled section list; stated by `PromptCard.SectionsInOrder` and `PromptCard.SectionsIgnoreHeaderAndNegative` |
| PromptCard.SectionsInOrder | components/PromptCard.tsx:23-33 | nine sections, in the order scene, placement, props, rules, lighting, camera, colour, specification, quality, each under its own title (`PromptCard.Title`), with no field twice, no title twice and neither header nor negative prompts |
| PromptCard.SectionsIgnoreHeaderAndNegative | components/PromptCard.tsx:23-33 | the section list does not depend on header, negative prompts or scenario tag |
| PromptCard.FullPrompt | components/PromptCard.tsx:35 | the prompt template as written; stated by `PromptCard.FullPromptIsLayout`, `PromptCard.FieldPosition`, `PromptCard.StartsWithHeader`, `PromptCard.EndsWithTechQualityNegative` and `PromptCard.FullPromptIgnoresScenario` |
| PromptCard.RenderAppend | components/PromptCard.tsx:35 | writing out a layout distributes over concatenating layouts |
| PromptCard.FieldIndex | components/PromptCard.tsx:35 | every text field has a place in the prompt layout |
| PromptCard.LayoutInDeclarationOrder | components/PromptCard.tsx:35 | the k-th layout entry is the k-th field in declaration order, so each field appears once, in that order |
| PromptCard.FullPromptIsLayout | components/PromptCard.tsx:35 | the prompt is the layout written out, each field right after its label |
| PromptCard.RenderEleven | components/PromptCard.tsx:35 | proof step for `PromptCard.FullPromptIsLayout`: an eleven-entry layout writes out as its eleven labels and fields in order |
| PromptCard.Regroup | components/PromptCard.tsx:35 | proof step for `PromptCard.FullPromptIsLayout`: the template's left-to-right concatenation equals its right-nested form |
| PromptCard.RenderStep | components/PromptCard.tsx:35 | proof step: writing out a layout from one position is that entry's label and field, then the rest |
| PromptCard.RenderSplit | components/PromptCard.tsx:35 | writing out any layout splits around any of its entries |
| PromptCard.FieldPosition | components/PromptCard.tsx:35 | each field follows its own label, with the fields before it to its left and the fields after it to its right |
| PromptCard.StartsWithHeader | components/PromptCard.tsx:35 | the prompt starts with the header |
| PromptCard.EndsWithTechQualityNegative | components/PromptCard.tsx:35 | the prompt ends with ". Tech: ", the specification, ", ", the quality and ". Negative: " with the negative prompts, which are its last characters |
| PromptCard.FullPromptIgnoresScenario | components/PromptCard.tsx:35 | the scenario tag has no influence on the prompt |

## Left out

- geminiService.ts is not part of this model. It is a network client for a remote generative model: it reads the environment, sends a request and parses a foreign payload.
- App.tsx is not part of this model. It holds React state, image loading, the empty-name guard, and the substitution of the fallback result with its fixed analysis text when a request fails. `FallbackProperties.FallbackIsGenerationResult` covers the shape of that substituted result for any analysis text.
- components/LoadingSkeleton.tsx is static markup and is not part of this model.
- Most of components/PromptCard.tsx is not modelled: the JSX, the `copied` flag, the clipboard write and the timer reset are user-interface effects.
- Purity is not proved as a property. Dafny functions are deterministic by construction, so calling the generator twice on the same input always gives the same result.
- Strings are sequences of Unicode scalar values, while JavaScript strings are UTF-16 code units. `includes` and `trim` agree on both views for the texts involved, but surrogate-pair details are not modelled.
- Text.IsWhitespace is a fixed set: the ECMAScript WhiteSpace and LineTerminator code points under the current Unicode space-separator category. A future addition to that category would not be in it.
- The category list: only "Clothing, Shoes & Jewelry", "Pet Supplies" and "Women's Fashion" are classified one by one. The flags of every other category, listed or not, follow from `Fallback.Classify`'s contract.
- FallbackProperties.PetSuppliesMacroUsesPetPreset is stated on the equipment choice for the category's flags, not on the generated list for a particular product name. `FallbackProperties.PetPresetInEveryBlueprint` carries that choice into every blueprint.
- FallbackProperties.WomensFashionFlag states the fashion flag alone. `FallbackProperties.PlacementFullBodyIff` turns that flag into the full-body placement of the people-focused blueprints.
- Fallback.SceneShape keeps the double blank of the pet-only scene (". " + "" + " " before the pet directive) exactly as the template produces it. `trim` removes blanks only at the ends.
