/**
 * The two pure expressions of components/PromptCard.tsx: the `sections`
 * table the card lists under their titles, and the `fullPrompt` template
 * that flattens a blueprint into the single string put on the clipboard.
 */
module PromptCard {
  import opened Types

  /** The eleven text fields of a blueprint, in declaration order. */
  datatype TextField =
    | Header
    | Scene
    | Placement
    | SupportingProps
    | DynamicElements
    | Lighting
    | Camera
    | Color
    | TechSpecs
    | Quality
    | NegativePrompts

  /** Reading one text field of a blueprint. */
  function Get(b: PromptBlueprint, f: TextField): string {
    match f
    case Header => b.header
    case Scene => b.scene
    case Placement => b.placement
    case SupportingProps => b.supportingProps
    case DynamicElements => b.dynamicElements
    case Lighting => b.lighting
    case Camera => b.camera
    case Color => b.color
    case TechSpecs => b.techSpecs
    case Quality => b.quality
    case NegativePrompts => b.negativePrompts
  }

  // ---------------------------------------------------------------------
  // The labelled sections
  // ---------------------------------------------------------------------

  datatype Section = Section(title: string, content: string)

  /** The `sections` array literal. */
  function Sections(b: PromptBlueprint): seq<Section> {
    [ Section("Scene & Environment", b.scene),
      Section("Placement & Interaction", b.placement),
      Section("Supporting Props", b.supportingProps),
      Section("Product Rules (@img1)", b.dynamicElements),
      Section("Lighting Geometry", b.lighting),
      Section("Camera & Composition", b.camera),
      Section("Style & Color Grading", b.color),
      Section("Technical Specs", b.techSpecs),
      Section("Quality Metrics", b.quality) ]
  }

  /** The fields the sections show, in the order they are shown. */
  const SectionFields: seq<TextField> :=
    [Scene, Placement, SupportingProps, DynamicElements, Lighting, Camera, Color, TechSpecs, Quality]

  /** The title the card shows above a field in the section list. The header
      and the negative prompts are not in the section list: the card shows
      them separately, so they get the empty string here. */
  function Title(f: TextField): string {
    match f
    case Scene => "Scene & Environment"
    case Placement => "Placement & Interaction"
    case SupportingProps => "Supporting Props"
    case DynamicElements => "Product Rules (@img1)"
    case Lighting => "Lighting Geometry"
    case Camera => "Camera & Composition"
    case Color => "Style & Color Grading"
    case TechSpecs => "Technical Specs"
    case Quality => "Quality Metrics"
    case Header => ""
    case NegativePrompts => ""
  }

  /** The sections are nine, the k-th shows the k-th of `SectionFields` under
      that field's own title, no field is shown twice, no title is used twice,
      and the header and the negative prompts are not among them. */
  lemma SectionsInOrder(b: PromptBlueprint)
    ensures |Sections(b)| == |SectionFields| == 9
    ensures forall k :: 0 <= k < 9 ==> Sections(b)[k] == Section(Title(SectionFields[k]), Get(b, SectionFields[k]))
    ensures forall k, m :: 0 <= k < m < 9 ==> Sections(b)[k].title != Sections(b)[m].title
    ensures forall k, m :: 0 <= k < m < 9 ==> SectionFields[k] != SectionFields[m]
    ensures Header !in SectionFields && NegativePrompts !in SectionFields
  {
  }

  /** The section list does not depend on the header, the negative prompts or
      the scenario tag: the card renders those separately. */
  lemma SectionsIgnoreHeaderAndNegative(b: PromptBlueprint, header: string, negative: string, t: ScenarioType)
    ensures Sections(b.(header := header, negativePrompts := negative, scenarioType := t)) == Sections(b)
  {
  }

  // ---------------------------------------------------------------------
  // The flattened prompt
  // ---------------------------------------------------------------------

  /** The `fullPrompt` template string. */
  function FullPrompt(b: PromptBlueprint): string {
    b.header + ". " + b.scene + ". " + b.placement + ". Props: " + b.supportingProps
    + ". Rules: " + b.dynamicElements + ". Lighting: " + b.lighting + ". Camera: " + b.camera
    + ". Style: " + b.color + ". Tech: " + b.techSpecs + ", " + b.quality
    + ". Negative: " + b.negativePrompts
  }

  /** The template read as a layout: each field preceded by its label. */
  const PromptLayout: seq<(string, TextField)> := [
    ("", Header),
    (". ", Scene),
    (". ", Placement),
    (". Props: ", SupportingProps),
    (". Rules: ", DynamicElements),
    (". Lighting: ", Lighting),
    (". Camera: ", Camera),
    (". Style: ", Color),
    (". Tech: ", TechSpecs),
    (", ", Quality),
    (". Negative: ", NegativePrompts)
  ]

  /** Writing out a layout: label, field, label, field, ... */
  function Render(layout: seq<(string, TextField)>, b: PromptBlueprint): string
    decreases |layout|
  {
    if layout == [] then "" else layout[0].0 + Get(b, layout[0].1) + Render(layout[1..], b)
  }

  /** Rendering distributes over splitting the layout. */
  lemma {:induction false} RenderAppend(l1: seq<(string, TextField)>, l2: seq<(string, TextField)>, b: PromptBlueprint)
    ensures Render(l1 + l2, b) == Render(l1, b) + Render(l2, b)
    decreases |l1|
  {
    if l1 != [] {
      var x := l1[0].0 + Get(b, l1[0].1);
      assert (l1 + l2)[0] == l1[0] && (l1 + l2)[1..] == l1[1..] + l2;
      assert Render(l1 + l2, b) == x + Render(l1[1..] + l2, b);
      RenderAppend(l1[1..], l2, b);
      assert Render(l1, b) == x + Render(l1[1..], b);
      assert (x + Render(l1[1..], b)) + Render(l2, b) == x + (Render(l1[1..], b) + Render(l2, b));
    } else {
      assert l1 + l2 == l2;
    }
  }

  /** The position of a field in declaration order. */
  function FieldIndex(f: TextField): (k: nat)
    ensures k < |PromptLayout| == 11 && PromptLayout[k].1 == f
  {
    match f
    case Header => 0
    case Scene => 1
    case Placement => 2
    case SupportingProps => 3
    case DynamicElements => 4
    case Lighting => 5
    case Camera => 6
    case Color => 7
    case TechSpecs => 8
    case Quality => 9
    case NegativePrompts => 10
  }

  /** The k-th entry of the layout holds the k-th field in declaration order,
      so every text field is written exactly once and in that order; the
      scenario tag is not a text field and has no place in it. */
  lemma LayoutInDeclarationOrder()
    ensures forall k :: 0 <= k < |PromptLayout| ==> FieldIndex(PromptLayout[k].1) == k
  {
  }

  /** The template is exactly the layout written out. */
  lemma FullPromptIsLayout(b: PromptBlueprint)
    ensures FullPrompt(b) == Render(PromptLayout, b)
  {
    RenderEleven(PromptLayout, b);
    Regroup(b.header, b.scene, b.placement, b.supportingProps, b.dynamicElements, b.lighting,
            b.camera, b.color, b.techSpecs, b.quality, b.negativePrompts);
  }

  /** Any eleven-entry layout written out entry by entry. */
  lemma RenderEleven(l: seq<(string, TextField)>, b: PromptBlueprint)
    requires |l| == 11
    ensures Render(l, b) ==
      l[0].0 + Get(b, l[0].1) + (l[1].0 + Get(b, l[1].1) + (l[2].0 + Get(b, l[2].1)
      + (l[3].0 + Get(b, l[3].1) + (l[4].0 + Get(b, l[4].1) + (l[5].0 + Get(b, l[5].1)
      + (l[6].0 + Get(b, l[6].1) + (l[7].0 + Get(b, l[7].1) + (l[8].0 + Get(b, l[8].1)
      + (l[9].0 + Get(b, l[9].1) + (l[10].0 + Get(b, l[10].1)))))))))))
  {
    assert l[11..] == [];
    RenderStep(l, 10, b);
    RenderStep(l, 9, b);
    RenderStep(l, 8, b);
    RenderStep(l, 7, b);
    RenderStep(l, 6, b);
    RenderStep(l, 5, b);
    RenderStep(l, 4, b);
    RenderStep(l, 3, b);
    RenderStep(l, 2, b);
    RenderStep(l, 1, b);
    RenderStep(l, 0, b);
    assert l[0..] == l;
  }

  /** The template's left-to-right concatenation, regrouped from the right. */
  lemma Regroup(h: string, s: string, p: string, sp: string, d: string, li: string,
                c: string, co: string, t: string, q: string, n: string)
    ensures h + ". " + s + ". " + p + ". Props: " + sp + ". Rules: " + d + ". Lighting: " + li
            + ". Camera: " + c + ". Style: " + co + ". Tech: " + t + ", " + q + ". Negative: " + n
         == h + (". " + s + (". " + p + (". Props: " + sp + (". Rules: " + d + (". Lighting: " + li
            + (". Camera: " + c + (". Style: " + co + (". Tech: " + t + (", " + q + (". Negative: " + n))))))))))
  {
  }

  /** Unfolding the layout at one position. */
  lemma RenderStep(l: seq<(string, TextField)>, k: nat, b: PromptBlueprint)
    requires k < |l|
    ensures Render(l[k..], b) == l[k].0 + Get(b, l[k].1) + Render(l[k + 1..], b)
  {
    assert l[k..][1..] == l[k + 1..];
  }

  /** Each field sits in the prompt right after its own label, with the
      fields before it in the layout entirely to its left and the fields
      after it entirely to its right. */
  lemma FieldPosition(b: PromptBlueprint, k: nat)
    requires k < |PromptLayout|
    ensures FullPrompt(b) ==
      Render(PromptLayout[..k], b) + PromptLayout[k].0 + Get(b, PromptLayout[k].1) + Render(PromptLayout[k + 1..], b)
  {
    FullPromptIsLayout(b);
    RenderSplit(PromptLayout, k, b);
  }

  /** Splitting any layout around one of its entries. */
  lemma RenderSplit(l: seq<(string, TextField)>, k: nat, b: PromptBlueprint)
    requires k < |l|
    ensures Render(l, b) == Render(l[..k], b) + l[k].0 + Get(b, l[k].1) + Render(l[k + 1..], b)
  {
    assert l == l[..k] + l[k..];
    RenderAppend(l[..k], l[k..], b);
    RenderStep(l, k, b);
  }

  /** The prompt opens with the header. */
  lemma StartsWithHeader(b: PromptBlueprint)
    ensures b.header <= FullPrompt(b)
  {
    FieldPosition(b, 0);
  }

  /** The prompt closes with the technical specification and the quality
      metrics under the one "Tech: " label, joined by ", ", and then the
      negative prompts, which are its last characters. */
  lemma EndsWithTechQualityNegative(b: PromptBlueprint)
    ensures var tail := ". Tech: " + b.techSpecs + ", " + b.quality + ". Negative: " + b.negativePrompts;
            |tail| <= |FullPrompt(b)| && FullPrompt(b)[|FullPrompt(b)| - |tail|..] == tail
    ensures |b.negativePrompts| <= |FullPrompt(b)|
    ensures FullPrompt(b)[|FullPrompt(b)| - |b.negativePrompts|..] == b.negativePrompts
  {
    var tail := ". Tech: " + b.techSpecs + ", " + b.quality + ". Negative: " + b.negativePrompts;
    var head := b.header + ". " + b.scene + ". " + b.placement + ". Props: " + b.supportingProps
      + ". Rules: " + b.dynamicElements + ". Lighting: " + b.lighting + ". Camera: " + b.camera
      + ". Style: " + b.color;
    assert FullPrompt(b) == head + tail;
    var p := FullPrompt(b);
    assert p[|p| - |tail|..] == tail;
  }

  /** The scenario tag never reaches the prompt. */
  lemma FullPromptIgnoresScenario(b: PromptBlueprint, t: ScenarioType)
    ensures FullPrompt(b.(scenarioType := t)) == FullPrompt(b)
  {
  }
}
