/**
 * The deterministic parts of the listing pipeline's AI service: the language clause of the
 * refinement request, the post-processing of the refinement reply, the image-edit prompt
 * constructor and the scan of the image-edit reply for image data. The model calls themselves
 * are outside the model; their settled replies are parameters.
 */
module AiMediaService {
  import opened Wrappers
  import opened Strings
  import opened Types

  // ---------------------------------------------------------------------------
  // Refinement: language clause

  /** The clause that tells the copywriting model which language to answer in. */
  function LangInstruction(lang: Language): (r: string)
    ensures lang == Fr ==> r == "in French"
    ensures lang == Ar ==> r == "in Tunisian Arabic (Derja)"
    ensures lang == En ==> r == "in English"
  {
    var english := "in English";
    var afterFrench := if lang == Fr then "in French" else english;
    if lang == Ar then "in Tunisian Arabic (Derja)" else afterFrench
  }

  /** Different languages are asked for with different clauses. */
  lemma LangInstructionInjective(a: Language, b: Language)
    requires LangInstruction(a) == LangInstruction(b)
    ensures a == b
  {
    assert |LangInstruction(En)| == 10 && |LangInstruction(Fr)| == 9;
    assert |LangInstruction(Ar)| == 26;
  }

  // ---------------------------------------------------------------------------
  // Refinement: reply post-processing

  const JsonFence := "```json"
  const ClosingFence := "```"

  /**
   * The Markdown wrapper taken off an already trimmed text: a leading "```json" is removed, and
   * then one "```" at the very end, if there is one.
   */
  function Unfence(t: string): (r: string)
    ensures JsonFence <= t ==>
      t == JsonFence + r + ClosingFence || (t == JsonFence + r && !EndsWith(r, ClosingFence))
    ensures !(JsonFence <= t) ==> r == t
  {
    if JsonFence <= t then
      var rest := t[|JsonFence|..];
      assert t == t[..|JsonFence|] + rest;
      if EndsWith(rest, ClosingFence) then
        var body := rest[..|rest| - |ClosingFence|];
        assert rest == body + rest[|rest| - |ClosingFence|..];
        body
      else
        rest
    else
      t
  }

  /** The reply text with an optional Markdown wrapper taken off, after trimming it. */
  function StripFence(text: string): (r: string)
    ensures var t := Trim(text);
      if JsonFence <= t then
        t == JsonFence + r + ClosingFence || (t == JsonFence + r && !EndsWith(r, ClosingFence))
      else
        r == t
  {
    Unfence(Trim(text))
  }

  /** Wrapping a JSON text in a ```json fence and stripping it gives the text back. */
  lemma StripFenceOfWrapped(json: string)
    ensures StripFence(JsonFence + json + ClosingFence) == json
  {
    var w := JsonFence + json + ClosingFence;
    assert w[0] == '`' && w[|w| - 1] == '`';
    TrimUntrimmed(w);
    assert JsonFence <= w;
    var r := StripFence(w);
    assert w == JsonFence + r + ClosingFence;
    assert |r| == |json|;
    assert forall i :: 0 <= i < |json| ==> r[i] == w[|JsonFence| + i] == json[i];
  }

  /** Text that does not start with the fence (after trimming) is only trimmed. */
  lemma StripFenceUnfenced(text: string)
    requires !(JsonFence <= Trim(text))
    ensures StripFence(text) == Trim(text)
  {
  }

  /** The four fields the refinement reply is required to carry, as read from the parsed JSON. */
  datatype RefinedFields = RefinedFields(title: string, description: string, category: string, tags: seq<string>)

  /** `{...currentDraft, title, description, category, tags}`: the reply's fields over the draft. */
  function MergeRefinement(draft: ProductDraft, f: RefinedFields): (r: ProductDraft)
    ensures r.price == draft.price
    ensures r.title == f.title && r.description == f.description
    ensures r.category == f.category && r.tags == f.tags
  {
    draft.(title := f.title, description := f.description, category := f.category, tags := f.tags)
  }

  const RefineFailure := "Failed to refine product details"

  /**
   * What `refineProductDetails` settles to, given the settled `generateContent` call (`reply`,
   * with an absent `response.text` written as "") and the JSON parser (`parse`, `None` when
   * `JSON.parse` throws).
   */
  function RefineProductDetails(reply: Outcome<string>, draft: ProductDraft,
                                parse: string -> Option<RefinedFields>): (r: Outcome<ProductDraft>)
    ensures reply.Err? ==> r == Err(reply.msg)
    ensures reply == Ok("") ==> r == Err(RefineFailure)
    ensures reply.Ok? && reply.value != "" ==>
      r.Ok? &&
      match parse(StripFence(reply.value))
      case Some(f) => r.value == MergeRefinement(draft, f)
      case None => r.value == draft
  {
    match reply
    case Err(m) => Err(m)
    case Ok(text) =>
      if text == "" then Err(RefineFailure)
      else
        var cleanJson := StripFence(text);
        match parse(cleanJson)
        case Some(f) => Ok(MergeRefinement(draft, f))
        case None => Ok(draft)
  }

  /** Whatever the reply and the parser, a refined draft keeps the seller's price. */
  lemma RefineKeepsPrice(reply: Outcome<string>, draft: ProductDraft, parse: string -> Option<RefinedFields>)
    ensures RefineProductDetails(reply, draft, parse).Ok? ==>
            RefineProductDetails(reply, draft, parse).value.price == draft.price
  {
  }

  /** A non-empty reply that does not parse gives back the caller's draft unchanged. */
  lemma RefineParseFailureFallsBack(text: string, draft: ProductDraft, parse: string -> Option<RefinedFields>)
    requires text != "" && parse(StripFence(text)).None?
    ensures RefineProductDetails(Ok(text), draft, parse) == Ok(draft)
  {
  }

  /** A fenced reply is parsed from exactly the JSON inside the fence. */
  lemma RefineReadsInsideFence(json: string, draft: ProductDraft, parse: string -> Option<RefinedFields>)
    requires parse(json).Some?
    ensures RefineProductDetails(Ok(JsonFence + json + ClosingFence), draft, parse)
            == Ok(MergeRefinement(draft, parse(json).value))
  {
    StripFenceOfWrapped(json);
  }

  // ---------------------------------------------------------------------------
  // Image-edit prompt

  const IdentitySentence := "Create a professional product image. KEEP THE MAIN OBJECT EXACTLY AS IT IS."
  // The first sentence of `PresetRest` is written as two literals because Dafny does not
  // evaluate an index into a long string literal, and `CustomSceneEmbedded` compares its
  // second character.
  const PresetRest := " Do not change the product's shape," + " logo, or details."
    + " seamless composite, photorealistic, 8k." + " Place the object in "
  const PresetLead := IdentitySentence + PresetRest
  const CustomRest := " Place the object in "
  const CustomLead := IdentitySentence + CustomRest
  const CustomTail := ". seamless composite, photorealistic, 8k."

  const StudioSetting := "a professional white studio podium with soft studio lighting and a subtle reflection. Clean, commercial product photography."
  const LifestyleSetting := "a real-world lifestyle setting appropriate for the product (e.g., on a wooden table, in a living room, or being used). Natural lighting, depth of field."
  const OutdoorSetting := "an outdoor setting with natural sunlight, perhaps a garden, street, or nature background depending on the item."
  const LuxurySetting := "a high-end luxury setting with dark marble textures, gold accents, and dramatic cinematic lighting."
  const DeskSetting := "a sleek, modern minimalist desk."
  const UrbanSetting := "an urban street style setting."
  const PlainSetting := "a clean bright studio background."

  predicate IsPreset(style: string) {
    style == "studio" || style == "lifestyle" || style == "outdoor" || style == "luxury"
  }

  /** The `switch (style)` cases: each preset style has its own setting, and no two share one. */
  function PresetSetting(style: string): (r: string)
    requires IsPreset(style)
    ensures r == StudioSetting <==> style == "studio"
    ensures r == LifestyleSetting <==> style == "lifestyle"
    ensures r == OutdoorSetting <==> style == "outdoor"
    ensures r == LuxurySetting <==> style == "luxury"
  {
    assert |LuxurySetting| < |OutdoorSetting| < |StudioSetting| < |LifestyleSetting|;
    match style
    case "studio" => StudioSetting
    case "lifestyle" => LifestyleSetting
    case "outdoor" => OutdoorSetting
    case "luxury" => LuxurySetting
  }

  /**
   * The `default:` case: the desk exactly when the lower-cased category mentions "tech", the
   * street exactly when it mentions "fashion" but not "tech", and the plain studio otherwise.
   */
  function CategorySetting(category: string): (r: string)
    ensures r == DeskSetting <==> Contains(ToLower(category), "tech")
    ensures r == UrbanSetting <==> !Contains(ToLower(category), "tech") && Contains(ToLower(category), "fashion")
    ensures r == PlainSetting <==> !Contains(ToLower(category), "tech") && !Contains(ToLower(category), "fashion")
  {
    assert |UrbanSetting| < |DeskSetting| < |PlainSetting|;
    var c := ToLower(category);
    if Contains(c, "tech") then DeskSetting
    else if Contains(c, "fashion") then UrbanSetting
    else PlainSetting
  }

  /** `style === 'custom' && customPrompt`: a custom style with a non-empty scene. */
  predicate UsesCustomScene(style: string, customPrompt: Option<string>) {
    style == "custom" && Present(customPrompt)
  }

  /** `constructGenPrompt(category, style, customPrompt)`. Every prompt opens with the identity-preservation sentence. */
  function ConstructGenPrompt(category: string, style: string, customPrompt: Option<string>): (r: string)
    ensures IdentitySentence <= r
  {
    if UsesCustomScene(style, customPrompt) then
      CustomLead + customPrompt.value + CustomTail
    else
      var setting := if IsPreset(style) then PresetSetting(style) else CategorySetting(category);
      assert IdentitySentence <= PresetLead;
      PresetLead + setting
  }

  /**
   * A custom style with a non-empty scene embeds the scene in the custom template, and the
   * result is not of the preset form (it does not begin with the preset lead-in).
   */
  lemma CustomSceneEmbedded(category: string, scene: string)
    requires scene != ""
    ensures ConstructGenPrompt(category, "custom", Some(scene)) == CustomLead + scene + CustomTail
    ensures !(PresetLead <= ConstructGenPrompt(category, "custom", Some(scene)))
  {
    var r := ConstructGenPrompt(category, "custom", Some(scene));
    var k := |IdentitySentence| + 1;
    assert CustomRest[1] == 'P';
    assert PresetRest[1] == 'D';
    assert r[k] == CustomLead[k] == CustomRest[1];
    assert PresetLead[k] == PresetRest[1];
  }

  /** A custom style without a scene (absent or empty) falls through to the category default. */
  lemma CustomWithoutSceneUsesCategory(category: string, customPrompt: Option<string>)
    requires customPrompt == None || customPrompt == Some("")
    ensures ConstructGenPrompt(category, "custom", customPrompt) == PresetLead + CategorySetting(category)
  {
  }

  /** A preset style gives the preset lead-in and that preset's setting, whatever the category and scene. */
  lemma PresetIgnoresCategory(style: string, c1: string, c2: string, p1: Option<string>, p2: Option<string>)
    requires IsPreset(style)
    ensures ConstructGenPrompt(c1, style, p1) == ConstructGenPrompt(c2, style, p2) == PresetLead + PresetSetting(style)
  {
  }

  /**
   * The category default: a lower-cased category mentioning "tech" gets the desk even if it also
   * mentions "fashion"; otherwise "fashion" gets the street setting; otherwise the plain studio.
   */
  lemma CategoryDefault(category: string, style: string, customPrompt: Option<string>)
    requires !IsPreset(style) && !UsesCustomScene(style, customPrompt)
    ensures var c := ToLower(category);
      var r := ConstructGenPrompt(category, style, customPrompt);
      (Contains(c, "tech") ==> r == PresetLead + DeskSetting)
      && (!Contains(c, "tech") && Contains(c, "fashion") ==> r == PresetLead + UrbanSetting)
      && (!Contains(c, "tech") && !Contains(c, "fashion") ==> r == PresetLead + PlainSetting)
  {
  }

  /** The category menu's "Fashion" gets the street setting in the default branch. */
  lemma FashionCategoryGetsStreet()
    ensures CategorySetting("Fashion") == UrbanSetting
  {
    LowerMenuCategories();
    NotContainsTech("fashion");
    assert Contains("fashion", "fashion") by { assert "fashion" <= "fashion"; }
  }

  /**
   * The category menu's "Electronics" does not mention "tech" once lower-cased
   * ("electronics"), so it gets the plain studio, not the desk.
   */
  lemma ElectronicsCategoryGetsPlainStudio()
    ensures CategorySetting("Electronics") == PlainSetting
  {
    LowerMenuCategories();
    NotContainsTech("electronics");
    NotContainsFashion("electronics");
  }

  lemma LowerMenuCategories()
    ensures ToLower("Fashion") == "fashion" && ToLower("Electronics") == "electronics"
  {
    LowerWord("Fashion", "fashion");
    LowerWord("Electronics", "electronics");
  }

  /** A word whose lower-cased letters, one by one, are those of `lower` lower-cases to `lower`. */
  lemma LowerWord(word: string, lower: string)
    requires |word| == |lower| && forall i :: 0 <= i < |word| ==> LowerChar(word[i]) == lower[i]
    ensures ToLower(word) == lower
  {
  }

  lemma NotContainsTech(c: string)
    requires c == "fashion" || c == "electronics"
    ensures !Contains(c, "tech")
  {
    if c == "fashion" {
      NoLeadNoContains(c, "tech");
    } else {
      NoLeadNoContains(c[5..], "tech");
      forall k | 0 <= k < 5
        ensures !("tech" <= c[k..]) && c[k..][1..] == c[k + 1..]
      {
        assert c[k..][0] == c[k] && c[k..][1] == c[k + 1];
      }
      assert !Contains(c[4..], "tech");
      assert !Contains(c[3..], "tech");
      assert !Contains(c[2..], "tech");
      assert !Contains(c[1..], "tech");
    }
  }

  lemma NotContainsFashion(c: string)
    requires c == "electronics"
    ensures !Contains(c, "fashion")
  {
    NoLeadNoContains(c, "fashion");
  }

  // ---------------------------------------------------------------------------
  // Image-edit reply

  /** An inline blob; its base64 `data` is optional, as in the reply's own type. */
  datatype Blob = Blob(mimeType: Option<string>, data: Option<string>)

  /** A reply part: an inline blob and/or text. */
  datatype Part = Part(inlineData: Option<Blob>, text: Option<string>)

  /** A candidate; `parts` is `None` when `content` or `content.parts` is missing. */
  datatype Candidate = Candidate(parts: Option<seq<Part>>)

  /** `response.candidates?.[0]?.content?.parts || []`. */
  function FirstCandidateParts(candidates: seq<Candidate>): seq<Part> {
    if candidates == [] then [] else candidates[0].parts.GetOr([])
  }

  const NoImage := "No image generated"

  /**
   * `editProductImage` after its `generateContent` call settled with `reply` (the candidates):
   * the `data` of the blob of the first part of the first candidate that carries one, or the
   * "No image generated" error when no part does. A failed call fails in the same way. The
   * scan stops at the first blob even when it has no data, and the call then resolves with
   * `undefined`, here `Ok(None)`.
   */
  method EditProductImage(reply: Outcome<seq<Candidate>>) returns (r: Outcome<Option<string>>)
    ensures reply.Err? ==> r == Err(reply.msg)
    ensures reply.Ok? ==> var parts := FirstCandidateParts(reply.value);
      (r.Ok? <==> exists i :: 0 <= i < |parts| && parts[i].inlineData.Some?)
      && (r.Ok? ==> exists i :: 0 <= i < |parts| && parts[i].inlineData.Some? && parts[i].inlineData.value.data == r.value
                                && forall j :: 0 <= j < i ==> parts[j].inlineData.None?)
      && (r.Err? ==> r.msg == NoImage)
  {
    if reply.Err? {
      return Err(reply.msg);
    }
    var parts := FirstCandidateParts(reply.value);
    var i := 0;
    while i < |parts|
      invariant 0 <= i <= |parts|
      invariant forall j :: 0 <= j < i ==> parts[j].inlineData.None?
    {
      if parts[i].inlineData.Some? {
        return Ok(parts[i].inlineData.value.data);
      }
      i := i + 1;
    }
    return Err(NoImage);
  }
}
