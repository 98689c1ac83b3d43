/**
 * The seller upload wizard (components/MagicUploader.tsx) as a state machine over one session.
 *
 * Every handler that awaits an external call is split at its `await`: `StartX` runs the
 * handler up to the call and returns the request it sends (or `None` when its guard returns
 * early), and `FinishX` runs the continuation with the call's settled outcome. Between the two
 * the user may act on whatever view is shown, exactly as in the browser. The ghost multiset
 * `inFlight` records which calls have been issued and not yet settled.
 */
module MagicUploader {
  import opened Wrappers
  import opened Types
  import AiMediaService

  datatype Step = UploadForm | Refine | Style | Generating | Review | Publishing | Done

  /** The external calls a session issues. */
  datatype Call = RefineCall | ImageCall | VideoCall | PublishCall

  const ValidationError := "Please fill in the required fields and upload an image."
  const Currency := "TND"

  /** The draft a session starts with. */
  const EmptyDraft := ProductDraft(category := "Other", title := "", description := "", price := 0, tags := [])

  /** The listing fields handed to `createProduct`; `imageUrl` is left "" for storage to fill in. */
  datatype NewListing = NewListing(
    sellerId: string,
    sellerName: string,
    organizationId: Option<string>,
    title: string,
    description: string,
    price: int,
    currency: string,
    category: string,
    imageUrl: string)

  /** One `refineProductDetails` call: the photo, the draft as it was when the call was made, the language. */
  datatype RefineRequest = RefineRequest(image: string, draft: ProductDraft, lang: Language)

  /** One `createProduct` call: the listing, the generated image and the optional video. */
  datatype PublishRequest = PublishRequest(listing: NewListing, image: string, video: Option<string>)

  // ---------------------------------------------------------------------------
  // Seller identity at publish

  /** `i` is the first position of `orgs` whose id is `id`. */
  predicate FirstWithId(orgs: seq<Organization>, id: string, i: int) {
    0 <= i < |orgs| && orgs[i].id == id && forall j :: 0 <= j < i ==> orgs[j].id != id
  }

  /** `orgs.find(o => o.id === id)`: the first organization with that id, if any. */
  function FindOrg(orgs: seq<Organization>, id: string): (r: Option<Organization>)
    ensures r.None? <==> forall i :: 0 <= i < |orgs| ==> orgs[i].id != id
    ensures r.Some? ==> exists i :: FirstWithId(orgs, id, i) && orgs[i] == r.value
  {
    if orgs == [] then None
    else if orgs[0].id == id then
      assert FirstWithId(orgs, id, 0);
      Some(orgs[0])
    else
      var r := FindOrg(orgs[1..], id);
      assert r.Some? ==> exists i :: FirstWithId(orgs, id, i) && orgs[i] == r.value by {
        if r.Some? {
          var i :| FirstWithId(orgs[1..], id, i) && orgs[1..][i] == r.value;
          assert FirstWithId(orgs, id, i + 1);
        }
      }
      assert r.None? ==> forall i :: 0 <= i < |orgs| ==> orgs[i].id != id by {
        if r.None? {
          forall i | 0 <= i < |orgs| ensures orgs[i].id != id {
            if i > 0 { assert orgs[i] == orgs[1..][i - 1]; }
          }
        }
      }
      r
  }

  /**
   * The seller name of a listing: for a selected organization, its name when it is found and
   * non-empty; the user's own name otherwise.
   */
  function SellerName(orgs: seq<Organization>, selectedOrgId: string, user: User): (r: string)
    ensures selectedOrgId == "" ==> r == user.name
    ensures (forall i :: 0 <= i < |orgs| ==> orgs[i].id != selectedOrgId) ==> r == user.name
    ensures r == user.name || (r != "" && exists i :: FirstWithId(orgs, selectedOrgId, i) && orgs[i].name == r)
  {
    if selectedOrgId != "" then
      var found := FindOrg(orgs, selectedOrgId);
      if found.Some? && found.value.name != "" then found.value.name else user.name
    else
      user.name
  }

  /** With an organization selected, the first one carrying its id names the seller, unless its name is empty. */
  lemma SellerNameOfFirstMatch(orgs: seq<Organization>, selectedOrgId: string, user: User, i: int)
    requires selectedOrgId != "" && FirstWithId(orgs, selectedOrgId, i)
    ensures SellerName(orgs, selectedOrgId, user) == if orgs[i].name != "" then orgs[i].name else user.name
  {
    var found := FindOrg(orgs, selectedOrgId);
    var k :| FirstWithId(orgs, selectedOrgId, k) && orgs[k] == found.value;
  }

  /** The fields `handlePublish` submits: the draft's, priced in TND, for the resolved seller. */
  function BuildListing(user: User, orgs: seq<Organization>, selectedOrgId: string, draft: ProductDraft): (r: NewListing)
    ensures r.price == draft.price && r.currency == Currency
    ensures r.title == draft.title && r.description == draft.description && r.category == draft.category
    ensures r.sellerId == user.id && r.sellerName == SellerName(orgs, selectedOrgId, user)
    ensures r.organizationId.None? <==> selectedOrgId == ""
    ensures r.organizationId.Some? ==> r.organizationId.value == selectedOrgId
  {
    NewListing(
      sellerId := user.id,
      sellerName := SellerName(orgs, selectedOrgId, user),
      organizationId := OrUndefined(selectedOrgId),
      title := draft.title,
      description := draft.description,
      price := draft.price,
      currency := Currency,
      category := draft.category,
      imageUrl := "")
  }

  // ---------------------------------------------------------------------------
  // The session

  /** Everything the session shows and acts on, as one value. */
  datatype WizardView = WizardView(
    step: Step,
    orgs: seq<Organization>,
    selectedOrgId: string,
    originalBase64: Option<string>,
    draft: ProductDraft,
    selectedStyle: string,
    customPrompt: string,
    generatedImage: Option<string>,
    generatedVideo: Option<string>,
    isGeneratingVideo: bool,
    error: Option<string>,
    refining: Option<RefineRequest>,
    lang: Language)

  class Wizard {
    const user: User
    /** The language prop, which the navbar's switcher can change at any time. */
    var lang: Language

    var step: Step
    var orgs: seq<Organization>
    var selectedOrgId: string          // "" is the seller's personal account
    var originalBase64: Option<string>
    var draft: ProductDraft
    var selectedStyle: string
    var customPrompt: string
    var generatedImage: Option<string>
    var generatedVideo: Option<string>
    var isGeneratingVideo: bool
    var error: Option<string>
    /** The arguments of the refinement in progress, which its continuation still holds. */
    var refining: Option<RefineRequest>

    /** The external calls issued and not yet settled. */
    ghost var inFlight: multiset<Call>

    function View(): WizardView
      reads this
    {
      WizardView(step, orgs, selectedOrgId, originalBase64, draft, selectedStyle, customPrompt,
                 generatedImage, generatedVideo, isGeneratingVideo, error, refining, lang)
    }

    /**
     * The session invariant: the publishing view always has an image; each wait
     * view has its call outstanding; the video button's busy flag mirrors the one video call
     * that can be outstanding; the refinement call is issued at most once, on leaving the form,
     * and while it is outstanding the draft is the one it was sent.
     */
    ghost predicate Valid()
      reads this
    {
      (step == Publishing ==> generatedImage.Some?)
      && (step == Refine ==> RefineCall in inFlight)
      && (step == Generating ==> ImageCall in inFlight)
      && (step == Publishing ==> PublishCall in inFlight)
      && inFlight[VideoCall] == (if isGeneratingVideo then 1 else 0)
      && (step == UploadForm ==> inFlight == multiset{})
      && inFlight[RefineCall] <= 1
      && (RefineCall in inFlight <==> refining.Some?)
      && (refining.Some? ==> draft == refining.value.draft)
    }

    /** A fresh session: the empty form, the "studio" style, nothing generated, no error. */
    constructor (user: User, lang: Language)
      ensures Valid() && this.user == user
      ensures View() == WizardView(UploadForm, [], "", None, EmptyDraft, "studio", "", None, None, false, None, None, lang)
      ensures inFlight == multiset{}
    {
      this.user := user;
      this.lang := lang;
      step := UploadForm;
      orgs := [];
      selectedOrgId := "";
      originalBase64 := None;
      draft := EmptyDraft;
      selectedStyle := "studio";
      customPrompt := "";
      generatedImage := None;
      generatedVideo := None;
      isGeneratingVideo := false;
      error := None;
      refining := None;
      inFlight := multiset{};
    }

    /**
     * A new `lang` prop from the navbar's language switcher. The wizard is not remounted, so
     * the session carries on; only later requests see the new language.
     */
    method SetLang(l: Language)
      requires Valid()
      modifies this
      ensures Valid() && View() == old(View()).(lang := l) && inFlight == old(inFlight)
    {
      lang := l;
    }

    /** The organizations loaded when the wizard mounts. */
    method LoadOrgs(loaded: seq<Organization>)
      requires Valid()
      modifies this
      ensures Valid() && View() == old(View()).(orgs := loaded) && inFlight == old(inFlight)
    {
      orgs := loaded;
    }

    /** `handleFileChange` once the photo has been read as base64. */
    method SelectImage(base64: string)
      requires Valid()
      modifies this
      ensures Valid() && View() == old(View()).(originalBase64 := Some(base64)) && inFlight == old(inFlight)
    {
      originalBase64 := Some(base64);
    }

    /** The form inputs (title, price, category, description); the form has no tags input. */
    method EditDraft(edited: ProductDraft)
      requires Valid() && step == UploadForm && edited.tags == draft.tags
      modifies this
      ensures Valid() && View() == old(View()).(draft := edited) && inFlight == old(inFlight)
    {
      draft := edited;
    }

    /** The organization selector, shown on the form when the seller has organizations. */
    method SelectOrg(id: string)
      requires Valid() && step == UploadForm && |orgs| > 0
      requires id == "" || exists i :: 0 <= i < |orgs| && orgs[i].id == id
      modifies this
      ensures Valid() && View() == old(View()).(selectedOrgId := id) && inFlight == old(inFlight)
    {
      selectedOrgId := id;
    }

    /**
     * `handleNextToRefine` up to the refinement call. Without an image, a title or a price it
     * only sets the validation error; otherwise it shows the refine view, clears the error and
     * returns the request it sends: the photo, the draft and the session's language.
     */
    method StartRefine() returns (request: Option<RefineRequest>)
      requires Valid() && step == UploadForm
      modifies this
      ensures Valid()
      ensures request.Some? <==> Present(old(originalBase64)) && old(draft).title != "" && old(draft).price != 0
      ensures request.None? ==> View() == old(View()).(error := Some(ValidationError)) && inFlight == old(inFlight)
      ensures request.Some? ==>
        request.value == RefineRequest(old(originalBase64).value, old(draft), old(lang))
        && View() == old(View()).(step := Refine, error := None, refining := request)
        && inFlight == old(inFlight) + multiset{RefineCall}
    {
      if !Present(originalBase64) || draft.title == "" || draft.price == 0 {
        error := Some(ValidationError);
        return None;
      }
      step := Refine;
      error := None;
      request := Some(RefineRequest(originalBase64.value, draft, lang));
      refining := request;
      inFlight := inFlight + multiset{RefineCall};
    }

    /**
     * The rest of `handleNextToRefine`, given the reply to the refinement's `generateContent`
     * call and the JSON parser: `refineProductDetails` on the draft that was sent replaces the
     * draft, a failure keeps it, and either way the session moves to the style view, whatever
     * view it was on. The price the seller typed survives both ways.
     */
    method FinishRefine(reply: Outcome<string>, parse: string -> Option<AiMediaService.RefinedFields>)
      requires Valid() && RefineCall in inFlight
      modifies this
      ensures Valid()
      ensures var refined := AiMediaService.RefineProductDetails(reply, old(refining).value.draft, parse);
        View() == old(View()).(step := Style, draft := if refined.Ok? then refined.value else old(draft), refining := None)
      ensures draft.price == old(draft).price
      ensures inFlight == old(inFlight) - multiset{RefineCall}
    {
      var refined := AiMediaService.RefineProductDetails(reply, refining.value.draft, parse);
      AiMediaService.RefineKeepsPrice(reply, refining.value.draft, parse);
      SettleRefine(if refined.Ok? then refined.value else draft);
    }

    /** The `setDraft` of a refined draft (or the draft kept) and the `finally`'s move to the style view. */
    method SettleRefine(settled: ProductDraft)
      requires Valid() && RefineCall in inFlight
      modifies this
      ensures Valid() && View() == old(View()).(step := Style, draft := settled, refining := None)
      ensures inFlight == old(inFlight) - multiset{RefineCall}
    {
      draft := settled;
      step := Style;
      refining := None;
      inFlight := inFlight - multiset{RefineCall};
    }

    /** The refine view's "Skip" button. The refinement call stays outstanding. */
    method Skip()
      requires Valid() && step == Refine
      modifies this
      ensures Valid() && View() == old(View()).(step := Style) && inFlight == old(inFlight)
    {
      step := Style;
    }

    /** The style view's four preset buttons and its "Custom Prompt" radio. */
    method SelectStyle(style: string)
      requires Valid() && step == Style
      requires AiMediaService.IsPreset(style) || style == "custom"
      modifies this
      ensures Valid() && View() == old(View()).(selectedStyle := style) && inFlight == old(inFlight)
    {
      selectedStyle := style;
    }

    /** The custom scene input, enabled only while the custom style is selected. */
    method SetCustomPrompt(text: string)
      requires Valid() && step == Style && selectedStyle == "custom"
      modifies this
      ensures Valid() && View() == old(View()).(customPrompt := text) && inFlight == old(inFlight)
    {
      customPrompt := text;
    }

    /**
     * `handleGenerateImage` up to the image-edit call: without an original image it does
     * nothing; otherwise it shows the generating view and returns the prompt it sends, built
     * from the draft's category, the selected style and the custom scene.
     */
    method StartGenerateImage() returns (prompt: Option<string>)
      requires Valid() && step == Style
      modifies this
      ensures Valid()
      ensures !Present(old(originalBase64)) ==> prompt.None? && View() == old(View()) && inFlight == old(inFlight)
      ensures Present(old(originalBase64)) ==>
        prompt == Some(AiMediaService.ConstructGenPrompt(old(draft).category, old(selectedStyle), Some(old(customPrompt))))
        && View() == old(View()).(step := Generating)
        && inFlight == old(inFlight) + multiset{ImageCall}
    {
      if !Present(originalBase64) {
        return None;
      }
      prompt := Some(AiMediaService.ConstructGenPrompt(draft.category, selectedStyle, Some(customPrompt)));
      EnterGenerating();
    }

    /** `setStep('generating')`, with the image call about to be issued. */
    method EnterGenerating()
      requires Valid() && step == Style && Present(originalBase64)
      modifies this
      ensures Valid() && View() == old(View()).(step := Generating)
      ensures inFlight == old(inFlight) + multiset{ImageCall}
    {
      step := Generating;
      inFlight := inFlight + multiset{ImageCall};
    }

    /**
     * The rest of `handleGenerateImage`: the image the call resolved with (possibly none, when
     * the reply's blob had no data) is stored and shown for review; a failure sets the error,
     * goes back to the style view and keeps any earlier image.
     */
    method FinishGenerateImage(outcome: Outcome<Option<string>>)
      requires Valid() && ImageCall in inFlight
      modifies this
      ensures Valid()
      ensures outcome.Ok? ==> View() == old(View()).(generatedImage := outcome.value, step := Review)
      ensures outcome.Err? ==> View() == old(View()).(error := Some(outcome.msg), step := Style)
      ensures inFlight == old(inFlight) - multiset{ImageCall}
    {
      if outcome.Ok? {
        generatedImage := outcome.value;
        step := Review;
      } else {
        error := Some(outcome.msg);
        step := Style;
      }
      inFlight := inFlight - multiset{ImageCall};
    }

    /**
     * `handleGenerateVideo` up to the video call (the review view's button, shown while there is
     * no video and disabled while one is being made): without an image it does nothing;
     * otherwise it marks the video as in progress and returns the image it sends.
     */
    method StartGenerateVideo() returns (request: Option<string>)
      requires Valid() && step == Review && !Present(generatedVideo) && !isGeneratingVideo
      modifies this
      ensures Valid()
      ensures !Present(old(generatedImage)) ==> request.None? && View() == old(View()) && inFlight == old(inFlight)
      ensures Present(old(generatedImage)) ==>
        request == old(generatedImage) && View() == old(View()).(isGeneratingVideo := true)
        && inFlight == old(inFlight) + multiset{VideoCall}
    {
      if !Present(generatedImage) {
        return None;
      }
      isGeneratingVideo := true;
      inFlight := inFlight + multiset{VideoCall};
      return generatedImage;
    }

    /** The rest of `handleGenerateVideo`: a video is stored on success; the step never changes. */
    method FinishGenerateVideo(outcome: Outcome<string>)
      requires Valid() && VideoCall in inFlight
      modifies this
      ensures Valid()
      ensures View() == old(View()).(isGeneratingVideo := false,
                                     generatedVideo := if outcome.Ok? then Some(outcome.value) else old(generatedVideo))
      ensures inFlight == old(inFlight) - multiset{VideoCall}
    {
      if outcome.Ok? {
        generatedVideo := Some(outcome.value);
      }
      isGeneratingVideo := false;
      inFlight := inFlight - multiset{VideoCall};
    }

    /**
     * `handlePublish` up to `createProduct`: without an image it does nothing; otherwise it
     * shows the publishing view and returns the one request it sends.
     */
    method StartPublish() returns (request: Option<PublishRequest>)
      requires Valid() && step == Review
      modifies this
      ensures Valid()
      ensures !Present(old(generatedImage)) ==> request.None? && View() == old(View()) && inFlight == old(inFlight)
      ensures Present(old(generatedImage)) ==>
        request == Some(PublishRequest(BuildListing(user, old(orgs), old(selectedOrgId), old(draft)),
                                       old(generatedImage).value, OrUndefined(old(generatedVideo).GetOr(""))))
        && View() == old(View()).(step := Publishing)
        && inFlight == old(inFlight) + multiset{PublishCall}
    {
      if !Present(generatedImage) {
        return None;
      }
      step := Publishing;
      var listing := BuildListing(user, orgs, selectedOrgId, draft);
      inFlight := inFlight + multiset{PublishCall};
      return Some(PublishRequest(listing, generatedImage.value, OrUndefined(generatedVideo.GetOr(""))));
    }

    /** The rest of `handlePublish`: done on success; on failure the error is set and review is shown again. */
    method FinishPublish(outcome: Outcome<()>)
      requires Valid() && PublishCall in inFlight
      modifies this
      ensures Valid()
      ensures outcome.Ok? ==> View() == old(View()).(step := Done)
      ensures outcome.Err? ==> View() == old(View()).(error := Some(outcome.msg), step := Review)
      ensures inFlight == old(inFlight) - multiset{PublishCall}
    {
      if outcome.Ok? {
        step := Done;
      } else {
        error := Some(outcome.msg);
        step := Review;
      }
      inFlight := inFlight - multiset{PublishCall};
    }

    /** The review view's "Try Different Style" button. */
    method TryDifferentStyle()
      requires Valid() && step == Review
      modifies this
      ensures Valid() && View() == old(View()).(step := Style) && inFlight == old(inFlight)
    {
      step := Style;
    }
  }
}
