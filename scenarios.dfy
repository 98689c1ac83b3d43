/**
 * Client runs of the model that check, from the contracts alone, how the components behave
 * over a sequence of user actions and call outcomes.
 */
module Scenarios {
  import opened Wrappers
  import opened Types
  import opened Strings
  import AiMediaService
  import opened MagicUploader
  import opened HabibiChat
  import Dashboard

  /**
   * A "Lamp" priced 50 whose refinement fails: the session still reaches the style view with
   * the seller's own title; the luxury style's prompt is sent; the image comes back; publishing
   * sends exactly one request, priced 50 in TND, and the session is done.
   */
  method LampListing(user: User, photo: string, image: string, parse: string -> Option<AiMediaService.RefinedFields>)
    requires photo != "" && image != ""
  {
    var w := new Wizard(user, En);
    w.SelectImage(photo);
    w.EditDraft(w.draft.(title := "Lamp", price := 50));
    var request := w.StartRefine();
    assert request == Some(RefineRequest(photo, w.draft, En)) && w.step == Refine;
    w.FinishRefine(Err("network error"), parse);
    assert w.step == Style && w.draft.title == "Lamp" && w.draft.price == 50;
    w.SelectStyle("luxury");
    var prompt := w.StartGenerateImage();
    assert prompt == Some(AiMediaService.ConstructGenPrompt(w.draft.category, "luxury", Some(w.customPrompt)));
    assert w.step == Generating;
    w.FinishGenerateImage(Ok(Some(image)));
    assert w.step == Review && w.generatedImage == Some(image);
    var publish := w.StartPublish();
    assert w.step == Publishing;
    assert publish.Some? && publish.value.listing.price == 50 && publish.value.listing.currency == "TND";
    assert publish.value.image == image && publish.value.video.None?;
    w.FinishPublish(Ok(()));
    assert w.step == Done;
    assert w.inFlight == multiset{};
  }

  /**
   * Skip does not cancel the refinement: when it settles after the seller has moved on to
   * generating, the parsed fields replace the draft's, the price typed on the form stays, and
   * the session returns to the style view, from where a second image request can be issued
   * while the first is still outstanding.
   */
  method SkipThenLateRefinement(user: User, photo: string, reply: string, fields: AiMediaService.RefinedFields)
    requires photo != "" && reply != ""
  {
    var w := new Wizard(user, Fr);
    w.SelectImage(photo);
    w.EditDraft(w.draft.(title := "Lamp", price := 50));
    var request := w.StartRefine();
    assert request.Some? && request.value.lang == Fr;
    w.Skip();
    var first := w.StartGenerateImage();
    assert w.step == Generating && first.Some?;
    w.FinishRefine(Ok(reply), (t: string) => Some(fields));
    assert w.step == Style && w.draft.title == fields.title && w.draft.tags == fields.tags && w.draft.price == 50;
    var second := w.StartGenerateImage();
    assert second.Some? && w.inFlight[ImageCall] == 2;
  }

  /**
   * An image reply whose first blob carries no data, after a text part: the scan stops at that
   * blob and the call resolves with nothing rather than failing.
   */
  method BlobWithoutData(text: string) returns (edited: Outcome<Option<string>>)
    ensures edited == Ok(None)
  {
    var parts := [AiMediaService.Part(None, Some(text)), AiMediaService.Part(Some(AiMediaService.Blob(Some("image/png"), None)), None)];
    assert AiMediaService.FirstCandidateParts([AiMediaService.Candidate(Some(parts))]) == parts;
    assert parts[1].inlineData.Some?;
    edited := AiMediaService.EditProductImage(Ok([AiMediaService.Candidate(Some(parts))]));
  }

  /**
   * When the image call resolves with nothing, the review view shows no image, and neither a
   * video nor publishing can start from it.
   */
  method ReviewWithoutImage(user: User, photo: string)
    requires photo != ""
  {
    var w := new Wizard(user, Ar);
    w.SelectImage(photo);
    w.EditDraft(w.draft.(title := "Lamp", price := 50));
    var request := w.StartRefine();
    w.FinishRefine(Err("network error"), (t: string) => None);
    var prompt := w.StartGenerateImage();
    w.FinishGenerateImage(Ok(None));
    assert w.step == Review && w.generatedImage.None?;
    var video := w.StartGenerateVideo();
    assert video.None?;
    var publish := w.StartPublish();
    assert publish.None? && w.step == Review;
  }

  /**
   * A reply streamed as two text chunks with an empty one between them, then a failure: the
   * reply message keeps the text that arrived and does not show the error; loading ends.
   */
  method StreamThenFail(welcome: string, first: string, second: string, errorText: string)
    requires first != ""
  {
    var c := new Chat(En, welcome);
    c.OpenSession(En, "1", welcome);
    assert !Blank("Aslema") by { assert !IsWhitespace("Aslema"[0]); }
    var request := c.BeginSend("Aslema", "2", "3");
    assert request == Some("Aslema") && c.isLoading && |c.messages| == 4;
    assert c.messages[3] == ChatMessage("3", ModelRole, "", true);
    var before := c.messages;
    var chunks := [first, "", second];
    assert Concat(chunks) == first + second by {
      assert Concat([first]) == first by { assert [first][..0] == []; }
      assert Concat([first, ""]) == first by { assert [first, ""][..1] == [first]; }
      assert chunks[..2] == [first, ""];
    }
    assert AnyText(chunks) by { assert chunks[0] != ""; }
    c.ReceiveStream(chunks);
    assert c.messages == ShowReply(before, "3", first + second) by {
      assert "" + Concat(chunks) == first + second;
    }
    assert c.messages[3].text == first + second && !c.messages[3].isThinking;
    c.EndSend(Some(errorText));
    assert c.messages[3].text == first + second && !c.isLoading;
  }

  /**
   * A delete answered with an empty error message counts as a success: `!error` holds for "",
   * so the listing is filtered out.
   */
  method EmptyDeleteErrorRemoves(user: User, listing: ProductListing)
  {
    var d := new Dashboard.Dashboard(user);
    d.LoadData([listing], []);
    var requested := d.BeginDelete(listing.id, true);
    d.FinishDelete(listing.id, Some(""));
    assert d.products == [] && d.deletingId.None?;
  }

  /**
   * The language can be switched while the seller fills in the form: the refinement request
   * carries the language showing when Next is pressed, not the one the wizard was opened in.
   */
  method LanguageSwitchBeforeRefine(user: User, photo: string)
    requires photo != ""
  {
    var w := new Wizard(user, En);
    w.SelectImage(photo);
    w.EditDraft(w.draft.(title := "Lamp", price := 50));
    w.SetLang(Fr);
    var request := w.StartRefine();
    assert request.Some? && request.value.lang == Fr;
  }
}
