/** The two pages sharing one store: what the display page shows after the
    form has been submitted. */
module Session {
  import opened ContactRecord
  import opened Browser
  import VCard
  import FormPage
  import HomePage

  /** Submitting the form and then mounting the display page on the same store
      hands the QR encoder the vCard of the submitted draft and puts the
      draft's title and full name in the footer. */
  method SubmitThenShow(form: FormPage.Form) returns (page: HomePage.Page, effect: HomePage.MountEffect)
    modifies form.storage
    ensures effect == HomePage.EncodeRequested(VCard.VCard(form.draft))
    ensures page.contactData == Some(form.draft)
    ensures HomePage.FooterLabel(page.title, page.fullName)
            == HomePage.FooterLabel(Text(form.draft.title), Text(form.draft.fullName))
  {
    var _ := form.HandleSubmit();
    page := new HomePage.Page(form.storage);
    effect := page.Mount();
  }

  /** Opening the display page on a store that was never written shows the
      footer placeholder, the QR placeholder and no record. */
  method ShowWithoutData(storage: LocalStorage) returns (page: HomePage.Page)
    requires storage.contactInfo == None
    ensures page.contactData == None
    ensures HomePage.FooterLabel(page.title, page.fullName) == HomePage.FooterPlaceholder
    ensures HomePage.QrArea(page.qrCodeUrl) == HomePage.QrPlaceholder
  {
    page := new HomePage.Page(storage);
    var effect := page.Mount();
    assert effect == HomePage.NothingStored;
  }
}
