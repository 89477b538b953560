/** The logo page of the admin area (src/components/admin/BrandIdentityPage.tsx):
    a pending logo, taken from an address or an uploaded file, that saving
    hands to the store. `null` is `None`; a file arrives as its data URL. */
module BrandIdentity {
  import opened Wrappers
  import opened Text
  import ImageUploader
  import Store

  const HttpStart: string := "http"
  const DataStart: string := "data:"

  /** The test of handleAddFromUrl (src/components/admin/BrandIdentityPage.tsx:26). */
  predicate AcceptedLogoUrl(url: string) {
    url != "" && (StartsWith(url, HttpStart) || StartsWith(url, DataStart))
  }

  /** Every address the product gallery accepts is accepted as a logo too. */
  lemma GalleryUrlsAreLogoUrls(url: string)
    requires ImageUploader.AcceptedUrl(url)
    ensures AcceptedLogoUrl(url)
  {
    if StartsWith(url, ImageUploader.HttpPrefix) {
      assert url[..4] == ImageUploader.HttpPrefix[..4];
    } else {
      assert url[..4] == ImageUploader.HttpsPrefix[..4];
    }
  }

  /** JavaScript's truthiness of `newLogo`. */
  predicate HasPendingLogo(newLogo: Option<string>) {
    newLogo.Some? && newLogo.value != ""
  }

  class LogoPage {
    var newLogo: Option<string>
    var urlInput: string

    constructor ()
      ensures newLogo == None && urlInput == ""
    {
      newLogo := None;
      urlInput := "";
    }

    method SetUrlInput(text: string)
      modifies this`urlInput
      ensures urlInput == text
    {
      urlInput := text;
    }

    /** handleFileChange's read finishing (src/components/admin/BrandIdentityPage.tsx:18-20). */
    method HandleFileLoaded(dataUrl: string)
      modifies this`newLogo
      ensures newLogo == Some(dataUrl)
    {
      newLogo := Some(dataUrl);
    }

    /** handleAddFromUrl (src/components/admin/BrandIdentityPage.tsx:25-30): an
        accepted address becomes the pending logo and the box is cleared; any
        other leaves both as they were. */
    method HandleAddFromUrl() returns (accepted: bool)
      modifies this
      ensures accepted <==> AcceptedLogoUrl(old(urlInput))
      ensures accepted ==> newLogo == Some(old(urlInput)) && urlInput == ""
      ensures !accepted ==> newLogo == old(newLogo) && urlInput == old(urlInput)
    {
      if urlInput != "" && (StartsWith(urlInput, HttpStart) || StartsWith(urlInput, DataStart)) {
        newLogo := Some(urlInput);
        urlInput := "";
        accepted := true;
      } else {
        accepted := false;
      }
    }

    /** Whether the save button can be pressed (src/components/admin/BrandIdentityPage.tsx:96). */
    function SaveEnabled(): bool
      reads this
    {
      HasPendingLogo(newLogo)
    }

    /** handleSaveChanges (src/components/admin/BrandIdentityPage.tsx:32-37):
        the logo passed to `onUpdateLogo`, if any; after it the page has no
        pending logo. */
    method HandleSaveChanges() returns (update: Option<string>)
      modifies this`newLogo
      ensures HasPendingLogo(old(newLogo)) ==> update == old(newLogo) && newLogo == None
      ensures !HasPendingLogo(old(newLogo)) ==> update == None && newLogo == old(newLogo)
      ensures update.Some? <==> old(SaveEnabled())
    {
      if newLogo.Some? && newLogo.value != "" {
        update := newLogo;
        newLogo := None;
      } else {
        update := None;
      }
    }
  }

  /** Pasting an accepted address and saving makes it the store's logo. */
  method UseLogoFromUrl(app: Store.Store, url: string)
    requires app.Valid() && AcceptedLogoUrl(url)
    modifies app
    ensures app.Valid() && app.logoUrl == url
  {
    var page := new LogoPage();
    page.SetUrlInput(url);
    var accepted := page.HandleAddFromUrl();
    assert accepted;
    var update := page.HandleSaveChanges();
    app.HandleUpdateLogo(update.value);
  }
}
