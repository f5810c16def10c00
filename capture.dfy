/**
 * The capture menu: a floating button that opens a menu of content kinds, one
 * dialog per kind, and the submit handler of each dialog. A dialog's submit is a
 * guard on its required field followed by a payload with defaults; a payload that
 * passes its guard goes to the content store under the dialog's own tag and the
 * dialog closes. The search, generate, record and capture steps of four dialogs
 * are state updates whose timer completions are explicit events here.
 */
module Capture {
  import opened Payload
  import Feed

  // ---------------------------------------------------------------------------
  // The menu and the dialog table

  /** The fourteen dialogs. */
  datatype Modal =
    | PdfModal | DocumentModal | ImageUploadModal | ImageSearchModal | AIImageModal
    | ScreenshotModal | YouTubeModal | VideoUploadModal | AudioModal | CodeModal
    | CalculatorModal | CalendarModal | LinkModal | WebsiteModal

  /** The tag a dialog submits under; it is also the id of its menu option. */
  function TagOf(m: Modal): string {
    match m
    case PdfModal => "pdf"
    case DocumentModal => "doc"
    case ImageUploadModal => "image-upload"
    case ImageSearchModal => "image-search"
    case AIImageModal => "image-ai"
    case ScreenshotModal => "screenshot"
    case YouTubeModal => "video-youtube"
    case VideoUploadModal => "video-upload"
    case AudioModal => "audio"
    case CodeModal => "code"
    case CalculatorModal => "calculator"
    case CalendarModal => "calendar"
    case LinkModal => "link"
    case WebsiteModal => "website"
  }

  /** The menu's option ids, in the order the menu lists them (Documents, Images,
      Media, Interactive, Links & References). */
  const MenuOptions: seq<string> := [
    "pdf", "doc",
    "image-upload", "image-search", "image-ai", "screenshot",
    "video-youtube", "video-upload", "audio",
    "code", "calculator", "calendar",
    "link", "website"
  ]

  /** The lookup in the dialog table: an id that is not a key yields nothing. */
  function LookupModal(id: string): (r: Option<Modal>)
    ensures r.Some? ==> TagOf(r.value) == id
  {
    match id
    case "pdf" => Some(PdfModal)
    case "doc" => Some(DocumentModal)
    case "image-upload" => Some(ImageUploadModal)
    case "image-search" => Some(ImageSearchModal)
    case "image-ai" => Some(AIImageModal)
    case "screenshot" => Some(ScreenshotModal)
    case "video-youtube" => Some(YouTubeModal)
    case "video-upload" => Some(VideoUploadModal)
    case "audio" => Some(AudioModal)
    case "code" => Some(CodeModal)
    case "calculator" => Some(CalculatorModal)
    case "calendar" => Some(CalendarModal)
    case "link" => Some(LinkModal)
    case "website" => Some(WebsiteModal)
    case _ => None
  }

  /** renderModal: no dialog while `showModal` is null or empty, otherwise the table
      entry for it, if any. */
  function ModalFor(showModal: Option<string>): (r: Option<Modal>)
    ensures showModal.None? || showModal.value == "" ==> r.None?
    ensures r.Some? ==> showModal == Some(TagOf(r.value))
  {
    if showModal.None? || showModal.value == "" then None else LookupModal(showModal.value)
  }

  /** Every dialog is found under its own tag, so the table has one entry per dialog
      and no two dialogs share a tag. */
  lemma TagRoundTrip(m: Modal)
    ensures LookupModal(TagOf(m)) == Some(m)
    ensures ModalFor(Some(TagOf(m))) == Some(m)
  {
  }

  lemma TagOfInjective(m: Modal, n: Modal)
    ensures TagOf(m) == TagOf(n) ==> m == n
  {
    TagRoundTrip(m);
    TagRoundTrip(n);
  }

  /** The menu lists exactly the fourteen dialogs, each once. */
  lemma MenuMatchesTable()
    ensures |MenuOptions| == 14
    ensures forall i :: 0 <= i < |MenuOptions| ==> LookupModal(MenuOptions[i]).Some?
    ensures forall m: Modal :: TagOf(m) in MenuOptions
  {
    forall i | 0 <= i < |MenuOptions| ensures LookupModal(MenuOptions[i]).Some? {
    }
    forall m: Modal ensures TagOf(m) in MenuOptions {
      var i := match m
        case PdfModal => 0 case DocumentModal => 1 case ImageUploadModal => 2
        case ImageSearchModal => 3 case AIImageModal => 4 case ScreenshotModal => 5
        case YouTubeModal => 6 case VideoUploadModal => 7 case AudioModal => 8
        case CodeModal => 9 case CalculatorModal => 10 case CalendarModal => 11
        case LinkModal => 12 case WebsiteModal => 13;
      assert MenuOptions[i] == TagOf(m);
    }
  }

  /** No option id is listed twice, so TagOf is one-to-one on the dialogs. */
  lemma MenuOptionsDistinct()
    ensures forall i, j :: 0 <= i < j < |MenuOptions| ==> MenuOptions[i] != MenuOptions[j]
  {
    forall i, j | 0 <= i < j < |MenuOptions| ensures MenuOptions[i] != MenuOptions[j] {
      var a, b := LookupModal(MenuOptions[i]), LookupModal(MenuOptions[j]);
      assert a.Some? && b.Some?;
      assert a != b;
    }
  }

  // ---------------------------------------------------------------------------
  // The submit handlers, as payload builders. `None` means the handler returns
  // without calling onSubmit.

  /** PDF: needs a file; pages default to "all". */
  function PdfSubmit(file: Option<FileRef>, pages: string): (r: Option<Data>)
    ensures r.Some? <==> file.Some?
    ensures r.Some? ==> r.value.Keys == {"file", "pages", "name"}
    ensures r.Some? ==> Get(r.value, "file") == Some(File(file.value))
    ensures r.Some? ==> Get(r.value, "name") == Some(Str(file.value.name))
    ensures r.Some? ==> Truthy(Get(r.value, "pages"))
    ensures r.Some? ==> Get(r.value, "pages") == Some(Str(if pages == "" then "all" else pages))
  {
    match file
    case None => None
    case Some(f) => Some(map["file" := File(f), "pages" := Str(OrElse(pages, "all")), "name" := Str(f.name)])
  }

  /** Document: needs a file; records its name and MIME type. */
  function DocumentSubmit(file: Option<FileRef>): (r: Option<Data>)
    ensures r.Some? <==> file.Some?
    ensures r.Some? ==> r.value.Keys == {"file", "name", "type"}
    ensures r.Some? ==> Get(r.value, "file") == Some(File(file.value))
    ensures r.Some? ==> Get(r.value, "name") == Some(Str(file.value.name))
    ensures r.Some? ==> Get(r.value, "type") == Some(Str(file.value.mime))
  {
    match file
    case None => None
    case Some(f) => Some(map["file" := File(f), "name" := Str(f.name), "type" := Str(f.mime)])
  }

  /** Image upload: needs a file; the preview is null until the file reader has
      delivered it. */
  function ImageUploadSubmit(file: Option<FileRef>, preview: Option<string>): (r: Option<Data>)
    ensures r.Some? <==> file.Some?
    ensures r.Some? ==> r.value.Keys == {"file", "name", "preview"}
    ensures r.Some? ==> Get(r.value, "name") == Some(Str(file.value.name))
    ensures r.Some? ==> Get(r.value, "file") == Some(File(file.value))
    ensures r.Some? ==> (Get(r.value, "preview") == Some(Null) <==> preview.None?)
    ensures r.Some? && preview.Some? ==> Get(r.value, "preview") == Some(Str(preview.value))
  {
    match file
    case None => None
    case Some(f) =>
      Some(map["file" := File(f), "name" := Str(f.name),
               "preview" := if preview.Some? then Str(preview.value) else Null])
  }

  /** Image search: needs a selected result (a non-empty string). */
  function ImageSearchSubmit(selected: Option<string>, query: string): (r: Option<Data>)
    ensures r.Some? <==> selected.Some? && selected.value != ""
    ensures r.Some? ==> r.value.Keys == {"url", "query", "source"}
    ensures r.Some? ==> Get(r.value, "url") == Some(Str(selected.value))
    ensures r.Some? ==> Get(r.value, "query") == Some(Str(query))
    ensures r.Some? ==> Get(r.value, "source") == Some(Str("Google Images"))
  {
    if selected.Some? && selected.value != "" then
      Some(map["url" := Str(selected.value), "query" := Str(query), "source" := Str("Google Images")])
    else None
  }

  /** AI image: needs a generated image. */
  function AIImageSubmit(generatedImage: Option<string>, prompt: string, style: string): (r: Option<Data>)
    ensures r.Some? <==> generatedImage.Some? && generatedImage.value != ""
    ensures r.Some? ==> r.value.Keys == {"url", "prompt", "style", "source"}
    ensures r.Some? ==> Get(r.value, "url") == Some(Str(generatedImage.value))
    ensures r.Some? ==> Get(r.value, "prompt") == Some(Str(prompt))
    ensures r.Some? ==> Get(r.value, "style") == Some(Str(style))
    ensures r.Some? ==> Get(r.value, "source") == Some(Str("AI Generated"))
  {
    if generatedImage.Some? && generatedImage.value != "" then
      Some(map["url" := Str(generatedImage.value), "prompt" := Str(prompt),
               "style" := Str(style), "source" := Str("AI Generated")])
    else None
  }

  const ScreenshotImage: string :=
    "https://images.pexels.com/photos/1181244/pexels-photo-1181244.jpeg?auto=compress&cs=tinysrgb&w=800"

  /** What the capture timer submits; `isoNow` is the clock reading when it fires. */
  function ScreenshotPayload(isoNow: string): (r: Data)
    ensures r.Keys == {"url", "source", "timestamp"}
    ensures Get(r, "url") == Some(Str(ScreenshotImage))
    ensures Get(r, "source") == Some(Str("Screenshot"))
    ensures Get(r, "timestamp") == Some(Str(isoNow))
  {
    map["url" := Str(ScreenshotImage), "source" := Str("Screenshot"), "timestamp" := Str(isoNow)]
  }

  /** YouTube: needs a URL; the title is fixed. */
  function YouTubeSubmit(url: string): (r: Option<Data>)
    ensures r.Some? <==> url != ""
    ensures r.Some? ==> r.value.Keys == {"url", "source", "title"}
    ensures r.Some? ==> Get(r.value, "url") == Some(Str(url))
    ensures r.Some? ==> Get(r.value, "title") == Some(Str("YouTube Video"))
  {
    if url != "" then Some(map["url" := Str(url), "source" := Str("YouTube"), "title" := Str("YouTube Video")])
    else None
  }

  /** Video upload: needs a file. */
  function VideoUploadSubmit(file: Option<FileRef>): (r: Option<Data>)
    ensures r.Some? <==> file.Some?
    ensures r.Some? ==> r.value.Keys == {"file", "name", "source"}
    ensures r.Some? ==> Get(r.value, "file") == Some(File(file.value))
    ensures r.Some? ==> Get(r.value, "name") == Some(Str(file.value.name))
    ensures r.Some? ==> Get(r.value, "source") == Some(Str("Upload"))
  {
    match file
    case None => None
    case Some(f) => Some(map["file" := File(f), "name" := Str(f.name), "source" := Str("Upload")])
  }

  /** Audio: needs a file; the duration is the recording counter, whatever it is. */
  function AudioSubmit(file: Option<FileRef>, recordingTime: int): (r: Option<Data>)
    ensures r.Some? <==> file.Some?
    ensures r.Some? ==> r.value.Keys == {"file", "name", "duration", "source"}
    ensures r.Some? ==> Get(r.value, "name") == Some(Str(file.value.name))
    ensures r.Some? ==> Get(r.value, "file") == Some(File(file.value))
    ensures r.Some? ==> Get(r.value, "duration") == Some(Int(recordingTime))
    ensures r.Some? ==> Get(r.value, "source") == Some(Str("Recording"))
  {
    match file
    case None => None
    case Some(f) =>
      Some(map["file" := File(f), "name" := Str(f.name), "duration" := Int(recordingTime),
               "source" := Str("Recording")])
  }

  /** Code: refused when the code trims to nothing; the title defaults to
      "<language> code". */
  function CodeSubmit(code: string, language: string, title: string): (r: Option<Data>)
    ensures r.Some? <==> Trim(code) != ""
    ensures r.Some? ==> r.value == CodePayload(code, language, title)
  {
    if Trim(code) != "" then Some(CodePayload(code, language, title)) else None
  }

  /** The payload the code dialog submits once its guard passes. */
  function CodePayload(code: string, language: string, title: string): (r: Data)
    ensures r.Keys == {"code", "language", "title", "source"}
    ensures Get(r, "code") == Some(Str(code))
    ensures Get(r, "language") == Some(Str(language))
    ensures Get(r, "title") == Some(Str(if title == "" then language + " code" else title))
  {
    map["code" := Str(code), "language" := Str(language),
        "title" := Str(OrElse(title, language + " code")), "source" := Str("Code Editor")]
  }

  /** Code made only of white space and line breaks is refused; anything else is
      accepted. */
  lemma CodeSubmitRefusesBlank(code: string, language: string, title: string)
    ensures CodeSubmit(code, language, title).Some? <==> !Blank(code)
  {
    TrimEmptyIffBlank(code);
  }

  /** The code dialog's initial language, and the languages its selector offers. */
  const DefaultLanguage: string := "python"

  const LanguageIds: seq<string> := ["python", "javascript", "java", "cpp", "html", "css"]

  /** Code submitted straight after the dialog opens, with the language and title
      left alone, is stored as Python under the title "python code". */
  lemma CodeDefaultsShown(code: string)
    requires !Blank(code)
    ensures CodeSubmit(code, DefaultLanguage, "").Some?
    ensures Get(CodeSubmit(code, DefaultLanguage, "").value, "language") == Some(Str("python"))
    ensures Get(CodeSubmit(code, DefaultLanguage, "").value, "title") == Some(Str("python" + " code"))
  {
    CodeSubmitRefusesBlank(code, DefaultLanguage, "");
  }

  class CodeDialog {
    var code: string
    var language: string
    var title: string

    ghost predicate Valid()
      reads this
    {
      language in LanguageIds
    }

    constructor ()
      ensures Valid() && code == "" && language == DefaultLanguage && title == ""
    {
      code, language, title := "", DefaultLanguage, "";
    }

    method SetCode(c: string)
      modifies this`code
      ensures code == c
    {
      code := c;
    }

    /** The language selector offers only the listed languages. */
    method SetLanguage(id: string)
      requires id in LanguageIds
      modifies this`language
      ensures language == id && Valid()
    {
      language := id;
    }

    method SetTitle(t: string)
      modifies this`title
      ensures title == t
    {
      title := t;
    }

    /** The Add Code button: refused while the code is blank. */
    method Submit() returns (payload: Option<Data>)
      requires Valid()
      ensures payload == CodeSubmit(code, language, title)
      ensures payload.Some? <==> !Blank(code)
      ensures payload.Some? ==> Get(payload.value, "language") == Some(Str(language)) && language in LanguageIds
    {
      CodeSubmitRefusesBlank(code, language, title);
      payload := CodeSubmit(code, language, title);
    }
  }

  /** Calculator and calendar submit without a guard. */
  function CalculatorPayload(): (r: Data)
    ensures r.Keys == {"type", "title", "source"}
    ensures Get(r, "title") == Some(Str("Interactive Calculator"))
  {
    map["type" := Str("calculator"), "title" := Str("Interactive Calculator"), "source" := Str("Calculator Widget")]
  }

  function CalendarPayload(): (r: Data)
    ensures r.Keys == {"type", "title", "source"}
    ensures Get(r, "title") == Some(Str("Study Calendar"))
  {
    map["type" := Str("calendar"), "title" := Str("Study Calendar"), "source" := Str("Calendar Widget")]
  }

  /** Link and website: need a URL; the title defaults to the URL. */
  function LinkSubmit(url: string, title: string, source: string): (r: Option<Data>)
    ensures r.Some? <==> url != ""
    ensures r.Some? ==> r.value.Keys == {"url", "title", "source"}
    ensures r.Some? ==> Get(r.value, "url") == Some(Str(url))
    ensures r.Some? ==> Get(r.value, "title") == Some(Str(if title == "" then url else title))
    ensures r.Some? ==> Truthy(Get(r.value, "title"))
    ensures r.Some? ==> Get(r.value, "source") == Some(Str(source))
  {
    if url != "" then Some(map["url" := Str(url), "title" := Str(OrElse(title, url)), "source" := Str(source)])
    else None
  }

  function WebLinkSubmit(url: string, title: string): (r: Option<Data>) {
    LinkSubmit(url, title, "Web Link")
  }

  function WebsiteSubmit(url: string, title: string): (r: Option<Data>) {
    LinkSubmit(url, title, "Website Embed")
  }

  // ---------------------------------------------------------------------------
  // What the feed shows for a submitted payload

  lemma PdfSubmitShown(file: FileRef, pages: string, id: int, iso: string)
    ensures Feed.Render(Feed.Block(id, TagOf(PdfModal), PdfSubmit(Some(file), pages).value, iso)) ==
      Feed.PdfView("PDF: " + file.name, Some(Str(file.name)), Some(Str(if pages == "" then "all" else pages)))
  {
  }

  lemma CodeSubmitShown(code: string, language: string, title: string, id: int, iso: string)
    ensures Feed.Render(Feed.Block(id, TagOf(CodeModal), CodePayload(code, language, title), iso)) ==
      Feed.CodeView(Some(Str(if title == "" then language + " code" else title)), Some(Str(code)), Some(Str(language)))
  {
    var d := CodePayload(code, language, title);
    assert Feed.Render(Feed.Block(id, "code", d, iso)) ==
      Feed.CodeView(Get(d, "title"), Get(d, "code"), Get(d, "language"));
  }

  lemma WebLinkSubmitShown(url: string, title: string, id: int, iso: string)
    requires url != ""
    ensures Feed.Render(Feed.Block(id, TagOf(LinkModal), WebLinkSubmit(url, title).value, iso)) ==
      Feed.LinkView("Link: " + (if title == "" then url else title), Some(Str(url)))
  {
  }

  /** The website tag has no rendering rule of its own: a submitted website is shown
      by the generic rule, with the raw payload and its source "Website Embed". */
  lemma WebsiteSubmitShown(url: string, title: string, id: int, iso: string)
    requires url != ""
    ensures var d := WebsiteSubmit(url, title).value;
      Feed.Render(Feed.Block(id, TagOf(WebsiteModal), d, iso)) == Feed.GenericView("website" + " Content", d)
      && Get(d, "source") == Some(Str("Website Embed"))
      && Get(d, "title") == Some(Str(if title == "" then url else title))
  {
    var d := WebsiteSubmit(url, title).value;
    Feed.UnlistedTagsAreGeneric(Feed.Block(id, "website", d, iso));
  }

  /** A searched image is titled by its source and shows the chosen result with the
      query as its caption. */
  lemma ImageSearchSubmitShown(selected: string, query: string, id: int, iso: string)
    requires selected != "" && query != ""
    ensures var v := Feed.Render(Feed.Block(id, TagOf(ImageSearchModal),
                                            ImageSearchSubmit(Some(selected), query).value, iso));
      v.ImageView? && v.title == "Image: " + "Google Images" && v.src == Some(Str(selected))
      && v.searchCaption == Some(Str(query)) && v.promptCaption.None?
  {
    var d := ImageSearchSubmit(Some(selected), query).value;
    Feed.ImageTagsShareRule(Feed.Block(id, "image-search", d, iso));
  }

  /** An uploaded image carries no source and no URL: it is titled "Uploaded" and
      shows its preview. */
  lemma ImageUploadSubmitShown(file: FileRef, preview: string, id: int, iso: string)
    requires preview != ""
    ensures var v := Feed.Render(Feed.Block(id, TagOf(ImageUploadModal),
                                            ImageUploadSubmit(Some(file), Some(preview)).value, iso));
      v.ImageView? && v.title == "Image: " + "Uploaded" && v.src == Some(Str(preview))
  {
    var d := ImageUploadSubmit(Some(file), Some(preview)).value;
    Feed.ImageTagsShareRule(Feed.Block(id, "image-upload", d, iso));
  }

  lemma AIImageSubmitShown(image: string, prompt: string, style: string, id: int, iso: string)
    requires image != "" && prompt != ""
    ensures var v := Feed.Render(Feed.Block(id, TagOf(AIImageModal),
                                            AIImageSubmit(Some(image), prompt, style).value, iso));
      v.ImageView? && v.title == "Image: " + "AI Generated" && v.src == Some(Str(image))
      && v.promptCaption == Some(Str(prompt)) && v.searchCaption.None?
  {
    var d := AIImageSubmit(Some(image), prompt, style).value;
    Feed.ImageTagsShareRule(Feed.Block(id, "image-ai", d, iso));
  }

  // ---------------------------------------------------------------------------
  // The menu component

  class AddMenu {
    var isOpen: bool
    var showModal: Option<string>

    constructor ()
      ensures !isOpen && showModal.None?
    {
      isOpen := false;
      showModal := None;
    }

    /** The dialog on screen. */
    function OpenModal(): Option<Modal>
      reads this
    {
      ModalFor(showModal)
    }

    /** The floating button. */
    method ToggleMenu()
      modifies this
      ensures isOpen == !old(isOpen) && showModal == old(showModal)
    {
      isOpen := !isOpen;
    }

    /** A click on the overlay. */
    method CloseMenu()
      modifies this
      ensures !isOpen && showModal == old(showModal)
    {
      isOpen := false;
    }

    /** handleOptionClick: the menu closes and the chosen dialog opens. */
    method OptionClick(id: string)
      modifies this
      ensures !isOpen && showModal == Some(id)
      ensures id in MenuOptions ==> OpenModal().Some? && TagOf(OpenModal().value) == id
    {
      isOpen := false;
      showModal := Some(id);
      MenuMatchesTable();
    }

    /** handleModalSubmit: one block under the given tag, then the dialog closes. */
    method ModalSubmit(store: Feed.ContentStore, tag: string, data: Data, now: int, isoNow: string)
      modifies this, store
      ensures store.blocks == old(store.blocks) + [Feed.Block(now, tag, data, isoNow)]
      ensures showModal.None? && OpenModal().None? && isOpen == old(isOpen)
    {
      store.AddContent(tag, data, now, isoNow);
      showModal := None;
    }

    /** A dialog's submit: nothing happens when its guard fails; otherwise the payload
        is stored under that dialog's tag and the dialog closes. */
    method FormSubmit(store: Feed.ContentStore, m: Modal, payload: Option<Data>, now: int, isoNow: string)
      modifies this, store
      ensures payload.None? ==> store.blocks == old(store.blocks) && showModal == old(showModal)
      ensures payload.Some? ==>
        store.blocks == old(store.blocks) + [Feed.Block(now, TagOf(m), payload.value, isoNow)] &&
        showModal.None?
      ensures isOpen == old(isOpen)
    {
      if payload.Some? {
        ModalSubmit(store, TagOf(m), payload.value, now, isoNow);
      }
    }

    /** A dialog's Cancel button. */
    method Cancel()
      modifies this
      ensures showModal.None? && isOpen == old(isOpen)
    {
      showModal := None;
    }
  }

  // ---------------------------------------------------------------------------
  // The dialogs with steps before their submit

  const SearchResults: seq<string> := [
    "https://images.pexels.com/photos/1181671/pexels-photo-1181671.jpeg?auto=compress&cs=tinysrgb&w=400",
    "https://images.pexels.com/photos/574071/pexels-photo-574071.jpeg?auto=compress&cs=tinysrgb&w=400",
    "https://images.pexels.com/photos/1181244/pexels-photo-1181244.jpeg?auto=compress&cs=tinysrgb&w=400",
    "https://images.pexels.com/photos/1181263/pexels-photo-1181263.jpeg?auto=compress&cs=tinysrgb&w=400"
  ]

  class ImageSearch {
    var query: string
    var results: seq<string>
    var selected: Option<string>
    var isSearching: bool
    /** Search timers started and not yet fired. */
    var pendingSearches: nat

    constructor ()
      ensures query == "" && results == [] && selected.None? && !isSearching && pendingSearches == 0
    {
      query := "";
      results := [];
      selected := None;
      isSearching := false;
      pendingSearches := 0;
    }

    method SetQuery(q: string)
      modifies this`query
      ensures query == q
    {
      query := q;
    }

    /** handleSearch, from the Search button (disabled while a search runs): a query
        that trims to nothing changes nothing. */
    method Search()
      requires !isSearching
      modifies this
      ensures Blank(query) ==> isSearching == old(isSearching) && pendingSearches == old(pendingSearches)
      ensures !Blank(query) ==> isSearching && pendingSearches == old(pendingSearches) + 1
      ensures query == old(query) && results == old(results) && selected == old(selected)
    {
      TrimEmptyIffBlank(query);
      if Trim(query) == "" {
        return;
      }
      isSearching := true;
      pendingSearches := pendingSearches + 1;
    }

    /** The search timer fires: the four stock results replace the old ones. */
    method SearchCompleted()
      requires pendingSearches > 0
      modifies this
      ensures results == SearchResults && !isSearching
      ensures pendingSearches == old(pendingSearches) - 1
      ensures query == old(query) && selected == old(selected)
    {
      results := SearchResults;
      isSearching := false;
      pendingSearches := pendingSearches - 1;
    }

    /** A click on one of the results. */
    method Choose(i: int)
      requires 0 <= i < |results|
      modifies this`selected
      ensures selected == Some(results[i])
    {
      selected := Some(results[i]);
    }

    method Submit() returns (payload: Option<Data>)
      ensures payload == ImageSearchSubmit(selected, query)
      ensures payload.Some? <==> selected.Some? && selected.value != ""
    {
      payload := ImageSearchSubmit(selected, query);
    }
  }

  /** A chosen search result can always be submitted. */
  lemma ChosenResultSubmits(i: int, query: string)
    requires 0 <= i < |SearchResults|
    ensures ImageSearchSubmit(Some(SearchResults[i]), query).Some?
  {
    assert SearchResults[i] != "" by {
      assert |SearchResults[i]| > 0;
    }
  }

  const GeneratedImage: string :=
    "https://images.pexels.com/photos/1181671/pexels-photo-1181671.jpeg?auto=compress&cs=tinysrgb&w=800"

  const StyleIds: seq<string> := ["diagram", "illustration", "infographic", "flowchart"]

  class AIImage {
    var prompt: string
    var style: string
    var isGenerating: bool
    var generatedImage: Option<string>
    /** Generation timers started and not yet fired. */
    var pendingGenerations: nat

    ghost predicate Valid()
      reads this
    {
      style in StyleIds
    }

    constructor ()
      ensures Valid() && style == "diagram"
      ensures prompt == "" && !isGenerating && generatedImage.None? && pendingGenerations == 0
    {
      prompt := "";
      style := "diagram";
      isGenerating := false;
      generatedImage := None;
      pendingGenerations := 0;
    }

    method SetPrompt(p: string)
      modifies this`prompt
      ensures prompt == p
    {
      prompt := p;
    }

    method SetStyle(id: string)
      requires id in StyleIds
      modifies this`style
      ensures style == id && Valid()
    {
      style := id;
    }

    /** handleGenerate, from the Generate button (shown only before an image exists,
        disabled while generating): a blank prompt changes nothing. */
    method Generate()
      requires !isGenerating && generatedImage.None?
      modifies this
      ensures Blank(prompt) ==> isGenerating == old(isGenerating) && pendingGenerations == old(pendingGenerations)
      ensures !Blank(prompt) ==> isGenerating && pendingGenerations == old(pendingGenerations) + 1
      ensures prompt == old(prompt) && style == old(style) && generatedImage == old(generatedImage)
    {
      TrimEmptyIffBlank(prompt);
      if Trim(prompt) == "" {
        return;
      }
      isGenerating := true;
      pendingGenerations := pendingGenerations + 1;
    }

    /** The generation timer fires. */
    method GenerationCompleted()
      requires pendingGenerations > 0
      modifies this
      ensures generatedImage == Some(GeneratedImage) && !isGenerating
      ensures pendingGenerations == old(pendingGenerations) - 1
      ensures prompt == old(prompt) && style == old(style)
    {
      generatedImage := Some(GeneratedImage);
      isGenerating := false;
      pendingGenerations := pendingGenerations - 1;
    }

    /** The Add Image button, shown once an image exists. */
    method Submit() returns (payload: Option<Data>)
      requires Valid() && generatedImage.Some?
      ensures payload == AIImageSubmit(generatedImage, prompt, style)
      ensures generatedImage.value != "" ==> payload.Some? && Get(payload.value, "style") == Some(Str(style))
    {
      payload := AIImageSubmit(generatedImage, prompt, style);
    }
  }

  /** After a generation completes, submitting succeeds, with the default style
      unless another was picked. */
  lemma GeneratedImageSubmits(prompt: string)
    ensures AIImageSubmit(Some(GeneratedImage), prompt, "diagram").Some?
    ensures Get(AIImageSubmit(Some(GeneratedImage), prompt, "diagram").value, "style") == Some(Str("diagram"))
  {
    assert GeneratedImage != "" by {
      assert |GeneratedImage| > 0;
    }
  }

  const RecordingFile: FileRef := FileRef("recording.mp3", "audio/mp3")

  class AudioRecorder {
    var isRecording: bool
    var file: Option<FileRef>
    var recordingTime: int
    /** One-second intervals running. */
    var liveIntervals: nat
    /** Ten-second auto-stop timers started and not yet fired. */
    var pendingAutoStops: nat

    /** Each start creates one interval and one auto-stop timer, and only the
        auto-stop clears its interval: the two counts stay equal. */
    ghost predicate Valid()
      reads this
    {
      liveIntervals == pendingAutoStops && recordingTime >= 0
    }

    constructor ()
      ensures Valid() && !isRecording && file.None? && recordingTime == 0 && liveIntervals == 0
    {
      isRecording := false;
      file := None;
      recordingTime := 0;
      liveIntervals := 0;
      pendingAutoStops := 0;
    }

    /** The Start Recording button, shown while not recording and without a file. */
    method StartRecording()
      requires Valid() && !isRecording && file.None?
      modifies this
      ensures Valid() && isRecording && recordingTime == 0
      ensures liveIntervals == old(liveIntervals) + 1 && file == old(file)
    {
      isRecording := true;
      recordingTime := 0;
      liveIntervals := liveIntervals + 1;
      pendingAutoStops := pendingAutoStops + 1;
    }

    /** One interval fires. */
    method Tick()
      requires Valid() && liveIntervals > 0
      modifies this`recordingTime
      ensures Valid() && recordingTime == old(recordingTime) + 1
    {
      recordingTime := recordingTime + 1;
    }

    /** An auto-stop timer fires: it clears its own interval and leaves the stock
        recording as the file. */
    method AutoStop()
      requires Valid() && pendingAutoStops > 0
      modifies this
      ensures Valid() && !isRecording && file == Some(RecordingFile)
      ensures liveIntervals == old(liveIntervals) - 1 && recordingTime == old(recordingTime)
    {
      isRecording := false;
      liveIntervals := liveIntervals - 1;
      pendingAutoStops := pendingAutoStops - 1;
      file := Some(RecordingFile);
    }

    /** The Stop Recording button: it leaves the interval running, so the counter
        goes on counting until the auto-stop fires. */
    method StopRecording()
      requires Valid() && isRecording
      modifies this
      ensures Valid() && !isRecording && file == Some(RecordingFile)
      ensures liveIntervals == old(liveIntervals) && recordingTime == old(recordingTime)
    {
      isRecording := false;
      file := Some(RecordingFile);
    }

    /** The upload input: the first chosen file, or null. */
    method ChooseFile(f: Option<FileRef>)
      modifies this`file
      ensures file == f
    {
      file := f;
    }

    method Submit() returns (payload: Option<Data>)
      requires Valid()
      ensures payload == AudioSubmit(file, recordingTime)
      ensures payload.Some? ==> Get(payload.value, "duration") == Some(Int(recordingTime)) && recordingTime >= 0
    {
      payload := AudioSubmit(file, recordingTime);
    }
  }

  /** Stopping early does not stop the count: right after a start and a stop, the
      interval is still live, so a tick can still raise the duration submitted. */
  method StopThenTick() returns (before: Option<Data>, after: Option<Data>)
    ensures before.Some? && after.Some?
    ensures Get(before.value, "duration") == Some(Int(0))
    ensures Get(after.value, "duration") == Some(Int(1))
  {
    var rec := new AudioRecorder();
    rec.StartRecording();
    rec.StopRecording();
    before := rec.Submit();
    rec.Tick();
    after := rec.Submit();
  }

  class Screenshot {
    var isCapturing: bool
    /** Capture timers started and not yet fired. */
    var pendingCaptures: nat

    constructor ()
      ensures !isCapturing && pendingCaptures == 0
    {
      isCapturing := false;
      pendingCaptures := 0;
    }

    /** The Capture Screen button, disabled while capturing. */
    method Capture()
      requires !isCapturing
      modifies this
      ensures isCapturing && pendingCaptures == old(pendingCaptures) + 1
    {
      isCapturing := true;
      pendingCaptures := pendingCaptures + 1;
    }

    /** The capture timer fires and submits through the menu, whether or not the
        dialog is still open. `payloadIso` is the clock reading in the timer and
        `blockIso` the one taken when the block is stored. */
    method CaptureCompleted(menu: AddMenu, store: Feed.ContentStore, now: int, payloadIso: string, blockIso: string)
      requires pendingCaptures > 0
      modifies this, menu, store
      ensures store.blocks == old(store.blocks) + [Feed.Block(now, TagOf(ScreenshotModal), ScreenshotPayload(payloadIso), blockIso)]
      ensures menu.showModal.None? && menu.isOpen == old(menu.isOpen)
      ensures !isCapturing && pendingCaptures == old(pendingCaptures) - 1
    {
      menu.ModalSubmit(store, TagOf(ScreenshotModal), ScreenshotPayload(payloadIso), now, blockIso);
      isCapturing := false;
      pendingCaptures := pendingCaptures - 1;
    }
  }

  /** A capture started before Cancel still adds its block after Cancel. */
  method CaptureAfterCancel(store: Feed.ContentStore, now: int, iso: string) returns (menu: AddMenu)
    modifies store
    ensures |store.blocks| == |old(store.blocks)| + 1
    ensures Feed.Last(store.blocks).tag == "screenshot"
  {
    menu := new AddMenu();
    menu.OptionClick("screenshot");
    var shot := new Screenshot();
    shot.Capture();
    menu.Cancel();
    shot.CaptureCompleted(menu, store, now, iso, iso);
  }
}
