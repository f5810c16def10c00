/**
 * The content feed of the application: an append-only store of content blocks
 * (`contentBlocks` with `handleAddContent`) and the dispatch that turns a block
 * into what the feed shows for it (`renderContentBlock`). The view is described
 * by the title and the values each rendering rule shows, not by its markup.
 */
module Feed {
  import opened Payload

  /** One added piece of content. `id` is the clock reading `Date.now()` at the time
      of the add and `timestamp` the ISO text of a second clock reading. */
  datatype Block = Block(id: int, tag: string, data: Data, timestamp: string)

  /** The holder of `contentBlocks`. */
  class ContentStore {
    var blocks: seq<Block>

    constructor ()
      ensures blocks == []
    {
      blocks := [];
    }

    /** handleAddContent: builds the new block from its arguments and the two clock
        readings, and appends it after every block already present. */
    method AddContent(tag: string, data: Data, now: int, isoNow: string)
      modifies this
      ensures blocks == old(blocks) + [Block(now, tag, data, isoNow)]
      ensures |blocks| == |old(blocks)| + 1 && blocks[..|old(blocks)|] == old(blocks)
      ensures Last(blocks).tag == tag && Last(blocks).data == data
    {
      var newBlock := Block(now, tag, data, isoNow);
      blocks := blocks + [newBlock];
    }
  }

  function Last(s: seq<Block>): Block
    requires s != []
  {
    s[|s| - 1]
  }

  /** Replaying a sequence of adds on a store: the store is the old one followed by
      one block per add, in the order of the adds. */
  datatype Add = Add(tag: string, data: Data, now: int, isoNow: string)

  function Committed(adds: seq<Add>): (r: seq<Block>)
    ensures |r| == |adds|
    ensures forall i :: 0 <= i < |adds| ==>
      r[i] == Block(adds[i].now, adds[i].tag, adds[i].data, adds[i].isoNow)
  {
    if adds == [] then []
    else
      var a := adds[|adds| - 1];
      Committed(adds[..|adds| - 1]) + [Block(a.now, a.tag, a.data, a.isoNow)]
  }

  method AddAll(store: ContentStore, adds: seq<Add>)
    modifies store
    ensures store.blocks == old(store.blocks) + Committed(adds)
  {
    var k := 0;
    while k < |adds|
      invariant 0 <= k <= |adds|
      invariant store.blocks == old(store.blocks) + Committed(adds[..k])
    {
      store.AddContent(adds[k].tag, adds[k].data, adds[k].now, adds[k].isoNow);
      assert adds[..k + 1][..k] == adds[..k];
      k := k + 1;
    }
    assert adds[..k] == adds;
  }

  // ---------------------------------------------------------------------------
  // Rendering

  datatype View =
    | PdfView(title: string, fileName: Field, pages: Field)
      /** `searchCaption`/`promptCaption` are present only when the field is truthy. */
    | ImageView(title: string, src: Field, alt: Field, searchCaption: Field, promptCaption: Field)
    | YouTubeView(title: string, url: Field)
    | CodeView(codeTitle: Field, code: Field, language: Field)
    | LinkView(title: string, href: Field)
    | CalculatorView(title: string, keys: seq<string>)
    | CalendarView(title: string, weekdays: seq<string>, cells: seq<string>)
      /** The fallback: the raw data, printed as JSON. */
    | GenericView(title: string, raw: Data)

  const ImageTags: set<string> := {"image-upload", "image-search", "image-ai"}

  const KnownTags: set<string> :=
    {"pdf", "video-youtube", "code", "link", "calculator", "calendar"} + ImageTags

  const CalculatorKeys: seq<string> :=
    ["7", "8", "9", "/", "4", "5", "6", "*", "1", "2", "3", "-", "0", ".", "=", "+"]

  const Weekdays: seq<string> := ["Sun", "Mon", "Tue", "Wed", "Thu", "Fri", "Sat"]

  /** The 35 cells of the calendar grid: days 1 to 31, then four empty cells. */
  function CalendarCells(): (r: seq<string>)
    ensures |r| == 35
    ensures forall i :: 0 <= i < 31 ==> AllDigits(r[i]) && ParseNat(r[i]) == i + 1
    ensures forall i :: 0 <= i < 31 ==> r[i] != "" && r[i][0] != '0'
    ensures forall i :: 31 <= i < 35 ==> r[i] == ""
  {
    var cells := seq(35, i requires 0 <= i < 35 => if i < 31 then NatToString(i + 1) else "");
    forall i | 0 <= i < 31 ensures ParseNat(cells[i]) == i + 1 {
      ParseNatToString(i + 1);
    }
    cells
  }

  function ImageCaption(f: Field): (r: Field)
    ensures r.Some? <==> Truthy(f)
    ensures r.Some? ==> r == f
  {
    if Truthy(f) then f else None
  }

  /** renderContentBlock: dispatch on the block's tag; any tag the switch does not
      name falls through to the generic rule. Total over all blocks. */
  function Render(b: Block): (r: View)
    ensures r.PdfView? <==> b.tag == "pdf"
    ensures r.ImageView? <==> b.tag in ImageTags
    ensures r.YouTubeView? <==> b.tag == "video-youtube"
    ensures r.CodeView? <==> b.tag == "code"
    ensures r.LinkView? <==> b.tag == "link"
    ensures r.CalculatorView? <==> b.tag == "calculator"
    ensures r.CalendarView? <==> b.tag == "calendar"
    ensures r.GenericView? <==> b.tag !in KnownTags
    ensures r.GenericView? ==> r.title == b.tag + " Content" && r.raw == b.data
  {
    var d := b.data;
    match b.tag
    case "pdf" =>
      PdfView("PDF: " + ToText(Get(d, "name")), Get(d, "name"), Get(d, "pages"))
    case "image-upload" => RenderImage(d)
    case "image-search" => RenderImage(d)
    case "image-ai" => RenderImage(d)
    case "video-youtube" => YouTubeView("YouTube Video", Get(d, "url"))
    case "code" => CodeView(Get(d, "title"), Get(d, "code"), Get(d, "language"))
    case "link" => LinkView("Link: " + ToText(Get(d, "title")), Get(d, "url"))
    case "calculator" => CalculatorView("Interactive Calculator", CalculatorKeys)
    case "calendar" => CalendarView("Study Calendar", Weekdays, CalendarCells())
    case _ => GenericView(b.tag + " Content", d)
  }

  /** The one rule shared by the three image tags. */
  function RenderImage(d: Data): (r: View)
    ensures r.ImageView?
    ensures r.title == "Image: " + ToText(Or(Get(d, "source"), Some(Str("Uploaded"))))
    ensures Truthy(Get(d, "url")) ==> r.src == Get(d, "url")
    ensures !Truthy(Get(d, "url")) ==> r.src == Get(d, "preview")
    ensures r.searchCaption.Some? <==> Truthy(Get(d, "query"))
    ensures r.promptCaption.Some? <==> Truthy(Get(d, "prompt"))
  {
    ImageView(
      "Image: " + ToText(Or(Get(d, "source"), Some(Str("Uploaded")))),
      Or(Get(d, "url"), Get(d, "preview")),
      Or(Get(d, "name"), Some(Str("Added image"))),
      ImageCaption(Get(d, "query")),
      ImageCaption(Get(d, "prompt")))
  }

  /** The three image tags are shown by the one image rule. */
  lemma ImageTagsShareRule(b: Block)
    requires b.tag in ImageTags
    ensures Render(b) == RenderImage(b.data)
  {
  }

  /** What the feed shows: one view per stored block, in store order. */
  function FeedView(blocks: seq<Block>): (r: seq<View>)
    ensures |r| == |blocks|
    ensures forall i :: 0 <= i < |blocks| ==> r[i] == Render(blocks[i])
  {
    seq(|blocks|, i requires 0 <= i < |blocks| => Render(blocks[i]))
  }

  /** Adding a block leaves every view already in the feed in place and shows the
      new block last. */
  lemma FeedAfterAdd(blocks: seq<Block>, b: Block)
    ensures FeedView(blocks + [b]) == FeedView(blocks) + [Render(b)]
  {
    var l, r := FeedView(blocks + [b]), FeedView(blocks) + [Render(b)];
    assert |l| == |r|;
    forall i | 0 <= i < |l| ensures l[i] == r[i] {
      if i < |blocks| { assert (blocks + [b])[i] == blocks[i]; }
    }
  }

  /** Tags offered by the capture menu that the renderer has no rule for. */
  lemma UnlistedTagsAreGeneric(b: Block)
    requires b.tag in {"doc", "screenshot", "video-upload", "audio", "website"}
    ensures Render(b) == GenericView(b.tag + " Content", b.data)
  {
  }
}
