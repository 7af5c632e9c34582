/**
 * The artifact callbacks of the artifacts walkthrough: a before-model
 * callback that saves the user's images, one that saves a report held in
 * session state, one that lists the stored files into the prompt and one that
 * loads the report into the prompt, and the three registered in that order.
 */
module ArtifactCallbacks {
  import opened Wrappers
  import opened Values
  import opened Genai
  import Text
  import opened ArtifactStore

  // ---------------------------------------------------------------------
  // Saving the user's images
  // ---------------------------------------------------------------------

  predicate IsImage(p: Part) {
    p.inlineData.Some? && Text.HasPrefix(p.inlineData.value.mimeType, "image/")
  }

  /** The text before the first '/', what strings.Split(s, "/") puts in its first field. */
  function UpToSlash(s: string): (r: string)
    ensures |r| <= |s| && r == s[..|r|]
    ensures forall i :: 0 <= i < |r| ==> r[i] != '/'
    ensures |r| < |s| ==> s[|r|] == '/'
  {
    if s == [] || s[0] == '/' then "" else [s[0]] + UpToSlash(s[1..])
  }

  /** A name made of a prefix, a decimal number and an extension. */
  function NumberedName(prefix: string, i: nat, ext: string): string {
    prefix + Text.Itoa(i) + "." + ext
  }

  /** The file name an image part is saved under: its index and the subtype of its MIME type. */
  function ImageName(i: nat, mime: string): string
    requires Text.HasPrefix(mime, "image/")
  {
    NumberedName("user_image_", i, UpToSlash(mime[6..]))
  }

  /** With a shorter number, the dot comes where the other name still has a digit. */
  lemma ShorterNumberDiffers(prefix: string, a: string, b: string, e1: string, e2: string)
    requires forall k :: 0 <= k < |b| ==> '0' <= b[k] <= '9'
    requires |a| < |b|
    ensures prefix + a + "." + e1 != prefix + b + "." + e2
  {
    var s1, s2 := prefix + a + "." + e1, prefix + b + "." + e2;
    assert s1[|prefix| + |a|] == '.';
    assert s2[|prefix| + |a|] == b[|a|];
  }

  lemma SliceMiddle(x: string, y: string, z: string)
    ensures (x + y + z)[|x|..|x| + |y|] == y
  {
  }

  /** Different numbers give different names, whatever the extensions. */
  lemma NumberedNamesDistinct(prefix: string, i: nat, j: nat, e1: string, e2: string)
    requires i != j
    ensures NumberedName(prefix, i, e1) != NumberedName(prefix, j, e2)
  {
    var a, b := Text.NatToString(i), Text.NatToString(j);
    assert Text.Itoa(i) == a && Text.Itoa(j) == b;
    if |a| < |b| {
      ShorterNumberDiffers(prefix, a, b, e1, e2);
    } else if |b| < |a| {
      ShorterNumberDiffers(prefix, b, a, e2, e1);
    } else {
      Text.ParseNatToString(i);
      Text.ParseNatToString(j);
      SliceMiddle(prefix, a, "." + e1);
      SliceMiddle(prefix, b, "." + e2);
      assert prefix + a + "." + e1 == prefix + a + ("." + e1);
      assert prefix + b + "." + e2 == prefix + b + ("." + e2);
    }
  }

  /** Two image parts at different positions are never saved under the same name. */
  lemma ImageNamesDistinct(i: nat, j: nat, m1: string, m2: string)
    requires Text.HasPrefix(m1, "image/") && Text.HasPrefix(m2, "image/")
    requires i != j
    ensures ImageName(i, m1) != ImageName(j, m2)
  {
    NumberedNamesDistinct("user_image_", i, j, UpToSlash(m1[6..]), UpToSlash(m2[6..]));
  }

  datatype Saved = Saved(name: string, part: Part)

  /** The images among the first n parts, each with the name it is saved under, in part order. */
  function ImageSaves(parts: seq<Part>, n: nat): seq<Saved>
    requires n <= |parts|
  {
    if n == 0 then []
    else
      var p := parts[n - 1];
      ImageSaves(parts, n - 1) + (if IsImage(p) then [Saved(ImageName(n - 1, p.inlineData.value.mimeType), p)] else [])
  }

  /** The store after the saves are made one after the other. */
  function SaveAll(a: Artifacts, saves: seq<Saved>): (r: Artifacts)
    ensures WellFormed(a) ==> WellFormed(r)
  {
    if saves == [] then a
    else Stored(SaveAll(a, saves[..|saves| - 1]), saves[|saves| - 1].name, Some(saves[|saves| - 1].part))
  }

  /** Saving one more item under a name leaves the latest version of every other name as it was. */
  lemma SaveAllKeeps(a: Artifacts, before: seq<Saved>, item: Saved, name: string, v: Option<Part>)
    requires WellFormed(a)
    requires Latest(SaveAll(a, before), name) == Some(v)
    requires item.name != name
    ensures Latest(SaveAll(a, before + [item]), name) == Some(v)
  {
    assert (before + [item])[..|before|] == before;
    SaveKeepsOthers(SaveAll(a, before), item.name, Some(item.part), name);
  }

  /** The item saved last is the latest version under its name. */
  lemma SaveAllLatest(a: Artifacts, before: seq<Saved>, item: Saved)
    requires WellFormed(a)
    ensures Latest(SaveAll(a, before + [item]), item.name) == Some(Some(item.part))
  {
    assert (before + [item])[..|before|] == before;
    LoadAfterSave(SaveAll(a, before), item.name, Some(item.part));
  }

  /** After the image saves, each image part is the latest version under its own name. */
  lemma {:induction false} ImageSaved(a: Artifacts, parts: seq<Part>, n: nat, i: nat)
    requires WellFormed(a)
    requires i < n <= |parts| && IsImage(parts[i])
    ensures Latest(SaveAll(a, ImageSaves(parts, n)), ImageName(i, parts[i].inlineData.value.mimeType))
            == Some(Some(parts[i]))
  {
    var name := ImageName(i, parts[i].inlineData.value.mimeType);
    var p := parts[n - 1];
    var before := ImageSaves(parts, n - 1);
    if IsImage(p) {
      var item := Saved(ImageName(n - 1, p.inlineData.value.mimeType), p);
      assert ImageSaves(parts, n) == before + [item];
      if i < n - 1 {
        ImageSaved(a, parts, n - 1, i);
        ImageNamesDistinct(i, n - 1, parts[i].inlineData.value.mimeType, p.inlineData.value.mimeType);
        SaveAllKeeps(a, before, item, name, Some(parts[i]));
      } else {
        SaveAllLatest(a, before, item);
      }
    } else {
      assert ImageSaves(parts, n) == before;
      ImageSaved(a, parts, n - 1, i);
    }
  }

  /** A part that is not an image is never saved. */
  lemma {:induction false} OnlyImagesSaved(parts: seq<Part>, n: nat)
    requires n <= |parts|
    ensures forall k :: 0 <= k < |ImageSaves(parts, n)| ==> IsImage(ImageSaves(parts, n)[k].part)
  {
    if n > 0 {
      OnlyImagesSaved(parts, n - 1);
    }
  }

  /** The names of the saves, in order. */
  function Names(saves: seq<Saved>): (r: seq<string>)
    ensures |r| == |saves|
    ensures forall k :: 0 <= k < |saves| ==> r[k] == saves[k].name
  {
    if saves == [] then [] else Names(saves[..|saves| - 1]) + [saves[|saves| - 1].name]
  }

  /** The parts the image callback looks at: those of the last content, when it is the user's. */
  function UserParts(contents: seq<Content>): seq<Part> {
    if |contents| > 0 && contents[|contents| - 1].role == RoleUser then contents[|contents| - 1].parts else []
  }

  /** What the store and the log hold once the images among the first n parts are handled. */
  predicate ImagesHandled(parts: seq<Part>, n: nat, start: Artifacts, failSave: Option<string>, data: Artifacts, saved: seq<string>)
    requires n <= |parts|
  {
    var saves := ImageSaves(parts, n);
    && (failSave.None? ==> data == SaveAll(start, saves) && saved == Names(saves))
    && (failSave.Some? ==> data == start && saved == [])
  }

  /** Handles one part: saves it when it is an image. */
  method SaveImageAt(parts: seq<Part>, i: nat, store: Store, ghost start: Artifacts, saved: seq<string>) returns (saved': seq<string>)
    requires i < |parts|
    requires store.Valid()
    requires ImagesHandled(parts, i, start, store.failSave, store.data, saved)
    modifies store
    ensures store.Valid()
    ensures ImagesHandled(parts, i + 1, start, store.failSave, store.data, saved')
  {
    var p := parts[i];
    saved' := saved;
    if IsImage(p) {
      var name := ImageName(i, p.inlineData.value.mimeType);
      ghost var saves := ImageSaves(parts, i) + [Saved(name, p)];
      assert ImageSaves(parts, i + 1) == saves;
      assert saves[..|saves| - 1] == ImageSaves(parts, i);
      var res := store.Save(name, Some(p));
      if res.Ok? {
        saved' := saved + [name];
      }
    } else {
      assert ImageSaves(parts, i + 1) == ImageSaves(parts, i);
    }
  }

  /**
   * The before-model callback that saves every image of the user's latest
   * message as an artifact. A failed save is only logged; the model is always
   * called. `saved` lists the names logged as saved.
   */
  method SaveUserImages(req: Request, store: Store) returns (r: Option<LLMResponse>, saved: seq<string>)
    requires store.Valid()
    modifies store
    ensures store.Valid()
    ensures r.None?
    ensures ImagesHandled(UserParts(req.contents), |UserParts(req.contents)|, old(store.data), store.failSave, store.data, saved)
  {
    var parts := UserParts(req.contents);
    saved := [];
    var i := 0;
    while i < |parts|
      invariant 0 <= i <= |parts|
      invariant store.Valid()
      invariant ImagesHandled(parts, i, old(store.data), store.failSave, store.data, saved)
    {
      saved := SaveImageAt(parts, i, store, old(store.data), saved);
      i := i + 1;
    }
    r := None;
  }

  // ---------------------------------------------------------------------
  // Saving the report held in session state
  // ---------------------------------------------------------------------

  const ReportFile := "generated_report.pdf"
  const ReportKey := "report_bytes"

  /** The artifact a report's bytes are saved as. */
  function ReportPart(data: seq<bv8>): Part {
    BlobPart(Blob("application/pdf", data))
  }

  /** The report the save callback finds in the state: the bytes stored under report_bytes, if that is what is stored there. */
  function ReportIn(st: State): (r: Option<seq<bv8>>)
    ensures r.Some? <==> ReportKey in st && st[ReportKey].Bytes?
    ensures r.Some? ==> st[ReportKey] == Bytes(r.value)
  {
    if ReportKey in st && st[ReportKey].Bytes? then Some(st[ReportKey].data) else None
  }

  /** The store after the report callback: one more version of the report file when there is a report and the save succeeds. */
  function AfterSave(kv: State, start: Artifacts, failSave: Option<string>): (r: Artifacts)
    ensures WellFormed(start) ==> WellFormed(r)
  {
    if ReportIn(kv).Some? && failSave.None? then Stored(start, ReportFile, Some(ReportPart(ReportIn(kv).value)))
    else start
  }

  /** A saved report is listed, and it is what loading the report file gives. */
  lemma SavedReportListed(kv: State, start: Artifacts)
    requires WellFormed(start) && ReportIn(kv).Some?
    ensures ReportFile in AfterSave(kv, start, None).names
    ensures Latest(AfterSave(kv, start, None), ReportFile) == Some(Some(ReportPart(ReportIn(kv).value)))
  {
    SaveKeepsListing(start, ReportFile, Some(ReportPart(ReportIn(kv).value)));
    LoadAfterSave(start, ReportFile, Some(ReportPart(ReportIn(kv).value)));
  }

  /**
   * The before-model callback that saves the report bytes in the state as
   * generated_report.pdf. No report, a value of another type or a failed
   * save all leave the store as it was; the model is always called.
   */
  method SaveReport(st: StateStore, store: Store) returns (r: Option<LLMResponse>)
    requires store.Valid()
    modifies store
    ensures store.Valid()
    ensures r.None?
    ensures store.data == AfterSave(st.kv, old(store.data), store.failSave)
  {
    var value := st.Get(ReportKey);
    if value.None? {
      return None;
    }
    if !value.value.Bytes? {
      return None;
    }
    var res := store.Save(ReportFile, Some(ReportPart(value.value.data)));
    return None;
  }

  // ---------------------------------------------------------------------
  // Listing the stored files into the prompt
  // ---------------------------------------------------------------------

  const ListingHeader := "SYSTEM: The following files are available:\n"

  function ListingLine(name: string): string {
    "- " + name + "\n"
  }

  /** One line per file name, in order. */
  function Lines(names: seq<string>): string {
    if names == [] then "" else Lines(names[..|names| - 1]) + ListingLine(names[|names| - 1])
  }

  /** The lines of a prefix of the names begin the lines of all of them. */
  lemma {:induction false} LinesPrefix(names: seq<string>, k: nat)
    requires k <= |names|
    ensures Text.HasPrefix(Lines(names), Lines(names[..k]))
  {
    if k < |names| {
      var init := names[..|names| - 1];
      assert init[..k] == names[..k];
      LinesPrefix(init, k);
    } else {
      assert names[..k] == names;
    }
  }

  /** A string occurs in any text it sits in the middle of. */
  lemma ContainsMiddle(x: string, y: string, z: string)
    ensures Text.Contains(x + y + z, y)
  {
    assert (x + y + z)[|x|..|x| + |y|] == y;
    assert Text.OccursAt(x + y + z, y, |x|);
    Text.ContainsIffOccurs(x + y + z, y);
  }

  /** Text that contains a string still contains it with more text after it. */
  lemma ContainsPrefix(s: string, t: string, sub: string)
    requires Text.Contains(s, sub)
    ensures Text.Contains(s + t, sub)
  {
    Text.ContainsIffOccurs(s, sub);
    var i :| Text.OccursAt(s, sub, i);
    assert (s + t)[i..i + |sub|] == s[i..i + |sub|];
    assert Text.OccursAt(s + t, sub, i);
    Text.ContainsIffOccurs(s + t, sub);
  }

  /** Whatever comes before them, the lines hold a line for each name. */
  lemma LineFollowsHeader(header: string, names: seq<string>, i: nat)
    requires i < |names|
    ensures Text.Contains(header + Lines(names), ListingLine(names[i]))
  {
    var pre, line := Lines(names[..i]), ListingLine(names[i]);
    assert names[..i + 1][..i] == names[..i];
    assert Lines(names[..i + 1]) == pre + line;
    LinesPrefix(names, i + 1);
    var all := Lines(names);
    var rest := all[|pre + line|..];
    assert all == pre + line + rest;
    ContainsMiddle(header + pre, line, rest);
    assert header + all == header + pre + line + rest;
  }

  /** Every listed name has its own line in the listing. */
  lemma ListingNamesEach(names: seq<string>, i: nat)
    requires i < |names|
    ensures Text.Contains(ListingHeader + Lines(names), ListingLine(names[i]))
  {
    LineFollowsHeader(ListingHeader, names, i);
  }

  /** Builds the listing text line by line, as the callback's string builder does. */
  method BuildListing(names: seq<string>) returns (s: string)
    ensures s == ListingHeader + Lines(names)
  {
    s := ListingHeader;
    var i := 0;
    while i < |names|
      invariant 0 <= i <= |names|
      invariant s == ListingHeader + Lines(names[..i])
    {
      assert names[..i + 1][..i] == names[..i];
      s := s + ListingLine(names[i]);
      i := i + 1;
    }
    assert names[..i] == names;
  }

  /**
   * The prompt after the listing is put in front of the first part of the
   * latest message. That part is replaced by a plain text part: whatever
   * else it carried is dropped. With no message, or a latest message without
   * parts, the prompt is left as it was.
   */
  function WithListing(contents: seq<Content>, listing: string): (r: seq<Content>)
    ensures |r| == |contents|
    ensures forall k :: 0 <= k < |contents| - 1 ==> r[k] == contents[k]
    ensures |contents| > 0 && |contents[|contents| - 1].parts| > 0 ==>
              var last, newLast := contents[|contents| - 1], r[|contents| - 1];
              && newLast.role == last.role
              && |newLast.parts| == |last.parts|
              && newLast.parts[0] == TextPart(listing + "\n" + last.parts[0].text)
              && newLast.parts[1..] == last.parts[1..]
    ensures |contents| == 0 || |contents[|contents| - 1].parts| == 0 ==> r == contents
  {
    if |contents| > 0 && |contents[|contents| - 1].parts| > 0 then
      var last := contents[|contents| - 1];
      contents[|contents| - 1 := Content(last.role, last.parts[0 := TextPart(listing + "\n" + last.parts[0].text)])]
    else contents
  }

  /** Whatever the listing contains, the first part of the latest message then contains. */
  lemma ListingInFront(contents: seq<Content>, listing: string, line: string)
    requires |contents| > 0 && |contents[|contents| - 1].parts| > 0
    requires Text.Contains(listing, line)
    ensures var after := WithListing(contents, listing);
            Text.Contains(after[|after| - 1].parts[0].text, line)
  {
    var first := contents[|contents| - 1].parts[0].text;
    ContainsPrefix(listing, "\n" + first, line);
    assert listing + "\n" + first == listing + ("\n" + first);
  }

  /** The prompt after the listing callback, given what listing the store gave. */
  function AfterList(files: Result<seq<string>>, contents: seq<Content>): seq<Content> {
    if files.Ok? && |files.value| > 0 then WithListing(contents, ListingHeader + Lines(files.value)) else contents
  }

  /** A listed name ends up in the first part of the latest message. */
  lemma ListedNameInFront(names: seq<string>, name: string, contents: seq<Content>)
    requires name in names
    requires |contents| > 0 && |contents[|contents| - 1].parts| > 0
    ensures var after := AfterList(Ok(names), contents);
            && |after| > 0 && |after[|after| - 1].parts| > 0
            && Text.Contains(after[|after| - 1].parts[0].text, ListingLine(name))
  {
    var i :| 0 <= i < |names| && names[i] == name;
    ListingNamesEach(names, i);
    ListingInFront(contents, ListingHeader + Lines(names), ListingLine(name));
  }

  /**
   * The before-model callback that lists the stored files into the prompt.
   * A failed listing or an empty store leaves the prompt as it was; the
   * model is always called.
   */
  method ListUserFiles(req: Request, store: Store) returns (r: Option<LLMResponse>)
    modifies req
    ensures r.None?
    ensures req.systemInstruction == old(req.systemInstruction)
    ensures req.contents == AfterList(store.List(), old(req.contents))
  {
    var files := store.List();
    if files.Err? {
      return None;
    }
    if |files.value| > 0 {
      var listing := BuildListing(files.value);
      req.contents := WithListing(req.contents, listing);
    }
    return None;
  }

  // ---------------------------------------------------------------------
  // Loading the report into the prompt
  // ---------------------------------------------------------------------

  const ContextNote := "SYSTEM: The following file is provided for context:\n"

  /** A part that was loaded; a version saved without a part loads as the empty part. */
  function PartOrEmpty(p: Option<Part>): Part {
    if p.Some? then p.value else TextPart("")
  }

  /**
   * The prompt after a loaded part is appended to its latest message. An
   * empty prompt first gets a message without a role that introduces the
   * file.
   */
  function WithLoaded(contents: seq<Content>, part: Part): (r: seq<Content>)
    ensures |r| == if |contents| == 0 then 1 else |contents|
    ensures forall k :: 0 <= k < |contents| - 1 ==> r[k] == contents[k]
    ensures |contents| > 0 ==> r[|r| - 1] == Content(contents[|contents| - 1].role, contents[|contents| - 1].parts + [part])
    ensures |contents| == 0 ==> r == [Content("", [TextPart(ContextNote), part])]
  {
    if |contents| == 0 then [Content("", [TextPart(ContextNote), part])]
    else
      var last := contents[|contents| - 1];
      contents[|contents| - 1 := Content(last.role, last.parts + [part])]
  }

  /** The prompt after the loading callback, given what loading the report file gave. */
  function AfterLoad(loaded: Result<Option<Part>>, contents: seq<Content>): seq<Content> {
    if loaded.Ok? then WithLoaded(contents, PartOrEmpty(loaded.value)) else contents
  }

  /** A loaded part ends the prompt, and the latest message keeps its first part. */
  lemma LoadedPartLast(part: Part, contents: seq<Content>)
    ensures var after := AfterLoad(Ok(Some(part)), contents);
            && |after| > 0 && |after[|after| - 1].parts| > 0
            && after[|after| - 1].parts[|after[|after| - 1].parts| - 1] == part
            && (|contents| > 0 && |contents[|contents| - 1].parts| > 0 ==>
                  after[|after| - 1].parts[0] == contents[|contents| - 1].parts[0])
  {
  }

  /**
   * The before-model callback that appends generated_report.pdf to the
   * latest message of the prompt. A failed load leaves the prompt as it was;
   * the model is always called.
   */
  method LoadArtifacts(req: Request, store: Store) returns (r: Option<LLMResponse>)
    requires store.Valid()
    modifies req
    ensures r.None?
    ensures req.systemInstruction == old(req.systemInstruction)
    ensures req.contents == AfterLoad(store.Load(ReportFile), old(req.contents))
  {
    var loaded := store.Load(ReportFile);
    if loaded.Err? {
      return None;
    }
    req.contents := WithLoaded(req.contents, PartOrEmpty(loaded.value));
    return None;
  }

  // ---------------------------------------------------------------------
  // The three report callbacks in their registered order
  // ---------------------------------------------------------------------

  /**
   * The prompt after save, list and load, as the reporting agent registers
   * them, when the store refuses nothing.
   */
  function ReportPrompt(kv: State, start: Artifacts, contents: seq<Content>): seq<Content>
    requires WellFormed(start)
  {
    var data := AfterSave(kv, start, None);
    AfterLoad(if ReportFile in data.versions then Ok(Latest(data, ReportFile).value) else Err(""),
              AfterList(Ok(data.names), contents))
  }

  /**
   * When the state holds a report and the store refuses nothing, the report
   * ends the prompt, and when the latest message has a part, the listing put
   * in front of it names the report's file.
   */
  lemma ReportReachesPrompt(kv: State, start: Artifacts, contents: seq<Content>)
    requires WellFormed(start)
    requires ReportIn(kv).Some?
    ensures var after := ReportPrompt(kv, start, contents);
            && |after| > 0 && |after[|after| - 1].parts| > 0
            && after[|after| - 1].parts[|after[|after| - 1].parts| - 1] == ReportPart(ReportIn(kv).value)
            && (|contents| > 0 && |contents[|contents| - 1].parts| > 0 ==>
                  Text.Contains(after[|after| - 1].parts[0].text, ListingLine(ReportFile)))
  {
    var data := AfterSave(kv, start, None);
    SavedReportListed(kv, start);
    var listed := AfterList(Ok(data.names), contents);
    if |contents| > 0 && |contents[|contents| - 1].parts| > 0 {
      ListedNameInFront(data.names, ReportFile, contents);
    }
    LoadedPartLast(ReportPart(ReportIn(kv).value), listed);
  }

  /** The three report callbacks, run in their registered order on the same request and store. */
  method ReportCallbacks(st: StateStore, req: Request, store: Store)
    requires store.Valid()
    modifies req, store
    ensures store.Valid()
    ensures store.data == AfterSave(st.kv, old(store.data), store.failSave)
    ensures store.failSave.None? && store.failList.None? && store.failLoad.None?
            ==> req.contents == ReportPrompt(st.kv, old(store.data), old(req.contents))
  {
    var r1 := SaveReport(st, store);
    var r2 := ListUserFiles(req, store);
    var r3 := LoadArtifacts(req, store);
  }
}
