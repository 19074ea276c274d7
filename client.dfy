/** The browser client of the video platform (frontend/app.js): the search
    predicate, the progress clamp, the filtered list the page renders, the
    guards and call sequence of an upload, and the test that settles a blob
    upload. The page's DOM state is a class whose fields stand for the status
    line, the progress bar, the search box, the cached list and the children
    of the video list element. Network transport is left to parameters. */
module Client {
  import opened Wrappers
  import opened Text

  /** A video as the client receives it from GET /videos; None for a
      property the JSON object lacks. */
  datatype ClientVideo = ClientVideo(id: Option<string>, title: Option<string>, status: Option<string>)

  /** The text a query is searched in: `${title || ""} ${id || ""}`. */
  function Haystack(v: ClientVideo): string {
    OrEmpty(v.title) + " " + OrEmpty(v.id)
  }

  /** matchesSearch(v, q): a missing or empty query matches every video;
      otherwise the lower-cased query must occur in the lower-cased haystack. */
  function MatchesSearch(v: ClientVideo, q: Option<string>): (r: bool)
    ensures !Truthy(q) ==> r
  {
    if !Truthy(q) then true
    else
      var hay, needle := Lower(Haystack(v)), Lower(q.value);
      Includes(hay, needle)
  }

  /** For a non-empty query, matching is exactly the lower-cased query
      occurring somewhere in the lower-cased "title id" text. */
  lemma MatchesSearchIsSubstringTest(v: ClientVideo, q: string)
    requires q != ""
    ensures MatchesSearch(v, Some(q)) <==> Occurs(Lower(Haystack(v)), Lower(q))
  {
    var hay, needle := Lower(Haystack(v)), Lower(q);
    assert MatchesSearch(v, Some(q)) == Includes(hay, needle);
  }

  /** A query found in the title, ignoring case, matches. */
  lemma MatchesTitle(v: ClientVideo, q: string)
    requires Includes(Lower(OrEmpty(v.title)), Lower(q))
    ensures MatchesSearch(v, Some(q))
  {
    var title, rest := OrEmpty(v.title), " " + OrEmpty(v.id);
    assert Haystack(v) == title + rest;
    LowerConcat(title, rest);
    IncludesLeft(Lower(title), Lower(rest), Lower(q));
    assert Includes(Lower(Haystack(v)), Lower(q));
  }

  /** A query found in the id, ignoring case, matches; a missing title
      counts as "". */
  lemma MatchesId(v: ClientVideo, q: string)
    requires Includes(Lower(OrEmpty(v.id)), Lower(q))
    ensures MatchesSearch(v, Some(q))
  {
    var front, id := OrEmpty(v.title) + " ", OrEmpty(v.id);
    assert Haystack(v) == front + id;
    LowerConcat(front, id);
    IncludesRight(Lower(front), Lower(id), Lower(q));
    assert Includes(Lower(Haystack(v)), Lower(q));
  }

  /** Queries that lower-case alike select the same videos. */
  lemma MatchesIgnoresQueryCase(v: ClientVideo, q1: string, q2: string)
    requires Lower(q1) == Lower(q2)
    ensures MatchesSearch(v, Some(q1)) == MatchesSearch(v, Some(q2))
  {
    assert |q1| == |Lower(q1)| == |Lower(q2)| == |q2|;
  }

  /** The width of the progress bar, in percent, for a requested progress:
      Math.max(0, Math.min(100, progress)). */
  function ClampProgress(progress: int): (width: int)
    ensures 0 <= width <= 100
    ensures 0 <= progress <= 100 ==> width == progress
    ensures progress < 0 ==> width == 0
    ensures progress > 100 ==> width == 100
  {
    if progress < 0 then 0 else if progress > 100 then 100 else progress
  }

  /** `a` is a subsequence of `b`: `a` is `b` with some elements dropped. */
  predicate IsSubsequence<T(==)>(a: seq<T>, b: seq<T>)
    decreases |b|
  {
    if a == [] then true
    else if b == [] then false
    else if a[0] == b[0] then IsSubsequence(a[1..], b[1..])
    else IsSubsequence(a, b[1..])
  }

  /** cachedVideos.filter(v => matchesSearch(v, q)): exactly the videos that
      match, each as often as it occurs, in their original order. */
  function FilterVideos(videos: seq<ClientVideo>, q: string): (r: seq<ClientVideo>)
    ensures forall i :: 0 <= i < |r| ==> MatchesSearch(r[i], Some(q))
    ensures IsSubsequence(r, videos)
    ensures forall v :: multiset(r)[v] == if MatchesSearch(v, Some(q)) then multiset(videos)[v] else 0
  {
    if videos == [] then []
    else
      var rest := FilterVideos(videos[1..], q);
      assert videos == [videos[0]] + videos[1..];
      if MatchesSearch(videos[0], Some(q)) then
        [videos[0]] + rest
      else
        assert rest != [] ==> rest[0] != videos[0];
        rest
  }

  /** The text of the placeholder shown when nothing matches. */
  const NoVideosText: string := "No videos found."

  /** A child of the video list element. */
  datatype Node = Placeholder(text: string) | Item(video: ClientVideo, title: string, tag: string)

  /** The list item for one video: its title or "(Untitled)", its status or "unknown". */
  function ItemNode(v: ClientVideo): (n: Node)
    ensures n.Item? && n.video == v && n.title != "" && n.tag != ""
    ensures Truthy(v.title) ==> n.title == v.title.value
    ensures !Truthy(v.title) ==> n.title == "(Untitled)"
    ensures Truthy(v.status) ==> n.tag == v.status.value
    ensures !Truthy(v.status) ==> n.tag == "unknown"
  {
    Item(v, OrElse(v.title, "(Untitled)"), OrElse(v.status, "unknown"))
  }

  function ItemNodes(videos: seq<ClientVideo>): (nodes: seq<Node>)
    ensures |nodes| == |videos|
    ensures forall i :: 0 <= i < |videos| ==> nodes[i] == ItemNode(videos[i])
  {
    if videos == [] then [] else [ItemNode(videos[0])] + ItemNodes(videos[1..])
  }

  /** The children of the video list after renderVideos: the placeholder
      alone when nothing matches the trimmed search text, otherwise one item
      per matching video, in order, and no placeholder. */
  function Rendered(cached: seq<ClientVideo>, searchValue: string): (nodes: seq<Node>)
    ensures var list := FilterVideos(cached, Trim(searchValue));
      && (list == [] <==> nodes == [Placeholder(NoVideosText)])
      && (list != [] ==> |nodes| == |list| && forall i :: 0 <= i < |list| ==> nodes[i] == ItemNode(list[i]))
      && (forall i :: 0 <= i < |nodes| && nodes[i].Item? ==> MatchesSearch(nodes[i].video, Some(Trim(searchValue))))
  {
    var list := FilterVideos(cached, Trim(searchValue));
    if list == [] then [Placeholder(NoVideosText)] else ItemNodes(list)
  }

  /** The chosen file of the upload form. */
  datatype FileChoice = FileChoice(name: string)

  /** A request the client sends. */
  datatype ApiCall =
    | RequestUpload(title: string, fileName: string)
    | PutBytes(fileName: string)
    | ConfirmUpload(fileName: string, title: string)
    | ListVideos

  /** The requests handleUpload makes and the status line it ends with. */
  datatype UploadRun = UploadRun(calls: seq<ApiCall>, finalStatus: string)

  const MissingTitleStatus: string := "Missing title"
  const MissingFileStatus: string := "Missing file"
  const UploadFailedStatus: string := "Upload failed"
  const UploadCompleteStatus: string := "Upload complete"

  /** The four requests of an upload, in order. */
  function UploadPlan(title: string, file: FileChoice): (plan: seq<ApiCall>)
    ensures |plan| == 4 && plan[0] == RequestUpload(title, file.name) && plan[|plan| - 1] == ListVideos
    ensures forall i :: 0 <= i < |plan| ==> plan[i].ListVideos? || plan[i].fileName == file.name
    ensures forall i :: 0 <= i < |plan| && plan[i].ConfirmUpload? ==> 0 < i && plan[i - 1] == PutBytes(file.name)
  {
    [RequestUpload(title, file.name), PutBytes(file.name), ConfirmUpload(file.name, title), ListVideos]
  }

  /** handleUpload with the title box holding `titleInput`, the file chooser
      holding `file`, and `failing` the position in the plan of the first
      request that fails, if any. */
  function HandleUpload(titleInput: string, file: Option<FileChoice>, failing: Option<nat>): (run: UploadRun)
    ensures Trim(titleInput) == "" ==> run == UploadRun([], MissingTitleStatus)
    ensures Trim(titleInput) != "" && file.None? ==> run == UploadRun([], MissingFileStatus)
    ensures run.calls != [] <==> Trim(titleInput) != "" && file.Some?
    ensures run.calls != [] ==>
      var plan := UploadPlan(Trim(titleInput), file.value);
      && |run.calls| <= |plan| && run.calls == plan[..|run.calls|]
      && run.calls[0] == RequestUpload(Trim(titleInput), file.value.name)
    ensures run.finalStatus == UploadCompleteStatus <==>
      Trim(titleInput) != "" && file.Some? && (failing.None? || failing.value >= 4)
    ensures run.finalStatus == UploadCompleteStatus ==> run.calls == UploadPlan(Trim(titleInput), file.value)
    ensures run.calls != [] && failing.Some? && failing.value < 4 ==>
      |run.calls| == failing.value + 1 && run.finalStatus == UploadFailedStatus
  {
    var title := Trim(titleInput);
    if title == "" then UploadRun([], MissingTitleStatus)
    else if file.None? then UploadRun([], MissingFileStatus)
    else
      var plan := UploadPlan(title, file.value);
      if failing.Some? && failing.value < |plan| then UploadRun(plan[..failing.value + 1], UploadFailedStatus)
      else UploadRun(plan, UploadCompleteStatus)
  }

  /** Confirmation is sent only after the PUT of the bytes succeeded, and the
      list is refreshed only after the confirmation succeeded. */
  lemma ConfirmFollowsSuccessfulPut(titleInput: string, file: FileChoice, failing: Option<nat>)
    requires Trim(titleInput) != ""
    ensures var run := HandleUpload(titleInput, Some(file), failing);
      && (ConfirmUpload(file.name, Trim(titleInput)) in run.calls <==> failing.None? || failing.value >= 2)
      && (ListVideos in run.calls <==> failing.None? || failing.value >= 3)
  {
    var run := HandleUpload(titleInput, Some(file), failing);
    var plan := UploadPlan(Trim(titleInput), file);
    assert plan[..1] == [plan[0]];
    assert plan[..2] == [plan[0], plan[1]];
    assert plan[..3] == [plan[0], plan[1], plan[2]];
    assert plan[..4] == plan;
    assert plan[3] == ListVideos;
  }

  /** How the browser ends the PUT of the bytes: with a response status and
      text, or with a network error. */
  datatype XhrEnd = Load(status: nat, responseText: string) | NetworkError

  /** The settled upload promise of uploadToSasUrl. */
  function BlobUploadResult(e: XhrEnd): (r: Result<(), string>)
    ensures r.Success? <==> e.Load? && 200 <= e.status < 300
    ensures e.NetworkError? ==> r == Failure("Network error during blob upload")
  {
    match e
    case Load(status, text) =>
      if 200 <= status && status < 300 then Success(())
      else Failure("Blob upload failed (" + Decimal(status) + "): " + text)
    case NetworkError => Failure("Network error during blob upload")
  }

  /** The upload resolves exactly for a status of the successful class 2xx
      (section 15.3 of RFC 9110), and a rejection names the status it got. */
  lemma {:induction false} BlobUploadSuccessIs2xx(status: nat, text: string)
    ensures BlobUploadResult(Load(status, text)).Success? <==> status / 100 == 2
    ensures !BlobUploadResult(Load(status, text)).Success? ==>
      var msg := BlobUploadResult(Load(status, text)).error;
      var digits := Decimal(status);
      msg[|"Blob upload failed ("|..|"Blob upload failed ("| + |digits|] == digits
      && DecimalValue(digits) == status
  {
    DecimalRoundTrip(status);
    if !(200 <= status < 300) {
      var prefix := "Blob upload failed (";
      var msg := prefix + Decimal(status) + "): " + text;
      assert msg == prefix + (Decimal(status) + "): " + text);
    }
  }

  /** The page: status line, progress bar, search box, the cached video list
      and the children of the video list element. */
  class Page {
    var statusText: string
    var statusHint: string
    var progressWidth: int
    var searchValue: string
    var cachedVideos: seq<ClientVideo>
    var videoNodes: seq<Node>

    constructor (searchValue: string)
      ensures this.searchValue == searchValue && cachedVideos == [] && videoNodes == []
      ensures statusText == "" && statusHint == "" && progressWidth == 0
    {
      statusText, statusHint, progressWidth := "", "", 0;
      this.searchValue := searchValue;
      cachedVideos, videoNodes := [], [];
    }

    /** setStatus(text, hint, progress): a null progress leaves the bar alone. */
    method SetStatus(text: string, hint: Option<string>, progress: Option<int>)
      modifies this`statusText, this`statusHint, this`progressWidth
      ensures statusText == text && statusHint == OrEmpty(hint)
      ensures progress.None? ==> progressWidth == old(progressWidth)
      ensures progress.Some? ==> progressWidth == ClampProgress(progress.value)
      ensures 0 <= old(progressWidth) <= 100 ==> 0 <= progressWidth <= 100
    {
      statusText := text;
      statusHint := OrEmpty(hint);
      if progress.Some? {
        progressWidth := ClampProgress(progress.value);
      }
    }

    /** renderVideos: clear the list element, then append the placeholder or
        one item per matching video. */
    method RenderVideos()
      modifies this`videoNodes
      ensures videoNodes == Rendered(cachedVideos, searchValue)
    {
      var q := Trim(searchValue);
      videoNodes := [];
      var list := FilterVideos(cachedVideos, q);
      if |list| == 0 {
        videoNodes := videoNodes + [Placeholder(NoVideosText)];
        return;
      }
      for i := 0 to |list|
        invariant videoNodes == ItemNodes(list[..i])
      {
        AppendItem(list, i);
        videoNodes := videoNodes + [ItemNode(list[i])];
      }
      assert list[..|list|] == list;
    }

    /** refreshList with the answer of GET /videos: None when the request
        fails, in which case the error propagates with the status line still
        saying the list is loading. */
    method RefreshList(fetched: Option<seq<ClientVideo>>) returns (ok: bool)
      modifies this`statusText, this`statusHint, this`progressWidth, this`cachedVideos, this`videoNodes
      ensures ok == fetched.Some?
      ensures !ok ==> cachedVideos == old(cachedVideos) && videoNodes == old(videoNodes)
      ensures !ok ==> statusText == "Loading videos..." && progressWidth == old(progressWidth)
      ensures ok ==> cachedVideos == fetched.value && videoNodes == Rendered(fetched.value, searchValue)
      ensures ok ==> statusText == "Idle" && progressWidth == 0
      ensures ok ==> statusHint == "Loaded " + Decimal(|fetched.value|) + " videos."
    {
      SetStatus("Loading videos...", Some("Fetching metadata from Cosmos DB..."), None);
      if fetched.None? {
        return false;
      }
      cachedVideos := fetched.value;
      RenderVideos();
      SetStatus("Idle", Some("Loaded " + Decimal(|cachedVideos|) + " videos."), Some(0));
      ok := true;
    }
  }

  /** One more step of the rendering loop. */
  lemma AppendItem(list: seq<ClientVideo>, i: nat)
    requires i < |list|
    ensures ItemNodes(list[..i + 1]) == ItemNodes(list[..i]) + [ItemNode(list[i])]
  {
    assert list[..i + 1] == list[..i] + [list[i]];
  }
}
