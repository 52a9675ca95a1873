/** The POST handler of src/pages/api/convert.ts without its HTTP transport:
    reading the file key out of the design URL, walking the fetched document
    for frames and describing each frame for the generator. */
module Convert {
  import opened Seqs
  import opened Text
  import opened DesignTree
  import opened Classifier

  /** One entry of `processedFrames`. `componentType` is the category name as
      a string, because that is what travels to the generator. The route also
      attaches the raw node, which the generator never reads. */
  datatype ProcessedFrame = ProcessedFrame(
    id: string,
    name: string,
    componentType: string,
    texts: seq<string>,
    hasChildFrames: bool,
    shouldSkip: bool)

  /** `frame.children.some(c => c.type === "FRAME")`, scanning the direct
      children in order. */
  function AnyFrame(cs: seq<Node>): (b: bool)
    ensures b <==> exists i :: 0 <= i < |cs| && IsFrame(cs[i])
  {
    if cs == [] then false
    else if IsFrame(cs[0]) then
      assert IsFrame(cs[0]);
      true
    else
      var rest := AnyFrame(cs[1..]);
      assert forall i :: 1 <= i < |cs| ==> cs[i] == cs[1..][i - 1];
      rest
  }

  /** The record built for one frame by the `allFrames.map` callback. */
  function ProcessFrame(frame: Node): (p: ProcessedFrame)
    ensures p.id == frame.id && p.name == frame.name
    ensures p.componentType == CategoryName(GetComponentType(frame.name))
    ensures p.texts == Map(Filter(PreOrder(frame), HasText), CharactersOf)
    ensures p.hasChildFrames <==> exists i :: 0 <= i < |frame.children| && IsFrame(frame.children[i])
    ensures p.shouldSkip <==> p.texts == [] && p.hasChildFrames
  {
    var texts := CollectTextNodes(Some(frame));
    var hasChildFrames := AnyFrame(frame.children);
    ProcessedFrame(frame.id, frame.name, CategoryName(GetComponentType(frame.name)),
                   texts, hasChildFrames, |texts| == 0 && hasChildFrames)
  }

  /** `allFrames.map(...)`: one record per frame, in the same order. */
  function ProcessFrames(frames: seq<Node>): (ps: seq<ProcessedFrame>)
    ensures |ps| == |frames|
    ensures forall i :: 0 <= i < |frames| ==> ps[i] == ProcessFrame(frames[i])
  {
    Map(frames, ProcessFrame)
  }

  /** A frame is skipped as a pure layout container only when no text lies
      anywhere below it and one of its direct children is a frame. */
  lemma SkipMeansEmptyContainer(frame: Node)
    ensures ProcessFrame(frame).shouldSkip
        <==> (forall m :: m in PreOrder(frame) ==> !HasText(m))
             && exists i :: 0 <= i < |frame.children| && IsFrame(frame.children[i])
  {
    var s := PreOrder(frame);
    NoneKeptMeansEmpty(s, HasText);
  }

  lemma {:induction false} NoneKeptMeansEmpty(s: seq<Node>, p: Node -> bool)
    ensures Filter(s, p) == [] <==> forall m :: m in s ==> !p(m)
    decreases |s|
  {
    if s != [] {
      var init := s[..|s| - 1];
      NoneKeptMeansEmpty(init, p);
      assert forall m :: m in s ==> m in init || m == s[|s| - 1];
      assert forall m :: m in init ==> m in s;
    }
  }

  // ----- File key: /\/(?:file|design)\/([a-zA-Z0-9]+)/ -----

  predicate IsKeyChar(c: char)
  {
    'a' <= c <= 'z' || 'A' <= c <= 'Z' || '0' <= c <= '9'
  }

  /** The longest run of key characters at the start of `s` (the greedy
      `[a-zA-Z0-9]+`, empty when `s` does not start with one). */
  function KeyRun(s: string): (r: string)
    ensures |r| <= |s| && r == s[..|r|]
    ensures forall i :: 0 <= i < |r| ==> IsKeyChar(r[i])
    ensures |r| < |s| ==> !IsKeyChar(s[|r|])
  {
    if |s| > 0 && IsKeyChar(s[0]) then
      var rest := KeyRun(s[1..]);
      assert s[..1 + |rest|] == [s[0]] + s[1..][..|rest|];
      [s[0]] + rest
    else []
  }

  const FilePrefix: string := "/file/"
  const DesignPrefix: string := "/design/"

  /** The pattern matches at position `p` through its first alternative. */
  predicate FileMatchAt(url: string, p: nat)
  {
    p + |FilePrefix| <= |url| && StartsWith(url[p..], FilePrefix) && |KeyRun(url[p + |FilePrefix|..])| > 0
  }

  /** The pattern matches at position `p` through its second alternative. */
  predicate DesignMatchAt(url: string, p: nat)
  {
    p + |DesignPrefix| <= |url| && StartsWith(url[p..], DesignPrefix) && |KeyRun(url[p + |DesignPrefix|..])| > 0
  }

  predicate MatchAt(url: string, p: nat)
  {
    FileMatchAt(url, p) || DesignMatchAt(url, p)
  }

  /** The captured group of a match at `p`. */
  function KeyAt(url: string, p: nat): string
    requires MatchAt(url, p)
  {
    if FileMatchAt(url, p) then KeyRun(url[p + |FilePrefix|..])
    else KeyRun(url[p + |DesignPrefix|..])
  }

  /** The regular-expression engine's scan: try each start position from
      `from` on and stop at the first that matches. */
  function FindKey(url: string, from: nat): (r: Option<string>)
    ensures r.None? <==> forall p: nat :: from <= p <= |url| ==> !MatchAt(url, p)
    ensures r.Some? ==> exists p: nat :: from <= p <= |url| && MatchAt(url, p) && r.value == KeyAt(url, p)
                                       && forall q: nat :: from <= q < p ==> !MatchAt(url, q)
    decreases |url| - from
  {
    if from > |url| then None
    else if MatchAt(url, from) then Some(KeyAt(url, from))
    else
      FindKey(url, from + 1)
  }

  /** `figmaURL.match(...)`, reduced to the captured file key: the key of the
      leftmost position where the pattern matches, or nothing. */
  function ExtractFileKey(url: string): (r: Option<string>)
    ensures r.None? <==> forall p: nat :: p <= |url| ==> !MatchAt(url, p)
    ensures r.Some? ==> exists p: nat :: p <= |url| && MatchAt(url, p) && r.value == KeyAt(url, p)
                                       && forall q: nat :: q < p ==> !MatchAt(url, q)
    ensures r.Some? ==> |r.value| > 0 && forall i :: 0 <= i < |r.value| ==> IsKeyChar(r.value[i])
  {
    FindKey(url, 0)
  }

  const FileUrlBase: string := "https://www.figma.com/file/"
  const DesignUrlBase: string := "https://www.figma.com/design/"

  /** The URL the design tool hands out for a file gives back its key: the
      key is read whole, and whatever follows it (a "/" and a title, a "?"
      and a query, or nothing) is not part of it. */
  lemma {:induction false} FileUrlRoundTrip(key: string, rest: string)
    requires |key| > 0 && forall i :: 0 <= i < |key| ==> IsKeyChar(key[i])
    requires |rest| > 0 ==> !IsKeyChar(rest[0])
    ensures ExtractFileKey(FileUrlBase + key + rest) == Some(key)
  {
    var url := FileUrlBase + key + rest;
    var at := |"https://www.figma.com"|;
    NoMatchInHost(url);
    assert url[at..] == FilePrefix + (key + rest);
    StartsWithIsPrefix(url[at..], FilePrefix);
    KeyRunOf(key, rest);
    assert url[at + |FilePrefix|..] == key + rest;
    FirstMatchFound(url, at);
  }

  lemma {:induction false} DesignUrlRoundTrip(key: string, rest: string)
    requires |key| > 0 && forall i :: 0 <= i < |key| ==> IsKeyChar(key[i])
    requires |rest| > 0 ==> !IsKeyChar(rest[0])
    ensures ExtractFileKey(DesignUrlBase + key + rest) == Some(key)
  {
    var url := DesignUrlBase + key + rest;
    var at := |"https://www.figma.com"|;
    NoMatchInHost(url);
    assert url[at..] == DesignPrefix + (key + rest);
    StartsWithIsPrefix(url[at..], DesignPrefix);
    StartsWithIsPrefix(url[at..], FilePrefix);
    assert url[at + 1] == 'd';
    KeyRunOf(key, rest);
    assert url[at + |DesignPrefix|..] == key + rest;
    FirstMatchFound(url, at);
  }

  /** No position inside "https://www.figma.com" starts a match. */
  lemma NoMatchInHost(url: string)
    requires |url| >= 22 && url[..22] == "https://www.figma.com/"
    ensures forall q: nat :: q < 21 ==> !MatchAt(url, q)
  {
    forall q: nat | q < 21
      ensures !MatchAt(url, q)
    {
      StartsWithIsPrefix(url[q..], FilePrefix);
      StartsWithIsPrefix(url[q..], DesignPrefix);
      assert url[q] == "https://www.figma.com/"[q];
      if url[q] == '/' {
        assert q == 6 || q == 7;
        assert url[q + 1] == "https://www.figma.com/"[q + 1];
      }
    }
  }

  lemma {:induction false} KeyRunOf(key: string, rest: string)
    requires forall i :: 0 <= i < |key| ==> IsKeyChar(key[i])
    requires |rest| > 0 ==> !IsKeyChar(rest[0])
    ensures KeyRun(key + rest) == key
  {
    if |key| > 0 {
      assert (key + rest)[1..] == key[1..] + rest;
      KeyRunOf(key[1..], rest);
      assert [key[0]] + key[1..] == key;
    } else {
      assert key + rest == rest;
    }
  }

  lemma FirstMatchFound(url: string, at: nat)
    requires at <= |url| && MatchAt(url, at)
    requires forall q: nat :: q < at ==> !MatchAt(url, q)
    ensures ExtractFileKey(url) == Some(KeyAt(url, at))
  {
    var r := ExtractFileKey(url);
    var p: nat :| p <= |url| && MatchAt(url, p) && r.value == KeyAt(url, p)
                 && forall q: nat :: q < p ==> !MatchAt(url, q);
    assert !(p < at) && !(at < p);
  }

  // ----- The route -----

  /** What the call to the design tool's REST API returned: an error status
      with its text, or the parsed file whose `document` may be absent. */
  datatype FetchResult = FetchFailed(status: nat, statusText: string) | Fetched(document: Option<Node>)

  datatype ConvertResponse =
    | ConvertError(status: nat, message: string)
    | Converted(fileKey: string, totalFrames: nat, processedFrames: seq<ProcessedFrame>)

  /** The frames of a document, in the order `flattenFrames` finds them. */
  function FramesOf(document: Option<Node>): seq<Node>
  {
    Filter(PreOrderOf(document), IsFrame)
  }

  /** POST /api/convert. `figmaURL` is the form field (None when missing);
      `fetch` stands for the REST call, made with the extracted key. */
  method ConvertPost(figmaURL: Option<string>, fetch: string -> FetchResult) returns (r: ConvertResponse)
    ensures figmaURL.None? || figmaURL.value == "" ==> r == ConvertError(400, "No Figma URL provided")
    ensures figmaURL.Some? && figmaURL.value != "" && ExtractFileKey(figmaURL.value).None?
            ==> r == ConvertError(400, "Invalid Figma URL")
    ensures figmaURL.Some? && ExtractFileKey(figmaURL.value).Some? ==>
              var key := ExtractFileKey(figmaURL.value).value;
              var res := fetch(key);
              (res.FetchFailed? ==> r == ConvertError(500, "Figma API error " + Digits(res.status) + ": " + res.statusText))
              && (res.Fetched? ==> r == Converted(key, |FramesOf(res.document)|, ProcessFrames(FramesOf(res.document))))
  {
    if figmaURL.None? || figmaURL.value == "" {
      return ConvertError(400, "No Figma URL provided");
    }
    var url := figmaURL.value;
    var found := ExtractFileKey(url);
    if found.None? {
      return ConvertError(400, "Invalid Figma URL");
    }
    var fileKey := found.value;
    var res := fetch(fileKey);
    if res.FetchFailed? {
      return ConvertError(500, "Figma API error " + Digits(res.status) + ": " + res.statusText);
    }
    var collector := new FrameCollector();
    collector.Flatten(res.document);
    var allFrames := collector.frames;
    assert allFrames == FramesOf(res.document);
    r := Converted(fileKey, |allFrames|, ProcessFrames(allFrames));
  }
}
