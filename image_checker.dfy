/**
 * The image cache-aside selector (api-produtos/image_checker.py). A Redis
 * cache keyed `best_image_for_<id>` holds, per product, either the base64 of
 * the chosen image or the marker "null" (no suitable image); an absent key
 * means the product was never judged. On a miss the selector fetches the
 * product's images from the Copafer API, asks a vision model on OpenRouter
 * which one suits the catalogue best, and writes the verdict back.
 *
 * The cache is the `ImageCache` class (a map plus an availability flag). The
 * Copafer answer is a value, the OpenRouter answer a function of the payload
 * sent, and `json.loads` of the model's message a function `parse`.
 */
module ImageChecker {
  import opened Wrappers
  import opened PyValues
  import opened Http

  /** `IMAGE_CACHE_TTL`: three days, in seconds. */
  const ImageCacheTtl: int := 259200

  /** `NO_IMAGE_CODE`: the index the model answers when no image suits. */
  const NoImageCode: int := 932042349

  const KeyPrefix: string := "best_image_for_"

  /** What the cache holds for a product judged to have no suitable image. */
  const NullMarker: string := "null"

  // ------------------------------------------------------------------
  // get_cached_image and set_cached_image
  // ------------------------------------------------------------------

  function CacheKey(produtoId: string): (k: string)
    ensures |k| == |KeyPrefix| + |produtoId|
    ensures k[..|KeyPrefix|] == KeyPrefix && k[|KeyPrefix|..] == produtoId
  {
    KeyPrefix + produtoId
  }

  /** Different products never share a cache key. */
  lemma CacheKeyInjective(a: string, b: string)
    requires CacheKey(a) == CacheKey(b)
    ensures a == b
  {
    assert a == CacheKey(a)[|KeyPrefix|..];
  }

  /** A stored value and the TTL, in seconds, it was stored with. */
  datatype Entry = Entry(value: string, ttl: int)

  /** What the cache holds and whether the server can be reached; a server
      that does not answer `ping`, or a command that fails, reads as an
      unavailable cache. */
  datatype CacheState = CacheState(entries: map<string, Entry>, available: bool)

  /** `get_cached_image`: the stored value, or `None` when the key is absent
      or the cache is unavailable. */
  function CachedValue(s: CacheState, produtoId: string): (r: Option<string>)
    ensures r.Some? <==> s.available && CacheKey(produtoId) in s.entries
    ensures r.Some? ==> r.value == s.entries[CacheKey(produtoId)].value
  {
    var key := CacheKey(produtoId);
    if s.available && key in s.entries then Some(s.entries[key].value) else None
  }

  /** The value `set_cached_image` writes: the base64, or the marker. */
  function StoredValue(base64Value: Option<string>): string
  {
    match base64Value
    case Some(b) => b
    case None => NullMarker
  }

  /** The cache after `set_cached_image(id, v, ttl)`: unchanged when the
      cache is unavailable. */
  function AfterSet(s: CacheState, produtoId: string, base64Value: Option<string>, ttl: int): (t: CacheState)
    ensures t.available == s.available
    ensures !s.available ==> t == s
    ensures s.available ==> t.entries == s.entries[CacheKey(produtoId) := Entry(StoredValue(base64Value), ttl)]
  {
    if s.available then
      CacheState(s.entries[CacheKey(produtoId) := Entry(StoredValue(base64Value), ttl)], true)
    else s
  }

  /** Round trip: once stored, a base64 reads back as itself and `None` as
      the marker; an unavailable cache stores nothing and reads `None`. */
  lemma CacheRoundTrip(s: CacheState, produtoId: string, base64Value: Option<string>, ttl: int)
    ensures s.available ==> CachedValue(AfterSet(s, produtoId, base64Value, ttl), produtoId)
                            == Some(if base64Value.Some? then base64Value.value else NullMarker)
    ensures !s.available ==> CachedValue(AfterSet(s, produtoId, base64Value, ttl), produtoId).None?
  {
  }

  /** Writing one product's entry leaves every other product's entry alone. */
  lemma SetLeavesOtherProducts(s: CacheState, produtoId: string, other: string, base64Value: Option<string>, ttl: int)
    requires other != produtoId
    ensures CachedValue(AfterSet(s, produtoId, base64Value, ttl), other) == CachedValue(s, other)
  {
    if CacheKey(other) == CacheKey(produtoId) {
      CacheKeyInjective(other, produtoId);
    }
  }

  /** The cache, as a Redis client sees it. */
  class ImageCache {
    var entries: map<string, Entry>
    var available: bool

    constructor (available: bool)
      ensures entries == map[] && this.available == available
    {
      entries := map[];
      this.available := available;
    }

    function State(): CacheState
      reads this
    {
      CacheState(entries, available)
    }

    /** `get_cached_image`. */
    method GetCachedImage(produtoId: string) returns (r: Option<string>)
      ensures !available ==> r.None?
      ensures available ==> (r.Some? <==> CacheKey(produtoId) in entries)
      ensures r.Some? ==> r.value == entries[CacheKey(produtoId)].value
      ensures r == CachedValue(State(), produtoId)
    {
      if !available {
        return None;
      }
      var key := CacheKey(produtoId);
      if key in entries {
        r := Some(entries[key].value);
      } else {
        r := None;
      }
    }

    /** `set_cached_image`: writes the base64, or "null" for `None`, with the
        TTL; true when written, false when the cache is unavailable. */
    method SetCachedImage(produtoId: string, base64Value: Option<string>, ttl: int) returns (ok: bool)
      modifies this
      ensures ok == old(available) && available == old(available)
      ensures ok ==> entries == old(entries)[CacheKey(produtoId) := Entry(StoredValue(base64Value), ttl)]
      ensures !ok ==> entries == old(entries)
      ensures State() == AfterSet(old(State()), produtoId, base64Value, ttl)
    {
      if !available {
        return false;
      }
      var key := CacheKey(produtoId);
      var value := if base64Value.Some? then base64Value.value else NullMarker;
      entries := entries[key := Entry(value, ttl)];
      ok := true;
    }

    /** `check_image_exists`, answered through this cache, the Copafer
        answer `copafer`, the OpenRouter endpoint `openrouter` and the
        decoder `parse` of the model's message; `calls` records the
        interactions in order. */
    method CheckImageExists(produtoId: string, copafer: HttpReply, openrouter: Payload -> HttpReply,
                            parse: string -> Option<Value>)
      returns (outcome: SelectorOutcome, calls: seq<Call>)
      modifies this
      ensures var run := SelectorRun(old(State()), produtoId, FetchResult(copafer), Judging(openrouter, parse));
              outcome == run.outcome && calls == run.calls && entries == run.entries
      ensures available == old(available)
    {
      var cached := GetCachedImage(produtoId);
      if cached.Some? {
        outcome := Answered(ImageCheckResponse(IsImage(cached.value), produtoId));
        calls := [CacheGet(CacheKey(produtoId))];
      } else {
        var fetched := FetchProductImages(copafer);
        outcome, calls := ResolveMiss(produtoId, fetched, openrouter, parse);
      }
    }

    /** The miss path, from the images `fetch_product_images` returned. */
    method ResolveMiss(produtoId: string, fetched: ImagesResult, openrouter: Payload -> HttpReply,
                       parse: string -> Option<Value>)
      returns (outcome: SelectorOutcome, calls: seq<Call>)
      modifies this
      ensures var run := AfterMiss(old(State()), produtoId, fetched, Judging(openrouter, parse));
              outcome == run.outcome && calls == run.calls && entries == run.entries
      ensures available == old(available)
    {
      calls := [CacheGet(CacheKey(produtoId)), FetchImages(produtoId)];
      if !fetched.ok || fetched.images == [] {
        var _ := SetCachedImage(produtoId, None, ImageCacheTtl);
        outcome := Answered(ImageCheckResponse(false, produtoId));
        calls := calls + [CacheSet(CacheKey(produtoId), NullMarker)];
      } else {
        var prepared := PrepareOpenrouterPayload(fetched.images);
        if prepared.Failure? {
          // `re.sub` raised outside any handler
          outcome := Raised(prepared.error);
        } else {
          var payload := prepared.value;
          var aiResult := CallOpenrouter(openrouter(payload), parse);
          outcome, calls := RecordVerdict(produtoId, fetched.images, calls + [CallModel(payload)], aiResult);
        }
      }
    }

    /** Acts on the model's answer `aiResult` about `images`, after the
        interactions `calls`. */
    method RecordVerdict(produtoId: string, images: seq<Image>, calls: seq<Call>, aiResult: ModelResult)
      returns (outcome: SelectorOutcome, callsAfter: seq<Call>)
      requires AllStrings(images)
      modifies this
      ensures var run := Verdict(old(State()), produtoId, images, calls, aiResult);
              outcome == run.outcome && callsAfter == run.calls && entries == run.entries
      ensures available == old(available)
    {
      var key := CacheKey(produtoId);
      var bestIndex := aiResult.bestImageIndex;
      if !aiResult.ok || bestIndex.None? || bestIndex.value == NoImageCode
         || bestIndex.value < 0 || bestIndex.value >= |images|
      {
        var _ := SetCachedImage(produtoId, None, ImageCacheTtl);
        outcome := Answered(ImageCheckResponse(false, produtoId));
        callsAfter := calls + [CacheSet(key, NullMarker)];
      } else {
        var chosen := images[bestIndex.value].base64.s;
        var _ := SetCachedImage(produtoId, Some(chosen), ImageCacheTtl);
        var cachedAfter := GetCachedImage(produtoId);
        outcome := Answered(ImageCheckResponse(cachedAfter.Some? && IsImage(cachedAfter.value), produtoId));
        callsAfter := calls + [CacheSet(key, chosen), CacheGet(key)];
      }
    }
  }

  // ------------------------------------------------------------------
  // fetch_product_images
  // ------------------------------------------------------------------

  /** An HTTP exchange: no answer at all (connection error, timeout), or an
      answer. */
  datatype HttpReply = TransportError | Reply(response: Response)

  /** One entry of `valid_images`: `{"base64": ...}`. */
  datatype Image = Image(base64: Value)

  /** Why `fetch_product_images` returned `ok = False`. */
  datatype FetchFailure =
    | NoImages            // `images` missing, falsy or not a list
    | HttpFailure(status: int)
    | RequestFailed       // no answer, a body that is not JSON, or not a dict

  datatype ImagesResult = ImagesResult(ok: bool, images: seq<Image>, error: Option<FetchFailure>)

  /** An entry the loop keeps: a dict with a truthy `base64`. */
  predicate IsValidImage(img: Value)
  {
    img.Dict? && Get(img.fields, "base64").Some? && Truthy(Get(img.fields, "base64").value)
  }

  /** The kept entries, in order. */
  function ValidImages(images: seq<Value>): (r: seq<Image>)
    ensures |r| <= |images|
  {
    if images == [] then []
    else
      var last := images[|images| - 1];
      ValidImages(images[..|images| - 1])
        + (if IsValidImage(last) then [Image(Get(last.fields, "base64").value)] else [])
  }

  /** Filtering distributes over concatenation: the kept entries of `a + b`
      are those of `a` followed by those of `b`. */
  lemma {:induction false} ValidImagesAppend(a: seq<Value>, b: seq<Value>)
    ensures ValidImages(a + b) == ValidImages(a) + ValidImages(b)
  {
    if b != [] {
      assert (a + b)[..|a + b| - 1] == a + b[..|b| - 1];
      ValidImagesAppend(a, b[..|b| - 1]);
    } else {
      assert a + b == a;
    }
  }

  /** On one entry the filter keeps it exactly when it is valid. */
  lemma ValidImagesSingle(img: Value)
    ensures ValidImages([img]) == if IsValidImage(img) then [Image(Get(img.fields, "base64").value)] else []
  {
    assert [img][..0] == [];
  }

  /** Every kept entry has a truthy base64 that was the `base64` of some
      input entry. */
  lemma {:induction false} ValidImagesSound(images: seq<Value>)
    ensures forall k :: 0 <= k < |ValidImages(images)| ==>
              Truthy(ValidImages(images)[k].base64)
              && exists j :: 0 <= j < |images| && IsValidImage(images[j])
                             && Get(images[j].fields, "base64").value == ValidImages(images)[k].base64
  {
    if images != [] {
      var init := images[..|images| - 1];
      ValidImagesSound(init);
      var r := ValidImages(images);
      forall k | 0 <= k < |r|
        ensures Truthy(r[k].base64)
        ensures exists j :: 0 <= j < |images| && IsValidImage(images[j])
                            && Get(images[j].fields, "base64").value == r[k].base64
      {
        if k < |ValidImages(init)| {
          var j :| 0 <= j < |init| && IsValidImage(init[j])
                   && Get(init[j].fields, "base64").value == ValidImages(init)[k].base64;
          assert images[j] == init[j];
        } else {
          assert images[|images| - 1] == images[|images| - 1];
        }
      }
    }
  }

  /** What `fetch_product_images` returns for the answer `reply`. */
  function FetchResult(reply: HttpReply): (r: ImagesResult)
    ensures r.ok <==> r.error.None?
    ensures !r.ok ==> r.images == []
    ensures r.ok <==>
              && reply.Reply? && IsOk(reply.response.status)
              && reply.response.body.Some? && reply.response.body.value.Dict?
              && var images := GetOr(reply.response.body.value.fields, "images", List([]));
                 images.List? && images.elems != []
    ensures r.ok ==> r.images == ValidImages(GetOr(reply.response.body.value.fields, "images", List([])).elems)
  {
    match reply
    case TransportError => ImagesResult(false, [], Some(RequestFailed))
    case Reply(resp) =>
      if !IsOk(resp.status) then ImagesResult(false, [], Some(HttpFailure(resp.status)))
      else if resp.body.None? || !resp.body.value.Dict? then ImagesResult(false, [], Some(RequestFailed))
      else
        var images := GetOr(resp.body.value.fields, "images", List([]));
        if !Truthy(images) || !images.List? then ImagesResult(false, [], Some(NoImages))
        else ImagesResult(true, ValidImages(images.elems), None)
  }

  /** `fetch_product_images`, with the request's answer given. */
  method FetchProductImages(reply: HttpReply) returns (res: ImagesResult)
    ensures res == FetchResult(reply)
  {
    if reply.TransportError? {
      return ImagesResult(false, [], Some(RequestFailed));
    }
    var resp := reply.response;
    if !IsOk(resp.status) {
      return ImagesResult(false, [], Some(HttpFailure(resp.status)));
    }
    if resp.body.None? || !resp.body.value.Dict? {
      return ImagesResult(false, [], Some(RequestFailed));
    }
    var images := GetOr(resp.body.value.fields, "images", List([]));
    if !Truthy(images) || !images.List? {
      return ImagesResult(false, [], Some(NoImages));
    }
    var validImages: seq<Image> := [];
    for k := 0 to |images.elems|
      invariant validImages == ValidImages(images.elems[..k])
    {
      assert images.elems[..k + 1][..k] == images.elems[..k];
      var img := images.elems[k];
      if img.Dict? && Get(img.fields, "base64").Some? && Truthy(Get(img.fields, "base64").value) {
        validImages := validImages + [Image(Get(img.fields, "base64").value)];
      }
    }
    assert images.elems[..|images.elems|] == images.elems;
    res := ImagesResult(true, validImages, None);
  }

  // ------------------------------------------------------------------
  // prepare_openrouter_payload
  // ------------------------------------------------------------------

  /** `re.sub(r'\r?\n|\r', '', s)`: scanning from the left, a CR LF pair, a
      lone LF or a lone CR is deleted. */
  function StripLineBreaks(s: string): (r: string)
    ensures '\r' !in r && '\n' !in r
    ensures |r| <= |s|
  {
    if s == [] then []
    else if s[0] == '\r' && |s| > 1 && s[1] == '\n' then StripLineBreaks(s[2..])
    else if s[0] == '\n' || s[0] == '\r' then StripLineBreaks(s[1..])
    else [s[0]] + StripLineBreaks(s[1..])
  }

  lemma RemoveCharCons(x: char, s: string, c: char)
    ensures RemoveChar([x] + s, c) == (if x == c then [] else [x]) + RemoveChar(s, c)
  {
    assert ([x] + s)[1..] == s;
  }

  /** The regular expression removes every CR and every LF and nothing
      else. */
  lemma {:induction false} StripLineBreaksRemovesAll(s: string)
    ensures StripLineBreaks(s) == RemoveChar(RemoveChar(s, '\r'), '\n')
  {
    if s != [] {
      assert s == [s[0]] + s[1..];
      if s[0] == '\r' && |s| > 1 && s[1] == '\n' {
        StripLineBreaksRemovesAll(s[2..]);
        assert s[1..] == [s[1]] + s[2..];
        RemoveCharCons('\r', s[1..], '\r');
        RemoveCharCons('\n', s[2..], '\r');
        RemoveCharCons('\n', RemoveChar(s[2..], '\r'), '\n');
        assert RemoveChar(s, '\r') == ['\n'] + RemoveChar(s[2..], '\r');
      } else {
        StripLineBreaksRemovesAll(s[1..]);
        RemoveCharCons(s[0], s[1..], '\r');
        if s[0] == '\r' {
          assert StripLineBreaks(s) == StripLineBreaks(s[1..]);
          assert RemoveChar(s, '\r') == RemoveChar(s[1..], '\r');
        } else {
          RemoveCharCons(s[0], RemoveChar(s[1..], '\r'), '\n');
          assert RemoveChar(s, '\r') == [s[0]] + RemoveChar(s[1..], '\r');
          if s[0] == '\n' {
            assert StripLineBreaks(s) == StripLineBreaks(s[1..]);
          } else {
            assert StripLineBreaks(s) == [s[0]] + StripLineBreaks(s[1..]);
          }
        }
      }
    }
  }

  /** One entry of the message's `content` list. */
  datatype ContentPart =
    | TextPart(text: string)      // {"type": "text", "text": ...}
    | ImageUrlPart(url: string)   // {"type": "image_url", "image_url": {"url": ...}}

  /** The strict JSON schema the model's reply must follow. */
  datatype ResponseSchema = ResponseSchema(name: string, strict: bool, required: seq<string>, additionalProperties: bool)

  /** The request body sent to OpenRouter: one user message. */
  datatype Payload = Payload(model: string, role: string, content: seq<ContentPart>, schema: ResponseSchema)

  /** `OPENROUTER_MODEL` when the environment does not set it. */
  const OpenrouterModel: string := "openai/gpt-5-chat"

  const Instruction: string :=
    "Qual dessas imagens lhe parece mais adequada para mostrar ao cliente "
    + "que deseja ver uma imagem do produto? Isto é, qual delas se encaixa melhor "
    + "como imagem de capa do produto? ATENÇÃO: Se caso nenhuma imagem for adequada, "
    + "pois não é uma imagem para o cliente que quer ver o produto em detalhes, "
    + "a foto não é profissional etc, retorne o número 932042349 em best_image_index"

  const Schema: ResponseSchema := ResponseSchema("response", true, ["justification", "best_image_index"], false)

  /** What building the payload can raise. */
  datatype PrepareError = TypeError   // `re.sub` on a base64 that is not a string

  predicate AllStrings(images: seq<Image>)
  {
    forall k :: 0 <= k < |images| ==> images[k].base64.Str?
  }

  /** The `image_url` entries, one per image, in order. */
  function ImageParts(images: seq<Image>): (r: seq<ContentPart>)
    requires AllStrings(images)
    ensures |r| == |images|
  {
    if images == [] then []
    else ImageParts(images[..|images| - 1]) + [ImageUrlPart(StripLineBreaks(images[|images| - 1].base64.s))]
  }

  lemma {:induction false} ImagePartsAt(images: seq<Image>, k: int)
    requires AllStrings(images) && 0 <= k < |images|
    ensures ImageParts(images)[k] == ImageUrlPart(StripLineBreaks(images[k].base64.s))
  {
    if k < |images| - 1 {
      ImagePartsAt(images[..|images| - 1], k);
    }
  }

  /** What `prepare_openrouter_payload(images)` returns or raises. */
  function PayloadFor(images: seq<Image>): Result<Payload, PrepareError>
  {
    if AllStrings(images) then
      Success(Payload(OpenrouterModel, "user", [TextPart(Instruction)] + ImageParts(images), Schema))
    else Failure(TypeError)
  }

  /** The content list is the instruction followed by one `image_url` entry
      per image, in order, whose url is the image's base64 with its line
      breaks removed; the call raises exactly when some base64 is not a
      string. */
  lemma PayloadShape(images: seq<Image>)
    ensures PayloadFor(images).Failure? <==> exists k :: 0 <= k < |images| && !images[k].base64.Str?
    ensures PayloadFor(images).Success? ==>
              var content := PayloadFor(images).value.content;
              && |content| == 1 + |images|
              && content[0] == TextPart(Instruction)
              && forall k :: 0 <= k < |images| ==>
                   content[k + 1] == ImageUrlPart(StripLineBreaks(images[k].base64.s))
                   && '\r' !in content[k + 1].url && '\n' !in content[k + 1].url
  {
    if AllStrings(images) {
      forall k | 0 <= k < |images|
        ensures ImageParts(images)[k] == ImageUrlPart(StripLineBreaks(images[k].base64.s))
      {
        ImagePartsAt(images, k);
      }
    }
  }

  /** `prepare_openrouter_payload`. */
  method PrepareOpenrouterPayload(images: seq<Image>) returns (r: Result<Payload, PrepareError>)
    ensures r == PayloadFor(images)
  {
    var imageUrls: seq<ContentPart> := [];
    for k := 0 to |images|
      invariant AllStrings(images[..k])
      invariant imageUrls == ImageParts(images[..k])
    {
      assert images[..k + 1][..k] == images[..k];
      var base64 := images[k].base64;
      if !base64.Str? {
        assert !AllStrings(images);
        return Failure(TypeError);
      }
      imageUrls := imageUrls + [ImageUrlPart(StripLineBreaks(base64.s))];
    }
    assert images[..|images|] == images;
    r := Success(Payload(OpenrouterModel, "user", [TextPart(Instruction)] + imageUrls, Schema));
  }

  // ------------------------------------------------------------------
  // call_openrouter
  // ------------------------------------------------------------------

  /** `call_openrouter`'s result: `ok`, `best_image_index`, `justification`. */
  datatype ModelResult = ModelResult(ok: bool, bestImageIndex: Option<int>, justification: Option<Value>)

  const ModelFailed: ModelResult := ModelResult(false, None, None)

  /** The model's message content, when the reply has one: a dict answer
      whose `choices` is a non-empty list whose first entry is a dict with
      a dict `message` (a missing `message` reads as `{}`, a missing
      `content` as ""). */
  function MessageContent(data: Value): Option<Value>
  {
    if !data.Dict? then None
    else
      var choices := GetOr(data.fields, "choices", List([]));
      if !choices.List? || choices.elems == [] || !choices.elems[0].Dict? then None
      else
        var message := GetOr(choices.elems[0].fields, "message", Dict([]));
        if !message.Dict? then None
        else Some(GetOr(message.fields, "content", Str("")))
  }

  /** `call_openrouter`, with the HTTP answer to the payload given and
      `json.loads` as `parse` (`None` for a `JSONDecodeError`). */
  function CallOpenrouter(reply: HttpReply, parse: string -> Option<Value>): (r: ModelResult)
    ensures !r.ok ==> r == ModelFailed
    ensures reply.TransportError? ==> !r.ok
    ensures reply.Reply? && !IsOk(reply.response.status) ==> !r.ok
    ensures reply.Reply? && reply.response.body.None? ==> !r.ok
    ensures r.ok ==> && reply.Reply? && IsOk(reply.response.status) && reply.response.body.Some?
                     && var content := MessageContent(reply.response.body.value);
                        && content.Some? && content.value.Str? && content.value.s != ""
                        && var parsed := parse(content.value.s);
                           && parsed.Some? && parsed.value.Dict?
                           && r.justification == Some(GetOr(parsed.value.fields, "justification", Str("")))
                           && var best := GetOr(parsed.value.fields, "best_image_index", Null);
                              r.bestImageIndex == (if best.Null? then None else PyInt(best))
    ensures (&& reply.Reply? && IsOk(reply.response.status) && reply.response.body.Some?
             && var content := MessageContent(reply.response.body.value);
                && content.Some? && content.value.Str? && content.value.s != ""
                && var parsed := parse(content.value.s);
                   && parsed.Some? && parsed.value.Dict?
                   && var best := GetOr(parsed.value.fields, "best_image_index", Null);
                      best.Null? || PyInt(best).Some?)
            ==> r.ok
  {
    match reply
    case TransportError => ModelFailed
    case Reply(resp) =>
      if !IsOk(resp.status) || resp.body.None? then ModelFailed
      else
        match MessageContent(resp.body.value)
        case None => ModelFailed
        case Some(content) =>
          // empty content; or `json.loads` of a non-string raises TypeError
          if !Truthy(content) || !content.Str? then ModelFailed
          else
            match parse(content.s)
            case None => ModelFailed
            case Some(parsed) =>
              // `.get` on a parsed value that is not a dict raises
              if !parsed.Dict? then ModelFailed
              else
                var best := GetOr(parsed.fields, "best_image_index", Null);
                var justification := GetOr(parsed.fields, "justification", Str(""));
                if best.Null? then ModelResult(true, None, Some(justification))
                else match PyInt(best)
                  case None => ModelFailed
                  case Some(i) => ModelResult(true, Some(i), Some(justification))
  }

  /** With no `choices`, empty `choices`, or an empty message, the call is
      not ok. */
  lemma EmptyChoicesOrContentFails(data: seq<Field>, parse: string -> Option<Value>)
    requires var choices := GetOr(data, "choices", List([]));
             || (choices.List? && choices.elems == [])
             || (MessageContent(Dict(data)).Some? && !Truthy(MessageContent(Dict(data)).value))
    ensures !CallOpenrouter(Reply(Response(200, Some(Dict(data)))), parse).ok
  {
  }

  // ------------------------------------------------------------------
  // check_image_exists
  // ------------------------------------------------------------------

  /** The index the model chose, when it names one of the `n` images: not
      missing, not `NO_IMAGE_CODE`, and in `[0, n)`. */
  function InterpretIndex(bestIndex: Option<int>, n: nat): (r: Option<nat>)
    ensures r.Some? <==> bestIndex.Some? && bestIndex.value != NoImageCode && 0 <= bestIndex.value < n
    ensures r.Some? ==> r.value == bestIndex.value
  {
    if bestIndex.None? || bestIndex.value == NoImageCode then None
    else if bestIndex.value < 0 || bestIndex.value >= n then None
    else Some(bestIndex.value)
  }

  /** The response body: `{"imageExists": ..., "IdProduto": ...}`. */
  datatype ImageCheckResponse = ImageCheckResponse(imageExists: bool, idProduto: string)

  /** A response, or the `TypeError` that escapes `check_image_exists`. */
  datatype SelectorOutcome = Answered(response: ImageCheckResponse) | Raised(error: PrepareError)

  /** The selector's interactions with the cache and the two services. */
  datatype Call =
    | CacheGet(key: string)
    | FetchImages(produtoId: string)
    | CallModel(payload: Payload)
    | CacheSet(key: string, value: string)

  datatype Selection = Selection(outcome: SelectorOutcome, calls: seq<Call>, entries: map<string, Entry>)

  /** A negative verdict after the interactions `calls`: the marker is
      written and `imageExists` is false. */
  function Negative(s: CacheState, produtoId: string, calls: seq<Call>): Selection
  {
    Selection(Answered(ImageCheckResponse(false, produtoId)),
              calls + [CacheSet(CacheKey(produtoId), NullMarker)],
              AfterSet(s, produtoId, None, ImageCacheTtl).entries)
  }

  /** A cached value that names an image: neither the marker nor empty. */
  predicate IsImage(v: string)
  {
    v != NullMarker && v != ""
  }

  /** What the model answers to a payload: `call_openrouter` against an
      endpoint and a message decoder. */
  type Judge = Payload -> ModelResult

  function Judging(openrouter: Payload -> HttpReply, parse: string -> Option<Value>): Judge
  {
    p => CallOpenrouter(openrouter(p), parse)
  }

  /** What `check_image_exists(produtoId)` answers, does and leaves in the
      cache, starting from the cache `s`, when a fetch would give `fetched`
      and the model judges by `judge`. */
  function SelectorRun(s: CacheState, produtoId: string, fetched: ImagesResult, judge: Judge): Selection
  {
    var cached := CachedValue(s, produtoId);
    if cached.Some? then
      Selection(Answered(ImageCheckResponse(IsImage(cached.value), produtoId)), [CacheGet(CacheKey(produtoId))], s.entries)
    else AfterMiss(s, produtoId, fetched, judge)
  }

  /** The miss path: no images means the marker; otherwise the payload is
      built (which may raise) and the model's answer decides. */
  function AfterMiss(s: CacheState, produtoId: string, fetched: ImagesResult, judge: Judge): Selection
  {
    var calls := [CacheGet(CacheKey(produtoId)), FetchImages(produtoId)];
    if !fetched.ok || fetched.images == [] then Negative(s, produtoId, calls)
    else match PayloadFor(fetched.images)
      case Failure(e) => Selection(Raised(e), calls, s.entries)
      case Success(payload) =>
        Verdict(s, produtoId, fetched.images, calls + [CallModel(payload)], judge(payload))
  }

  /** The model's answer decides: a failed call or an index that names no
      image means the marker; otherwise the chosen base64 is stored and the
      response reports what reading the cache back gives. */
  function Verdict(s: CacheState, produtoId: string, images: seq<Image>, calls: seq<Call>, ai: ModelResult): Selection
    requires AllStrings(images)
  {
    if !ai.ok then Negative(s, produtoId, calls)
    else match InterpretIndex(ai.bestImageIndex, |images|)
      case None => Negative(s, produtoId, calls)
      case Some(i) =>
        var key := CacheKey(produtoId);
        var chosen := images[i].base64.s;
        var after := AfterSet(s, produtoId, Some(chosen), ImageCacheTtl);
        var reread := CachedValue(after, produtoId);
        Selection(Answered(ImageCheckResponse(reread.Some? && IsImage(reread.value), produtoId)),
                  calls + [CacheSet(key, chosen), CacheGet(key)], after.entries)
  }

  // ------------------------------------------------------------------
  // Properties of the decision chain
  // ------------------------------------------------------------------

  /** A cached value answers at once: the one interaction is the cache
      read, nothing is written, and `imageExists` says whether the value is
      neither the marker nor empty. */
  lemma CacheHitShortCircuits(s: CacheState, produtoId: string, fetched: ImagesResult, judge: Judge, cached: string)
    requires CachedValue(s, produtoId) == Some(cached)
    ensures var run := SelectorRun(s, produtoId, fetched, judge);
            && run.outcome == Answered(ImageCheckResponse(cached != NullMarker && cached != "", produtoId))
            && run.calls == [CacheGet(CacheKey(produtoId))]
            && run.entries == s.entries
  {
  }

  /** On a miss where the fetch fails or yields no valid image, the marker
      is written once and the answer is false; the model is not consulted. */
  lemma NoImagesMarksProduct(s: CacheState, produtoId: string, fetched: ImagesResult, judge: Judge)
    requires CachedValue(s, produtoId).None?
    requires !fetched.ok || fetched.images == []
    ensures var run := SelectorRun(s, produtoId, fetched, judge);
            && run.outcome == Answered(ImageCheckResponse(false, produtoId))
            && run.calls == [CacheGet(CacheKey(produtoId)), FetchImages(produtoId), CacheSet(CacheKey(produtoId), NullMarker)]
            && run.entries == AfterSet(s, produtoId, None, ImageCacheTtl).entries
  {
  }

  /** On a miss with images, the model's answer decides: a failed call, a
      missing index, `NO_IMAGE_CODE` or an index outside `[0, n)` writes the
      marker once and answers false, after the fetch and the one model
      call. */
  lemma RejectedVerdictMarksProduct(s: CacheState, produtoId: string, fetched: ImagesResult, judge: Judge,
                                    payload: Payload)
    requires CachedValue(s, produtoId).None?
    requires fetched.ok && fetched.images != [] && PayloadFor(fetched.images) == Success(payload)
    requires var ai := judge(payload);
             || !ai.ok || ai.bestImageIndex.None? || ai.bestImageIndex.value == NoImageCode
             || ai.bestImageIndex.value < 0 || ai.bestImageIndex.value >= |fetched.images|
    ensures var run := SelectorRun(s, produtoId, fetched, judge);
            && run.outcome == Answered(ImageCheckResponse(false, produtoId))
            && run.calls == [CacheGet(CacheKey(produtoId)), FetchImages(produtoId), CallModel(payload),
                             CacheSet(CacheKey(produtoId), NullMarker)]
            && run.entries == AfterSet(s, produtoId, None, ImageCacheTtl).entries
  {
  }

  /** With an index `i` that names one of the images, the chosen base64 is
      written and then read back, and `imageExists` is what the re-read
      gives: on an available cache, whether the chosen base64 is neither
      the marker nor empty; on an unavailable one, false. */
  lemma ChosenImageStored(s: CacheState, produtoId: string, fetched: ImagesResult, judge: Judge,
                          payload: Payload, i: nat)
    requires CachedValue(s, produtoId).None?
    requires fetched.ok && fetched.images != [] && PayloadFor(fetched.images) == Success(payload)
    requires judge(payload).ok && judge(payload).bestImageIndex == Some(i)
    requires i != NoImageCode && i < |fetched.images|
    ensures fetched.images[i].base64.Str?
    ensures var chosen := fetched.images[i].base64.s;
            var run := SelectorRun(s, produtoId, fetched, judge);
            && run.outcome == Answered(ImageCheckResponse(s.available && IsImage(chosen), produtoId))
            && run.calls == [CacheGet(CacheKey(produtoId)), FetchImages(produtoId), CallModel(payload),
                             CacheSet(CacheKey(produtoId), chosen), CacheGet(CacheKey(produtoId))]
            && run.entries == AfterSet(s, produtoId, Some(chosen), ImageCacheTtl).entries
  {
  }

  /** Every answer is about the product asked for. */
  lemma AnswerNamesProduct(s: CacheState, produtoId: string, fetched: ImagesResult, judge: Judge)
    ensures var run := SelectorRun(s, produtoId, fetched, judge);
            run.outcome.Answered? ==> run.outcome.response.idProduto == produtoId
  {
  }

  /** Only the product's own key can change. */
  lemma OnlyOwnKeyWritten(s: CacheState, produtoId: string, fetched: ImagesResult, judge: Judge)
    ensures var run := SelectorRun(s, produtoId, fetched, judge);
            run.entries - {CacheKey(produtoId)} == s.entries - {CacheKey(produtoId)}
  {
  }

  /** The selector raises exactly on a miss whose valid images include a
      base64 that is not a string. */
  lemma RaisesOnlyOnNonStringBase64(s: CacheState, produtoId: string, fetched: ImagesResult, judge: Judge)
    ensures var run := SelectorRun(s, produtoId, fetched, judge);
            run.outcome.Raised? <==>
              && CachedValue(s, produtoId).None?
              && fetched.ok
              && exists k :: 0 <= k < |fetched.images| && !fetched.images[k].base64.Str?
  {
    PayloadShape(fetched.images);
  }

  /** The answer agrees with the cache it leaves behind: on an available
      cache the product's entry is present and `imageExists` says whether
      it names an image; on an unavailable cache the answer is false. */
  lemma AnswerAgreesWithCache(s: CacheState, produtoId: string, fetched: ImagesResult, judge: Judge)
    ensures var run := SelectorRun(s, produtoId, fetched, judge);
            var after := CachedValue(CacheState(run.entries, s.available), produtoId);
            && (run.outcome.Answered? && s.available ==>
                  after.Some? && run.outcome.response.imageExists == IsImage(after.value))
            && (run.outcome.Answered? && !s.available ==> !run.outcome.response.imageExists)
  {
  }

  /** Cache-aside: once the selector has answered on an available cache,
      asking again about the same product is a cache hit that gives the
      same answer, whatever the services would now say. */
  lemma SecondCallHitsCache(s: CacheState, produtoId: string, fetched: ImagesResult, judge: Judge,
                            fetched2: ImagesResult, judge2: Judge)
    requires s.available
    requires SelectorRun(s, produtoId, fetched, judge).outcome.Answered?
    ensures var run := SelectorRun(s, produtoId, fetched, judge);
            var again := SelectorRun(CacheState(run.entries, true), produtoId, fetched2, judge2);
            && again.outcome == run.outcome
            && again.calls == [CacheGet(CacheKey(produtoId))]
            && again.entries == run.entries
  {
    AnswerAgreesWithCache(s, produtoId, fetched, judge);
  }
}
