/** ImageGenerator of background/image_generator.py: which prompts of a
    prompt document are sent to fal.ai's flux-pro endpoint, which answers are
    kept, and when the whole call fails. The fal client is an oracle: the
    answer to the k-th call of fal_client.subscribe(application, arguments),
    counted from 0, is `subscribe(k, application, arguments)`. JSON decoding
    is an oracle too. */
module ImageGenerator {
  import opened Py
  import opened PyStr
  import opened PyJson

  /** The image size generate_images_from_prompts uses when the caller gives
      none, as the background service's only call does. */
  const DefaultImageSize: string := "landscape_16_9"

  /** The fal application every request goes to. */
  const Endpoint: string := "fal-ai/flux-pro/v1.1"

  /** One kept result: the prompt as submitted (not stripped), the images of
      the answer and its seed (JNull when the answer has none). */
  datatype GeneratedImage = GeneratedImage(prompt: string, images: Json, seed: Json)

  /** What fal_client.subscribe did with one request: returned a decoded
      JSON value, or raised. */
  datatype Answer = Answer(result: Json) | Failure(exc: Exc)

  /** ImageGenerator(): the FAL_KEY environment variable must be set and
      non-empty. */
  function CheckFalKey(falKey: Option<string>): (r: Result<()>)
    ensures r.Ok? <==> falKey.Some? && falKey.value != ""
    ensures r.Err? ==> r.exc == ValueError
  {
    if falKey.None? || falKey.value == "" then Err(ValueError) else Ok(())
  }

  /** One request: the only parts of it that vary are the prompt and the
      image size. */
  datatype Request = Request(prompt: string, imageSize: string)

  /** The arguments dict sent to Endpoint for a request, in the order the
      source writes it. */
  function Arguments(request: Request): (args: Json)
    ensures args.JObj? && |args.fields| == 5
  {
    JObj([("prompt", JStr(request.prompt)), ("image_size", JStr(request.imageSize)), ("num_images", JInt(1)),
          ("enable_safety_checker", JBool(true)), ("safety_tolerance", JStr("4"))])
  }

  /** What the arguments dict says: the prompt and the image size of the
      request, one image, safety checker on, tolerance "4", and (five
      entries, five distinct keys) nothing else. */
  lemma ArgumentsSent(request: Request)
    ensures var fields := Arguments(request).fields;
      && Lookup(fields, "prompt") == Some(JStr(request.prompt))
      && Lookup(fields, "image_size") == Some(JStr(request.imageSize))
      && Lookup(fields, "num_images") == Some(JInt(1))
      && Lookup(fields, "enable_safety_checker") == Some(JBool(true))
      && Lookup(fields, "safety_tolerance") == Some(JStr("4"))
  {
    var fields := Arguments(request).fields;
    LookupLastBinding(fields, 0);
    LookupLastBinding(fields, 1);
    LookupLastBinding(fields, 2);
    LookupLastBinding(fields, 3);
    LookupLastBinding(fields, 4);
  }

  /** The answer to call k when it sends `request`: the oracle receives the
      endpoint and the arguments dict built from the request. */
  function Ask(subscribe: (nat, string, Json) -> Answer, k: nat, request: Request): Answer
  {
    subscribe(k, Endpoint, Arguments(request))
  }

  /** Call k of the loop sends the k-th submitted prompt to Endpoint, as the
      "prompt" argument with the caller's image size, and that prompt is the
      background of eligible item i. */
  lemma RequestCarriesPrompt(items: seq<Json>, imageSize: string, k: nat) returns (i: nat)
    requires k < |Submitted(items)|
    ensures var args := Arguments(Request(Submitted(items)[k], imageSize));
      && Lookup(args.fields, "prompt") == Some(JStr(Submitted(items)[k]))
      && Lookup(args.fields, "image_size") == Some(JStr(imageSize))
    ensures i < |items| && Eligible(items[i]) == Some(Submitted(items)[k])
  {
    ArgumentsSent(Request(Submitted(items)[k], imageSize));
    i := SubmittedAreEligible(items, k);
  }

  /** Every submitted prompt is the background of some eligible item. */
  lemma {:induction false} SubmittedAreEligible(items: seq<Json>, k: nat) returns (i: nat)
    requires k < |Submitted(items)|
    ensures i < |items| && Eligible(items[i]) == Some(Submitted(items)[k])
    decreases |items|
  {
    var n := |items| - 1;
    var front := items[..n];
    var before := Submitted(front);
    if k < |before| {
      assert Submitted(items)[k] == before[k];
      i := SubmittedAreEligible(front, k);
      assert items[i] == front[i];
    } else {
      assert Eligible(items[n]) == Some(Submitted(items)[k]);
      i := n;
    }
  }

  /** The items of the "prompts" entry: the input is decoded when it is a
      string and used as it is otherwise; a non-dict fails on .get
      (AttributeError); a missing or falsy entry is a ValueError; a value
      without len() fails when its length is reported (TypeError); otherwise
      its items as `for` visits them. */
  function PromptItems(input: Json, parse: string -> Result<Json>): (r: Result<seq<Json>>)
    ensures r.Err? ==> r.exc in {DecodeError, AttributeError, ValueError, TypeError}
    ensures r.Ok? ==> r.value != []
  {
    var decoded := if input.JStr? then parse(input.s) else Ok(input);
    match decoded
    case Err(e) => Err(DecodeError)
    case Ok(data) =>
      match DictGet(data, "prompts", JArr([]))
      case Err(e) => Err(e)
      case Ok(prompts) =>
        if !Truthy(prompts) then Err(ValueError)
        else
          match Len(prompts)
          case Err(e) => Err(e)
          case Ok(_) => Ok(Iterate(prompts).value)
  }

  /** The background prompt of one item when it is submitted: the item must be
      a dict whose "background" is a string longer than five characters after
      stripping. Every other item is skipped (the falsy ones by the test, the
      others by the exception .get or .strip raises, which is swallowed). */
  function Eligible(item: Json): (r: Option<string>)
    ensures r.Some? ==> |Strip(r.value)| > 5
    ensures r.Some? <==>
      item.JObj? && Lookup(item.fields, "background").Some?
      && Lookup(item.fields, "background").value.JStr?
      && |Strip(Lookup(item.fields, "background").value.s)| > 5
  {
    match DictGet(item, "background", JStr(""))
    case Err(_) => None
    case Ok(background) =>
      if !Truthy(background) then None
      else
        match background
        case JStr(s) => if |Strip(s)| <= 5 then None else Some(s)
        case _ => None
  }

  /** The entry kept for one answer: only a truthy answer that has a truthy
      "images" entry. Non-dict answers either fail the test or raise inside
      the per-prompt try block; either way nothing is kept. */
  function KeptImage(prompt: string, answer: Answer): (r: Option<GeneratedImage>)
    ensures r.Some? ==> r.value.prompt == prompt
  {
    match answer
    case Failure(_) => None
    case Answer(result) =>
      if !Truthy(result) then None
      else
        match In("images", result)
        case Err(_) => None
        case Ok(has) =>
          if !has then None
          else
            match Subscript(result, "images")
            case Err(_) => None
            case Ok(images) =>
              if !Truthy(images) then None
              else Some(GeneratedImage(prompt, images, DictGet(result, "seed", JNull).value))
  }

  /** An answer is kept exactly when it is a dict with a truthy "images"
      entry, and then it carries those images and the seed (JNull when
      missing). */
  lemma KeptImageIff(prompt: string, result: Json)
    ensures KeptImage(prompt, Answer(result)).Some? <==>
      result.JObj? && Lookup(result.fields, "images").Some? && Truthy(Lookup(result.fields, "images").value)
    ensures KeptImage(prompt, Answer(result)).Some? ==>
      KeptImage(prompt, Answer(result)).value
        == GeneratedImage(prompt, Lookup(result.fields, "images").value,
                          if Lookup(result.fields, "seed").Some? then Lookup(result.fields, "seed").value else JNull)
  {
    if result.JObj? && Lookup(result.fields, "images").Some? {
      assert "images" in Keys(result.fields);
      assert result.fields != [];
    }
  }

  /** The prompts submitted, in input order. */
  function Submitted(items: seq<Json>): (prompts: seq<string>)
    ensures |prompts| <= |items|
  {
    if items == [] then []
    else
      var before := Submitted(items[..|items| - 1]);
      match Eligible(items[|items| - 1])
      case Some(p) => before + [p]
      case None => before
  }

  /** The kept entries for the submitted prompts, the k-th request answered
      by the oracle as call k. */
  function Harvest(prompts: seq<string>, imageSize: string, subscribe: (nat, string, Json) -> Answer)
    : (images: seq<GeneratedImage>)
    ensures |images| <= |prompts|
  {
    if prompts == [] then []
    else
      var n := |prompts| - 1;
      var before := Harvest(prompts[..n], imageSize, subscribe);
      match KeptImage(prompts[n], Ask(subscribe, n, Request(prompts[n], imageSize)))
      case Some(g) => before + [g]
      case None => before
  }

  /** generate_images_from_prompts as a value: the prompt items, the kept
      entries of the submitted prompts, and a ValueError when none is kept. */
  function GenerateImages(input: Json, imageSize: string, parse: string -> Result<Json>,
                          subscribe: (nat, string, Json) -> Answer): (r: Result<seq<GeneratedImage>>)
  {
    match PromptItems(input, parse)
    case Err(e) => Err(e)
    case Ok(items) =>
      var images := Harvest(Submitted(items), imageSize, subscribe);
      if images == [] then Err(ValueError) else Ok(images)
  }

  /** generate_images_from_prompts: the loop over the prompt items, with the
      requests it makes returned in `requests` (the prompts, in call order). */
  method GenerateImagesFromPrompts(input: Json, imageSize: string, parse: string -> Result<Json>,
                                   subscribe: (nat, string, Json) -> Answer)
    returns (r: Result<seq<GeneratedImage>>, requests: seq<string>)
    ensures r == GenerateImages(input, imageSize, parse, subscribe)
    ensures PromptItems(input, parse).Ok? ==> requests == Submitted(PromptItems(input, parse).value)
    ensures PromptItems(input, parse).Err? ==> requests == []
    ensures r.Ok? ==> r.value != []
  {
    requests := [];
    var prompts := PromptItems(input, parse);
    if prompts.Err? {
      return Err(prompts.exc), requests;
    }
    var items := prompts.value;
    var generated: seq<GeneratedImage> := [];
    for i := 0 to |items|
      invariant requests == Submitted(items[..i])
      invariant generated == Harvest(requests, imageSize, subscribe)
    {
      SubmittedInOrder(items[..i], items[i]);
      assert items[..i + 1] == items[..i] + [items[i]];
      var eligible := Eligible(items[i]);
      if eligible.Some? {
        var prompt := eligible.value;
        var answer := subscribe(|requests|, Endpoint, Arguments(Request(prompt, imageSize)));
        HarvestInOrder(requests, prompt, imageSize, subscribe);
        requests := requests + [prompt];
        var kept := KeptImage(prompt, answer);
        if kept.Some? {
          generated := generated + [kept.value];
        }
      }
    }
    assert items[..|items|] == items;
    if generated == [] {
      return Err(ValueError), requests;
    }
    return Ok(generated), requests;
  }

  /** A missing, empty or falsy "prompts" entry is a ValueError, and nothing
      is submitted. */
  lemma NoPromptsIsValueError(fields: seq<(string, Json)>, imageSize: string, parse: string -> Result<Json>,
                              subscribe: (nat, string, Json) -> Answer)
    requires Lookup(fields, "prompts").None? || !Truthy(Lookup(fields, "prompts").value)
    ensures PromptItems(JObj(fields), parse) == Err(ValueError)
    ensures GenerateImages(JObj(fields), imageSize, parse, subscribe) == Err(ValueError)
  {
  }

  /** The prompts submitted are exactly the eligible ones, each once, in
      input order: an item is followed by its prompt exactly when it is
      eligible. */
  lemma {:induction false} SubmittedInOrder(items: seq<Json>, item: Json)
    ensures Submitted(items + [item])
         == Submitted(items) + (if Eligible(item).Some? then [Eligible(item).value] else [])
  {
    assert (items + [item])[..|items|] == items;
  }

  /** An item that is not eligible is never submitted: with only such
      items, no request is made. */
  lemma {:induction false} NothingEligibleNothingSubmitted(items: seq<Json>)
    requires forall k :: 0 <= k < |items| ==> Eligible(items[k]).None?
    ensures Submitted(items) == []
    decreases |items|
  {
    if items != [] {
      NothingEligibleNothingSubmitted(items[..|items| - 1]);
    }
  }

  /** The kept entries follow the submitted prompts in order: entry k is
      the kept answer to call idx[k], and the calls are increasing. */
  lemma {:induction false} HarvestFollowsPrompts(prompts: seq<string>, imageSize: string,
                                                 subscribe: (nat, string, Json) -> Answer)
    returns (idx: seq<nat>)
    ensures var images := Harvest(prompts, imageSize, subscribe);
      && |idx| == |images|
      && (forall k :: 0 <= k < |idx| ==> idx[k] < |prompts|)
      && (forall j, k :: 0 <= j < k < |idx| ==> idx[j] < idx[k])
      && (forall k :: 0 <= k < |idx| ==>
            Some(images[k]) == KeptImage(prompts[idx[k]], Ask(subscribe, idx[k], Request(prompts[idx[k]], imageSize))))
    decreases |prompts|
  {
    if prompts == [] {
      idx := [];
    } else {
      var n := |prompts| - 1;
      idx := HarvestFollowsPrompts(prompts[..n], imageSize, subscribe);
      HarvestInOrder(prompts[..n], prompts[n], imageSize, subscribe);
      assert prompts[..n] + [prompts[n]] == prompts;
      var kept := KeptImage(prompts[n], Ask(subscribe, n, Request(prompts[n], imageSize)));
      if kept.Some? {
        idx := idx + [n];
      }
    }
  }

  /** The next request is call number |prompts|, and its kept answer, if
      any, goes after the earlier entries. */
  lemma HarvestInOrder(prompts: seq<string>, prompt: string, imageSize: string,
                       subscribe: (nat, string, Json) -> Answer)
    ensures var kept := KeptImage(prompt, Ask(subscribe, |prompts|, Request(prompt, imageSize)));
      Harvest(prompts + [prompt], imageSize, subscribe)
        == Harvest(prompts, imageSize, subscribe) + (if kept.Some? then [kept.value] else [])
  {
    var extended := prompts + [prompt];
    assert extended[..|prompts|] == prompts;
    assert extended[|extended| - 1] == prompt;
  }

  /** A request that raises or answers without images does not stop the
      loop: the next prompt is still submitted, as call number |prompts|. */
  lemma FailureIsSkipped(prompts: seq<string>, imageSize: string, subscribe: (nat, string, Json) -> Answer,
                         prompt: string)
    requires Ask(subscribe, |prompts|, Request(prompt, imageSize)).Failure?
    ensures Harvest(prompts + [prompt], imageSize, subscribe) == Harvest(prompts, imageSize, subscribe)
  {
    HarvestInOrder(prompts, prompt, imageSize, subscribe);
  }

  /** No kept entry makes the whole call a ValueError, even when prompts were
      submitted. */
  lemma NothingKeptIsValueError(input: Json, imageSize: string, parse: string -> Result<Json>,
                                subscribe: (nat, string, Json) -> Answer, items: seq<Json>)
    requires PromptItems(input, parse) == Ok(items)
    requires forall k :: 0 <= k < |Submitted(items)| ==> Ask(subscribe, k, Request(Submitted(items)[k], imageSize)).Failure?
    ensures GenerateImages(input, imageSize, parse, subscribe) == Err(ValueError)
  {
    AllFailuresKeepNothing(Submitted(items), imageSize, subscribe);
  }

  lemma {:induction false} AllFailuresKeepNothing(prompts: seq<string>, imageSize: string,
                                                  subscribe: (nat, string, Json) -> Answer)
    requires forall k :: 0 <= k < |prompts| ==> Ask(subscribe, k, Request(prompts[k], imageSize)).Failure?
    ensures Harvest(prompts, imageSize, subscribe) == []
    decreases |prompts|
  {
    if prompts != [] {
      AllFailuresKeepNothing(prompts[..|prompts| - 1], imageSize, subscribe);
    }
  }
}
