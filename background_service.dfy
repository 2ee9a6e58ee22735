/** The deterministic core of background/service.py: the streaming collector
    that cuts the assistant's JSON reply out of text deltas, the splitter
    that files its prompts into background and text-specification lists, the
    text-specification projection, the paragraph template for a background
    prompt, and the loop that pairs generated images with their prompts.
    The OpenAI assistant, thread and file calls, JSON decoding and str() are
    oracles or left out. */
module BackgroundService {
  import opened Py
  import opened PyStr
  import opened PyJson
  import ImageGenerator

  // ---------------------------------------------------------------------
  // The collector's string side: on_text_delta and the cut in
  // on_message_done.

  /** The collector's two string fields: whether the JSON has started, and
      the text gathered since. */
  datatype Collecting = Collecting(started: bool, buffer: string)

  const Idle: Collecting := Collecting(false, "")

  /** on_text_delta: the first delta that contains "{" restarts the buffer
      at exactly "{" (the rest of that delta is dropped); once started, every
      delta is appended verbatim; before that, deltas are ignored. */
  function OnDelta(c: Collecting, delta: string): (r: Collecting)
    ensures c.started ==> r == Collecting(true, c.buffer + delta)
    ensures !c.started && Contains(delta, "{") ==> r == Collecting(true, "{")
    ensures !c.started && !Contains(delta, "{") ==> r == c
  {
    if Contains(delta, "{") && !c.started then Collecting(true, "{")
    else if c.started then Collecting(true, c.buffer + delta)
    else c
  }

  /** The state after a run of deltas. */
  function Feed(c: Collecting, deltas: seq<string>): Collecting
    decreases |deltas|
  {
    if deltas == [] then c
    else OnDelta(Feed(c, deltas[..|deltas| - 1]), deltas[|deltas| - 1])
  }

  function Concat(deltas: seq<string>): (s: string)
    decreases |deltas|
  {
    if deltas == [] then "" else Concat(deltas[..|deltas| - 1]) + deltas[|deltas| - 1]
  }

  lemma {:induction false} FeedAppend(c: Collecting, a: seq<string>, b: seq<string>)
    ensures Feed(c, a + b) == Feed(Feed(c, a), b)
    decreases |b|
  {
    if b == [] {
      assert a + b == a;
    } else {
      var n := |b| - 1;
      FeedAppend(c, a, b[..n]);
      assert (a + b)[..|a + b| - 1] == a + b[..n];
    }
  }

  /** Until a delta contains "{", nothing is collected. */
  lemma {:induction false} FeedBeforeBrace(deltas: seq<string>)
    requires forall k :: 0 <= k < |deltas| ==> !Contains(deltas[k], "{")
    ensures Feed(Idle, deltas) == Idle
    decreases |deltas|
  {
    if deltas != [] {
      FeedBeforeBrace(deltas[..|deltas| - 1]);
    }
  }

  /** Once started, the buffer grows by exactly the deltas, braces or not. */
  lemma {:induction false} FeedWhileStarted(buffer: string, deltas: seq<string>)
    ensures Feed(Collecting(true, buffer), deltas) == Collecting(true, buffer + Concat(deltas))
    decreases |deltas|
  {
    if deltas != [] {
      var n := |deltas| - 1;
      FeedWhileStarted(buffer, deltas[..n]);
      assert buffer + Concat(deltas[..n]) + deltas[n] == buffer + Concat(deltas);
    }
  }

  /** The collected text is "{" followed by every delta after the first one
      that contains "{"; the text around the brace in that delta is lost. */
  lemma FeedFromFirstBrace(before: seq<string>, first: string, after: seq<string>)
    requires forall k :: 0 <= k < |before| ==> !Contains(before[k], "{")
    requires Contains(first, "{")
    ensures Feed(Idle, before + [first] + after) == Collecting(true, "{" + Concat(after))
  {
    FeedBeforeBrace(before);
    FeedAppend(Idle, before, [first]);
    assert Feed(Idle, before + [first]) == Collecting(true, "{");
    FeedAppend(Idle, before + [first], after);
    FeedWhileStarted("{", after);
  }

  /** What on_message_done hands to the JSON parser: the stripped buffer cut
      just after its last "}", or nothing when there is no "}" (rindex raises
      ValueError, which the handler catches). */
  function JsonCandidate(buffer: string): (r: Option<string>)
    ensures r.None? <==> '}' !in Strip(buffer)
  {
    var s := Strip(buffer);
    match LastIndexOf(s, '}')
    case None => None
    case Some(i) => Some(s[..i + 1])
  }

  /** The candidate is the longest prefix of the stripped buffer that ends
      in "}": what follows the last "}" is dropped. */
  lemma CandidateEndsAtLastBrace(buffer: string)
    requires '}' in Strip(buffer)
    ensures var candidate := JsonCandidate(buffer).value;
      && candidate <= Strip(buffer)
      && candidate != [] && candidate[|candidate| - 1] == '}'
      && forall k :: |candidate| <= k < |Strip(buffer)| ==> Strip(buffer)[k] != '}'
  {
    var s := Strip(buffer);
    var i := LastIndexOf(s, '}').value;
    assert JsonCandidate(buffer) == Some(s[..i + 1]);
    assert s[..i + 1][i] == '}';
  }

  // ---------------------------------------------------------------------
  // split_json_response as a value.

  /** The two lists split_json_response fills (background_json["prompts"]
      and text_specs_json["prompts"]) and the exception it raised, if any. */
  datatype Split = Split(backgrounds: seq<Json>, textSpecs: seq<Json>, exc: Option<Exc>)

  const Cleared: Split := Split([], [], None)

  /** `if key in prompt: target.append(prompt[key])` for one key. `in` on a
      list or string is an element or substring test, so a list or string
      that mentions the key passes the test and then fails to subscript. */
  function Take(prompt: Json, key: string): (r: Result<Option<Json>>)
    ensures prompt.JObj? ==> r == Ok(Lookup(prompt.fields, key))
    ensures r.Err? ==> r.exc == TypeError
  {
    match In(key, prompt)
    case Err(e) => Err(e)
    case Ok(has) =>
      if !has then Ok(None)
      else
        match Subscript(prompt, key)
        case Err(e) => Err(e)
        case Ok(v) => Ok(Some(v))
  }

  /** One pass of the loop body: the "background" test and append first,
      then the "text_specifications" test and append. Once an exception has
      been raised the loop is over. */
  function SplitStep(acc: Split, prompt: Json): (r: Split)
    ensures acc.exc.Some? ==> r == acc
    ensures |acc.backgrounds| <= |r.backgrounds| <= |acc.backgrounds| + 1
    ensures |acc.textSpecs| <= |r.textSpecs| <= |acc.textSpecs| + 1
  {
    if acc.exc.Some? then acc
    else
      match Take(prompt, "background")
      case Err(e) => acc.(exc := Some(e))
      case Ok(background) =>
        var acc' := if background.Some? then acc.(backgrounds := acc.backgrounds + [background.value]) else acc;
        match Take(prompt, "text_specifications")
        case Err(e) => acc'.(exc := Some(e))
        case Ok(specs) =>
          if specs.Some? then acc'.(textSpecs := acc'.textSpecs + [specs.value]) else acc'
  }

  function Listed(v: Option<Json>): seq<Json> {
    if v.Some? then [v.value] else []
  }

  /** The loop body's three exits: the background test raises, the
      text-specification test raises after the background append, or both
      appends happen. */
  lemma SplitStepCases(acc: Split, prompt: Json)
    requires acc.exc.None?
    ensures var background := Take(prompt, "background");
      background.Err? ==> SplitStep(acc, prompt) == acc.(exc := Some(background.exc))
    ensures var background := Take(prompt, "background");
      var specs := Take(prompt, "text_specifications");
      background.Ok? ==>
        var acc' := acc.(backgrounds := acc.backgrounds + Listed(background.value));
        && (specs.Err? ==> SplitStep(acc, prompt) == acc'.(exc := Some(specs.exc)))
        && (specs.Ok? ==> SplitStep(acc, prompt) == acc'.(textSpecs := acc.textSpecs + Listed(specs.value)))
  {
    if Take(prompt, "background").Ok? {
      assert Take(prompt, "background").value.None? ==> acc.backgrounds + Listed(Take(prompt, "background").value) == acc.backgrounds;
      assert Take(prompt, "text_specifications").Ok? && Take(prompt, "text_specifications").value.None? ==>
        acc.textSpecs + Listed(Take(prompt, "text_specifications").value) == acc.textSpecs;
    }
  }

  /** The loop over the prompt items. */
  function SplitPrompts(prompts: seq<Json>): (r: Split)
    ensures |r.backgrounds| <= |prompts| && |r.textSpecs| <= |prompts|
    decreases |prompts|
  {
    if prompts == [] then Cleared
    else SplitStep(SplitPrompts(prompts[..|prompts| - 1]), prompts[|prompts| - 1])
  }

  /** split_json_response: `data.get("prompts", [])` (AttributeError unless
      data is a dict), iterated (TypeError unless iterable). */
  function SplitResponse(data: Json): (r: Split)
    ensures !data.JObj? ==> r == Split([], [], Some(AttributeError))
  {
    match DictGet(data, "prompts", JArr([]))
    case Err(e) => Split([], [], Some(e))
    case Ok(prompts) =>
      match Iterate(prompts)
      case Err(e) => Split([], [], Some(e))
      case Ok(items) => SplitPrompts(items)
  }

  /** An exception ends the loop: later prompts change nothing. */
  lemma {:induction false} SplitStops(prompts: seq<Json>, i: nat)
    requires i <= |prompts|
    requires SplitPrompts(prompts[..i]).exc.Some?
    ensures SplitPrompts(prompts) == SplitPrompts(prompts[..i])
    decreases |prompts| - i
  {
    if i < |prompts| {
      assert prompts[..i + 1][..i] == prompts[..i];
      SplitStops(prompts, i + 1);
    } else {
      assert prompts[..i] == prompts;
    }
  }

  /** The values stored under `key` by the dict prompts that have it, in
      order. */
  function Project(prompts: seq<Json>, key: string): (vs: seq<Json>)
    ensures |vs| <= |prompts|
    decreases |prompts|
  {
    if prompts == [] then []
    else
      var last := prompts[|prompts| - 1];
      Project(prompts[..|prompts| - 1], key)
        + (if last.JObj? && Lookup(last.fields, key).Some? then [Lookup(last.fields, key).value] else [])
  }

  /** With dict prompts nothing raises: the image prompts are the
      "background" values and the text specifications the
      "text_specifications" values, each in input order, prompts without the
      key skipped. */
  lemma {:induction false} SplitDictPrompts(prompts: seq<Json>)
    requires forall k :: 0 <= k < |prompts| ==> prompts[k].JObj?
    ensures SplitPrompts(prompts)
         == Split(Project(prompts, "background"), Project(prompts, "text_specifications"), None)
    decreases |prompts|
  {
    if prompts != [] {
      SplitDictPrompts(prompts[..|prompts| - 1]);
    }
  }

  /** A dict without a "prompts" entry splits into two empty lists. */
  lemma SplitWithoutPrompts(fields: seq<(string, Json)>)
    requires "prompts" !in Keys(fields)
    ensures SplitResponse(JObj(fields)) == Cleared
  {
  }

  /** A string prompt that mentions "background" passes the `in` test and
      then raises TypeError on `prompt["background"]`. */
  lemma StringPromptRaises(acc: Split, prompt: string)
    requires acc.exc.None?
    requires Contains(prompt, "background")
    ensures SplitStep(acc, JStr(prompt)) == acc.(exc := Some(TypeError))
  {
  }

  // ---------------------------------------------------------------------
  // The collector object.

  /** PromptCollectorEventHandler. background_json and text_specs_json are
      one-entry dicts; their "prompts" lists are the fields backgroundPrompts
      and textSpecsPrompts. */
  class PromptCollector {
    var currentResponse: string
    var jsonStarted: bool
    var backgroundPrompts: seq<Json>
    var textSpecsPrompts: seq<Json>
    var imagePrompts: seq<Json>
    var textSpecs: seq<Json>

    /** The flag is set exactly when text has been collected, which then
        starts with "{"; image_prompts is appended alongside
        background_json["prompts"], and text_specs is (an alias of)
        text_specs_json["prompts"]. */
    ghost predicate Valid()
      reads this
    {
      && (jsonStarted <==> currentResponse != "")
      && (currentResponse != "" ==> currentResponse[0] == '{')
      && imagePrompts == backgroundPrompts
      && textSpecs == textSpecsPrompts
    }

    constructor()
      ensures Valid()
      ensures currentResponse == "" && !jsonStarted
      ensures backgroundPrompts == [] && textSpecsPrompts == []
    {
      currentResponse := "";
      jsonStarted := false;
      backgroundPrompts := [];
      textSpecsPrompts := [];
      imagePrompts := [];
      textSpecs := [];
    }

    method OnTextDelta(delta: string)
      requires Valid()
      modifies this
      ensures Valid()
      ensures Collecting(jsonStarted, currentResponse)
           == OnDelta(Collecting(old(jsonStarted), old(currentResponse)), delta)
      ensures backgroundPrompts == old(backgroundPrompts) && textSpecsPrompts == old(textSpecsPrompts)
    {
      if Contains(delta, "{") && !jsonStarted {
        jsonStarted := true;
        currentResponse := "{";
      } else if jsonStarted {
        currentResponse := currentResponse + delta;
      }
    }

    /** on_message_done: with text collected, cut it, parse it, split it;
        any failure is caught; the collector is reset either way. With
        nothing collected, nothing happens. */
    method OnMessageDone(parse: string -> Result<Json>)
      requires Valid()
      modifies this
      ensures Valid()
      ensures old(currentResponse) == "" ==>
        && currentResponse == "" && !jsonStarted
        && backgroundPrompts == old(backgroundPrompts) && textSpecsPrompts == old(textSpecsPrompts)
      ensures old(currentResponse) != "" ==> currentResponse == "" && !jsonStarted
      ensures var after := AfterMessage(old(currentResponse), parse, old(backgroundPrompts), old(textSpecsPrompts));
        backgroundPrompts == after.backgrounds && textSpecsPrompts == after.textSpecs
    {
      ghost var after := AfterMessage(currentResponse, parse, backgroundPrompts, textSpecsPrompts);
      if currentResponse != "" {
        var candidate := JsonCandidate(currentResponse);
        if candidate.Some? {
          var parsed := parse(candidate.value);
          if parsed.Ok? {
            assert after == SplitResponse(parsed.value);
            var _ := SplitJsonResponse(parsed.value);
          } else {
            assert after.backgrounds == backgroundPrompts && after.textSpecs == textSpecsPrompts;
          }
        } else {
          assert after.backgrounds == backgroundPrompts && after.textSpecs == textSpecsPrompts;
        }
        currentResponse := "";
        jsonStarted := false;
      }
    }

    /** One pass of the loop body of split_json_response. */
    method FileOne(prompt: Json) returns (exc: Option<Exc>)
      requires Valid()
      modifies this
      ensures Valid()
      ensures currentResponse == old(currentResponse) && jsonStarted == old(jsonStarted)
      ensures Split(backgroundPrompts, textSpecsPrompts, exc)
           == SplitStep(Split(old(backgroundPrompts), old(textSpecsPrompts), None), prompt)
    {
      SplitStepCases(Split(backgroundPrompts, textSpecsPrompts, None), prompt);
      var background := Take(prompt, "background");
      if background.Err? {
        return Some(background.exc);
      }
      if background.value.Some? {
        backgroundPrompts := backgroundPrompts + [background.value.value];
        imagePrompts := imagePrompts + [background.value.value];
      }
      var specs := Take(prompt, "text_specifications");
      if specs.Err? {
        return Some(specs.exc);
      }
      if specs.value.Some? {
        textSpecsPrompts := textSpecsPrompts + [specs.value.value];
        textSpecs := textSpecsPrompts;
      }
      return None;
    }

    /** split_json_response: clear the lists, then file each prompt. The
        result is the exception that escaped, if any; the lists keep what
        was filed before it. */
    method SplitJsonResponse(data: Json) returns (exc: Option<Exc>)
      requires Valid()
      modifies this
      ensures Valid()
      ensures currentResponse == old(currentResponse) && jsonStarted == old(jsonStarted)
      ensures Split(backgroundPrompts, textSpecsPrompts, exc) == SplitResponse(data)
    {
      backgroundPrompts := [];
      textSpecsPrompts := [];
      imagePrompts := [];
      textSpecs := [];
      var prompts := DictGet(data, "prompts", JArr([]));
      if prompts.Err? {
        return Some(prompts.exc);
      }
      var iterated := Iterate(prompts.value);
      if iterated.Err? {
        return Some(iterated.exc);
      }
      exc := FileAll(iterated.value);
    }

    /** The loop of split_json_response over the prompt items, starting
        from cleared lists. */
    method FileAll(items: seq<Json>) returns (exc: Option<Exc>)
      requires Valid()
      requires backgroundPrompts == [] && textSpecsPrompts == []
      modifies this
      ensures Valid()
      ensures currentResponse == old(currentResponse) && jsonStarted == old(jsonStarted)
      ensures Split(backgroundPrompts, textSpecsPrompts, exc) == SplitPrompts(items)
    {
      for i := 0 to |items|
        invariant Valid()
        invariant currentResponse == old(currentResponse) && jsonStarted == old(jsonStarted)
        invariant SplitPrompts(items[..i]) == Split(backgroundPrompts, textSpecsPrompts, None)
      {
        assert items[..i + 1][..i] == items[..i];
        exc := FileOne(items[i]);
        if exc.Some? {
          SplitStops(items, i + 1);
          return;
        }
      }
      assert items[..|items|] == items;
      return None;
    }
  }

  /** The lists after on_message_done on a non-empty buffer: split from the
      parsed candidate, or untouched when there is no "}" or the parser
      fails. */
  function AfterMessage(buffer: string, parse: string -> Result<Json>,
                        backgrounds: seq<Json>, textSpecs: seq<Json>): (r: Split)
    ensures JsonCandidate(buffer).None? ==> r.backgrounds == backgrounds && r.textSpecs == textSpecs
  {
    if buffer == "" then Split(backgrounds, textSpecs, None)
    else
      match JsonCandidate(buffer)
      case None => Split(backgrounds, textSpecs, Some(ValueError))
      case Some(candidate) =>
        match parse(candidate)
        case Err(e) => Split(backgrounds, textSpecs, Some(e))
        case Ok(data) => SplitResponse(data)
  }

  // ---------------------------------------------------------------------
  // _extract_text_specs

  /** What _extract_text_specs returns: the empty dict {}, or the dict of
      exactly the four keys content, typography, colors and layout, written
      here as a record of those four entries. */
  datatype TextSpecs = NoSpecs | Specs(content: Json, typography: Json, colors: Json, layout: Json)

  /** The value of a key of a dict, or {} without it. */
  function Entry(fields: seq<(string, Json)>, key: string): (v: Json)
    ensures key !in Keys(fields) ==> v == EmptyObj
    ensures key in Keys(fields) ==> Lookup(fields, key) == Some(v)
  {
    if key in Keys(fields) then Lookup(fields, key).value else EmptyObj
  }

  /** _extract_text_specs: {} for a falsy value; otherwise the four keys,
      each read with .get and {} as default. A truthy non-dict fails on
      .get, and the handler returns the four keys all set to {}. */
  function ExtractTextSpecs(specs: Json): (r: TextSpecs)
    ensures r.NoSpecs? <==> !Truthy(specs)
    ensures Truthy(specs) && specs.JObj? ==>
      r == Specs(Entry(specs.fields, "content"), Entry(specs.fields, "typography"),
                 Entry(specs.fields, "colors"), Entry(specs.fields, "layout"))
    ensures Truthy(specs) && !specs.JObj? ==> r == Specs(EmptyObj, EmptyObj, EmptyObj, EmptyObj)
  {
    if !Truthy(specs) then NoSpecs
    else
      var content := DictGet(specs, "content", EmptyObj);
      var typography := DictGet(specs, "typography", EmptyObj);
      var colors := DictGet(specs, "colors", EmptyObj);
      var layout := DictGet(specs, "layout", EmptyObj);
      if content.Err? || typography.Err? || colors.Err? || layout.Err? then
        Specs(EmptyObj, EmptyObj, EmptyObj, EmptyObj)
      else
        Specs(content.value, typography.value, colors.value, layout.value)
  }

  /** The dict _extract_text_specs builds, as the JSON the banner carries. */
  function SpecsJson(specs: TextSpecs): (j: Json)
    ensures j.JObj?
    ensures specs.NoSpecs? <==> !Truthy(j)
  {
    match specs
    case NoSpecs => EmptyObj
    case Specs(content, typography, colors, layout) =>
      JObj([("content", content), ("typography", typography), ("colors", colors), ("layout", layout)])
  }

  /** Extracting from the dict an extraction produced gives the same
      extraction back. */
  lemma ExtractTextSpecsIdempotent(specs: Json)
    ensures ExtractTextSpecs(SpecsJson(ExtractTextSpecs(specs))) == ExtractTextSpecs(specs)
  {
    var r := ExtractTextSpecs(specs);
    if r.Specs? {
      SpecsEntries(r);
    }
  }

  /** Each entry of the dict reads back as the record's field. */
  lemma SpecsEntries(r: TextSpecs)
    requires r.Specs?
    ensures var fields := SpecsJson(r).fields;
      && Entry(fields, "content") == r.content
      && Entry(fields, "typography") == r.typography
      && Entry(fields, "colors") == r.colors
      && Entry(fields, "layout") == r.layout
  {
    var fields := SpecsJson(r).fields;
    SpecKeysDistinct();
    var f1, f2, f3 := fields[..1], fields[..2], fields[..3];
    assert f3[..2] == f2 && f2[..1] == f1;
    assert Lookup(f1, "content") == Some(r.content);
    assert Lookup(f2, "content") == Some(r.content);
    assert Lookup(f3, "content") == Some(r.content);
    assert Lookup(fields, "content") == Some(r.content);
    assert Lookup(f2, "typography") == Some(r.typography);
    assert Lookup(f3, "typography") == Some(r.typography);
    assert Lookup(fields, "typography") == Some(r.typography);
    assert Lookup(f3, "colors") == Some(r.colors);
    assert Lookup(fields, "colors") == Some(r.colors);
    assert Lookup(fields, "layout") == Some(r.layout);
  }

  lemma SpecKeysDistinct()
    ensures "content" != "typography" && "content" != "colors" && "content" != "layout"
    ensures "typography" != "colors" && "typography" != "layout" && "colors" != "layout"
  {
    assert "content"[0] != "typography"[0] && "content"[0] != "layout"[0];
    assert "content"[2] != "colors"[2];
    assert "typography"[0] != "colors"[0] && "typography"[0] != "layout"[0] && "colors"[0] != "layout"[0];
  }

  // ---------------------------------------------------------------------
  // _format_prompt_to_paragraph

  /** `j[path[0]][path[1]]...`, raising at the first subscript that fails. */
  function Resolve(j: Json, path: seq<string>): (r: Result<Json>)
    ensures r.Err? ==> r.exc == KeyError || r.exc == TypeError
    decreases |path|
  {
    if path == [] then Ok(j)
    else
      match Subscript(j, path[0])
      case Err(e) => Err(e)
      case Ok(v) => Resolve(v, path[1..])
  }

  /** The paths in the order Python evaluates them; the first failure wins. */
  function ResolveAll(j: Json, paths: seq<seq<string>>): (r: Result<seq<Json>>)
    ensures r.Ok? ==> |r.value| == |paths|
    ensures r.Err? ==> r.exc == KeyError || r.exc == TypeError
    decreases |paths|
  {
    if paths == [] then Ok([])
    else
      match Resolve(j, paths[0])
      case Err(e) => Err(e)
      case Ok(v) =>
        match ResolveAll(j, paths[1..])
        case Err(e) => Err(e)
        case Ok(vs) => Ok([v] + vs)
  }

  /** The three sections read first, then the fourteen placeholders of the
      paragraph in template order. */
  const Sections: seq<seq<string>> := [["style"], ["composition"], ["technical"]]

  const Placeholders: seq<seq<string>> := [
    ["main_premise"],
    ["composition", "primary_negative_space"],
    ["composition", "element_placement"],
    ["composition", "depth_arrangement"],
    ["style", "colors", "primary"],
    ["style", "colors", "secondary"],
    ["style", "colors", "accent"],
    ["style", "colors", "background"],
    ["style", "texture"],
    ["style", "lighting"],
    ["style", "mood"],
    ["technical", "elements"],
    ["technical", "grid"],
    ["technical", "margins"]]

  /** The fixed text around the fourteen placeholders. */
  const Template: seq<string> := [
    "",
    " The composition features ",
    " negative space, with ",
    ". ",
    ". The design incorporates ",
    ", ",
    ", and ",
    " colors against a ",
    " background. The image has a ",
    " with ",
    ", creating a ",
    " atmosphere. ",
    " are arranged using a ",
    ", with ",
    "."]

  /** An f-string placeholder: a string as itself, anything else as str()
      renders it. */
  function Render(v: Json, str: Json -> string): string {
    if v.JStr? then v.s else str(v)
  }

  function RenderAll(vs: seq<Json>, str: Json -> string): (ss: seq<string>)
    ensures |ss| == |vs|
    ensures forall k :: 0 <= k < |vs| ==> ss[k] == Render(vs[k], str)
    decreases |vs|
  {
    if vs == [] then [] else [Render(vs[0], str)] + RenderAll(vs[1..], str)
  }

  /** pieces[0] + values[0] + pieces[1] + ... + values[n-1] + pieces[n]. */
  function Interleave(pieces: seq<string>, values: seq<string>): string
    requires |pieces| == |values| + 1
    decreases |values|
  {
    if values == [] then pieces[0]
    else pieces[0] + values[0] + Interleave(pieces[1..], values[1..])
  }

  /** _format_prompt_to_paragraph: the template filled in, or str(prompt)
      when a key is missing. Only KeyError is caught; a TypeError (a prompt
      or section that is not a dict) escapes. */
  function FormatPromptToParagraph(prompt: Json, str: Json -> string): (r: Result<string>)
    ensures r.Err? ==> r.exc == TypeError
    ensures ResolveAll(prompt, Sections + Placeholders) == Err(KeyError) ==> r == Ok(str(prompt))
  {
    match ResolveAll(prompt, Sections + Placeholders)
    case Err(KeyError) => Ok(str(prompt))
    case Err(e) => Err(e)
    case Ok(vs) => Ok(Interleave(Template, RenderAll(vs[3..], str)))
  }

  /** A dict prompt that lacks any of the three sections is rendered with
      str(): the KeyError of the section read is caught. */
  lemma MissingSectionFallsBack(fields: seq<(string, Json)>, str: Json -> string)
    requires "style" !in Keys(fields) || "composition" !in Keys(fields) || "technical" !in Keys(fields)
    ensures FormatPromptToParagraph(JObj(fields), str) == Ok(str(JObj(fields)))
  {
    var prompt := JObj(fields);
    var paths := Sections + Placeholders;
    assert paths[0] == ["style"];
    assert paths[1..][0] == ["composition"];
    assert paths[1..][1..][0] == ["technical"];
    var rest := paths[1..];
    if "style" !in Keys(fields) {
      assert Resolve(prompt, paths[0]) == Err(KeyError);
    } else if "composition" !in Keys(fields) {
      assert Resolve(prompt, paths[0]).Ok?;
      assert Resolve(prompt, rest[0]) == Err(KeyError);
      assert ResolveAll(prompt, rest) == Err(KeyError);
    } else {
      assert Resolve(prompt, paths[0]).Ok?;
      assert Resolve(prompt, rest[0]).Ok?;
      assert Resolve(prompt, rest[1..][0]) == Err(KeyError);
      assert ResolveAll(prompt, rest[1..]) == Err(KeyError);
      assert ResolveAll(prompt, rest) == Err(KeyError);
    }
  }

  /** A prompt that is not a dict raises TypeError; it is not caught. */
  lemma NonDictPromptRaises(prompt: Json, str: Json -> string)
    requires !prompt.JObj?
    ensures FormatPromptToParagraph(prompt, str) == Err(TypeError)
  {
    assert (Sections + Placeholders)[0] == ["style"];
  }

  /** When every path resolves, each placeholder's value appears in the
      paragraph verbatim. */
  lemma FilledParagraphContainsValues(prompt: Json, str: Json -> string)
    requires ResolveAll(prompt, Sections + Placeholders).Ok?
    ensures FormatPromptToParagraph(prompt, str).Ok?
    ensures var values := RenderAll(ResolveAll(prompt, Sections + Placeholders).value[3..], str);
      forall k :: 0 <= k < |values| ==> Contains(FormatPromptToParagraph(prompt, str).value, values[k])
  {
    var values := RenderAll(ResolveAll(prompt, Sections + Placeholders).value[3..], str);
    InterleaveContains(Template, values);
  }

  lemma {:induction false} InterleaveContains(pieces: seq<string>, values: seq<string>)
    requires |pieces| == |values| + 1
    ensures forall k :: 0 <= k < |values| ==> Contains(Interleave(pieces, values), values[k])
    decreases |values|
  {
    if values != [] {
      InterleaveContains(pieces[1..], values[1..]);
      var rest := Interleave(pieces[1..], values[1..]);
      forall k | 0 <= k < |values|
        ensures Contains(Interleave(pieces, values), values[k])
      {
        if k == 0 {
          ContainsInside(pieces[0], values[0], rest);
        } else {
          assert values[k] == values[1..][k - 1];
          ContainsInside(pieces[0] + values[0], rest, []);
          assert pieces[0] + values[0] + rest + [] == pieces[0] + values[0] + rest;
          ContainsTransitive(pieces[0] + values[0] + rest, rest, values[k]);
        }
      }
    }
  }

  /** a + b + c contains b. */
  lemma {:induction false} ContainsInside(a: string, b: string, c: string)
    ensures Contains(a + b + c, b)
    decreases |a|
  {
    if a == [] {
      assert (a + b + c)[..|b|] == b;
    } else {
      ContainsInside(a[1..], b, c);
      assert (a + b + c)[1..] == a[1..] + b + c;
    }
  }

  lemma {:induction false} ContainsTransitive(s: string, t: string, u: string)
    requires Contains(s, t) && Contains(t, u)
    ensures Contains(s, u)
    decreases |s|
  {
    if |t| <= |s| && s[..|t|] == t {
      ContainsPrefix(s, t, u);
    } else {
      ContainsTransitive(s[1..], t, u);
    }
  }

  /** Whatever a prefix of s contains, s contains. */
  lemma {:induction false} ContainsPrefix(s: string, t: string, u: string)
    requires |t| <= |s| && s[..|t|] == t
    requires Contains(t, u)
    ensures Contains(s, u)
    decreases |t|
  {
    if |u| <= |t| && t[..|u|] == u {
      assert s[..|u|] == t[..|u|];
    } else {
      assert s[1..][..|t| - 1] == t[1..];
      ContainsPrefix(s[1..], t[1..], u);
    }
  }

  // ---------------------------------------------------------------------
  // The banner pairing loop of generate_banner.

  /** One entry of complete_banners. */
  datatype CompleteBanner = CompleteBanner(images: Json, seed: Json, backgroundPrompt: Json, textSpecifications: TextSpecs)

  function Min(a: int, b: int): int {
    if a <= b then a else b
  }

  /** The loop over the generated images: image i is paired with image
      prompt i and text specification i while there are image prompts; a
      missing text specification raises IndexError. */
  method AssembleBanners(generated: seq<ImageGenerator.GeneratedImage>, imagePrompts: seq<Json>, textSpecs: seq<Json>)
    returns (r: Result<seq<CompleteBanner>>)
    ensures r.Ok? <==> |textSpecs| >= Min(|generated|, |imagePrompts|)
    ensures r.Err? ==> r.exc == IndexError
    ensures r.Ok? ==> |r.value| == Min(|generated|, |imagePrompts|)
    ensures r.Ok? ==> forall i :: 0 <= i < |r.value| ==>
      r.value[i] == CompleteBanner(generated[i].images, generated[i].seed, imagePrompts[i], ExtractTextSpecs(textSpecs[i]))
  {
    var banners: seq<CompleteBanner> := [];
    for i := 0 to |generated|
      invariant |banners| == Min(i, |imagePrompts|)
      invariant Min(i, |imagePrompts|) <= |textSpecs|
      invariant forall k :: 0 <= k < |banners| ==>
        banners[k] == CompleteBanner(generated[k].images, generated[k].seed, imagePrompts[k], ExtractTextSpecs(textSpecs[k]))
    {
      if i < |imagePrompts| {
        if i >= |textSpecs| {
          return Err(IndexError);
        }
        var image := generated[i];
        banners := banners + [CompleteBanner(image.images, image.seed, imagePrompts[i], ExtractTextSpecs(textSpecs[i]))];
      }
    }
    return Ok(banners);
  }
}
