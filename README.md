# Banner generator: a verified model of its deterministic core

The banner generator asks language models for background-image prompts and
text specifications. It sends the prompts to fal.ai image models and lays
logos and text over the resulting images. This project models in Dafny the
parts of it that decide things on their own:

- **Overlay geometry** (`overlay.dfy`, services/overlay_service.py):
  - where an overlay lands for a placement tag such as "right bottom";
  - how large it is drawn: the two-pass aspect-ratio fit;
  - how `add_image` and `create_banner` fold the overlays onto the background.
- **Text layer** (`text_generation.dfy`, services/text_generation_service.py):
  - the font-size table;
  - the nine-cell placement table of `create_text_image`;
  - the layer it describes.
- **Assistant stream** (`background_service.dfy`, background/service.py):
  - the collector that cuts the JSON reply out of streamed text deltas;
  - the splitter that files its prompts into background and text-specification lists;
  - `_extract_text_specs`;
  - the paragraph template `_format_prompt_to_paragraph`;
  - the loop that pairs generated images with their prompts.
- **Reply cleaning** (`text_svg.dfy`, `fence_cleaning.dfy`, services/text_svg_generation_service.py):
  - the shape check of a chat-completion reply;
  - the `strip().lstrip('```json').rstrip('```').strip()` pipeline.
- **Image prompts** (`image_generator.dfy`, background/image_generator.py):
  - which prompts `generate_images_from_prompts` submits;
  - which answers it keeps;
  - when the whole call fails.
- **fal requests** (`fal_service.dfy`, `flux_dev.dfy`, `fal_arguments.dfy`):
  - the argument dict and the endpoint or model name of the three `generate_image` variants;
  - the product table `PRODUCT_MODELS`.

Python's own behaviour is written out where the code relies on it
(`py.dfy`, `pystr.dfy`, `pyjson.dfy`):

- truthiness;
- `in` on dicts, lists and strings;
- subscripts that raise KeyError or TypeError;
- `.get` raising AttributeError on non-dicts;
- iteration and `len`;
- `str.split`, `str.strip`, `lstrip`/`rstrip` with a character set, `rindex`;
- floor division, and `int()` on a float as truncation.

Exceptions are values of a `Result` type, and each contract names the
exception class the source raises. Calls the code makes into services and
libraries are parameters of function type (oracles):

- `json.loads`;
- `str()`;
- `fal_client.subscribe`/`submit`;
- the HTTP post;
- PIL's text bounding box.

Environment variables are parameters too.

## Model

| member | source | states |
|---|---|---|
| PyStr.Strip | services/text_svg_generation_service.py:87 | str.strip() leaves no whitespace at either end of the result |
| PyStr.StripSlice | background/service.py:60 | strip removes only whitespace and only from the two ends: the result is a slice of the input, and everything cut off is whitespace |
| PyStr.LStrip | services/text_svg_generation_service.py:87 | lstrip(chars) drops exactly the leading run of characters from the set: the result is a suffix, every dropped character is in the set, and the result does not start with one |
| PyStr.RStrip | services/text_svg_generation_service.py:87 | rstrip(chars) drops exactly the trailing run of characters from the set, symmetrically |
| PyStr.LStripSkips | services/text_svg_generation_service.py:87 | a leading run from the set is removed whatever follows it |
| PyStr.RStripSkips | services/text_svg_generation_service.py:87 | a trailing run from the set is removed whatever precedes it |
| PyStr.Split | services/overlay_service.py:37 | every token split() produces is non-empty and free of whitespace |
| PyStr.SplitJoinSpace | services/overlay_service.py:37 | splitting words joined by single spaces gives the words back |
| PyStr.Lower | services/overlay_service.py:37 | lower() keeps the length and maps each upper-case ASCII letter to its lower-case letter, leaving every other character alone |
| PyStr.LowerIdempotent | services/overlay_service.py:37 | lowering twice is lowering once |
| PyStr.LastIndexOf | background/service.py:63 | rindex('}') fails exactly when the character is absent; otherwise the index holds it and no later index does |
| PyJson.In | background/service.py:93 | `key in d` on a dict is a key test; other values are tested as lists or strings, or raise TypeError |
| PyJson.Subscript | background/service.py:95 | `x[key]` succeeds exactly on a dict that has the key and yields its value; otherwise KeyError on a dict and TypeError on anything else |
| PyJson.DictGet | background/image_generator.py:42 | `.get(key, default)` succeeds exactly on dicts, yielding the bound value or the default; AttributeError otherwise |
| PyJson.Iterate | background/service.py:92 | only lists, strings and dicts are iterable; a list iterates its items; TypeError otherwise |
| PyJson.Len | background/image_generator.py:46 | len() is defined exactly where iteration is, and counts what iteration visits |
| OverlayService.CalculatePosition | services/overlay_service.py:32-54 | x is 0, the centred offset or the right-edge offset; y likewise; when the element fits, the position keeps it inside the background |
| OverlayService.TokensOfPlainWords | services/overlay_service.py:37 | lower-case words joined by single spaces tokenise back into those words |
| OverlayService.PositionOfWords | services/overlay_service.py:37-54 | a tag of lower-case words is placed by the horizontal and vertical rules applied to those words |
| OverlayService.KeywordTagTokens | services/overlay_service.py:37 | a tag of keywords joined by spaces splits into those keywords |
| OverlayService.CentreColumnTokens | services/overlay_service.py:37 | "center", "center top" and "center bottom" tokenise into their words |
| OverlayService.LeftEdgeTokens | services/overlay_service.py:37 | "left", "left top" and "left bottom" tokenise into their words |
| OverlayService.RightEdgeTokens | services/overlay_service.py:37 | "right", "right top" and "right bottom" tokenise into their words |
| OverlayService.CentreColumnOffsets | services/overlay_service.py:40-52 | the centre-column token lists give the centred x; y is centred, 0, and centred again for "bottom", since "center" is tested first |
| OverlayService.LeftEdgeOffsets | services/overlay_service.py:40-52 | the left-edge token lists give x = 0 and y = 0, 0 and H − h |
| OverlayService.RightEdgeOffsets | services/overlay_service.py:40-52 | the right-edge token lists give x = W − w and y = 0, 0 and H − h |
| OverlayService.CentreColumnPlacements | services/overlay_service.py:32-54 | "center" → (cx, cy), "center top" → (cx, 0), and "center bottom" → (cx, cy), dead centre |
| OverlayService.LeftEdgePlacements | services/overlay_service.py:32-54 | "left" → (0, 0), "left top" → (0, 0), "left bottom" → (0, H − h) |
| OverlayService.RightEdgePlacements | services/overlay_service.py:32-54 | "right" → (W − w, 0), "right top" → (W − w, 0), "right bottom" → (W − w, H − h) |
| OverlayService.RightCenterIsCentred | services/overlay_service.py:36-52 | "right center" is placed at the centre of the background, not on its right edge |
| OverlayService.UnrecognisedTagIsOrigin | services/overlay_service.py:38-52 | a tag none of whose tokens is a keyword lands at (0, 0), not at the centre |
| OverlayService.UnknownWordIsOrigin | services/overlay_service.py:37-54 | a single lower-case word that is not a keyword lands at (0, 0) |
| OverlayService.DiagonalIsOrigin | services/overlay_service.py:37-54 | "diagonal" lands at (0, 0) |
| OverlayService.UnderscoreFormIsOrigin | services/overlay_service.py:37-54 | "right_top" is one unknown token and lands at (0, 0) |
| OverlayService.HyphenFormIsOrigin | services/overlay_service.py:37-54 | "top-left" is one unknown token and lands at (0, 0) |
| OverlayService.PositionIgnoresCase | services/overlay_service.py:37 | lowering the tag first does not change the position |
| OverlayService.PositionDependsOnKeywordsOnly | services/overlay_service.py:37-52 | two tags containing the same keywords get the same position, whatever their order, repetitions or other words |
| OverlayService.RightEdgeNotClamped | services/overlay_service.py:44-45 | an element wider than the background on the right edge gets a negative x: there is no clamping |
| OverlayService.Trunc | services/overlay_service.py:63-64 | int() of a float truncates toward zero: within one of the argument, on the zero side |
| OverlayService.Scaled | services/overlay_service.py:63 | a background side times a size in (0, 1] is between 0 and that side |
| OverlayService.AspectRatio | services/overlay_service.py:61 | width / height is positive for a positive size and zero exactly for a zero width |
| OverlayService.TwoPassFit | services/overlay_service.py:63-68 | the height-first size is the result exactly when its width fits; otherwise the result is the width-first size, or ZeroDivisionError exactly when the aspect ratio is zero |
| OverlayService.HeightPassBounds | services/overlay_service.py:63-64 | the height pass is within the scaled height, and its width is the height times the aspect ratio, truncated |
| OverlayService.WidthPassBounds | services/overlay_service.py:67-68 | the width pass is within the scaled width, and its height is the width over the aspect ratio, truncated |
| OverlayService.WidthPassLower | services/overlay_service.py:66-68 | when the width pass runs, its height is below the height pass's height |
| OverlayService.FitWithinBounds | services/overlay_service.py:63-70 | for a positive aspect ratio the fit succeeds within both scaled bounds |
| OverlayService.FitKeepsAspect | services/overlay_service.py:63-68 | the fit keeps the aspect ratio up to truncation on whichever side it derives |
| OverlayService.CalculateSize | services/overlay_service.py:57-70 | a zero natural height raises ZeroDivisionError; otherwise the height fit of `size` times the background height is kept when its width is within `size` times the background width, else the width fit is used, which raises ZeroDivisionError exactly for a zero natural width; no other exception |
| OverlayService.SizeWithinScaledBackground | services/overlay_service.py:57-70 | for positive inputs the size is within size·W by size·H, whichever branch is taken |
| OverlayService.SizeKeepsAspect | services/overlay_service.py:57-70 | for positive inputs the result keeps the natural aspect ratio up to truncation |
| OverlayService.AddImage | services/overlay_service.py:73-84 | an unopenable image is skipped; an opened image is pasted exactly when calculate_size succeeds with both sides at least 1, at that size and at the position computed from the resized size; calculate_size's ZeroDivisionError escapes, and so does resize's ValueError for a side below 1 |
| OverlayService.ThinLogoRaises | services/overlay_service.py:57-82 | a 10000×1 logo at size 0.5 on 1000×600 is fitted to 500×0, and resize's ValueError escapes add_image |
| OverlayService.WideLogoBottomRight | services/overlay_service.py:73-84 | a 400×200 logo at size 0.5 in the bottom-right of 1000×600 is resized to 500×250 and pasted at (500, 350) |
| OverlayService.WideLogoSize | services/overlay_service.py:57-70 | the height pass gives 600 wide, which is too wide, so the width pass gives 500×250 |
| OverlayService.Composite | services/overlay_service.py:92-96 | no more pastes than overlays |
| OverlayService.CompositeStops | services/overlay_service.py:90-96 | once an exception escapes, later overlays are not looked at |
| OverlayService.CreateBanner | services/overlay_service.py:87-96 | the loop makes exactly the pastes of the fold, in order, and reports the exception that escaped |
| OverlayService.UnopenableOverlayChangesNothing | services/overlay_service.py:82-84 | an overlay whose image cannot be opened leaves the banner unchanged |
| OverlayService.CompositeInOrder | services/overlay_service.py:92-96 | overlays are pasted in list order: the pastes of a prefix come first |
| OverlayService.StepInside | services/overlay_service.py:76-81 | a well-formed openable overlay is pasted exactly when its fit is at least 1×1, and then inside the background; otherwise resize raises ValueError |
| OverlayService.CompositeInsideBackground | services/overlay_service.py:92-96 | with well-formed overlays, nothing escapes exactly when every openable overlay's fit is at least 1×1, and what escapes is then resize's ValueError; with nothing escaping every openable overlay is pasted; every paste is inside the background |
| TextGenerationService.FontSize | services/text_generation_service.py:52 | only "small", "medium" and "large" have a size (24 to 48); other strings raise KeyError, and lists or dicts raise TypeError |
| TextGenerationService.FontSizesIncrease | services/text_generation_service.py:52 | small → 24, medium → 36, large → 48, and the lookup is case-sensitive |
| TextGenerationService.PlacementKey | services/text_generation_service.py:72-80 | the middle cell alone is named plain "center" |
| TextGenerationService.TextPosition | services/text_generation_service.py:71-81 | only a string can name a cell; otherwise KeyError, or TypeError for an unhashable placement |
| TextGenerationService.TableIsGrid | services/text_generation_service.py:72-80 | each of the nine keys gives its column's x (10, centred, W − tw − 10) and its row's y (10, centred, H − th − 10) |
| TextGenerationService.OnlyGridKeys | services/text_generation_service.py:81 | any placement outside the nine keys raises KeyError; there is no fallback |
| TextGenerationService.GridKeepsMargin | services/text_generation_service.py:71-81 | a box at most W − 20 by H − 20 stays within the 10-pixel margin in every cell |
| TextGenerationService.CreateTextImage | services/text_generation_service.py:48-83 | a negative image side raises ValueError first (Image.new); otherwise non-dict properties raise TypeError; the layer always has the requested image size, one of the three font sizes and a colour PIL knows; failures are KeyError, TypeError or ValueError |
| TextGenerationService.DrawText | services/text_generation_service.py:67-83 | the layer keeps the image size and chosen font size and takes the color entry as fill; draw.text raises ValueError exactly when both lookups succeed and the color entry is a string PIL does not know; other failures are KeyError or TypeError |
| TextGenerationService.CreateTextImageSucceeds | services/text_generation_service.py:48-83 | for a non-negative image size, when the three lookups succeed and PIL knows the colour, the layer has the image size, the table's font size, the looked-up corner and the colour entry as fill |
| TextGenerationService.CreateTextImageInCell | services/text_generation_service.py:48-83 | a grid-cell placement with a colour PIL knows puts the measured text at that cell's corner |
| TextGenerationService.UnknownColourRaises | services/text_generation_service.py:83 | a colour string PIL does not know raises ValueError from draw.text after every lookup has succeeded |
| TextGenerationService.UnknownPlacementRaises | services/text_generation_service.py:71-81 | an unknown placement raises KeyError once the image and font sizes are valid |
| TextGenerationService.UnknownSizeRaises | services/text_generation_service.py:52 | an unknown size raises KeyError before anything is measured |
| BackgroundService.OnDelta | background/service.py:46-53 | before collection starts, a delta without "{" changes nothing; the first delta with "{" resets the buffer to exactly "{"; afterwards every delta is appended verbatim |
| BackgroundService.FeedBeforeBrace | background/service.py:46-53 | until some delta contains "{", nothing is collected |
| BackgroundService.FeedWhileStarted | background/service.py:51-52 | once started, the buffer grows by exactly the deltas, braces or not |
| BackgroundService.FeedFromFirstBrace | background/service.py:46-53 | the collected text is "{" followed by every later delta; the rest of the first brace delta is discarded |
| BackgroundService.JsonCandidate | background/service.py:60-64 | there is no candidate exactly when the stripped buffer has no "}" |
| BackgroundService.CandidateEndsAtLastBrace | background/service.py:60-64 | the candidate is a prefix of the stripped buffer, ends in "}", and no "}" follows it |
| BackgroundService.Take | background/service.py:93-100 | on a dict, `if key in prompt` yields the value bound to the key, if any; a failing subscript is TypeError |
| BackgroundService.SplitStep | background/service.py:92-101 | after an exception nothing changes; each list grows by at most one per prompt |
| BackgroundService.SplitStepCases | background/service.py:93-101 | three exits: the background test raises; the text-specification test raises after the background append; or both optional appends happen |
| BackgroundService.SplitPrompts | background/service.py:92-101 | neither list is longer than the prompt list |
| BackgroundService.SplitResponse | background/service.py:87-92 | data that is not a dict raises AttributeError after the lists are cleared |
| BackgroundService.SplitStops | background/service.py:92-101 | an exception ends the loop: later prompts change nothing |
| BackgroundService.SplitDictPrompts | background/service.py:87-101 | with dict prompts nothing raises; the lists are the "background" and "text_specifications" values in input order, and prompts without a key are skipped |
| BackgroundService.SplitWithoutPrompts | background/service.py:87-92 | data without "prompts" splits into two empty lists |
| BackgroundService.StringPromptRaises | background/service.py:93-95 | a string prompt mentioning "background" passes the `in` test and then raises TypeError |
| BackgroundService.PromptCollector.constructor | background/service.py:35-42 | the handler starts idle, with empty buffer and empty lists |
| BackgroundService.PromptCollector.OnTextDelta | background/service.py:46-53 | the new flag and buffer are the collector step of the old ones; the lists are untouched; the invariant is kept |
| BackgroundService.PromptCollector.OnMessageDone | background/service.py:56-81 | with an empty buffer nothing changes; otherwise the buffer and flag are reset, and the lists are those of splitting the parsed candidate, or unchanged when there is no "}" or parsing fails |
| BackgroundService.PromptCollector.FileOne | background/service.py:93-101 | one loop pass changes the lists exactly as one split step does |
| BackgroundService.PromptCollector.SplitJsonResponse | background/service.py:83-124 | the lists and the raised exception are those of the split of the data; image_prompts and text_specs follow them |
| BackgroundService.PromptCollector.FileAll | background/service.py:92-101 | the loop from cleared lists yields exactly the split of the items |
| BackgroundService.AfterMessage | background/service.py:57-81 | without a "}" in the stripped buffer, the lists are untouched |
| BackgroundService.Entry | background/service.py:137-140 | `.get(key, {})` on a dict: the bound value, or {} without the key |
| BackgroundService.ExtractTextSpecs | background/service.py:130-149 | {} exactly for a falsy value; for a dict, its content, typography, colors and layout entries, each {} when missing; for any other truthy value, the four keys all set to {} |
| BackgroundService.SpecsJson | background/service.py:136-141 | the result is a dict, empty exactly for {} |
| BackgroundService.ExtractTextSpecsIdempotent | background/service.py:130-149 | extracting again from an extracted dict gives the same specification |
| BackgroundService.SpecsEntries | background/service.py:136-141 | each of the four keys of the built dict reads back as its entry |
| BackgroundService.Resolve | background/service.py:154-165 | a chain of subscripts fails only with KeyError or TypeError |
| BackgroundService.ResolveAll | background/service.py:154-165 | one value per path, or the first failure, which is KeyError or TypeError |
| BackgroundService.RenderAll | background/service.py:158-166 | each placeholder is rendered on its own: a string as itself, anything else through str() |
| BackgroundService.FormatPromptToParagraph | background/service.py:151-171 | only TypeError escapes; whenever the first failing subscript in evaluation order is a KeyError, the result is str(prompt) |
| BackgroundService.MissingSectionFallsBack | background/service.py:154-171 | a dict prompt lacking "style", "composition" or "technical" yields str(prompt) |
| BackgroundService.NonDictPromptRaises | background/service.py:154 | a prompt that is not a dict raises TypeError, which is not caught |
| BackgroundService.FilledParagraphContainsValues | background/service.py:158-168 | when every path resolves, the paragraph is produced and contains each of the fourteen placeholder values verbatim |
| BackgroundService.AssembleBanners | background/service.py:369-380 | succeeds exactly when there are enough text specifications; yields min(#images, #image prompts) entries; entry i pairs image i's images and seed with image prompt i and extracted text specification i; otherwise IndexError |
| FenceCleaning.CleanEnds | services/text_svg_generation_service.py:87 | the cleaned text has no whitespace at either end |
| FenceCleaning.CleanFenceSlice | services/text_svg_generation_service.py:87 | the cleaned text is a contiguous slice of the original content |
| FenceCleaning.CleanEndsSlice | services/text_svg_generation_service.py:87 | strip, lstrip(set), rstrip(set), strip cut a contiguous slice of the content |
| FenceCleaning.FenceIsACharacterSet | services/text_svg_generation_service.py:87 | any leading run of the characters `, j, s, o and n goes, in any order, not just the literal "```json" |
| FenceCleaning.TrailingBackticks | services/text_svg_generation_service.py:87 | any trailing run of backticks goes |
| FenceCleaning.BareNullLosesLetter | services/text_svg_generation_service.py:87-88 | a bare `null` reply loses its leading n and becomes "ull" |
| FenceCleaning.FenceUnwrapped | services/text_svg_generation_service.py:86-88 | "```json" + blank + "{…}" + blank + "```" is cleaned to exactly the object |
| FenceCleaning.Unwrapped | services/text_svg_generation_service.py:87 | an opener from the leading set, blank space, a body, blank space and a closer from the trailing set are cleaned to exactly the body |
| TextSvgService.First | services/text_svg_generation_service.py:86 | `x[0]` of a non-empty list is its first item; failures are IndexError, KeyError or TypeError |
| TextSvgService.ReplyContent | services/text_svg_generation_service.py:82-86 | a reply dict without "choices" raises ValueError before anything is read |
| TextSvgService.EmptyChoicesRaises | services/text_svg_generation_service.py:82-83 | an empty choices list raises ValueError |
| TextSvgService.FirstChoiceContent | services/text_svg_generation_service.py:86 | a well-formed reply yields the content of its first choice's message |
| TextSvgService.TextSvgProperties | services/text_svg_generation_service.py:17-19 | a missing or empty API key raises ValueError before anything else |
| TextSvgService.CleanFenceTrimmed | services/text_svg_generation_service.py:87 | what is handed to json.loads has no whitespace at either end |
| ImageGenerator.CheckFalKey | background/image_generator.py:12-15 | construction succeeds exactly when FAL_KEY is set and non-empty; otherwise ValueError |
| ImageGenerator.Arguments | background/image_generator.py:60-66 | the arguments dict has five entries |
| ImageGenerator.ArgumentsSent | background/image_generator.py:58-66 | the arguments dict binds "prompt" to the request's prompt, "image_size" to its size, "num_images" to 1, "enable_safety_checker" to True and "safety_tolerance" to "4" |
| ImageGenerator.RequestCarriesPrompt | background/image_generator.py:48-66 | call k sends the k-th submitted prompt as "prompt", with the caller's image size, and that prompt is the background of an eligible item |
| ImageGenerator.SubmittedAreEligible | background/image_generator.py:48-56 | every submitted prompt is the background of some eligible item |
| ImageGenerator.PromptItems | background/image_generator.py:38-46 | a successful read has at least one item; failures are DecodeError, AttributeError, ValueError or TypeError |
| ImageGenerator.Eligible | background/image_generator.py:51-54 | a prompt is submitted exactly when the item is a dict whose "background" is a string longer than five characters after stripping |
| ImageGenerator.KeptImage | background/image_generator.py:74-80 | a kept entry carries the submitted prompt |
| ImageGenerator.KeptImageIff | background/image_generator.py:74-80 | an answer is kept exactly when it is a dict with a truthy "images" entry; the entry then carries the prompt, those images and the seed (None when missing) |
| ImageGenerator.Submitted | background/image_generator.py:48-54 | no more prompts are submitted than there are items |
| ImageGenerator.Harvest | background/image_generator.py:48-87 | no more entries are kept than prompts were submitted |
| ImageGenerator.GenerateImagesFromPrompts | background/image_generator.py:23-96 | the loop returns the kept entries and makes exactly the requests the eligible items call for, in input order; none on a read failure; a success is never empty |
| ImageGenerator.NoPromptsIsValueError | background/image_generator.py:42-44 | a missing, empty or falsy "prompts" entry raises ValueError |
| ImageGenerator.SubmittedInOrder | background/image_generator.py:48-56 | one more item adds its prompt at the end exactly when it is eligible |
| ImageGenerator.NothingEligibleNothingSubmitted | background/image_generator.py:51-54 | with no eligible item, no request is made |
| ImageGenerator.HarvestFollowsPrompts | background/image_generator.py:48-80 | kept entry k is the kept answer to an increasing sequence of calls: output order follows input order |
| ImageGenerator.HarvestInOrder | background/image_generator.py:58-80 | the next request is call number \|prompts\|, and its kept answer goes after the earlier entries |
| ImageGenerator.FailureIsSkipped | background/image_generator.py:85-87 | a request that raises keeps nothing and the loop goes on |
| ImageGenerator.NothingKeptIsValueError | background/image_generator.py:89-90 | when every request fails, the call raises ValueError even though prompts were submitted |
| ImageGenerator.AllFailuresKeepNothing | background/image_generator.py:85-87 | requests that all raise keep nothing |
| FalArguments.BaseArguments | services/fal_service.py:50-59 | the argument dict always has exactly the eight base keys |
| FalService.ProductConfigFor | services/fal_service.py:61-64 | an unlisted product gets flux-lora without loras |
| FalService.ProductTable | services/fal_service.py:14-36 | Coca Cola, Nike and Cadbury get flux-lora without loras; MyWoodCup gets flux-lora with one lora of scale 1 |
| FalService.AlwaysFluxLora | services/fal_service.py:14-64 | every product, listed or not, is served by fal-ai/flux-lora |
| FalService.LorasOnlyForMyWoodCup | services/fal_service.py:14-64 | a product has loras exactly when its name is exactly "MyWoodCup" |
| FalService.GenerateImage | services/fal_service.py:38-78 | the POST goes to https://fal.run/ + base model; the base entries carry the caller's values with sync_mode True; "seed" is present iff a seed is given; "loras" is present iff the product has loras; the response is returned |
| FluxDev.DefaultsDifferInSafetyOnly | backend/main.py:23-34 | the two generate_image variants share every default except enable_safety_checker, which is on in one and off in the other |
| FluxDev.ModelAsWritten | src/services/fal_service.py:36-42 | as written, the model is a string exactly when loras are given |
| FluxDev.ModelFor | src/services/fal_service.py:36-42 | the intended model is flux-lora exactly with loras and flux/dev exactly without |
| FluxDev.AsWrittenDivergesWithoutLoras | src/services/fal_service.py:36 | the code as written agrees with the intended model exactly when loras are given; without them it submits the tuple ("fal-ai/flux/dev",) |
| FluxDev.DefaultCallSubmitsTuple | backend/main.py:49 | the default call (loras None) submits a tuple where a model name is intended |
| FluxDev.GenerateImage | src/services/fal_service.py:12-51 | the base entries carry the caller's values; "seed" is present iff given; "loras" is present iff truthy; the model is flux-lora exactly then; the submit result is returned. backend/main.py:23-63 builds the same dict and model choice |

## Left out

- Network calls are not modelled. This covers OpenAI chat completions, the assistant, thread and file calls in `generate_banner`, and fal's HTTP and queue APIs. They are oracles (function parameters) or left out entirely.
- `generate_text_properties` and `generate_text_overlay` (services/text_generation_service.py) are not modelled: they are network calls with a reply decode.
- `generate_image_prompt` in backend/main.py and the services in services/gpt_service.py and services/gpt_background_service.py are not modelled, for the same reason.
- PIL and cairosvg are not modelled. A banner is the list of rectangles pasted; pixels, LANCZOS resampling (only the ValueError resize raises for a side below one pixel is modelled), alpha blending, `draw.text` rendering, `save`, `convert_svg_to_png` and `overlay_images` are out.
- PIL's text bounding box is an input, and so is its colour-name parser (`knownColour`, the strings ImageColor accepts).
- TextGenerationService.DrawText: only string fills are checked; a list or number fill from the JSON is taken as it is, though PIL may reject some of them.
- Font discovery is left out (services/text_generation_service.py:55-64, services/overlay_service.py:22-29): it probes the host filesystem.
- json.loads, json.dumps, base64 and str() are left out. Decoding and str() are oracles, and the model works on decoded JSON values.
- `ImageGenerator._on_queue_update` is left out: it only prints queue logs.
- The debug file dumps (background/service.py:107-111), `output_banner.png` saves, print and logging are left out.
- An I/O error while writing the debug dumps is not modelled.
- Environment reads (FAL_KEY, OPENAI_API_KEY, dotenv) are parameters.
- `img_data['path']`, `['position']` and `['size']` in create_banner are assumed present: an overlay is a record. The KeyError a malformed overlay dict would raise is not modelled.
- The loops at background/service.py:351-366 are not modelled. They format each image prompt and call `generate_images_from_prompts` once per paragraph, so they are oracle-driven glue; their parts are modelled separately.
- `_format_background_prompt` is not modelled: it returns its argument.
- The HTTP route layers (main.py, src/main.py, backend/app.py) are not modelled: they hold no logic of their own.
- OverlayService.CalculateSize: Python floats are modelled as exact reals, and `int()` as exact truncation. Rounding in the products and quotients of lines 63-68 is not captured.
- PyStr.Lower: only the ASCII letters A-Z are lowered. No other character lowers into a keyword letter except U+212A (Kelvin sign → "k"), and "k" occurs in no keyword, so positions are unaffected.
- PyJson.Len: a dict's length counts its bindings, so dicts are assumed to have distinct keys. json.loads collapses a duplicate key to its last value, which Lookup mirrors, but Len and Iterate would count the duplicate.
- BackgroundService.PromptCollector.SplitJsonResponse: the model keeps `text_specs` equal to `text_specs_json["prompts"]` by value, through the class invariant, and `image_prompts` equal to `background_json["prompts"]` by value. Aliasing of the list object is not modelled.
- ImageGenerator.GenerateImagesFromPrompts: the fal client is an oracle indexed by call number. The `with_logs` and `on_queue_update` arguments are not modelled. The image size is a parameter; its default, "landscape_16_9", which background/service.py:363 relies on, is the constant `ImageGenerator.DefaultImageSize`.

## Findings

| source | as written | input that shows it | evidently intended | confidence | as-written member | corrected member |
|---|---|---|---|---|---|---|
| src/services/fal_service.py:36 | `modelName = "fal-ai/flux/dev",` binds the one-element tuple ("fal-ai/flux/dev",) | `generate_image(prompt)` with loras None (the default) | the string "fal-ai/flux/dev" passed to fal_client.submit | high; not executed | FluxDev.ModelAsWritten (FluxDev.AsWrittenDivergesWithoutLoras) | FluxDev.ModelFor (FluxDev.GenerateImage) |
| backend/main.py:49 | the same trailing comma makes the model name a tuple | `generate_image(prompt)` with loras None (the default), as backend/main.py:79-81 calls it | the string "fal-ai/flux/dev" | high; not executed | FluxDev.ModelAsWritten (FluxDev.DefaultCallSubmitsTuple) | FluxDev.ModelFor (FluxDev.GenerateImage) |
