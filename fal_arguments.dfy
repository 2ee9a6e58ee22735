/** The argument dict that the three fal.ai image calls build, shared by
    services/fal_service.py, src/services/fal_service.py and
    backend/main.py. The dict's keys are fixed string constants, so they are
    modelled as one constructor per key: Prompt is "prompt", ImageSize
    "image_size", NumInferenceSteps "num_inference_steps", GuidanceScale
    "guidance_scale", NumImages "num_images", EnableSafetyChecker
    "enable_safety_checker", OutputFormat "output_format", SyncMode
    "sync_mode", Seed "seed" and Loras "loras". */
module FalArguments {
  import opened PyJson

  datatype ArgKey =
    | Prompt | ImageSize | NumInferenceSteps | GuidanceScale | NumImages
    | EnableSafetyChecker | OutputFormat | SyncMode | Seed | Loras

  /** The keyword arguments every variant takes besides the prompt, seed
      and loras. */
  datatype ImageOptions = ImageOptions(
    imageSize: string,
    numInferenceSteps: int,
    guidanceScale: real,
    numImages: int,
    enableSafetyChecker: bool,
    outputFormat: string)

  /** The keys that are always present. */
  const BaseKeys: set<ArgKey> :=
    {Prompt, ImageSize, NumInferenceSteps, GuidanceScale, NumImages, EnableSafetyChecker, OutputFormat, SyncMode}

  /** The eight-entry dict literal every variant starts from. */
  function BaseArguments(prompt: string, options: ImageOptions, syncMode: bool): (m: map<ArgKey, Json>)
    ensures m.Keys == BaseKeys
  {
    map[
      Prompt := JStr(prompt),
      ImageSize := JStr(options.imageSize),
      NumInferenceSteps := JInt(options.numInferenceSteps),
      GuidanceScale := JFloat(options.guidanceScale),
      NumImages := JInt(options.numImages),
      EnableSafetyChecker := JBool(options.enableSafetyChecker),
      OutputFormat := JStr(options.outputFormat),
      SyncMode := JBool(syncMode)]
  }

  /** The base entries carry the caller's values unchanged. */
  predicate CarriesOptions(m: map<ArgKey, Json>, prompt: string, options: ImageOptions, syncMode: bool) {
    && BaseKeys <= m.Keys
    && m[Prompt] == JStr(prompt)
    && m[ImageSize] == JStr(options.imageSize)
    && m[NumInferenceSteps] == JInt(options.numInferenceSteps)
    && m[GuidanceScale] == JFloat(options.guidanceScale)
    && m[NumImages] == JInt(options.numImages)
    && m[EnableSafetyChecker] == JBool(options.enableSafetyChecker)
    && m[OutputFormat] == JStr(options.outputFormat)
    && m[SyncMode] == JBool(syncMode)
  }
}
